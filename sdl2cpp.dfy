/**
 * The wrapper's two classes and the context handle they share. Window and
 * MainLoop refer to each other (a window keeps a back-reference to the
 * loop it is registered with), so they live in one module, as they share
 * one namespace in the library.
 */
module Sdl2cpp {
  import opened Wrappers
  import opened Sdl
  import opened Exceptions
  import opened Callbacks
  import Registry
  import EventLoop
  import GlContext

  /**
   * An OpenGL context behind the shared pointer that windows store. The
   * object's identity is the sharing: two windows that hold the same
   * GLContext object hold one GPU context.
   */
  class GLContext {
    /** The non-null SDL_GLContext value SDL_GL_CreateContext returned. */
    const handle: nat

    constructor(handle: nat)
      ensures this.handle == handle
    {
      this.handle := handle;
    }
  }

  /** What the destructor releases, in order. */
  datatype Teardown =
    | ReleaseContexts(contexts: set<GLContext>)   // m_contexts.clear()
    | DestroyNativeWindow(id: WindowId)           // SDL_DestroyWindow(m_window)

  class Window {
    /** SDL_GetWindowID(m_window): fixed for the window's lifetime. */
    const id: WindowId
    /** m_window still refers to a native window. */
    var open: bool
    var contexts: map<string, GLContext>
    var eventCallbacks: map<EventType, Callback>
    var windowEventCallbacks: map<WindowEventType, Callback>
    /** The loop this window was last registered with; null until then. */
    var mainLoop: MainLoop?

    /**
     * Window(width, height) once SDL_CreateWindow has returned a window with
     * id `native`: no contexts, no event callbacks, the default close
     * callback registered for SDL_WINDOWEVENT_CLOSE, no loop yet.
     */
    constructor(native: WindowId)
      ensures id == native && open
      ensures contexts == map[] && eventCallbacks == map[]
      ensures windowEventCallbacks == map[SDL_WINDOWEVENT_CLOSE := DefaultClose]
      ensures mainLoop == null
    {
      id := native;
      open := true;
      contexts := map[];
      eventCallbacks := map[];
      windowEventCallbacks := map[];
      mainLoop := null;
      new;
      SetWindowEventCallback(SDL_WINDOWEVENT_CLOSE, Some(DefaultClose));
    }

    /**
     * The constructor with SDL_CreateWindow's result as a parameter: a null
     * window (`None`) throws WindowException with SDL's error text. Width
     * and height only travel to SDL.
     */
    static method Create(created: Option<WindowId>, sdlError: string, width: u32 := 1024, height: u32 := 768)
      returns (r: Result<Window, Exception>)
      ensures created.None? ==> r == Failure(MakeWindowException(sdlError))
      ensures created.Some? ==> && r.Success? && fresh(r.value) && r.value.id == created.value
                                && r.value.open && r.value.contexts == map[] && r.value.eventCallbacks == map[]
                                && r.value.windowEventCallbacks == map[SDL_WINDOWEVENT_CLOSE := DefaultClose]
                                && r.value.mainLoop == null
    {
      if created.None? {
        return Failure(MakeWindowException(sdlError));
      }
      var w := new Window(created.value);
      r := Success(w);
    }

    /** ~Window(): the contexts are released before the native window is destroyed. */
    method Destroy() returns (steps: seq<Teardown>)
      requires open
      modifies this`contexts, this`open
      ensures contexts == map[] && !open
      ensures steps == [ReleaseContexts(old(contexts).Values), DestroyNativeWindow(id)]
    {
      steps := [ReleaseContexts(contexts.Values)];
      contexts := map[];
      steps := steps + [DestroyNativeWindow(id)];
      open := false;
    }

    /**
     * createContext(name, version, profile, flags). `sdl` gives
     * SDL_GL_SetAttribute's status for each attribute and value, `created`
     * what SDL_GL_CreateContext returned (None for null), `err` SDL's error
     * text. `proceeds` is the setters' test of SDL's status:
     * GlContext.ProceedsAsWritten runs the source as written (its inverted
     * flags test), GlContext.Proceeds the corrected setters.
     */
    method CreateContext(sdl: (GlContext.Attribute, int) -> int, created: Option<nat>, err: string,
                         proceeds: (GlContext.Attribute, int) -> bool,
                         name: string := GlContext.DEFAULT_CONTEXT_NAME,
                         version: u32 := GlContext.DEFAULT_VERSION,
                         profile: GlContext.Profile := GlContext.DEFAULT_PROFILE,
                         flags: GlContext.Flag := GlContext.DEFAULT_FLAGS)
      returns (o: Outcome<Exception>)
      modifies this`contexts
      ensures var setup := GlContext.RunSteps(GlContext.Steps(version, profile, flags), sdl, err, proceeds);
              && (setup.Fail? ==> o == setup && contexts == old(contexts))
              && (setup.Pass? && created.None? ==> o == Fail(MakeCreateContext(err)) && contexts == old(contexts))
              && (setup.Pass? && created.Some? ==>
                    && o == Pass && name in contexts && fresh(contexts[name])
                    && contexts[name].handle == created.value
                    && contexts == old(contexts)[name := contexts[name]])
    {
      o := GlContext.RunSteps(GlContext.Steps(version, profile, flags), sdl, err, proceeds);
      if o.Fail? {
        return;
      }
      if created.None? {
        return Fail(MakeCreateContext(err));
      }
      var ctx := new GLContext(created.value);
      contexts := contexts[name := ctx];
    }

    /**
     * setContext(name, other, otherName): this window's `name` now holds the
     * very context object `other` holds under `otherName`.
     */
    method SetContext(name: string, other: Window, otherName: string)
      requires otherName in other.contexts
      modifies this`contexts
      ensures contexts == old(contexts)[name := old(other.contexts[otherName])]
      ensures GetContext(name) == other.GetContext(otherName)
    {
      contexts := contexts[name := other.contexts[otherName]];
    }

    /** getContext(name): null for a name this window has no context under, otherwise the stored context. */
    function GetContext(name: string): (r: Option<nat>)
      reads this
      ensures r.Some? <==> name in contexts
      ensures r.Some? ==> r.value == contexts[name].handle
    {
      if name in contexts then Some(contexts[name].handle) else None
    }

    /**
     * makeCurrent(name), `status` being SDL_GL_MakeCurrent's result: a
     * negative status throws a WindowFunctionException naming makeCurrent.
     */
    function MakeCurrent(name: string, status: int, err: string): (o: Outcome<Exception>)
      reads this
      requires name in contexts
      ensures o.Pass? <==> status >= 0
      ensures o.Fail? ==> o.error == MakeWindowFunctionException("makeCurrent", err)
    {
      if status < 0 then Fail(MakeWindowFunctionException("makeCurrent", err)) else Pass
    }

    /** setEventCallback(eventType, callback); the callback defaults to null, which erases the entry. */
    method SetEventCallback(eventType: EventType, callback: Option<Callback> := None)
      modifies this`eventCallbacks
      ensures eventCallbacks == Set(old(eventCallbacks), eventType, callback)
    {
      if callback.None? {
        eventCallbacks := eventCallbacks - {eventType};
        return;
      }
      eventCallbacks := eventCallbacks[eventType := callback.value];
    }

    /** setWindowEventCallback(eventType, callback); the callback defaults to null, which erases the entry. */
    method SetWindowEventCallback(eventType: WindowEventType, callback: Option<Callback> := None)
      modifies this`windowEventCallbacks
      ensures windowEventCallbacks == Set(old(windowEventCallbacks), eventType, callback)
    {
      if callback.None? {
        windowEventCallbacks := windowEventCallbacks - {eventType};
        return;
      }
      windowEventCallbacks := windowEventCallbacks[eventType := callback.value];
    }

    /**
     * hasEventCallback(type). The ensures is a bridge to the dispatch's view
     * of the window; what the answer is after each set is stated by
     * Callbacks.HasAfterSet and SetEventCallback.
     */
    predicate HasEventCallback(eventType: EventType): (b: bool)
      reads this
      ensures b <==> eventType in View().eventCallbacks
    {
      Has(eventCallbacks, eventType)
    }

    /**
     * hasWindowEventCallback(type). The ensures is a bridge to the
     * dispatch's view of the window; what the answer is after each set is
     * stated by Callbacks.HasAfterSet and SetWindowEventCallback.
     */
    predicate HasWindowEventCallback(eventType: WindowEventType): (b: bool)
      reads this
      ensures b <==> eventType in View().windowEventCallbacks
    {
      Has(windowEventCallbacks, eventType)
    }

    /** What the main loop's dispatch sees of this window. */
    function View(): EventLoop.WindowView
      reads this`eventCallbacks, this`windowEventCallbacks
    {
      EventLoop.WindowView(id, eventCallbacks, windowEventCallbacks)
    }

    /**
     * m_defaultCloseCallback: asks the loop the window is registered with to
     * remove this window's id, and reports the event handled.
     */
    method DefaultCloseCallback() returns (handled: bool)
      requires mainLoop != null && id in mainLoop.id2Name
      modifies mainLoop`name2Window, mainLoop`id2Name
      ensures handled
      ensures mainLoop.name2Window == old(mainLoop.name2Window) - {old(mainLoop.id2Name)[id]}
      ensures mainLoop.id2Name == old(mainLoop.id2Name) - {id}
      ensures old(mainLoop.Valid()) ==> mainLoop.Valid()
      ensures MainLoop.Retains(mainLoop.name2Window, old(mainLoop.name2Window))
    {
      mainLoop.RemoveWindowById(id);
      handled := true;
    }

    /** Runs callback `cb` of this window for event `e`; user callbacks answer through `reply`. */
    method Invoke(cb: Callback, e: Event, reply: (nat, Event) -> bool) returns (handled: bool)
      requires mainLoop != null
      requires cb.DefaultClose? ==> id in mainLoop.id2Name
      modifies mainLoop`name2Window, mainLoop`id2Name
      ensures handled == EventLoop.Answer(cb, e, reply)
      ensures cb.User? ==> mainLoop.name2Window == old(mainLoop.name2Window) && mainLoop.id2Name == old(mainLoop.id2Name)
      ensures cb.DefaultClose? ==> && mainLoop.name2Window == old(mainLoop.name2Window) - {old(mainLoop.id2Name)[id]}
                                   && mainLoop.id2Name == old(mainLoop.id2Name) - {id}
      ensures old(mainLoop.Valid()) ==> mainLoop.Valid()
      ensures MainLoop.Retains(mainLoop.name2Window, old(mainLoop.name2Window))
    {
      match cb
      case User(t) =>
        handled := reply(t, e);
      case DefaultClose =>
        handled := DefaultCloseCallback();
    }

    /** m_callEventCallback: runs the callback stored for `eventType`, which must exist. */
    method CallEventCallback(eventType: EventType, e: Event, reply: (nat, Event) -> bool) returns (handled: bool)
      requires mainLoop != null && eventType in eventCallbacks
      requires eventCallbacks[eventType].DefaultClose? ==> id in mainLoop.id2Name
      modifies mainLoop`name2Window, mainLoop`id2Name
      ensures handled == EventLoop.Answer(eventCallbacks[eventType], e, reply)
      ensures eventCallbacks[eventType].User? ==> mainLoop.name2Window == old(mainLoop.name2Window) && mainLoop.id2Name == old(mainLoop.id2Name)
      ensures eventCallbacks[eventType].DefaultClose? ==> && mainLoop.name2Window == old(mainLoop.name2Window) - {old(mainLoop.id2Name)[id]}
                                                          && mainLoop.id2Name == old(mainLoop.id2Name) - {id}
      ensures old(mainLoop.Valid()) ==> mainLoop.Valid()
      ensures MainLoop.Retains(mainLoop.name2Window, old(mainLoop.name2Window))
    {
      handled := Invoke(eventCallbacks[eventType], e, reply);
    }

    /** m_callWindowEventCallback: runs the callback stored for window-event subtype `eventType`, which must exist. */
    method CallWindowEventCallback(eventType: WindowEventType, e: Event, reply: (nat, Event) -> bool) returns (handled: bool)
      requires mainLoop != null && eventType in windowEventCallbacks
      requires windowEventCallbacks[eventType].DefaultClose? ==> id in mainLoop.id2Name
      modifies mainLoop`name2Window, mainLoop`id2Name
      ensures handled == EventLoop.Answer(windowEventCallbacks[eventType], e, reply)
      ensures windowEventCallbacks[eventType].User? ==> mainLoop.name2Window == old(mainLoop.name2Window) && mainLoop.id2Name == old(mainLoop.id2Name)
      ensures windowEventCallbacks[eventType].DefaultClose? ==> && mainLoop.name2Window == old(mainLoop.name2Window) - {old(mainLoop.id2Name)[id]}
                                                                && mainLoop.id2Name == old(mainLoop.id2Name) - {id}
      ensures old(mainLoop.Valid()) ==> mainLoop.Valid()
      ensures MainLoop.Retains(mainLoop.name2Window, old(mainLoop.name2Window))
    {
      handled := Invoke(windowEventCallbacks[eventType], e, reply);
    }
  }

  class MainLoop {
    /** The global event handler; None is nullptr. */
    var eventHandler: Option<nat>
    /** The idle callback; None is nullptr. */
    var idleCallback: Option<nat>
    /** true: poll and drain each iteration; false: block for one event first. */
    var pooling: bool
    var running: bool
    var name2Window: map<string, Window>
    var id2Name: map<WindowId, string>

    /** MainLoop(pooling): no handler, no idle callback, not running, no windows; polling unless told otherwise. */
    constructor(pooling: bool := true)
      ensures eventHandler == None && idleCallback == None
      ensures this.pooling == pooling && !running
      ensures name2Window == map[] && id2Name == map[]
      ensures Valid()
    {
      eventHandler := None;
      idleCallback := None;
      this.pooling := pooling;
      running := false;
      name2Window := map[];
      id2Name := map[];
    }

    /** The name -> id table the registered windows define. */
    static function IdsOf(windows: map<string, Window>): (r: map<string, WindowId>)
      ensures r.Keys == windows.Keys
      ensures forall n :: n in r ==> r[n] == windows[n].id
    {
      map n | n in windows :: windows[n].id
    }

    /**
     * The two tables are inverse and every registered window points back
     * to this loop.
     */
    ghost predicate Valid()
      reads this`name2Window, this`id2Name, name2Window.Values
    {
      && Registry.Inverse(IdsOf(name2Window), id2Name)
      && forall w <- name2Window.Values :: w.mainLoop == this
    }

    /**
     * The registry `now` only lost entries of `before`: every name still
     * registered maps to the very Window object it mapped to.
     */
    static ghost predicate Retains(now: map<string, Window>, before: map<string, Window>) {
      now.Keys <= before.Keys && forall n <- now.Keys :: now[n] == before[n]
    }

    /** The windows as the event-loop model sees them. */
    static ghost function Views(windows: map<string, Window>): (r: map<string, EventLoop.WindowView>)
      reads windows.Values
      ensures r.Keys == windows.Keys
    {
      map n | n in windows :: windows[n].View()
    }

    /** Unregistering a name drops just its view. */
    static lemma ViewsWithout(windows: map<string, Window>, name: string)
      ensures Views(windows - {name}) == Views(windows) - {name}
    {
    }

    /** The loop's registry as the event-loop model sees it. */
    ghost function State(): EventLoop.State
      reads this`name2Window, this`id2Name, name2Window.Values
    {
      EventLoop.State(Views(name2Window), id2Name)
    }

    /** The settings the loop body reads. */
    function Config(): EventLoop.Config
      reads this`pooling, this`eventHandler, this`idleCallback
    {
      EventLoop.Config(pooling, eventHandler, idleCallback)
    }

    /** A valid loop is a consistent registry in the event-loop model. */
    lemma ConsistentState()
      requires Valid()
      ensures EventLoop.Consistent(State())
    {
      assert EventLoop.IdsOf(State().windows) == IdsOf(name2Window);
    }

    /**
     * addWindow(name, window): stores the window under `name`, indexes its
     * id under `name`, and points the window back at this loop. Both
     * stores overwrite; the tables stay inverse when name and id are new.
     */
    method AddWindow(name: string, window: Window)
      modifies this`name2Window, this`id2Name, window`mainLoop
      ensures name2Window == old(name2Window)[name := window]
      ensures id2Name == old(id2Name)[window.id := name]
      ensures window.mainLoop == this
      ensures old(Valid()) && name !in old(name2Window) && window.id !in old(id2Name) ==> Valid()
    {
      ghost var wasValid := Valid();
      ghost var isNew := name !in name2Window && window.id !in id2Name;
      ghost var before := name2Window;
      name2Window := name2Window[name := window];
      id2Name := id2Name[window.id := name];
      window.mainLoop := this;
      if wasValid && isNew {
        Registry.AddFreshKeepsInverse(IdsOf(before), old(id2Name), name, window.id);
        assert IdsOf(name2Window) == IdsOf(before)[name := window.id];
        assert forall w <- before.Values :: w.mainLoop == this;
      }
    }

    /** removeWindow(id): the id must be registered; it and the name it indexes leave both tables. */
    method RemoveWindowById(id: WindowId)
      requires id in id2Name
      modifies this`name2Window, this`id2Name
      ensures name2Window == old(name2Window) - {old(id2Name)[id]}
      ensures id2Name == old(id2Name) - {id}
      ensures old(Valid()) ==> Valid()
    {
      ghost var wasValid := Valid();
      var name := id2Name[id];
      id2Name := id2Name - {id};
      name2Window := name2Window - {name};
      if wasValid {
        Registry.RemoveKeepsInverse(IdsOf(old(name2Window)), old(id2Name), id);
        assert IdsOf(name2Window) == IdsOf(old(name2Window)) - {name};
      }
    }

    /** removeWindow(name): the name must be registered; it and its window's id leave both tables. */
    method RemoveWindowByName(name: string)
      requires name in name2Window
      modifies this`name2Window, this`id2Name
      ensures id2Name == old(id2Name) - {old(name2Window)[name].id}
      ensures name2Window == old(name2Window) - {name}
      ensures old(Valid()) ==> Valid()
    {
      ghost var wasValid := Valid();
      var id := GetWindow(name).id;
      id2Name := id2Name - {id};
      name2Window := name2Window - {name};
      if wasValid {
        Registry.RemoveKeepsInverse(IdsOf(old(name2Window)), old(id2Name), id);
        assert IdsOf(name2Window) == IdsOf(old(name2Window)) - {name};
      }
    }

    /** hasWindow(name). */
    predicate HasWindow(name: string): (b: bool)
      reads this
      ensures b ==> GetNofWindows() != 0
    {
      name in name2Window
    }

    /** getWindow(name): the name must be registered. */
    function GetWindow(name: string): (w: Window)
      reads this
      requires name in name2Window
      ensures w in name2Window.Values
    {
      name2Window[name]
    }

    /** getNofWindows(): zero exactly when no window is registered, the loop's stopping test. */
    function GetNofWindows(): (n: nat)
      reads this
      ensures n == 0 <==> name2Window == map[]
    {
      |name2Window|
    }

    /** In a valid loop a name is registered exactly when the id table indexes some window under it. */
    lemma HasWindowIffIndexed(name: string)
      requires Valid()
      ensures HasWindow(name) <==> name in id2Name.Values
    {
      if HasWindow(name) {
        assert id2Name[IdsOf(name2Window)[name]] == name;
      }
    }

    /** In a valid loop the window found by name is indexed by its id under that same name. */
    lemma GetWindowIsIndexed(name: string)
      requires Valid() && HasWindow(name)
      ensures GetWindow(name).id in id2Name && id2Name[GetWindow(name).id] == name
    {
      assert IdsOf(name2Window)[name] == GetWindow(name).id;
    }

    /** In a valid loop getNofWindows counts the id table as well as the name table. */
    lemma NofWindowsCountsBothTables()
      requires Valid()
      ensures GetNofWindows() == |id2Name|
    {
      Registry.InverseSameSize(IdsOf(name2Window), id2Name);
    }

    /** setIdleCallback(callback); a null callback clears it. */
    method SetIdleCallback(callback: Option<nat>)
      modifies this`idleCallback
      ensures idleCallback == callback
      ensures HasIdleCallback() <==> callback.Some?
    {
      idleCallback := callback;
    }

    /**
     * hasIdleCallback(). The ensures is a bridge to the settings the loop
     * body reads; its answer after a set is stated by SetIdleCallback.
     */
    predicate HasIdleCallback(): (b: bool)
      reads this
      ensures b <==> Config().idle.Some?
    {
      idleCallback.Some?
    }

    /** setEventHandler(handler); a null handler clears it. */
    method SetEventHandler(handler: Option<nat>)
      modifies this`eventHandler
      ensures eventHandler == handler
      ensures HasEventHandler() <==> handler.Some?
    {
      eventHandler := handler;
    }

    /**
     * hasEventHandler(). The ensures is a bridge to the settings the
     * dispatch reads; its answer after a set is stated by SetEventHandler.
     */
    predicate HasEventHandler(): (b: bool)
      reads this
      ensures b <==> Config().handler.Some?
    {
      eventHandler.Some?
    }

    /**
     * m_callEventHandler: the handler must be set; its answer comes through
     * `reply`. The ensures is a bridge to stage 1 of EventLoop.Route, where
     * what the answer does is stated.
     */
    function CallEventHandler(e: Event, reply: (nat, Event) -> bool): (handled: bool)
      reads this
      requires eventHandler.Some?
      ensures handled <==> EventLoop.HandlerTakes(Config().handler, e, reply)
    {
      reply(eventHandler.value, e)
    }

    /**
     * Stage 2 of the dispatch for the window registered as `name`: runs its
     * callback for the event's type, which must exist.
     */
    method CallEventCallbackOf(name: string, e: Event, reply: (nat, Event) -> bool) returns (handled: bool)
      requires Valid() && name in name2Window && e.kind in name2Window[name].eventCallbacks
      modifies this`name2Window, this`id2Name
      ensures Valid()
      ensures handled == EventLoop.Answer(old(name2Window[name].eventCallbacks[e.kind]), e, reply)
      ensures State() == EventLoop.Effect(old(State()), name, old(name2Window[name].eventCallbacks[e.kind]))
      ensures Retains(name2Window, old(name2Window))
    {
      ConsistentState();
      ghost var s := State();
      var window := name2Window[name];
      ghost var cb := window.eventCallbacks[e.kind];
      assert IdsOf(name2Window)[name] == window.id;
      ViewsWithout(name2Window, name);
      handled := window.CallEventCallback(e.kind, e, reply);
    }

    /**
     * Stage 3 of the dispatch for the window registered as `name`: runs its
     * callback for the event's window-event subtype, which must exist.
     */
    method CallWindowEventCallbackOf(name: string, e: Event, reply: (nat, Event) -> bool) returns (handled: bool)
      requires Valid() && name in name2Window && e.windowEvent in name2Window[name].windowEventCallbacks
      modifies this`name2Window, this`id2Name
      ensures Valid()
      ensures handled == EventLoop.Answer(old(name2Window[name].windowEventCallbacks[e.windowEvent]), e, reply)
      ensures State() == EventLoop.Effect(old(State()), name, old(name2Window[name].windowEventCallbacks[e.windowEvent]))
      ensures Retains(name2Window, old(name2Window))
    {
      ConsistentState();
      ghost var s := State();
      var window := name2Window[name];
      ghost var cb := window.windowEventCallbacks[e.windowEvent];
      assert IdsOf(name2Window)[name] == window.id;
      ViewsWithout(name2Window, name);
      handled := window.CallWindowEventCallback(e.windowEvent, e, reply);
    }

    /**
     * The body of the inner loop for one event: the three dispatch stages,
     * exactly as EventLoop.Route describes them.
     */
    method Dispatch(e: Event, reply: (nat, Event) -> bool) returns (calls: seq<EventLoop.Call>)
      requires Valid()
      modifies this`name2Window, this`id2Name
      ensures Valid()
      ensures var r := EventLoop.Route(old(eventHandler), old(State()), e, reply);
              calls == r.calls && State() == r.state
      ensures Retains(name2Window, old(name2Window))
    {
      ConsistentState();
      calls := [];
      var handledByEventHandler := false;
      if HasEventHandler() {
        calls := [EventLoop.CallHandler(eventHandler.value)];
        handledByEventHandler := CallEventHandler(e, reply);
      }
      if !handledByEventHandler {
        calls := DispatchToWindow(calls, e, reply);
      }
    }

    /** Stages 2 and 3 of the dispatch, after calls `first` of stage 1, as EventLoop.RouteToWindow describes them. */
    method DispatchToWindow(first: seq<EventLoop.Call>, e: Event, reply: (nat, Event) -> bool) returns (calls: seq<EventLoop.Call>)
      requires Valid()
      modifies this`name2Window, this`id2Name
      ensures Valid()
      ensures var r := EventLoop.RouteToWindow(first, old(State()), e, reply);
              calls == r.calls && State() == r.state
      ensures Retains(name2Window, old(name2Window))
    {
      ConsistentState();
      ghost var s := State();
      calls := first;
      var windowIter: Option<string> := if e.windowID in id2Name then Some(id2Name[e.windowID]) else None;
      var handledByEventCallback := false;
      if windowIter.Some? {
        var window := name2Window[windowIter.value];
        if window.HasEventCallback(e.kind) {
          calls := calls + [EventLoop.CallEventCallback(windowIter.value, window.eventCallbacks[e.kind])];
          handledByEventCallback := CallEventCallbackOf(windowIter.value, e, reply);
        }
      }
      if !handledByEventCallback {
        assert State() == s;
        if e.kind == SDL_WINDOWEVENT {
          if windowIter.Some? {
            var window := name2Window[windowIter.value];
            if window.HasWindowEventCallback(e.windowEvent) {
              calls := calls + [EventLoop.CallWindowEventCallback(windowIter.value, window.windowEventCallbacks[e.windowEvent])];
              var handledByWindowEventCallback := CallWindowEventCallbackOf(windowIter.value, e, reply);
            }
          }
        }
      }
    }

    /**
     * operator()(): runs the loop over `script`, the successive results of
     * SDL_PollEvent and SDL_WaitEvent, until no window is left (Stopped),
     * a wait fails (WaitFailed, where the source throws) or the script runs
     * out (Exhausted). The iterations, the final registry and the entries
     * used are exactly those EventLoop.Outer describes.
     */
    method Run(script: seq<Poll>, reply: (nat, Event) -> bool)
      returns (outcome: EventLoop.Outcome, rounds: seq<EventLoop.Round>, consumed: nat)
      requires Valid()
      modifies this`running, this`name2Window, this`id2Name
      ensures Valid()
      ensures EventLoop.Outer(old(Config()), old(State()), script, reply) == EventLoop.Run(outcome, rounds, State(), consumed)
      ensures running <==> outcome != EventLoop.Stopped
      ensures Retains(name2Window, old(name2Window))
    {
      ghost var cfg := Config();
      ghost var whole := EventLoop.OuterFrom(cfg, State(), script, 0, [], reply);
      EventLoop.OuterFromStart(cfg, State(), script, reply);
      Start();
      rounds := [];
      consumed := 0;
      var ended: Option<EventLoop.Outcome> := None;
      while ended.None?
        invariant Valid() && Config() == cfg
        invariant Retains(name2Window, old(name2Window))
        invariant consumed <= |script|
        invariant running <==> ended != Some(EventLoop.Stopped)
        invariant ended.None? ==> whole == EventLoop.OuterFrom(cfg, State(), script, consumed, rounds, reply)
        invariant ended.Some? ==> whole == EventLoop.Run(ended.value, rounds, State(), consumed)
        decreases ended.None?, |script| - consumed
      {
        var completed;
        completed, consumed, ended := Iterate(script, consumed, reply);
        rounds := rounds + completed;
      }
      outcome := ended.value;
    }

    /** m_running = true: the only field it touches is the running flag. */
    method Start()
      requires Valid()
      modifies this`running
      ensures running && Valid()
      ensures State() == old(State()) && Config() == old(Config())
    {
      running := true;
    }

    /**
     * One iteration of the outer loop of operator()(), from script entry
     * `from` on: with no window left clear `running` and stop; otherwise in
     * blocking mode wait for an event (a failed wait throws), drain, then
     * run the idle callback. `completed` is the iteration, when it got that
     * far; `ended` is how the run ended inside it, if it did.
     */
    method Iterate(script: seq<Poll>, from: nat, reply: (nat, Event) -> bool)
      returns (completed: seq<EventLoop.Round>, consumed: nat, ended: Option<EventLoop.Outcome>)
      requires Valid() && from <= |script| && running
      modifies this`running, this`name2Window, this`id2Name
      ensures Valid()
      ensures running <==> ended != Some(EventLoop.Stopped)
      ensures EventLoop.Iteration(Config(), old(State()), script, from, reply)
                == EventLoop.Turn(completed, State(), consumed, ended)
      ensures Retains(name2Window, old(name2Window))
    {
      assert State().windows.Keys == name2Window.Keys;
      consumed := from;
      if |name2Window| == 0 {
        running := false;
        return [], consumed, Some(EventLoop.Stopped);
      }
      // SDL_Event event; every path assigns it before dispatching it
      var event := Event(0, 0, 0);
      if !pooling {
        if consumed == |script| {
          return [], consumed, Some(EventLoop.Exhausted);
        }
        if script[consumed].Nothing? {
          return [], consumed + 1, Some(EventLoop.WaitFailed);
        }
        event := script[consumed].event;
        consumed := consumed + 1;
      }
      var deliveries, exhausted;
      deliveries, consumed, exhausted := Drain(script, consumed, event, reply);
      if exhausted {
        return [EventLoop.Round(deliveries, false)], consumed, Some(EventLoop.Exhausted);
      }
      // m_callIdleCallback() when an idle callback is set
      completed := [EventLoop.Round(deliveries, HasIdleCallback())];
      ended := None;
    }

    /**
     * The inner loop of operator()(), from script entry `from` on: in
     * polling mode poll first, in blocking mode dispatch the event `event`
     * already received first; stop at the first poll that finds nothing.
     * `exhausted` says the script ran out first.
     */
    method Drain(script: seq<Poll>, from: nat, event: Event, reply: (nat, Event) -> bool)
      returns (deliveries: seq<EventLoop.Delivery>, consumed: nat, exhausted: bool)
      requires Valid() && from <= |script|
      modifies this`name2Window, this`id2Name
      ensures Valid()
      ensures EventLoop.DrainFrom(Config(), old(State()), [], if pooling then None else Some(event), script, from, reply)
                == EventLoop.Drained(deliveries, State(), consumed, exhausted)
      ensures Retains(name2Window, old(name2Window))
    {
      ghost var cfg := Config();
      ghost var target := EventLoop.DrainFrom(cfg, State(), [], if pooling then None else Some(event), script, from, reply);
      var current := event;
      deliveries := [];
      consumed := from;
      while true
        invariant Valid() && Config() == cfg
        invariant Retains(name2Window, old(name2Window))
        invariant from <= consumed <= |script|
        invariant target == EventLoop.DrainFrom(cfg, State(), deliveries, if pooling then None else Some(current), script, consumed, reply)
        decreases |script| - consumed
      {
        if pooling {
          if consumed == |script| {
            return deliveries, consumed, true;
          }
          if script[consumed].Nothing? {
            return deliveries, consumed + 1, false;
          }
          current := script[consumed].event;
          consumed := consumed + 1;
        }
        var calls := Dispatch(current, reply);
        deliveries := deliveries + [EventLoop.Delivery(current, calls)];
        if !pooling {
          if consumed == |script| {
            return deliveries, consumed, true;
          }
          if script[consumed].Nothing? {
            return deliveries, consumed + 1, false;
          }
          current := script[consumed].event;
          consumed := consumed + 1;
        }
      }
    }
  }
}
