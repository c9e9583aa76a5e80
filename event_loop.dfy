/**
 * The main loop's behaviour on values: the registry the loop keeps, the
 * three dispatch stages an event goes through, and the loop itself run
 * over a finite script of what SDL's event calls return. The classes in
 * module Sdl2cpp are proved to do exactly what these functions say.
 */
module EventLoop {
  import opened Wrappers
  import opened Sdl
  import opened Callbacks
  import Registry

  /** What the loop can see of a registered window: its id and its two callback tables. */
  datatype WindowView = WindowView(id: WindowId, eventCallbacks: map<EventType, Callback>,
                                   windowEventCallbacks: map<WindowEventType, Callback>)

  /** The loop's two indexes: name -> window and window id -> name. */
  datatype State = State(windows: map<string, WindowView>, ids: map<WindowId, string>)

  /** The name -> id table the windows define. */
  function IdsOf(windows: map<string, WindowView>): (r: map<string, WindowId>)
    ensures r.Keys == windows.Keys
    ensures forall n :: n in r ==> r[n] == windows[n].id
  {
    map n | n in windows :: windows[n].id
  }

  /** The two indexes are mutual inverses. */
  ghost predicate Consistent(s: State) {
    Registry.Inverse(IdsOf(s.windows), s.ids)
  }

  /** removeWindow(id): the id and the name it indexes leave both tables. */
  function RemoveById(s: State, id: WindowId): (r: State)
    requires id in s.ids
    ensures id !in r.ids && s.ids[id] !in r.windows
    ensures r.ids.Keys == s.ids.Keys - {id} && r.windows.Keys == s.windows.Keys - {s.ids[id]}
    ensures forall n :: n in r.windows ==> r.windows[n] == s.windows[n]
    ensures forall i :: i in r.ids ==> r.ids[i] == s.ids[i]
  {
    State(s.windows - {s.ids[id]}, s.ids - {id})
  }

  /** Removing by id keeps the registry consistent, and neither the id nor its window is left. */
  lemma RemoveByIdKeepsConsistent(s: State, id: WindowId)
    requires Consistent(s) && id in s.ids
    ensures var r := RemoveById(s, id);
            && Consistent(r)
            && id !in r.ids && s.ids[id] !in r.windows
            && s.windows[s.ids[id]].id == id
            && r.windows.Keys == s.windows.Keys - {s.ids[id]}
  {
    Registry.RemoveKeepsInverse(IdsOf(s.windows), s.ids, id);
    assert IdsOf(s.windows - {s.ids[id]}) == IdsOf(s.windows) - {s.ids[id]};
  }

  /** A callback that the dispatch ran, and for whom. */
  datatype Call =
    | CallHandler(tag: nat)                                   // the loop's global event handler
    | CallEventCallback(window: string, callback: Callback)   // a window's per-type callback
    | CallWindowEventCallback(window: string, callback: Callback) // a window's window-event callback

  /** The answer a callback gives: user callbacks answer through `reply`; the default close callback always handles the event. */
  function Answer(cb: Callback, e: Event, reply: (nat, Event) -> bool): (handled: bool)
    ensures !handled ==> cb.User?
  {
    match cb
    case User(t) => reply(t, e)
    case DefaultClose => true
  }

  /** The effect a callback of window `owner` has on the registry: the default close callback removes its own window. */
  function Effect(s: State, owner: string, cb: Callback): (r: State)
    requires owner in s.windows
    ensures cb.User? ==> r == s
    ensures cb.DefaultClose? ==> owner !in r.windows && r.windows.Keys == s.windows.Keys - {owner}
  {
    if cb.DefaultClose? then State(s.windows - {owner}, s.ids - {s.windows[owner].id}) else s
  }

  /** Whatever callback runs, every window left keeps its entry. */
  lemma EffectKeepsOthers(s: State, owner: string, cb: Callback)
    requires owner in s.windows
    ensures var r := Effect(s, owner, cb);
            forall n :: n in r.windows ==> r.windows[n] == s.windows[n]
  {
  }

  /**
   * In a consistent registry the default close callback is removeWindow
   * of its own window's id, and the registry stays consistent; a user
   * callback leaves the registry alone.
   */
  lemma EffectIsRemoval(s: State, owner: string, cb: Callback)
    requires Consistent(s) && owner in s.windows
    ensures s.windows[owner].id in s.ids
    ensures cb.DefaultClose? ==> Effect(s, owner, cb) == RemoveById(s, s.windows[owner].id)
    ensures cb.User? ==> Effect(s, owner, cb) == s
    ensures Consistent(Effect(s, owner, cb))
  {
    var id := s.windows[owner].id;
    assert IdsOf(s.windows)[owner] == id;
    RemoveByIdKeepsConsistent(s, id);
  }

  /** The global handler is installed and handles `e`. */
  predicate HandlerTakes(handler: Option<nat>, e: Event, reply: (nat, Event) -> bool) {
    handler.Some? && reply(handler.value, e)
  }

  /** The destination window has a per-type callback for `e` and that callback handles it. */
  predicate EventCallbackTakes(s: State, e: Event, reply: (nat, Event) -> bool) {
    && e.windowID in s.ids && s.ids[e.windowID] in s.windows
    && var view := s.windows[s.ids[e.windowID]];
    && e.kind in view.eventCallbacks
    && Answer(view.eventCallbacks[e.kind], e, reply)
  }

  /** The result of dispatching one event: the callbacks run, in order, and the registry afterwards. */
  datatype Routed = Routed(calls: seq<Call>, state: State)

  /**
   * One pass of the loop body for event `e`. Stage 1: the global handler,
   * if installed. Stage 2: the per-type callback of the window whose id is
   * `e.windowID`, looked up once. Stage 3, for SDL_WINDOWEVENT only: that
   * window's callback for the window-event subtype. The first stage that
   * handles the event ends it; the answer of stage 3 is not used.
   */
  function Route(handler: Option<nat>, s: State, e: Event, reply: (nat, Event) -> bool): (r: Routed)
    ensures |r.calls| <= 3
    ensures r.state.windows.Keys <= s.windows.Keys
    ensures handler.Some? <==> |r.calls| > 0 && r.calls[0].CallHandler?
  {
    var first := if handler.Some? then [CallHandler(handler.value)] else [];
    if HandlerTakes(handler, e, reply) then Routed(first, s)
    else RouteToWindow(first, s, e, reply)
  }

  /**
   * Dispatching one event keeps the registry consistent, and changes it
   * only by the default close callback removing the destination window.
   */
  lemma RouteKeepsRegistry(handler: Option<nat>, s: State, e: Event, reply: (nat, Event) -> bool)
    requires Consistent(s)
    ensures var r := Route(handler, s, e, reply);
            && Consistent(r.state)
            && r.state.windows.Keys <= s.windows.Keys
            && (r.state != s ==> e.windowID in s.ids && r.state == RemoveById(s, e.windowID))
  {
    if !HandlerTakes(handler, e, reply) && e.windowID in s.ids && s.ids[e.windowID] in s.windows {
      var name := s.ids[e.windowID];
      assert s.windows[name].id == e.windowID by {
        assert IdsOf(s.windows)[name] == s.windows[name].id;
      }
      EffectIsRemoval(s, name, DefaultClose);
    }
  }

  /**
   * The global handler, when installed, runs first and sees every event;
   * when it handles the event no window callback runs.
   */
  lemma RouteHandlerStage(handler: Option<nat>, s: State, e: Event, reply: (nat, Event) -> bool)
    ensures var r := Route(handler, s, e, reply);
            && (handler.Some? ==> |r.calls| > 0 && r.calls[0] == CallHandler(handler.value))
            && (handler.None? ==> forall c <- r.calls :: !c.CallHandler?)
            && (forall i :: 0 < i < |r.calls| ==> !r.calls[i].CallHandler?)
            && (HandlerTakes(handler, e, reply) ==> r.calls == [CallHandler(handler.value)] && r.state == s)
  {
  }

  /**
   * Window callbacks run only for the window the event's id names; an
   * event for no registered window runs none and changes nothing.
   */
  lemma RouteWindowStage(handler: Option<nat>, s: State, e: Event, reply: (nat, Event) -> bool)
    ensures var r := Route(handler, s, e, reply);
            && (forall c <- r.calls :: !c.CallHandler? ==> e.windowID in s.ids && c.window == s.ids[e.windowID])
            && (e.windowID !in s.ids ==> (forall c <- r.calls :: c.CallHandler?) && r.state == s)
  {
  }

  /**
   * The window-event callback is tried exactly when the event is an
   * SDL_WINDOWEVENT for a registered window that has a callback for its
   * subtype, and neither earlier stage handled it; it is then the last call.
   */
  lemma RouteWindowEventStage(handler: Option<nat>, s: State, e: Event, reply: (nat, Event) -> bool)
    requires Consistent(s)
    ensures var r := Route(handler, s, e, reply);
            && ((exists c <- r.calls :: c.CallWindowEventCallback?) ==>
                  && e.kind == SDL_WINDOWEVENT
                  && e.windowID in s.ids
                  && !HandlerTakes(handler, e, reply)
                  && !EventCallbackTakes(s, e, reply))
            && (&& e.kind == SDL_WINDOWEVENT && e.windowID in s.ids
                && !HandlerTakes(handler, e, reply) && !EventCallbackTakes(s, e, reply)
                && e.windowEvent in s.windows[s.ids[e.windowID]].windowEventCallbacks
                ==> && |r.calls| > 0
                    && r.calls[|r.calls| - 1] == CallWindowEventCallback(s.ids[e.windowID], s.windows[s.ids[e.windowID]].windowEventCallbacks[e.windowEvent]))
  {
  }

  /**
   * Stages 2 and 3 of Route, for an event the handler stage did not
   * handle; `first` holds the calls stage 1 made.
   */
  function RouteToWindow(first: seq<Call>, s: State, e: Event, reply: (nat, Event) -> bool): (r: Routed)
    ensures |first| <= |r.calls| <= |first| + 2 && r.calls[..|first|] == first
    ensures forall i :: |first| <= i < |r.calls| ==> !r.calls[i].CallHandler?
    ensures r.state.windows.Keys <= s.windows.Keys
  {
    // The second test never holds in a consistent registry. There the
    // source inserts a null window at MainLoop.cpp:112 and dereferences it
    // at line 113; the model treats the id as unknown.
    if e.windowID !in s.ids || s.ids[e.windowID] !in s.windows then Routed(first, s)
    else
      var name := s.ids[e.windowID];
      var view := s.windows[name];
      if e.kind in view.eventCallbacks && Answer(view.eventCallbacks[e.kind], e, reply) then
        var cb := view.eventCallbacks[e.kind];
        Routed(first + [CallEventCallback(name, cb)], Effect(s, name, cb))
      else
        var second := if e.kind in view.eventCallbacks then first + [CallEventCallback(name, view.eventCallbacks[e.kind])] else first;
        if e.kind == SDL_WINDOWEVENT && e.windowEvent in view.windowEventCallbacks then
          var cb := view.windowEventCallbacks[e.windowEvent];
          Routed(second + [CallWindowEventCallback(name, cb)], Effect(s, name, cb))
        else
          Routed(second, s)
  }

  /** The loop's settings that the loop body reads but does not change. */
  datatype Config = Config(pooling: bool, handler: Option<nat>, idle: Option<nat>)

  /** One event taken from SDL and the callbacks it ran. */
  datatype Delivery = Delivery(event: Event, calls: seq<Call>)

  /** One iteration of the outer loop: the events the inner loop drained, and whether the idle callback ran after them. */
  datatype Round = Round(deliveries: seq<Delivery>, idle: bool)

  /**
   * How a run over a script ends. Stopped: the loop found no window left
   * and cleared its running flag. WaitFailed: SDL_WaitEvent failed and the
   * loop threw. Exhausted: the script ran out while the loop still wanted
   * events; the real loop would go on polling or waiting.
   */
  datatype Outcome = Stopped | WaitFailed | Exhausted

  /** A run: how it ended, its iterations, the registry at the end and how many script entries it used. */
  datatype Run = Run(outcome: Outcome, rounds: seq<Round>, final: State, consumed: nat)

  /** `r`, one script entry later. */
  function Later(r: Run): Run {
    r.(consumed := r.consumed + 1)
  }

  /** `r` preceded by a completed iteration `round` whose ending poll used one script entry. */
  function After(round: Round, r: Run): Run {
    r.(rounds := [round] + r.rounds, consumed := r.consumed + 1)
  }

  /**
   * What any run guarantees: the registry stays consistent and only loses
   * windows, and a run that stops has no window left.
   */
  ghost predicate WellShaped(s: State, script: seq<Poll>, r: Run) {
    && Consistent(r.final)
    && r.final.windows.Keys <= s.windows.Keys
    && (r.outcome == Stopped ==> r.final.windows == map[])
  }

  lemma {:induction false} OuterShape(cfg: Config, s: State, script: seq<Poll>, reply: (nat, Event) -> bool)
    requires Consistent(s)
    ensures WellShaped(s, script, Outer(cfg, s, script, reply))
    decreases |script|, 1
  {
    if |s.windows| == 0 {
      assert s.windows == map[];
    } else if cfg.pooling {
      DrainPollShape(cfg, s, [], script, reply);
    } else if script != [] && script[0].Pending? {
      DrainBlockShape(cfg, s, [], script[0].event, script[1..], reply);
    }
  }

  lemma {:induction false} DrainPollShape(cfg: Config, s: State, acc: seq<Delivery>, script: seq<Poll>, reply: (nat, Event) -> bool)
    requires Consistent(s)
    ensures WellShaped(s, script, DrainPoll(cfg, s, acc, script, reply))
    decreases |script|, 0
  {
    if script != [] {
      match script[0]
      case Nothing =>
        OuterShape(cfg, s, script[1..], reply);
      case Pending(e) =>
        var d := Route(cfg.handler, s, e, reply);
        RouteKeepsRegistry(cfg.handler, s, e, reply);
        DrainPollShape(cfg, d.state, acc + [Delivery(e, d.calls)], script[1..], reply);
    }
  }

  lemma {:induction false} DrainBlockShape(cfg: Config, s: State, acc: seq<Delivery>, e: Event, script: seq<Poll>, reply: (nat, Event) -> bool)
    requires Consistent(s)
    ensures WellShaped(s, script, DrainBlock(cfg, s, acc, e, script, reply))
    decreases |script|, 0
  {
    var d := Route(cfg.handler, s, e, reply);
    RouteKeepsRegistry(cfg.handler, s, e, reply);
    if script != [] {
      match script[0]
      case Nothing =>
        OuterShape(cfg, d.state, script[1..], reply);
      case Pending(e2) =>
        DrainBlockShape(cfg, d.state, acc + [Delivery(e, d.calls)], e2, script[1..], reply);
    }
  }

  /** `r` preceded by the iterations `done` and by `k` script entries already used. */
  function Resume(done: seq<Round>, k: nat, r: Run): Run {
    r.(rounds := done + r.rounds, consumed := k + r.consumed)
  }

  lemma ResumeStart(r: Run)
    ensures Resume([], 0, r) == r
  {
    assert [] + r.rounds == r.rounds;
  }

  lemma ResumeAfter(done: seq<Round>, k: nat, round: Round, r: Run)
    ensures Resume(done, k, After(round, r)) == Resume(done + [round], k + 1, r)
  {
    assert done + ([round] + r.rounds) == (done + [round]) + r.rounds;
  }

  /**
   * The top of the outer loop: stop when no window is registered; else in
   * polling mode start draining, in blocking mode wait for one event first.
   */
  function Outer(cfg: Config, s: State, script: seq<Poll>, reply: (nat, Event) -> bool): (r: Run)
    ensures r.consumed <= |script|
    decreases |script|, 1
  {
    if |s.windows| == 0 then Run(Stopped, [], s, 0)
    else if cfg.pooling then DrainPoll(cfg, s, [], script, reply)
    else if script == [] then Run(Exhausted, [], s, 0)
    else match script[0]
      case Nothing => Run(WaitFailed, [], s, 1)
      case Pending(e) => Later(DrainBlock(cfg, s, [], e, script[1..], reply))
  }

  /**
   * The inner loop in polling mode, `acc` being what it has delivered so
   * far in this iteration: poll, stop draining when nothing is pending,
   * otherwise dispatch and poll again.
   */
  function DrainPoll(cfg: Config, s: State, acc: seq<Delivery>, script: seq<Poll>, reply: (nat, Event) -> bool): (r: Run)
    ensures r.consumed <= |script|
    decreases |script|, 0
  {
    if script == [] then Run(Exhausted, [Round(acc, false)], s, 0)
    else match script[0]
      case Nothing => After(Round(acc, cfg.idle.Some?), Outer(cfg, s, script[1..], reply))
      case Pending(e) =>
        var d := Route(cfg.handler, s, e, reply);
        Later(DrainPoll(cfg, d.state, acc + [Delivery(e, d.calls)], script[1..], reply))
  }

  /**
   * The inner loop in blocking mode, holding event `e` already received:
   * dispatch it, then poll; stop draining when nothing is pending.
   */
  function DrainBlock(cfg: Config, s: State, acc: seq<Delivery>, e: Event, script: seq<Poll>, reply: (nat, Event) -> bool): (r: Run)
    ensures r.consumed <= |script|
    decreases |script|, 0
  {
    var d := Route(cfg.handler, s, e, reply);
    var acc' := acc + [Delivery(e, d.calls)];
    if script == [] then Run(Exhausted, [Round(acc', false)], d.state, 0)
    else match script[0]
      case Nothing => After(Round(acc', cfg.idle.Some?), Outer(cfg, d.state, script[1..], reply))
      case Pending(e2) => Later(DrainBlock(cfg, d.state, acc', e2, script[1..], reply))
  }

  /**
   * Once its first event is dispatched, the blocking inner loop goes on
   * exactly as the polling one: both poll after each dispatch and stop at
   * the first poll that finds nothing.
   */
  lemma {:induction false} BlockIsPollAfterDispatch(cfg: Config, s: State, acc: seq<Delivery>, e: Event, script: seq<Poll>, reply: (nat, Event) -> bool)
    ensures var d := Route(cfg.handler, s, e, reply);
            DrainBlock(cfg, s, acc, e, script, reply) == DrainPoll(cfg, d.state, acc + [Delivery(e, d.calls)], script, reply)
    decreases |script|
  {
    var d := Route(cfg.handler, s, e, reply);
    if script != [] && script[0].Pending? {
      BlockIsPollAfterDispatch(cfg, d.state, acc + [Delivery(e, d.calls)], script[0].event, script[1..], reply);
    }
  }

  // ---------------------------------------------------------------------
  // The same loop position by position: the form the imperative loop in
  // module Sdl2cpp follows, with the script position absolute and the
  // iterations already completed carried along.

  /** Where the inner loop stops: what it delivered, the registry, the entries used up to, and whether the script ran out first. */
  datatype Drained = Drained(deliveries: seq<Delivery>, state: State, consumed: nat, exhausted: bool)

  /**
   * The inner loop from script position `k`, `acc` being delivered already.
   * With an event in hand (`held`) it dispatches that event first; without
   * one it polls: a poll that finds nothing ends the iteration, one that
   * returns an event puts that event in hand.
   */
  function DrainFrom(cfg: Config, s: State, acc: seq<Delivery>, held: Option<Event>, script: seq<Poll>, k: nat,
                     reply: (nat, Event) -> bool): (d: Drained)
    requires k <= |script|
    ensures k <= d.consumed <= |script|
    ensures !d.exhausted ==> k < d.consumed
    decreases |script| - k, held.Some?
  {
    match held
    case Some(e) =>
      var r := Route(cfg.handler, s, e, reply);
      DrainFrom(cfg, r.state, acc + [Delivery(e, r.calls)], None, script, k, reply)
    case None =>
      if k == |script| then Drained(acc, s, k, true)
      else match script[k]
        case Nothing => Drained(acc, s, k + 1, false)
        case Pending(e) => DrainFrom(cfg, s, acc, Some(e), script, k + 1, reply)
  }

  /** One iteration of the outer loop: the iterations it completed (none or one), the registry after it, the entries used up to, and how the run ended inside it, if it did. */
  datatype Turn = Turn(rounds: seq<Round>, state: State, consumed: nat, ended: Option<Outcome>)

  /** One iteration of the outer loop from script position `k`. */
  function Iteration(cfg: Config, s: State, script: seq<Poll>, k: nat, reply: (nat, Event) -> bool): (t: Turn)
    requires k <= |script|
    ensures k <= t.consumed <= |script|
    ensures t.ended.None? ==> k < t.consumed
  {
    if |s.windows| == 0 then Turn([], s, k, Some(Stopped))
    else if !cfg.pooling && k == |script| then Turn([], s, k, Some(Exhausted))
    else if !cfg.pooling && script[k].Nothing? then Turn([], s, k + 1, Some(WaitFailed))
    else
      var d := if cfg.pooling then DrainFrom(cfg, s, [], None, script, k, reply)
               else DrainFrom(cfg, s, [], Some(script[k].event), script, k + 1, reply);
      if d.exhausted then Turn([Round(d.deliveries, false)], d.state, d.consumed, Some(Exhausted))
      else Turn([Round(d.deliveries, cfg.idle.Some?)], d.state, d.consumed, None)
  }

  /** The outer loop from script position `k`, the iterations `done` completed already. */
  function OuterFrom(cfg: Config, s: State, script: seq<Poll>, k: nat, done: seq<Round>, reply: (nat, Event) -> bool): (r: Run)
    requires k <= |script|
    decreases |script| - k
  {
    var t := Iteration(cfg, s, script, k, reply);
    if t.ended.Some? then Run(t.ended.value, done + t.rounds, t.state, t.consumed)
    else OuterFrom(cfg, t.state, script, t.consumed, done + t.rounds, reply)
  }

  lemma ResumeResume(done: seq<Round>, k: nat, more: seq<Round>, j: nat, r: Run)
    ensures Resume(done, k, Resume(more, j, r)) == Resume(done + more, k + j, r)
  {
    assert done + (more + r.rounds) == (done + more) + r.rounds;
  }

  /** Polling from position `k` is the polling inner loop over the rest of the script, and ends its iteration where DrainFrom stops. */
  lemma {:induction false} DrainFromIsDrainPoll(cfg: Config, s: State, acc: seq<Delivery>, script: seq<Poll>, k: nat, reply: (nat, Event) -> bool)
    requires k <= |script|
    ensures var d := DrainFrom(cfg, s, acc, None, script, k, reply);
            && (d.exhausted ==>
                  DrainPoll(cfg, s, acc, script[k..], reply) == Run(Exhausted, [Round(d.deliveries, false)], d.state, d.consumed - k))
            && (!d.exhausted ==>
                  DrainPoll(cfg, s, acc, script[k..], reply)
                    == Resume([Round(d.deliveries, cfg.idle.Some?)], d.consumed - k, Outer(cfg, d.state, script[d.consumed..], reply)))
    decreases |script| - k
  {
    if k < |script| {
      assert script[k..][0] == script[k] && script[k..][1..] == script[k + 1..];
      if script[k].Pending? {
        var r := Route(cfg.handler, s, script[k].event, reply);
        DrainFromIsDrainPoll(cfg, r.state, acc + [Delivery(script[k].event, r.calls)], script, k + 1, reply);
        assert DrainFrom(cfg, s, acc, None, script, k, reply) == DrainFrom(cfg, s, acc, Some(script[k].event), script, k + 1, reply);
      }
    }
  }

  /**
   * One iteration from position `k` is the first step of the nested-loop
   * outer loop over the rest of the script: either where that loop ends,
   * or one completed iteration followed by the loop from where it stopped.
   */
  lemma IterationIsOuterStep(cfg: Config, s: State, script: seq<Poll>, k: nat, reply: (nat, Event) -> bool)
    requires k <= |script|
    ensures var t := Iteration(cfg, s, script, k, reply);
            && (t.ended.Some? ==> Outer(cfg, s, script[k..], reply) == Run(t.ended.value, t.rounds, t.state, t.consumed - k))
            && (t.ended.None? ==> Outer(cfg, s, script[k..], reply)
                                    == Resume(t.rounds, t.consumed - k, Outer(cfg, t.state, script[t.consumed..], reply)))
  {
    if |s.windows| == 0 {
    } else if !cfg.pooling && k == |script| {
      assert script[k..] == [];
    } else if !cfg.pooling && script[k].Nothing? {
      assert script[k..][0] == script[k];
    } else if cfg.pooling {
      DrainFromIsDrainPoll(cfg, s, [], script, k, reply);
      assert Outer(cfg, s, script[k..], reply) == DrainPoll(cfg, s, [], script[k..], reply);
    } else {
      BlockingIterationIsOuterStep(cfg, s, script, k, reply);
    }
  }

  /** IterationIsOuterStep for the blocking loop, whose iteration starts with an event SDL_WaitEvent returned. */
  lemma BlockingIterationIsOuterStep(cfg: Config, s: State, script: seq<Poll>, k: nat, reply: (nat, Event) -> bool)
    requires k < |script| && !cfg.pooling && script[k].Pending? && |s.windows| != 0
    ensures var d := DrainFrom(cfg, s, [], Some(script[k].event), script, k + 1, reply);
            && (d.exhausted ==> Outer(cfg, s, script[k..], reply) == Run(Exhausted, [Round(d.deliveries, false)], d.state, d.consumed - k))
            && (!d.exhausted ==> Outer(cfg, s, script[k..], reply)
                                   == Resume([Round(d.deliveries, cfg.idle.Some?)], d.consumed - k, Outer(cfg, d.state, script[d.consumed..], reply)))
  {
    var e := script[k].event;
    var r := Route(cfg.handler, s, e, reply);
    assert script[k..][0] == script[k] && script[k..][1..] == script[k + 1..];
    assert Outer(cfg, s, script[k..], reply) == Later(DrainBlock(cfg, s, [], e, script[k + 1..], reply));
    BlockIsPollAfterDispatch(cfg, s, [], e, script[k + 1..], reply);
    DrainFromIsDrainPoll(cfg, r.state, [] + [Delivery(e, r.calls)], script, k + 1, reply);
  }

  /** The position-by-position outer loop is the nested-loop one resumed at position `k` after the iterations `done`. */
  lemma {:induction false} OuterFromIsOuter(cfg: Config, s: State, script: seq<Poll>, k: nat, done: seq<Round>, reply: (nat, Event) -> bool)
    requires k <= |script|
    ensures OuterFrom(cfg, s, script, k, done, reply) == Resume(done, k, Outer(cfg, s, script[k..], reply))
    decreases |script| - k
  {
    var t := Iteration(cfg, s, script, k, reply);
    IterationIsOuterStep(cfg, s, script, k, reply);
    if t.ended.None? {
      OuterFromIsOuter(cfg, t.state, script, t.consumed, done + t.rounds, reply);
      ResumeResume(done, k, t.rounds, t.consumed - k, Outer(cfg, t.state, script[t.consumed..], reply));
    }
  }

  /** From the start, the position-by-position outer loop is the nested-loop one. */
  lemma OuterFromStart(cfg: Config, s: State, script: seq<Poll>, reply: (nat, Event) -> bool)
    ensures OuterFrom(cfg, s, script, 0, [], reply) == Outer(cfg, s, script, reply)
  {
    OuterFromIsOuter(cfg, s, script, 0, [], reply);
    assert script[0..] == script;
    ResumeStart(Outer(cfg, s, script, reply));
  }

  // ---------------------------------------------------------------------
  // Properties of whole runs

  /** The events in the entries that returned an event, in order. */
  function Arrivals(script: seq<Poll>): seq<Event> {
    if script == [] then []
    else (if script[0].Pending? then [script[0].event] else []) + Arrivals(script[1..])
  }

  /** The events delivered, in order. */
  function Delivered(ds: seq<Delivery>): (es: seq<Event>)
    ensures |es| == |ds| && forall i :: 0 <= i < |ds| ==> es[i] == ds[i].event
  {
    seq(|ds|, i requires 0 <= i < |ds| => ds[i].event)
  }

  /** The events delivered over all iterations, in order. */
  function DeliveredInRounds(rounds: seq<Round>): seq<Event> {
    if rounds == [] then [] else Delivered(rounds[0].deliveries) + DeliveredInRounds(rounds[1..])
  }

  /** Taking one more entry of the script adds its event, if any, to the arrivals. */
  lemma ArrivalsOfPrefix(script: seq<Poll>, n: nat)
    requires 0 < |script| && n < |script|
    ensures Arrivals(script[..n + 1]) == (if script[0].Pending? then [script[0].event] else []) + Arrivals(script[1..][..n])
  {
    assert script[..n + 1][1..] == script[1..][..n];
  }

  /**
   * Every event SDL hands the loop is dispatched exactly once and in the
   * order SDL produced it: the events delivered during a run are the events
   * of the script entries it used.
   */
  lemma {:induction false} OuterDeliversArrivals(cfg: Config, s: State, script: seq<Poll>, reply: (nat, Event) -> bool)
    ensures var r := Outer(cfg, s, script, reply);
            DeliveredInRounds(r.rounds) == Arrivals(script[..r.consumed])
    decreases |script|, 1
  {
    var r := Outer(cfg, s, script, reply);
    if |s.windows| == 0 {
    } else if cfg.pooling {
      DrainPollDeliversArrivals(cfg, s, [], script, reply);
    } else if script == [] {
    } else {
      match script[0]
      case Nothing =>
        assert script[..1] == [Nothing];
        assert Arrivals([Nothing]) == [] + Arrivals([]);
      case Pending(e) =>
        DrainBlockDeliversArrivals(cfg, s, [], e, script[1..], reply);
        ArrivalsOfPrefix(script, r.consumed - 1);
    }
  }

  lemma {:induction false} DrainPollDeliversArrivals(cfg: Config, s: State, acc: seq<Delivery>, script: seq<Poll>, reply: (nat, Event) -> bool)
    ensures var r := DrainPoll(cfg, s, acc, script, reply);
            DeliveredInRounds(r.rounds) == Delivered(acc) + Arrivals(script[..r.consumed])
    decreases |script|, 0
  {
    var r := DrainPoll(cfg, s, acc, script, reply);
    if script == [] {
      DeliveredInRoundsCons(Round(acc, false), []);
    } else {
      match script[0]
      case Nothing =>
        OuterDeliversArrivals(cfg, s, script[1..], reply);
        DeliveredAfterIdlePoll(script, acc, cfg.idle.Some?, Outer(cfg, s, script[1..], reply));
      case Pending(e) =>
        var d := Route(cfg.handler, s, e, reply);
        DrainPollDeliversArrivals(cfg, d.state, acc + [Delivery(e, d.calls)], script[1..], reply);
        DeliveredAfterEventPoll(script, acc, d.calls, DrainPoll(cfg, d.state, acc + [Delivery(e, d.calls)], script[1..], reply));
    }
  }

  /** A poll that found nothing closes the round `acc` and adds no arrival. */
  lemma DeliveredAfterIdlePoll(script: seq<Poll>, acc: seq<Delivery>, idle: bool, rest: Run)
    requires script != [] && script[0].Nothing? && rest.consumed < |script|
    requires DeliveredInRounds(rest.rounds) == Arrivals(script[1..][..rest.consumed])
    ensures DeliveredInRounds(After(Round(acc, idle), rest).rounds) == Delivered(acc) + Arrivals(script[..After(Round(acc, idle), rest).consumed])
  {
    DeliveredAfterRound(Round(acc, idle), rest);
    ArrivalsOfPrefix(script, rest.consumed);
  }

  /** A poll that returned event `e` adds `e` to the round in progress and to the arrivals. */
  lemma DeliveredAfterEventPoll(script: seq<Poll>, acc: seq<Delivery>, calls: seq<Call>, rest: Run)
    requires script != [] && script[0].Pending? && rest.consumed < |script|
    requires DeliveredInRounds(rest.rounds) == Delivered(acc + [Delivery(script[0].event, calls)]) + Arrivals(script[1..][..rest.consumed])
    ensures DeliveredInRounds(Later(rest).rounds) == Delivered(acc) + Arrivals(script[..Later(rest).consumed])
  {
    assert Delivered(acc + [Delivery(script[0].event, calls)]) == Delivered(acc) + [script[0].event];
    ArrivalsOfPrefix(script, rest.consumed);
  }

  /** Delivered events of a round list with one more round in front. */
  lemma DeliveredInRoundsCons(rd: Round, rs: seq<Round>)
    ensures DeliveredInRounds([rd] + rs) == Delivered(rd.deliveries) + DeliveredInRounds(rs)
  {
    assert ([rd] + rs)[1..] == rs;
  }

  /** Delivered events of a run with one completed round in front. */
  lemma DeliveredAfterRound(rd: Round, r: Run)
    ensures After(rd, r).consumed == r.consumed + 1
    ensures DeliveredInRounds(After(rd, r).rounds) == Delivered(rd.deliveries) + DeliveredInRounds(r.rounds)
  {
    DeliveredInRoundsCons(rd, r.rounds);
  }

  lemma {:induction false} DrainBlockDeliversArrivals(cfg: Config, s: State, acc: seq<Delivery>, e: Event, script: seq<Poll>, reply: (nat, Event) -> bool)
    ensures var r := DrainBlock(cfg, s, acc, e, script, reply);
            DeliveredInRounds(r.rounds) == Delivered(acc) + [e] + Arrivals(script[..r.consumed])
    decreases |script|, 1
  {
    var d := Route(cfg.handler, s, e, reply);
    var acc' := acc + [Delivery(e, d.calls)];
    BlockIsPollAfterDispatch(cfg, s, acc, e, script, reply);
    DrainPollDeliversArrivals(cfg, d.state, acc', script, reply);
    assert Delivered(acc') == Delivered(acc) + [e];
  }

  /** Every delivery in `ds` ran the handler tagged `t` and nothing else. */
  predicate Intercepted(ds: seq<Delivery>, t: nat) {
    forall d <- ds :: d.calls == [CallHandler(t)]
  }

  /**
   * A global handler that handles every event intercepts the whole run: no
   * window callback ever runs, the registry never changes, and so a loop
   * with a window never stops by itself.
   */
  lemma {:induction false} HandlerInterceptsOuter(cfg: Config, s: State, script: seq<Poll>, reply: (nat, Event) -> bool)
    requires cfg.handler.Some? && forall e :: reply(cfg.handler.value, e)
    ensures var r := Outer(cfg, s, script, reply);
            && r.final == s
            && (forall rd <- r.rounds :: Intercepted(rd.deliveries, cfg.handler.value))
            && (|s.windows| > 0 ==> r.outcome != Stopped)
    decreases |script|, 1
  {
    if |s.windows| == 0 {
    } else if cfg.pooling {
      HandlerInterceptsDrainPoll(cfg, s, [], script, reply);
    } else if script != [] && script[0].Pending? {
      HandlerInterceptsDrainBlock(cfg, s, [], script[0].event, script[1..], reply);
    }
  }

  lemma {:induction false} HandlerInterceptsDrainPoll(cfg: Config, s: State, acc: seq<Delivery>, script: seq<Poll>, reply: (nat, Event) -> bool)
    requires cfg.handler.Some? && forall e :: reply(cfg.handler.value, e)
    requires Intercepted(acc, cfg.handler.value) && |s.windows| > 0
    ensures var r := DrainPoll(cfg, s, acc, script, reply);
            && r.final == s
            && (forall rd <- r.rounds :: Intercepted(rd.deliveries, cfg.handler.value))
            && r.outcome != Stopped
    decreases |script|, 0
  {
    if script != [] {
      match script[0]
      case Nothing =>
        HandlerInterceptsOuter(cfg, s, script[1..], reply);
      case Pending(e) =>
        var d := Route(cfg.handler, s, e, reply);
        assert HandlerTakes(cfg.handler, e, reply);
        HandlerInterceptsDrainPoll(cfg, d.state, acc + [Delivery(e, d.calls)], script[1..], reply);
    }
  }

  lemma {:induction false} HandlerInterceptsDrainBlock(cfg: Config, s: State, acc: seq<Delivery>, e: Event, script: seq<Poll>, reply: (nat, Event) -> bool)
    requires cfg.handler.Some? && forall e :: reply(cfg.handler.value, e)
    requires Intercepted(acc, cfg.handler.value) && |s.windows| > 0
    ensures var r := DrainBlock(cfg, s, acc, e, script, reply);
            && r.final == s
            && (forall rd <- r.rounds :: Intercepted(rd.deliveries, cfg.handler.value))
            && r.outcome != Stopped
    decreases |script|, 0
  {
    var d := Route(cfg.handler, s, e, reply);
    assert HandlerTakes(cfg.handler, e, reply);
    var acc' := acc + [Delivery(e, d.calls)];
    if script != [] {
      match script[0]
      case Nothing =>
        HandlerInterceptsOuter(cfg, d.state, script[1..], reply);
      case Pending(e2) =>
        HandlerInterceptsDrainBlock(cfg, d.state, acc', e2, script[1..], reply);
    }
  }

  /**
   * The idle callback runs once per iteration, after the drain: every
   * iteration but the last ran it exactly when one is set, the last one too
   * unless the script ran out in the middle of it, and no iteration runs it
   * when none is set.
   */
  ghost predicate IdleOncePerRound(cfg: Config, r: Run) {
    && (forall i :: 0 <= i < |r.rounds| - 1 ==> r.rounds[i].idle == cfg.idle.Some?)
    && (forall rd <- r.rounds :: rd.idle ==> cfg.idle.Some?)
    && (r.outcome != Exhausted && |r.rounds| > 0 ==> r.rounds[|r.rounds| - 1].idle == cfg.idle.Some?)
  }

  /** A completed round in front of a run keeps IdleOncePerRound. */
  lemma IdleAfter(cfg: Config, round: Round, r: Run)
    requires IdleOncePerRound(cfg, r) && round.idle == cfg.idle.Some?
    ensures IdleOncePerRound(cfg, After(round, r))
  {
    var rs := [round] + r.rounds;
    assert forall i :: 1 <= i < |rs| ==> rs[i] == r.rounds[i - 1];
  }

  lemma {:induction false} IdleOuter(cfg: Config, s: State, script: seq<Poll>, reply: (nat, Event) -> bool)
    ensures IdleOncePerRound(cfg, Outer(cfg, s, script, reply))
    decreases |script|, 1
  {
    if |s.windows| == 0 {
    } else if cfg.pooling {
      IdleDrainPoll(cfg, s, [], script, reply);
    } else if script != [] && script[0].Pending? {
      IdleDrainBlock(cfg, s, [], script[0].event, script[1..], reply);
    }
  }

  lemma {:induction false} IdleDrainPoll(cfg: Config, s: State, acc: seq<Delivery>, script: seq<Poll>, reply: (nat, Event) -> bool)
    ensures IdleOncePerRound(cfg, DrainPoll(cfg, s, acc, script, reply))
    decreases |script|, 0
  {
    if script != [] {
      match script[0]
      case Nothing =>
        IdleOuter(cfg, s, script[1..], reply);
        IdleAfter(cfg, Round(acc, cfg.idle.Some?), Outer(cfg, s, script[1..], reply));
      case Pending(e) =>
        var d := Route(cfg.handler, s, e, reply);
        IdleDrainPoll(cfg, d.state, acc + [Delivery(e, d.calls)], script[1..], reply);
    }
  }

  lemma {:induction false} IdleDrainBlock(cfg: Config, s: State, acc: seq<Delivery>, e: Event, script: seq<Poll>, reply: (nat, Event) -> bool)
    ensures IdleOncePerRound(cfg, DrainBlock(cfg, s, acc, e, script, reply))
    decreases |script|, 0
  {
    var d := Route(cfg.handler, s, e, reply);
    var acc' := acc + [Delivery(e, d.calls)];
    if script != [] {
      match script[0]
      case Nothing =>
        IdleOuter(cfg, d.state, script[1..], reply);
        IdleAfter(cfg, Round(acc', cfg.idle.Some?), Outer(cfg, d.state, script[1..], reply));
      case Pending(e2) =>
        IdleDrainBlock(cfg, d.state, acc', e2, script[1..], reply);
    }
  }

  /** The one-window registry of the scenario below. */
  function OneWindow(): State {
    State(map["main" := WindowView(1, map[], map[SDL_WINDOWEVENT_CLOSE := DefaultClose])], map[1 := "main"])
  }

  /** A close request for window 1. */
  function CloseRequest(): Event {
    Event(SDL_WINDOWEVENT, 1, SDL_WINDOWEVENT_CLOSE)
  }

  /** Dispatching the close request with no handler runs the default close callback, which empties the registry. */
  lemma CloseRequestEmptiesRegistry(reply: (nat, Event) -> bool)
    ensures Consistent(OneWindow())
    ensures Route(None, OneWindow(), CloseRequest(), reply)
            == Routed([CallWindowEventCallback("main", DefaultClose)], State(map[], map[]))
  {
    var s := OneWindow();
    assert IdsOf(s.windows) == map["main" := 1];
    assert s.windows - {"main"} == map[];
    assert s.ids - {1} == map[];
  }

  /**
   * A polling loop with one window that keeps its default close callback,
   * whatever its idle callback and whatever SDL holds afterwards: the close
   * request removes the window in the middle of the drain, the drain ends
   * at the next empty poll, and the next iteration finds no window and
   * stops without taking anything more from SDL.
   */
  lemma ClosingTheLastWindowStopsTheLoop(idle: Option<nat>, tail: seq<Poll>, reply: (nat, Event) -> bool)
    ensures Consistent(OneWindow())
    ensures var r := Outer(Config(true, None, idle), OneWindow(), [Pending(CloseRequest()), Nothing] + tail, reply);
            && r.outcome == Stopped
            && r.consumed == 2
            && r.final == State(map[], map[])
            && r.rounds == [Round([Delivery(CloseRequest(), [CallWindowEventCallback("main", DefaultClose)])], idle.Some?)]
  {
    var cfg := Config(true, None, idle);
    var close := CloseRequest();
    var script := [Pending(close), Nothing] + tail;
    CloseRequestEmptiesRegistry(reply);
    var calls := [CallWindowEventCallback("main", DefaultClose)];
    var empty := State(map[], map[]);
    assert script[0] == Pending(close);
    assert script[1..][0] == Nothing;
    assert script[1..][1..] == tail;
    var rest := Outer(cfg, empty, tail, reply);
    assert rest == Run(Stopped, [], empty, 0);
    var drain := DrainPoll(cfg, empty, [Delivery(close, calls)], script[1..], reply);
    assert drain == After(Round([Delivery(close, calls)], idle.Some?), rest);
    var d := Route(cfg.handler, OneWindow(), close, reply);
    assert d == Routed(calls, empty);
    assert [] + [Delivery(close, d.calls)] == [Delivery(close, calls)];
    assert DrainPoll(cfg, OneWindow(), [], script, reply) == Later(drain);
  }
}
