# SDL2CPP in Dafny

A model of the core of SDL2CPP, a small C++ wrapper around SDL2. The
model covers:

- **`MainLoop`.** Its two registry tables (window name → window, window
  id → name), its event router and its main loop, `operator()`.
- **`Window`.** Its two callback tables (event type → callback and
  window-event subtype → callback), its table of named OpenGL contexts,
  the attribute calls `createContext` makes, the fullscreen flags and the
  default close callback.
- **The exception hierarchy.** Each exception's `what()` text.

SDL is not modelled. Each SDL call's result reaches the model as a
parameter:

- `SDL_PollEvent` and `SDL_WaitEvent` become a finite *script* of results.
  Each entry is either `Pending(e)` (the call returned 1 with event `e`)
  or `Nothing` (it returned 0).
- A user callback's boolean answer comes from a `reply` function.

Modules:

| file | module | contents |
|---|---|---|
| `wrappers.dfy` | `Wrappers` | `Option`, `Outcome` (returns or throws), `Result` |
| `sdl.dfy` | `Sdl` | integer widths, the event record, `SDL_WINDOWEVENT` and `SDL_WINDOWEVENT_CLOSE`, one poll result |
| `exceptions.dfy` | `Exceptions` | the exception classes as one datatype, their constructors and `what()` |
| `callbacks.dfy` | `Callbacks` | a callback table and the rule by which both setters update it |
| `registry.dfy` | `Registry` | the name ↔ id tables seen through ids: when they stay mutual inverses |
| `gl_context.dfy` | `GlContext` | the `Profile` and `Flag` enums, the version split, and the four `SDL_GL_SetAttribute` calls of `createContext` |
| `display.dfy` | `Display` | the `Fullscreen` enum, `setFullscreen` and `getFullscreen` |
| `event_loop.dfy` | `EventLoop` | the router and the loop as functions on values, and what they guarantee |
| `sdl2cpp.dfy` | `Sdl2cpp` | the classes `Window`, `MainLoop` and `GLContext`, with methods that update fields in place, proved against `EventLoop` |

Two facts about the code shape the model:

- The router has three stages: the global handler, then the per-type
  callback of the window the event names, then that window's
  window-event callback.
- The loop ends only when no window is left or a blocking wait fails.

The declarations in `Window.h` name the fields without the `m_` prefix
that `Window.cpp` uses. The model follows `Window.cpp`.

`MainLoop.Run` is `operator()`. It runs over the script until one of
these happens:

- no window is registered (`Stopped`);
- a blocking wait fails, where the source throws (`WaitFailed`);
- the script runs out (`Exhausted`).

Its postcondition says that the iterations it performed, the registry it
leaves and the entries it used are exactly those the function
`EventLoop.Outer` computes. The lemmas about `Outer` then state what the
loop guarantees:

- the registry stays consistent and only loses windows;
- every event SDL hands over is dispatched exactly once, in order;
- a handler that takes every event intercepts everything;
- the idle callback runs once per iteration;
- closing the last window stops the loop.

## Model

| member | source | states |
|---|---|---|
| Exceptions.What | src/SDL2CPP/Exception.h:13-50 | every `what()` begins with the decorator "SDL2CPP" and ends with " - " followed by the message |
| Exceptions.MakeException | src/SDL2CPP/Exception.h:11-16 | `Exception(msg).what()` is "SDL2CPP - " + msg |
| Exceptions.MakeClassException | src/SDL2CPP/Exception.h:22-29 | keeps class name and message; `what()` is "SDL2CPP::" + className + " - " + msg |
| Exceptions.MakeWindowException | src/SDL2CPP/Exception.h:35-38 | the class name is always "Window", the argument is the message; `what()` is "SDL2CPP::Window - " + w |
| Exceptions.MakeWindowFunctionException | src/SDL2CPP/Exception.h:40-50 | class name "Window", the given function name and message; `what()` is "SDL2CPP::Window::" + f + "() - " + msg |
| Exceptions.MakeCreateContext | src/SDL2CPP/Exception.h:56-61 | the argument becomes the function name and "createContext" the message (the swapped arguments kept); `what()` is "SDL2CPP::Window::" + w + "() - createContext" |
| Exceptions.WhatIsNotInjective | src/SDL2CPP/Exception.h:26-50 | a WindowFunctionException and a different ClassException whose class name is "Window::f()" print the same text |
| Callbacks.Set | src/SDL2CPP/Window.cpp:143-152 | a null callback erases the key, any other stores or overwrites it; every other key keeps its entry |
| Callbacks.Has | src/SDL2CPP/Window.cpp:178-182 | an entry is present and not null; the tables never hold null, so presence decides it (its behaviour under the setters is Callbacks.HasAfterSet) |
| Callbacks.HasAfterSet | src/SDL2CPP/Window.cpp:178-182 | after a set, `has` for that key holds iff the callback was non-null; for other keys it answers as before |
| Callbacks.SetThenClear | src/SDL2CPP/Window.h:50-55 | setting a callback and then calling the setter with its default null argument leaves the table without the key |
| Registry.AddFreshKeepsInverse | src/SDL2CPP/MainLoop.cpp:31-35 | adding a fresh name with a fresh id keeps the two tables mutual inverses |
| Registry.AddStaleIdBreaksInverse | src/SDL2CPP/MainLoop.cpp:31-35 | for all inverse tables, adding a new name under an id already registered breaks the inverse (addWindow overwrites blindly) |
| Registry.AddStaleNameBreaksInverse | src/SDL2CPP/MainLoop.cpp:31-35 | for all inverse tables, adding a registered name under a different id breaks the inverse |
| Registry.RemoveKeepsInverse | src/SDL2CPP/MainLoop.cpp:42-47 | removing an id and the name it indexes keeps the tables inverse |
| Registry.InverseSameSize | src/SDL2CPP/MainLoop.cpp:219-221 | inverse tables have the same number of entries |
| GlContext.Profile.Mask | src/SDL2CPP/Window.h:21-25 | each profile passes SDL's mask of the same name: CORE 1, COMPATIBILITY 2, ES 4 |
| GlContext.Flag.Bits | src/SDL2CPP/Window.h:26-32 | NONE is 0 and the only flag with no bit set; every other flag passes SDL's flag of the same name (1, 2, 4, 8) |
| GlContext.MajorVersion | src/SDL2CPP/Window.cpp:39-45 | the major version is the hundreds of `version`: major·100 ≤ version < major·100 + 100 |
| GlContext.MinorVersion | src/SDL2CPP/Window.cpp:47-54 | the minor version is the tens digit: below 10, and it places `version` in its ten-wide band |
| GlContext.VersionDigits | src/SDL2CPP/Window.cpp:39-54 | any version written as major, minor and last digit splits back into that major and minor |
| GlContext.DefaultVersionIsFourFive | src/SDL2CPP/Window.h:40-43 | the default version 450 asks SDL for OpenGL 4.5 |
| GlContext.Label | src/SDL2CPP/Window.cpp:41-66 | the text each setter puts before SDL's error, spelled as the source spells it ("VERISON" included) |
| GlContext.Proceeds | src/SDL2CPP/Window.cpp:41-60 | a setter carries on exactly when SDL_GL_SetAttribute returns 0 |
| GlContext.ProceedsAsWritten | src/SDL2CPP/Window.cpp:41-66 | agrees with Proceeds for every attribute but the flags; for the flags it carries on only on statuses that Proceeds rejects |
| GlContext.Steps | src/SDL2CPP/Window.cpp:83-86 | createContext sets major version, minor version, profile mask and flags, in that order, with those values |
| GlContext.RunSteps | src/SDL2CPP/Window.cpp:39-67 | the chain of setters goes through iff every call's status is accepted |
| GlContext.RunStepsStopsAtFirstFailure | src/SDL2CPP/Window.cpp:83-86 | the first rejected call throws CreateContext with that attribute's label and SDL's error text |
| GlContext.Configure | src/SDL2CPP/Window.cpp:78-86 | corrected setters: they go through iff SDL returns 0 for all four calls |
| GlContext.ConfigureAsWritten | src/SDL2CPP/Window.cpp:63-67 | as written, the setters go through only if the flags call returned a negative status |
| GlContext.AsWrittenRejectsWorkingDriver | src/SDL2CPP/Window.cpp:63-67 | with a driver that accepts everything, the corrected calls pass and the calls as written throw the flags error |
| GlContext.AsWrittenStopsAtFlags | src/SDL2CPP/Window.cpp:65-66 | when every call returns 0, the flags call is the one the as-written test rejects |
| Display.Fullscreen.Flags | src/SDL2CPP/Window.h:33-37 | WINDOW is 0 and the only mode that is 0; every mode lies within SDL_WINDOW_FULLSCREEN_DESKTOP's bits |
| Display.FlagsInjective | src/SDL2CPP/Window.h:33-37 | distinct modes pass distinct flags to SDL |
| Display.AfterSetFullscreen | src/SDL2CPP/Window.cpp:237-241 | after a successful SDL_SetWindowFullscreen the other flags are kept and the fullscreen bits are the mode's |
| Display.SetFullscreen | src/SDL2CPP/Window.cpp:237-241 | a non-zero SDL status throws a WindowFunctionException naming setFullscreen; status 0 returns |
| Display.DecodeAsWritten | src/SDL2CPP/Window.cpp:248-254 | as written: FULLSCREEN iff the FULLSCREEN bit is set; FULLSCREEN_DESKTOP iff it is not but a desktop bit is |
| Display.AsWrittenMisreadsDesktop | src/SDL2CPP/Window.cpp:251-252 | as written, a window just set to desktop fullscreen is reported as FULLSCREEN |
| Display.Decode | src/SDL2CPP/Window.cpp:248-254 | corrected: FULLSCREEN_DESKTOP iff both its bits are set, FULLSCREEN iff only the FULLSCREEN bit is, WINDOW iff neither |
| Display.DecodeAfterSet | src/SDL2CPP/Window.cpp:237-254 | corrected, getFullscreen returns the mode the last successful setFullscreen chose, whatever the other flags |
| EventLoop.RemoveById | src/SDL2CPP/MainLoop.cpp:42-47 | removeWindow(id): neither the id nor the name it indexed is left; every other window and every other id keeps its entry |
| EventLoop.Answer | src/SDL2CPP/Window.cpp:268-273 | the default close callback always handles the event; only a user callback can decline |
| EventLoop.Effect | src/SDL2CPP/Window.cpp:268-273 | a user callback leaves the registry alone; the default close callback removes its own window and no other |
| EventLoop.Route | src/SDL2CPP/MainLoop.cpp:103-130 | the router for one event: at most three calls, the handler's first exactly when one is installed; windows are only lost |
| EventLoop.RouteToWindow | src/SDL2CPP/MainLoop.cpp:108-129 | stages 2 and 3 add at most two window calls after stage 1's, never a handler call; windows are only lost |
| EventLoop.RemoveByIdKeepsConsistent | src/SDL2CPP/MainLoop.cpp:42-47 | removeWindow(id) keeps the registry consistent; neither the id nor its name is left, and exactly that window leaves |
| EventLoop.EffectKeepsOthers | src/SDL2CPP/Window.cpp:268-273 | whatever callback runs, every window still registered keeps its entry |
| EventLoop.EffectIsRemoval | src/SDL2CPP/Window.cpp:268-273 | the default close callback's effect is removeWindow of its own window's id; a user callback leaves the registry alone |
| EventLoop.RouteKeepsRegistry | src/SDL2CPP/MainLoop.cpp:103-130 | dispatching one event keeps the registry consistent and changes it only by removing the destination window |
| EventLoop.RouteHandlerStage | src/SDL2CPP/MainLoop.cpp:103-108 | an installed handler runs first, exactly once; if it handles the event, nothing else runs and the registry is unchanged |
| EventLoop.RouteWindowStage | src/SDL2CPP/MainLoop.cpp:109-116 | window callbacks run only for the window the event's id names; an event for an unregistered id runs none |
| EventLoop.RouteWindowEventStage | src/SDL2CPP/MainLoop.cpp:117-128 | the window-event callback runs only for SDL_WINDOWEVENT to a registered window that neither earlier stage handled, and always then when one is set |
| EventLoop.Outer | src/SDL2CPP/MainLoop.cpp:86-137 | the nested-loop reading of operator(): a run never uses more script entries than there are |
| EventLoop.DrainPoll | src/SDL2CPP/MainLoop.cpp:99-134 | the polling inner loop never uses more entries than there are |
| EventLoop.DrainBlock | src/SDL2CPP/MainLoop.cpp:99-134 | the blocking inner loop never uses more entries than there are |
| EventLoop.BlockIsPollAfterDispatch | src/SDL2CPP/MainLoop.cpp:99-134 | after its first event the blocking inner loop behaves exactly as the polling one |
| EventLoop.OuterShape | src/SDL2CPP/MainLoop.cpp:89-93 | a run keeps the registry consistent and only loses windows; a run that stops has no window left |
| EventLoop.DrainPollShape | src/SDL2CPP/MainLoop.cpp:99-134 | the same, from inside a polling drain |
| EventLoop.DrainBlockShape | src/SDL2CPP/MainLoop.cpp:99-134 | the same, from inside a blocking drain |
| EventLoop.DrainFrom | src/SDL2CPP/MainLoop.cpp:99-134 | the inner loop by absolute script position: it uses at least one entry unless the script ran out |
| EventLoop.Iteration | src/SDL2CPP/MainLoop.cpp:89-135 | one outer iteration uses at least one entry unless the run ended in it |
| EventLoop.DrainFromIsDrainPoll | src/SDL2CPP/MainLoop.cpp:99-134 | the positional inner loop is the polling drain over the rest of the script |
| EventLoop.IterationIsOuterStep | src/SDL2CPP/MainLoop.cpp:89-135 | one positional iteration is the first step of the nested-loop run: where it ends, or one iteration then the run from there |
| EventLoop.BlockingIterationIsOuterStep | src/SDL2CPP/MainLoop.cpp:94-134 | the same for a blocking iteration that starts with the event SDL_WaitEvent returned |
| EventLoop.OuterFromIsOuter | src/SDL2CPP/MainLoop.cpp:86-137 | the positional outer loop from any position is the nested-loop run resumed there |
| EventLoop.OuterFromStart | src/SDL2CPP/MainLoop.cpp:86-137 | from the start, the positional loop and the nested-loop run coincide |
| EventLoop.OuterDeliversArrivals | src/SDL2CPP/MainLoop.cpp:99-134 | the events dispatched in a run are exactly the events of the entries it used, once each, in order |
| EventLoop.DrainPollDeliversArrivals | src/SDL2CPP/MainLoop.cpp:100-101 | the same from inside a polling drain |
| EventLoop.DrainBlockDeliversArrivals | src/SDL2CPP/MainLoop.cpp:132-133 | the same from inside a blocking drain |
| EventLoop.HandlerInterceptsOuter | src/SDL2CPP/MainLoop.cpp:103-108 | a handler that handles every event intercepts the run: only it runs, the registry never changes, a loop with a window never stops |
| EventLoop.HandlerInterceptsDrainPoll | src/SDL2CPP/MainLoop.cpp:103-108 | the same from inside a polling drain |
| EventLoop.HandlerInterceptsDrainBlock | src/SDL2CPP/MainLoop.cpp:103-108 | the same from inside a blocking drain |
| EventLoop.IdleOuter | src/SDL2CPP/MainLoop.cpp:135 | the idle callback runs once per iteration when set, never when unset; only an iteration cut short by the end of the script skips it |
| EventLoop.IdleDrainPoll | src/SDL2CPP/MainLoop.cpp:135 | the same from inside a polling drain |
| EventLoop.IdleDrainBlock | src/SDL2CPP/MainLoop.cpp:135 | the same from inside a blocking drain |
| EventLoop.CloseRequestEmptiesRegistry | src/SDL2CPP/Window.cpp:23-25 | a close request to the only window runs its default close callback, which empties the registry |
| EventLoop.ClosingTheLastWindowStopsTheLoop | src/SDL2CPP/MainLoop.cpp:89-93 | for every idle callback and whatever SDL holds afterwards, a polling loop whose last window is closed finishes the drain, then stops with an empty registry without taking anything more |
| Sdl2cpp.GLContext.constructor | src/SDL2CPP/Window.cpp:87-92 | a context object holds the handle SDL_GL_CreateContext returned |
| Sdl2cpp.Window.constructor | src/SDL2CPP/Window.cpp:16-26 | a new window has no contexts, no event callbacks, the default close callback for SDL_WINDOWEVENT_CLOSE, and no loop |
| Sdl2cpp.Window.Create | src/SDL2CPP/Window.cpp:16-26 | a null native window throws WindowException with SDL's error; otherwise a fresh open window with no contexts, no event callbacks, only the default close callback and no loop |
| Sdl2cpp.Window.Destroy | src/SDL2CPP/Window.cpp:31-37 | the contexts are released before the native window is destroyed |
| Sdl2cpp.Window.CreateContext | src/SDL2CPP/Window.cpp:78-96 | a failed attribute call or a null context throws and leaves the table; otherwise `name` maps to a fresh context, replacing any old one. With `GlContext.ProceedsAsWritten` it runs the setters as written, with `GlContext.Proceeds` the corrected ones |
| Sdl2cpp.Window.SetContext | src/SDL2CPP/Window.cpp:105-111 | `name` now holds the very context object the other window holds under `otherName`; other names are unchanged |
| Sdl2cpp.Window.GetContext | src/SDL2CPP/Window.cpp:256-261 | null exactly for a name with no context, the stored handle otherwise |
| Sdl2cpp.Window.MakeCurrent | src/SDL2CPP/Window.cpp:118-123 | requires the context to exist; a negative SDL status throws a WindowFunctionException naming makeCurrent |
| Sdl2cpp.Window.HasEventCallback | src/SDL2CPP/Window.cpp:178-182 | answers as the loop's dispatch sees the window's event table |
| Sdl2cpp.Window.HasWindowEventCallback | src/SDL2CPP/Window.cpp:191-195 | answers as the loop's dispatch sees the window's window-event table |
| Sdl2cpp.Window.SetEventCallback | src/SDL2CPP/Window.cpp:143-152 | the event table becomes Callbacks.Set of the old one |
| Sdl2cpp.Window.SetWindowEventCallback | src/SDL2CPP/Window.cpp:160-169 | the window-event table becomes Callbacks.Set of the old one |
| Sdl2cpp.Window.DefaultCloseCallback | src/SDL2CPP/Window.cpp:268-273 | requires a loop; removes this window's id and the name it indexes from the loop, returns true, keeps the loop valid and replaces no other window |
| Sdl2cpp.Window.Invoke | src/SDL2CPP/Window.cpp:275-289 | a user callback answers through `reply` and leaves the loop alone; the default close callback removes its window |
| Sdl2cpp.Window.CallEventCallback | src/SDL2CPP/Window.cpp:275-281 | runs the stored callback for the event type, which must exist, with the effect and answer of Invoke |
| Sdl2cpp.Window.CallWindowEventCallback | src/SDL2CPP/Window.cpp:283-289 | the same for the window-event subtype |
| Sdl2cpp.MainLoop.constructor | src/SDL2CPP/MainLoop.cpp:14-18 | no handler, no idle callback, not running, no windows; polling unless told otherwise |
| Sdl2cpp.MainLoop.AddWindow | src/SDL2CPP/MainLoop.cpp:31-35 | both tables overwrite under name and id, the window points back at the loop; the loop stays valid when name and id are new |
| Sdl2cpp.MainLoop.RemoveWindowById | src/SDL2CPP/MainLoop.cpp:42-47 | requires the id; it and its name leave both tables, nothing else changes, validity is kept |
| Sdl2cpp.MainLoop.RemoveWindowByName | src/SDL2CPP/MainLoop.cpp:54-57 | requires the name; it and its window's id leave both tables, nothing else changes, validity is kept |
| Sdl2cpp.MainLoop.HasWindow | src/SDL2CPP/MainLoop.cpp:66-68 | a registered name means the loop has a window (with Sdl2cpp.MainLoop.HasWindowIffIndexed for the id table) |
| Sdl2cpp.MainLoop.GetWindow | src/SDL2CPP/MainLoop.cpp:77-81 | requires the name; the window returned is a registered one |
| Sdl2cpp.MainLoop.GetNofWindows | src/SDL2CPP/MainLoop.cpp:219-221 | zero exactly when no window is registered, the test that stops the loop |
| Sdl2cpp.MainLoop.HasWindowIffIndexed | src/SDL2CPP/MainLoop.cpp:66-68 | in a valid loop a name is registered iff the id table indexes some window under it |
| Sdl2cpp.MainLoop.GetWindowIsIndexed | src/SDL2CPP/MainLoop.cpp:77-81 | in a valid loop the window found by name is indexed by its id under that name |
| Sdl2cpp.MainLoop.NofWindowsCountsBothTables | src/SDL2CPP/MainLoop.cpp:219-221 | in a valid loop getNofWindows equals the size of the id table too |
| Sdl2cpp.MainLoop.SetIdleCallback | src/SDL2CPP/MainLoop.cpp:144-155 | stores the callback; hasIdleCallback holds iff it is non-null |
| Sdl2cpp.MainLoop.SetEventHandler | src/SDL2CPP/MainLoop.cpp:164-176 | stores the handler; hasEventHandler holds iff it is non-null |
| Sdl2cpp.MainLoop.HasIdleCallback | src/SDL2CPP/MainLoop.cpp:153-155 | holds exactly when the loop body's settings carry an idle callback |
| Sdl2cpp.MainLoop.HasEventHandler | src/SDL2CPP/MainLoop.cpp:174-176 | holds exactly when stage 1 of the dispatch runs |
| Sdl2cpp.MainLoop.CallEventHandler | src/SDL2CPP/MainLoop.cpp:228-231 | requires a handler; its answer is the one stage 1 of EventLoop.Route acts on |
| Sdl2cpp.MainLoop.CallEventCallbackOf | src/SDL2CPP/MainLoop.cpp:112-115 | runs the destination's per-type callback: its answer, and the registry after it is EventLoop.Effect of the one before; every name still registered maps to the same Window object |
| Sdl2cpp.MainLoop.CallWindowEventCallbackOf | src/SDL2CPP/MainLoop.cpp:121-125 | the same for the window-event callback, Window objects included |
| Sdl2cpp.MainLoop.Dispatch | src/SDL2CPP/MainLoop.cpp:103-130 | the callbacks run and the registry after one event are exactly EventLoop.Route's; the loop stays valid; windows are only unregistered, never replaced |
| Sdl2cpp.MainLoop.DispatchToWindow | src/SDL2CPP/MainLoop.cpp:108-129 | stages 2 and 3 do exactly what EventLoop.RouteToWindow says; windows are only unregistered, never replaced |
| Sdl2cpp.MainLoop.Run | src/SDL2CPP/MainLoop.cpp:86-137 | operator() performs exactly the run EventLoop.Outer describes; `running` is false at the end iff the loop stopped for lack of windows; every window still registered is the Window object registered before |
| Sdl2cpp.MainLoop.Start | src/SDL2CPP/MainLoop.cpp:87 | setting the running flag changes neither the registry nor the settings |
| Sdl2cpp.MainLoop.Iterate | src/SDL2CPP/MainLoop.cpp:89-135 | one outer iteration is exactly EventLoop.Iteration; `running` is cleared iff it found no window; windows are only unregistered, never replaced |
| Sdl2cpp.MainLoop.Drain | src/SDL2CPP/MainLoop.cpp:99-134 | the inner loop in either mode is exactly EventLoop.DrainFrom; windows are only unregistered, never replaced |

## Left out

- SDL itself: window creation and destruction, `SDL_GL_SetAttribute`, `SDL_GL_CreateContext`, `SDL_GL_MakeCurrent`, `SDL_SetWindowFullscreen`, `SDL_GetWindowFlags`, `SDL_GetError` and `SDL_GetWindowID` are foreign calls. Their results are parameters.
- `SDL_Init` and `SDL_Quit` in the MainLoop constructor and destructor. They are process-global library state, so `ex::MainLoop` thrown by a failed `SDL_Init` is not modelled.
- `ex::MainLoop` thrown by a failed wait: its definition is not part of this model. The run ends with the `WaitFailed` outcome instead.
- The OS event source: events come from a finite script. Running out of script ends a run with `Exhausted`; the source would block or poll forever.
- Bodies of user callbacks and of the idle callback: arbitrary `std::function`s. A user callback's answer comes from `reply`; its side effects, such as a callback that removes windows itself, are not modelled. The default close callback is modelled in full.
- Reference counting of shared contexts and the `shared_ptr` deleter that calls `SDL_GL_DeleteContext`. Sharing is modelled by object identity; when the GPU context is released is not.
- `swap`, `getId`, `setSize`, `getWidth`, `getHeight` and `getWindow` (of `Window`): pure pass-throughs to SDL with no logic of their own. Width and height appear only as the default arguments 1024 × 768 of `Window.Create`.
- The iterator accessors `nameBegin`, `nameEnd`, `idBegin` and `idEnd` (of `MainLoop`): the model exposes the tables themselves.
- Sdl2cpp.Window.constructor: `mainLoop` has no initializer in the source. The model starts it as null, which is what `m_defaultCloseCallback`'s assertion expects.
- EventLoop.RouteToWindow: on a registry whose tables are not mutual inverses, the model treats an id whose name has no window as unknown. The source inserts a null window at MainLoop.cpp:112 and dereferences it at line 113. No valid loop reaches that case.
- Sdl2cpp.MainLoop.Valid: excludes a window that a second loop registered as well. `AddWindow` overwrites the window's `mainLoop`, so the first loop's `Valid()` no longer holds. In the source the first loop keeps a stale entry that the window's close callback no longer removes.
- Sdl2cpp.MainLoop.AddWindow: keeps validity only for a fresh name and id. The source overwrites blindly, and `Registry.AddStaleIdBreaksInverse` and `Registry.AddStaleNameBreaksInverse` show what happens otherwise.

## Findings

| source | as written | input that shows it | evidently intended | confidence | as-written member | corrected member |
|---|---|---|---|---|---|---|
| src/SDL2CPP/Window.cpp:65 | `setContextFlags` returns when `SDL_GL_SetAttribute` returns a negative status (failure) and throws when it returns 0 (success) | any driver on which all four attribute calls return 0: createContext throws "SDL_GL_CONTEXT_FLAGS - …" | return on 0 and throw otherwise, like the other three setters | high; not executed | GlContext.AsWrittenRejectsWorkingDriver | GlContext.Configure |
| src/SDL2CPP/Window.cpp:251-252 | `getFullscreen` tests the FULLSCREEN bit (0x1) before FULLSCREEN_DESKTOP (0x1001), which contains it | a window after `setFullscreen(FULLSCREEN_DESKTOP)`: flags contain 0x1001 and getFullscreen returns FULLSCREEN | recognise FULLSCREEN_DESKTOP by both its bits before testing FULLSCREEN | high; not executed | Display.AsWrittenMisreadsDesktop | Display.DecodeAfterSet |
