/**
 * The part of SDL2's interface that the wrapper relies on: integer widths,
 * the event record and the constants the dispatch tests against. SDL itself
 * is not modelled; its answers reach the model as parameters.
 */
module Sdl {

  type u8 = x: int | 0 <= x < 0x100
  type u32 = x: int | 0 <= x < 0x1_0000_0000

  /** SDL_GetWindowID's result; stable for the lifetime of a native window. */
  type WindowId = u32
  /** SDL_Event::type (SDL_KEYDOWN, SDL_MOUSEMOTION, SDL_WINDOWEVENT, ...). */
  type EventType = u32
  /** SDL_WindowEvent::event (SDL_WINDOWEVENT_CLOSE, SDL_WINDOWEVENT_RESIZED, ...). */
  type WindowEventType = u8

  /** SDL2's value of SDL_WINDOWEVENT. */
  const SDL_WINDOWEVENT: EventType := 0x200
  /** SDL2's value of SDL_WINDOWEVENT_CLOSE. */
  const SDL_WINDOWEVENT_CLOSE: WindowEventType := 14

  /**
   * The fields of an SDL_Event that the main loop reads. The loop reads
   * `event.window.windowID` and `event.window.event` through the union
   * whatever the event's type, so every event carries both.
   */
  datatype Event = Event(kind: EventType, windowID: WindowId, windowEvent: WindowEventType)

  /**
   * What one call of SDL_PollEvent or SDL_WaitEvent returns. `Pending(e)`:
   * the call returned 1 and filled in `e`. `Nothing`: the call returned 0,
   * which for SDL_PollEvent means the queue is empty and for SDL_WaitEvent
   * means the wait failed.
   */
  datatype Poll = Pending(event: Event) | Nothing
}
