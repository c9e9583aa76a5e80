/**
 * Window::setFullscreen and Window::getFullscreen: the fullscreen mode
 * travels to SDL as window flags and is read back by testing flag bits.
 */
module Display {
  import opened Wrappers
  import opened Exceptions

  /** SDL2's SDL_WINDOW_FULLSCREEN. */
  const SDL_WINDOW_FULLSCREEN: bv32 := 0x0000_0001
  /** SDL2's SDL_WINDOW_FULLSCREEN_DESKTOP: SDL_WINDOW_FULLSCREEN with one more bit. */
  const SDL_WINDOW_FULLSCREEN_DESKTOP: bv32 := 0x0000_1001

  /** Window::Fullscreen. */
  datatype Fullscreen = WINDOW | FULLSCREEN | FULLSCREEN_DESKTOP {
    /** The flag value each mode stands for; WINDOW is 0 and no two modes share a value. */
    function Flags(): (f: bv32)
      ensures f == 0 <==> this == WINDOW
      ensures f & !SDL_WINDOW_FULLSCREEN_DESKTOP == 0
    {
      match this
      case WINDOW => 0
      case FULLSCREEN => SDL_WINDOW_FULLSCREEN
      case FULLSCREEN_DESKTOP => SDL_WINDOW_FULLSCREEN_DESKTOP
    }
  }

  /** Distinct modes pass distinct flags to SDL. */
  lemma FlagsInjective(a: Fullscreen, b: Fullscreen)
    requires a.Flags() == b.Flags()
    ensures a == b
  {
  }

  /**
   * The window flags SDL reports after a successful
   * SDL_SetWindowFullscreen(window, mode.Flags()): both fullscreen bits
   * cleared, then the mode's bits set, every other flag kept.
   */
  function AfterSetFullscreen(flags: bv32, mode: Fullscreen): (f: bv32)
    ensures f & !SDL_WINDOW_FULLSCREEN_DESKTOP == flags & !SDL_WINDOW_FULLSCREEN_DESKTOP
    ensures f & SDL_WINDOW_FULLSCREEN_DESKTOP == mode.Flags()
  {
    (flags & !SDL_WINDOW_FULLSCREEN_DESKTOP) | mode.Flags()
  }

  /**
   * getFullscreen as written: FULLSCREEN if the FULLSCREEN bit is set,
   * otherwise FULLSCREEN_DESKTOP if any bit of FULLSCREEN_DESKTOP is set,
   * otherwise WINDOW.
   */
  function DecodeAsWritten(flags: bv32): (m: Fullscreen)
    ensures m == FULLSCREEN <==> flags & SDL_WINDOW_FULLSCREEN != 0
    ensures m == FULLSCREEN_DESKTOP <==> flags & SDL_WINDOW_FULLSCREEN == 0 && flags & SDL_WINDOW_FULLSCREEN_DESKTOP != 0
  {
    if flags & FULLSCREEN.Flags() != 0 then FULLSCREEN
    else if flags & FULLSCREEN_DESKTOP.Flags() != 0 then FULLSCREEN_DESKTOP
    else WINDOW
  }

  /**
   * As written, a window in desktop fullscreen is reported as FULLSCREEN,
   * because SDL_WINDOW_FULLSCREEN_DESKTOP contains the FULLSCREEN bit that
   * is tested first.
   */
  lemma AsWrittenMisreadsDesktop(flags: bv32)
    ensures DecodeAsWritten(AfterSetFullscreen(flags, FULLSCREEN_DESKTOP)) == FULLSCREEN
  {
    var f := AfterSetFullscreen(flags, FULLSCREEN_DESKTOP);
    assert f & SDL_WINDOW_FULLSCREEN_DESKTOP == SDL_WINDOW_FULLSCREEN_DESKTOP;
    assert f & SDL_WINDOW_FULLSCREEN == (f & SDL_WINDOW_FULLSCREEN_DESKTOP) & SDL_WINDOW_FULLSCREEN;
  }

  /**
   * getFullscreen corrected: desktop fullscreen is recognised by both of its
   * bits before the plain FULLSCREEN bit is tested.
   */
  function Decode(flags: bv32): (m: Fullscreen)
    ensures m == FULLSCREEN_DESKTOP <==> flags & SDL_WINDOW_FULLSCREEN_DESKTOP == SDL_WINDOW_FULLSCREEN_DESKTOP
    ensures m == FULLSCREEN <==> flags & SDL_WINDOW_FULLSCREEN_DESKTOP == SDL_WINDOW_FULLSCREEN
    ensures m == WINDOW <==> flags & SDL_WINDOW_FULLSCREEN == 0
  {
    if flags & FULLSCREEN_DESKTOP.Flags() == FULLSCREEN_DESKTOP.Flags() then FULLSCREEN_DESKTOP
    else if flags & FULLSCREEN.Flags() != 0 then FULLSCREEN
    else WINDOW
  }

  /** Corrected, getFullscreen reports the mode the last successful setFullscreen chose, whatever the other flags. */
  lemma DecodeAfterSet(flags: bv32, mode: Fullscreen)
    ensures Decode(AfterSetFullscreen(flags, mode)) == mode
  {
    var f := AfterSetFullscreen(flags, mode);
    assert f & SDL_WINDOW_FULLSCREEN == (f & SDL_WINDOW_FULLSCREEN_DESKTOP) & SDL_WINDOW_FULLSCREEN;
  }

  /** setFullscreen: any non-zero status from SDL_SetWindowFullscreen throws a WindowFunctionException naming setFullscreen. */
  function SetFullscreen(status: int, err: string): (o: Outcome<Exception>)
    ensures o.Pass? <==> status == 0
    ensures o.Fail? ==> o.error == MakeWindowFunctionException("setFullscreen", err)
  {
    if status != 0 then Fail(MakeWindowFunctionException("setFullscreen", err)) else Pass
  }
}
