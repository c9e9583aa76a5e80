/**
 * What Window::createContext asks of SDL before it creates an OpenGL
 * context: four SDL_GL_SetAttribute calls (major version, minor version,
 * profile mask, flags) in that order, the first failure ending the call
 * with a CreateContext exception.
 */
module GlContext {
  import opened Wrappers
  import opened Sdl
  import opened Exceptions

  /** SDL2's SDL_GL_CONTEXT_PROFILE_CORE, _COMPATIBILITY and _ES. */
  const SDL_GL_CONTEXT_PROFILE_CORE: int := 0x1
  const SDL_GL_CONTEXT_PROFILE_COMPATIBILITY: int := 0x2
  const SDL_GL_CONTEXT_PROFILE_ES: int := 0x4

  /** Window::Profile; each profile passes SDL's mask of the same name. */
  datatype Profile = CORE | COMPATIBILITY | ES {
    function Mask(): (m: int)
      ensures m in {1, 2, 4}
      ensures this == CORE <==> m == SDL_GL_CONTEXT_PROFILE_CORE
      ensures this == COMPATIBILITY <==> m == SDL_GL_CONTEXT_PROFILE_COMPATIBILITY
      ensures this == ES <==> m == SDL_GL_CONTEXT_PROFILE_ES
    {
      match this
      case CORE => 0x1
      case COMPATIBILITY => 0x2
      case ES => 0x4
    }
  }

  /** SDL2's SDL_GL_CONTEXT_DEBUG_FLAG, _FORWARD_COMPATIBLE_FLAG, _ROBUST_ACCESS_FLAG and _RESET_ISOLATION_FLAG. */
  const SDL_GL_CONTEXT_DEBUG_FLAG: int := 0x1
  const SDL_GL_CONTEXT_FORWARD_COMPATIBLE_FLAG: int := 0x2
  const SDL_GL_CONTEXT_ROBUST_ACCESS_FLAG: int := 0x4
  const SDL_GL_CONTEXT_RESET_ISOLATION_FLAG: int := 0x8

  /** Window::Flag; each flag passes SDL's flag of the same name. */
  datatype Flag = NONE | DEBUG | FORWARD_COMPATIBLE | ROBUST_ACCESS | RESET_ISOLATION {
    /** NONE is 0 and is the only flag that sets no bit. */
    function Bits(): (b: int)
      ensures b == 0 <==> this == NONE
      ensures 0 <= b < 16
      ensures this == DEBUG <==> b == SDL_GL_CONTEXT_DEBUG_FLAG
      ensures this == FORWARD_COMPATIBLE <==> b == SDL_GL_CONTEXT_FORWARD_COMPATIBLE_FLAG
      ensures this == ROBUST_ACCESS <==> b == SDL_GL_CONTEXT_ROBUST_ACCESS_FLAG
      ensures this == RESET_ISOLATION <==> b == SDL_GL_CONTEXT_RESET_ISOLATION_FLAG
    {
      match this
      case NONE => 0
      case DEBUG => 0x1
      case FORWARD_COMPATIBLE => 0x2
      case ROBUST_ACCESS => 0x4
      case RESET_ISOLATION => 0x8
    }
  }

  /** createContext's default arguments. */
  const DEFAULT_CONTEXT_NAME: string := "context"
  const DEFAULT_VERSION: u32 := 450
  const DEFAULT_PROFILE: Profile := CORE
  const DEFAULT_FLAGS: Flag := NONE

  /** The attribute each of the four setters passes to SDL_GL_SetAttribute. */
  datatype Attribute =
    | ContextMajorVersion   // SDL_GL_CONTEXT_MAJOR_VERSION
    | ContextMinorVersion   // SDL_GL_CONTEXT_MINOR_VERSION
    | ContextProfileMask    // SDL_GL_CONTEXT_PROFILE_MASK
    | ContextFlags          // SDL_GL_CONTEXT_FLAGS

  /** The label a setter puts in front of SDL's error text, spelled as the setters spell it. */
  function Label(a: Attribute): string {
    match a
    case ContextMajorVersion => "SDL_GL_CONTEXT_MAJOR_VERISON"
    case ContextMinorVersion => "SDL_GL_CONTEXT_MINOR_VERISON"
    case ContextProfileMask => "SDL_GL_CONTEXT_PROFILE_MASK"
    case ContextFlags => "SDL_GL_CONTEXT_FLAGS"
  }

  /** The major version encoded in `version` (450 for 4.5): its hundreds. */
  function MajorVersion(version: u32): (major: nat)
    ensures major * 100 <= version < major * 100 + 100
  {
    version / 100
  }

  /** The minor version encoded in `version`: its tens digit. */
  function MinorVersion(version: u32): (minor: nat)
    ensures minor < 10
    ensures MajorVersion(version) * 100 + minor * 10 <= version < MajorVersion(version) * 100 + minor * 10 + 10
  {
    (version % 100) / 10
  }

  /** Any version written as major, minor and a last digit splits back into that major and minor. */
  lemma VersionDigits(major: nat, minor: nat, last: nat)
    requires minor < 10 && last < 10 && major * 100 + minor * 10 + last < 0x1_0000_0000
    ensures MajorVersion(major * 100 + minor * 10 + last) == major
    ensures MinorVersion(major * 100 + minor * 10 + last) == minor
  {
    var v := major * 100 + minor * 10 + last;
    var M := MajorVersion(v);
    assert M * 100 <= v < M * 100 + 100;
    var m := MinorVersion(v);
    assert M * 100 + m * 10 <= v < M * 100 + m * 10 + 10;
  }

  /** The default version, 450, asks SDL for OpenGL 4.5. */
  lemma DefaultVersionIsFourFive()
    ensures MajorVersion(DEFAULT_VERSION) == 4 && MinorVersion(DEFAULT_VERSION) == 5
  {
    VersionDigits(4, 5, 0);
  }

  /** One SDL_GL_SetAttribute call: the attribute and the value passed with it. */
  datatype Step = Step(attribute: Attribute, value: int)

  /** The four calls createContext makes, in order. */
  function Steps(version: u32, profile: Profile, flags: Flag): (s: seq<Step>)
    ensures |s| == 4
    ensures s[0] == Step(ContextMajorVersion, MajorVersion(version))
    ensures s[1] == Step(ContextMinorVersion, MinorVersion(version))
    ensures s[2] == Step(ContextProfileMask, profile.Mask())
    ensures s[3] == Step(ContextFlags, flags.Bits())
  {
    [ Step(ContextMajorVersion, version / 100),
      Step(ContextMinorVersion, (version % 100) / 10),
      Step(ContextProfileMask, profile.Mask()),
      Step(ContextFlags, flags.Bits()) ]
  }

  /** The setters' evident intent: carry on when SDL_GL_SetAttribute returns 0, SDL's success code. */
  predicate Proceeds(a: Attribute, status: int) {
    status == 0
  }

  /**
   * The setters as written: the flags setter returns when SDL reports a
   * FAILURE (a negative status) and throws when SDL succeeds.
   */
  predicate ProceedsAsWritten(a: Attribute, status: int): (b: bool)
    ensures a != ContextFlags ==> (b <==> Proceeds(a, status))
    ensures a == ContextFlags && b ==> !Proceeds(a, status)
  {
    if a == ContextFlags then status < 0 else status == 0
  }

  /**
   * Makes the calls of `steps` in order, SDL's status for each coming from
   * `sdl`; the first call that `proceeds` rejects throws CreateContext with
   * that attribute's label and SDL's error text `err`.
   */
  function RunSteps(steps: seq<Step>, sdl: (Attribute, int) -> int, err: string,
                    proceeds: (Attribute, int) -> bool): (o: Outcome<Exception>)
    ensures o.Pass? <==> forall i :: 0 <= i < |steps| ==> proceeds(steps[i].attribute, sdl(steps[i].attribute, steps[i].value))
  {
    if steps == [] then Pass
    else if !proceeds(steps[0].attribute, sdl(steps[0].attribute, steps[0].value)) then
      Fail(MakeCreateContext(Label(steps[0].attribute) + " - " + err))
    else
      assert forall i :: 1 <= i < |steps| ==> steps[i] == steps[1..][i - 1];
      RunSteps(steps[1..], sdl, err, proceeds)
  }

  /** The attribute calls of createContext with the flags test corrected. */
  function Configure(version: u32, profile: Profile, flags: Flag, sdl: (Attribute, int) -> int, err: string): (o: Outcome<Exception>)
    ensures o.Pass? <==> forall s <- Steps(version, profile, flags) :: sdl(s.attribute, s.value) == 0
  {
    RunSteps(Steps(version, profile, flags), sdl, err, Proceeds)
  }

  /** The attribute calls of createContext as the source writes them. */
  function ConfigureAsWritten(version: u32, profile: Profile, flags: Flag, sdl: (Attribute, int) -> int, err: string): (o: Outcome<Exception>)
    ensures o.Pass? ==> sdl(ContextFlags, flags.Bits()) < 0
  {
    RunSteps(Steps(version, profile, flags), sdl, err, ProceedsAsWritten)
  }

  /** RunSteps stops at the first step `proceeds` rejects and reports that step's attribute. */
  lemma {:induction false} RunStepsStopsAtFirstFailure(steps: seq<Step>, sdl: (Attribute, int) -> int, err: string,
                                                      proceeds: (Attribute, int) -> bool, i: nat)
    requires i < |steps|
    requires forall j :: 0 <= j < i ==> proceeds(steps[j].attribute, sdl(steps[j].attribute, steps[j].value))
    requires !proceeds(steps[i].attribute, sdl(steps[i].attribute, steps[i].value))
    ensures RunSteps(steps, sdl, err, proceeds) == Fail(MakeCreateContext(Label(steps[i].attribute) + " - " + err))
  {
    if i > 0 {
      assert proceeds(steps[0].attribute, sdl(steps[0].attribute, steps[0].value));
      assert forall j :: 0 <= j < i - 1 ==> steps[1..][j] == steps[j + 1];
      RunStepsStopsAtFirstFailure(steps[1..], sdl, err, proceeds, i - 1);
    }
  }

  /**
   * With a driver that accepts every attribute, the corrected calls go
   * through, while the calls as written throw the flags error: as written,
   * createContext can never create a context on a working driver.
   */
  lemma AsWrittenRejectsWorkingDriver(version: u32, profile: Profile, flags: Flag, sdl: (Attribute, int) -> int, err: string)
    requires forall a, v :: sdl(a, v) == 0
    ensures Configure(version, profile, flags, sdl, err) == Pass
    ensures ConfigureAsWritten(version, profile, flags, sdl, err) == Fail(MakeCreateContext("SDL_GL_CONTEXT_FLAGS - " + err))
  {
    var steps := Steps(version, profile, flags);
    assert Label(steps[3].attribute) == "SDL_GL_CONTEXT_FLAGS";
    assert "SDL_GL_CONTEXT_FLAGS" + " - " == "SDL_GL_CONTEXT_FLAGS - ";
    AsWrittenStopsAtFlags(steps, sdl, err);
  }

  /** The flags step is the first one the as-written test rejects when every call returns 0. */
  lemma AsWrittenStopsAtFlags(steps: seq<Step>, sdl: (Attribute, int) -> int, err: string)
    requires |steps| == 4 && steps[3].attribute == ContextFlags
    requires forall j :: 0 <= j < 3 ==> steps[j].attribute != ContextFlags
    requires forall j :: 0 <= j < 4 ==> sdl(steps[j].attribute, steps[j].value) == 0
    ensures RunSteps(steps, sdl, err, ProceedsAsWritten) == Fail(MakeCreateContext(Label(steps[3].attribute) + " - " + err))
  {
    RunStepsStopsAtFirstFailure(steps, sdl, err, ProceedsAsWritten, 3);
  }
}
