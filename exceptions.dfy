/**
 * The exception hierarchy of the wrapper. Each C++ class becomes one
 * variant holding the fields that class declares or inherits; the C++
 * constructors become the Make* functions, and the virtual `what()`
 * becomes `What`, which dispatches on the variant as the overrides do.
 */
module Exceptions {

  datatype Exception =
      /** sdl2cpp::Exception */
    | BaseException(message: string)
      /** sdl2cpp::ClassException, and sdl2cpp::WindowException, which only fixes className */
    | ClassException(className: string, message: string)
      /** sdl2cpp::WindowFunctionException, and sdl2cpp::CreateContext, which only fixes the arguments */
    | WindowFunctionException(className: string, functionName: string, message: string)

  /** Exception::decorator(). */
  function Decorator(): string { "SDL2CPP" }

  /** `a` begins with `b`. */
  predicate StartsWith(a: string, b: string) { |b| <= |a| && a[..|b|] == b }

  /** `a` ends with `b`. */
  predicate EndsWith(a: string, b: string) { |b| <= |a| && a[|a| - |b|..] == b }

  /**
   * The virtual what(): the decorator, the class and function names the
   * exception carries, and the message last.
   */
  function What(e: Exception): (s: string)
    ensures StartsWith(s, Decorator())
    ensures EndsWith(s, " - " + e.message)
  {
    match e
    case BaseException(m) =>
      Decorator() + " - " + m
    case ClassException(c, m) =>
      Decorator() + "::" + c + " - " + m
    case WindowFunctionException(c, f, m) =>
      Decorator() + "::" + c + "::" + f + "() - " + m
  }

  /** Exception(msg). */
  function MakeException(msg: string): (e: Exception)
    ensures e.message == msg
    ensures What(e) == "SDL2CPP - " + msg
  {
    BaseException(msg)
  }

  /** ClassException(className, msg). */
  function MakeClassException(className: string, msg: string): (e: Exception)
    ensures e.ClassException? && e.className == className && e.message == msg
    ensures What(e) == "SDL2CPP::" + className + " - " + msg
  {
    ClassException(className, msg)
  }

  /** WindowException(w): a ClassException whose class name is always "Window". */
  function MakeWindowException(w: string): (e: Exception)
    ensures e.ClassException? && e.className == "Window" && e.message == w
    ensures What(e) == "SDL2CPP::Window - " + w
  {
    MakeClassException("Window", w)
  }

  /**
   * WindowFunctionException(fceName, msg): built on WindowException(msg),
   * so its class name is "Window" too.
   */
  function MakeWindowFunctionException(fceName: string, msg: string): (e: Exception)
    ensures e.WindowFunctionException?
    ensures e.className == "Window" && e.functionName == fceName && e.message == msg
    ensures What(e) == "SDL2CPP::Window::" + fceName + "() - " + msg
  {
    var base := MakeWindowException(msg);
    WindowFunctionException(base.className, fceName, base.message)
  }

  /**
   * CreateContext(w). The constructor passes its argument as the FUNCTION
   * name and the literal "createContext" as the message, so the driver's
   * text appears where the function name belongs.
   */
  function MakeCreateContext(w: string): (e: Exception)
    ensures e.WindowFunctionException? && e.functionName == w && e.message == "createContext"
    ensures What(e) == "SDL2CPP::Window::" + w + "() - " + "createContext"
  {
    MakeWindowFunctionException(w, "createContext")
  }

  /**
   * The WindowFunctionException built by makeCurrent and setFullscreen
   * cannot be told apart, by its what() text, from a ClassException whose
   * class name already holds "Window::<function>()": the text does not
   * determine the exception.
   */
  lemma WhatIsNotInjective(f: string, m: string)
    ensures var wf := MakeWindowFunctionException(f, m);
            var ce := MakeClassException("Window::" + f + "()", m);
            wf != ce && What(wf) == What(ce)
  {
    var wf := MakeWindowFunctionException(f, m);
    var ce := MakeClassException("Window::" + f + "()", m);
    assert What(wf) == "SDL2CPP::Window::" + f + "() - " + m;
    assert What(ce) == "SDL2CPP::" + ("Window::" + f + "()") + " - " + m;
    assert "SDL2CPP::" + ("Window::" + f + "()") + " - " + m == "SDL2CPP::Window::" + f + "() - " + m;
  }
}
