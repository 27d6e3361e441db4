/**
 * The Python values the logging core handles: exceptions, arbitrary objects
 * whose `str()` may raise, and the `level` argument of the decorators.
 */
module Values {
  import opened Wrappers

  /**
   * A Python exception: its type name; whether its class derives from
   * `Exception` (false for `KeyboardInterrupt`, `SystemExit` and
   * `asyncio.CancelledError`, which derive only from `BaseException`); and
   * what `str()` of the exception object itself does.
   */
  datatype Exc = Exc(typeName: string, isException: bool, asStr: Conversion)

  /** What Python's `str()` does on an object that is not a `str`. */
  datatype Conversion = Converts(text: string) | Raises(exc: Exc)

  /** A built-in exception deriving from `Exception`, whose `str()` is `message`. */
  function StdExc(typeName: string, message: string): Exc {
    Exc(typeName, true, Converts(message))
  }

  /**
   * A value handed to the core: either a `str`, or any other object
   * (a tuple of arguments, a dict of keyword arguments, a return value)
   * together with the behaviour of its own string conversion.
   */
  datatype Value = Str(s: string) | Obj(conversion: Conversion)

  /** Python's `str(v)`: a `str` is itself, anything else converts or raises. */
  function PyStr(v: Value): (r: Result<string, Exc>)
    ensures v.Str? ==> r == Success(v.s)
    ensures v.Obj? ==> (r.Failure? <==> v.conversion.Raises?)
    ensures v.Obj? && v.conversion.Converts? ==> r == Success(v.conversion.text)
    ensures v.Obj? && v.conversion.Raises? ==> r == Failure(v.conversion.exc)
  {
    match v
    case Str(s) => Success(s)
    case Obj(Converts(t)) => Success(t)
    case Obj(Raises(e)) => Failure(e)
  }

  /** The `level` argument: `None`, a level name, or a number. */
  datatype Level = Unset | Name(name: string) | Number(n: int)
}
