/**
 * The older decorator of logfunc/__init__.py: its own `trunc_str`, level
 * conversion at decoration time, and a wrapper that logs an enter line,
 * calls the function and logs one of four exit lines.
 */
module Legacy {
  import opened Wrappers
  import opened Values
  import opened PyText
  import opened Sink
  import Utils

  /**
   * The older `trunc_str(string, max_length)`: a string longer than the
   * limit is cut to `max_length - 3` characters (Python slicing) and marked
   * with `...`, so that the result fits the limit.
   */
  function LegacyTruncStr(s: string, maxLength: int): (r: string)
    ensures |s| <= maxLength ==> r == s
    ensures |s| > maxLength ==> r == Prefix(s, maxLength - 3) + "..."
    ensures |s| > maxLength >= 3 ==> |r| == maxLength && r == s[..maxLength - 3] + "..."
  {
    if |s| > maxLength then Prefix(s, maxLength - 3) + "..." else s
  }

  /** For a limit of at least 3 the older version never exceeds the limit. */
  lemma LegacyTruncStrFits(s: string, maxLength: int)
    requires maxLength >= 3
    ensures |LegacyTruncStr(s, maxLength)| <= maxLength
  {
  }

  /**
   * The two versions side by side, for a limit `m >= 3`: they agree below
   * the limit, at the limit only the newer one adds `...`, and above it
   * the newer one keeps three characters more.
   */
  lemma TruncStrVersions(s: string, m: int)
    requires m >= 3
    ensures |s| < m ==> Utils.TruncStr(Str(s), Some(m)) == Success(LegacyTruncStr(s, m)) && LegacyTruncStr(s, m) == s
    ensures |s| == m ==> LegacyTruncStr(s, m) == s && Utils.TruncStr(Str(s), Some(m)) == Success(s + "...")
    ensures |s| > m ==> |LegacyTruncStr(s, m)| == m && |Utils.TruncStr(Str(s), Some(m)).value| == m + 3
    ensures |s| > m ==> Utils.TruncStr(Str(s), Some(m - 3)) == Success(LegacyTruncStr(s, m))
  {
    if |s| == m {
      Utils.TruncStrAtLimit(s);
    }
  }

  /** What `int(None)` raises. */
  const INT_OF_NONE := StdExc("TypeError", "int() argument must be a string, a bytes-like object or a real number, not 'NoneType'")

  /**
   * The older level conversion, done once when the decorator is built: a
   * name is looked up upper-cased, anything else goes through `int()`,
   * which raises on `None`.
   */
  function LegacyLevelInt(level: Level): (r: Result<Result<int, string>, Exc>)
    ensures r.Failure? <==> level.Unset?
    ensures level.Name? ==> r == Success(Utils.GetLevelName(Upper(level.name)))
    ensures level.Number? ==> r == Success(Success(level.n))
  {
    match level
    case Name(s) => Success(Utils.GetLevelName(Upper(s)))
    case Number(n) => Success(Success(n))
    case Unset => Failure(INT_OF_NONE)
  }

  /** Both conversions agree except on `None`, which only the newer one accepts (as DEBUG). */
  lemma LevelVersions(level: Level)
    ensures level.Unset? ==> LegacyLevelInt(level).Failure? && Utils.LogLevelInt(level) == Success(10)
    ensures !level.Unset? ==> LegacyLevelInt(level) == Success(Utils.LogLevelInt(level))
  {
  }

  /** The options of the older `logf`, with its defaults. */
  datatype LegacyOptions = LegacyOptions(
    level: Level, logArgs: bool, logReturn: bool, maxStrLen: int, measureTime: bool)

  const LEGACY_DEFAULTS := LegacyOptions(Number(10), true, true, 1000, true)

  /**
   * The enter line: `name() | <str(args)[:max]> <str(kwargs)[:max]>` (a
   * plain cut, no `...`) or just `name()`; a failing `str()` propagates,
   * the arguments' before the keyword arguments'.
   */
  function LegacyEnterText(name: string, args: Value, kwargs: Value, logArgs: bool, maxStrLen: int): (r: Result<string, Exc>)
    ensures !logArgs ==> r == Success(name + "()")
    ensures logArgs && PyStr(args).Success? && PyStr(kwargs).Success? ==>
              r == Success(name + "() | " + Prefix(PyStr(args).value, maxStrLen) + " " + Prefix(PyStr(kwargs).value, maxStrLen))
    ensures logArgs && PyStr(args).Failure? ==> r == Failure(PyStr(args).error)
    ensures logArgs && PyStr(args).Success? && PyStr(kwargs).Failure? ==> r == Failure(PyStr(kwargs).error)
  {
    if !logArgs then Success(name + "()")
    else
      match PyStr(args)
      case Failure(e) => Failure(e)
      case Success(a) =>
        match PyStr(kwargs)
        case Failure(e) => Failure(e)
        case Success(k) => Success(name + "() | " + Prefix(a, maxStrLen) + " " + Prefix(k, maxStrLen))
  }

  /**
   * The exit line, in the four cases of the flags; `None` when neither the
   * result nor the time is logged. The time text is `execTime` followed by
   * `s`. Only the cases that log the result call `str()` on it.
   */
  function LegacyExitText(name: string, result: Value, execTime: string,
                          logReturn: bool, measureTime: bool, maxStrLen: int): (r: Result<Option<string>, Exc>)
    ensures r.Failure? <==> logReturn && PyStr(result).Failure?
    ensures r.Success? && logReturn && measureTime ==>
              r.value == Some(name + "() " + execTime + "s | " + LegacyTruncStr(PyStr(result).value, maxStrLen))
    ensures r.Success? && logReturn && !measureTime ==>
              r.value == Some(name + "() | " + LegacyTruncStr(PyStr(result).value, maxStrLen))
    ensures !logReturn && measureTime ==> r == Success(Some(name + "() " + execTime + "s"))
    ensures !logReturn && !measureTime ==> r == Success(None)
  {
    if logReturn then
      match PyStr(result)
      case Failure(e) => Failure(e)
      case Success(s) =>
        var resultStr := LegacyTruncStr(s, maxStrLen);
        if measureTime then Success(Some(name + "() " + execTime + "s | " + resultStr))
        else Success(Some(name + "() | " + resultStr))
    else if measureTime then Success(Some(name + "() " + execTime + "s"))
    else Success(None)
  }

  /** The lines one call of the older wrapper emits, after its own conversion of `level`. */
  function LegacyLines(o: LegacyOptions, levelInt: int, name: string, args: Value, kwargs: Value,
                       call: Run, execTime: string): seq<Line>
  {
    match LegacyEnterText(name, args, kwargs, o.logArgs, o.maxStrLen)
    case Failure(_) => []
    case Success(enter) =>
      [Line(Number(levelInt), enter)] + call.emitted +
      match call.outcome
      case Raised(_) => []
      case Returned(v) =>
        match LegacyExitText(name, v, execTime, o.logReturn, o.measureTime, o.maxStrLen)
        case Success(Some(t)) => [Line(Number(levelInt), t)]
        case _ => []
  }

  /** How one call of the older wrapper ends. */
  function LegacyOutcome(o: LegacyOptions, name: string, args: Value, kwargs: Value,
                         call: Run, execTime: string): Outcome
  {
    match LegacyEnterText(name, args, kwargs, o.logArgs, o.maxStrLen)
    case Failure(e) => Raised(e)
    case Success(_) =>
      match call.outcome
      case Raised(e) => Raised(e)
      case Returned(v) =>
        match LegacyExitText(name, v, execTime, o.logReturn, o.measureTime, o.maxStrLen)
        case Failure(e) => Raised(e)
        case Success(_) => Returned(v)
  }

  /**
   * The inner `wrapper` of the older `logf`: build and log the enter line,
   * call the function, build and (unless it is `None`) log the exit line,
   * return the result. `levelInt` is `o.level` as converted when the
   * decorator was built (a conversion that raises, or that gives a name
   * instead of a number, is outside this method); `execTime` is the
   * formatted duration.
   */
  method LegacyCall(o: LegacyOptions, levelInt: int, name: string, args: Value, kwargs: Value,
                    call: Run, execTime: string, log: Log) returns (out: Outcome)
    requires LegacyLevelInt(o.level) == Success(Success(levelInt))
    modifies log
    ensures log.lines == old(log.lines) + LegacyLines(o, levelInt, name, args, kwargs, call, execTime)
    ensures out == LegacyOutcome(o, name, args, kwargs, call, execTime)
  {
    var enter := LegacyEnterText(name, args, kwargs, o.logArgs, o.maxStrLen);
    if enter.Failure? {
      return Raised(enter.error);
    }
    log.Emit(Line(Number(levelInt), enter.value));
    log.EmitAll(call.emitted);
    if call.outcome.Raised? {
      return call.outcome;
    }
    var result := call.outcome.value;
    var exit := LegacyExitText(name, result, execTime, o.logReturn, o.measureTime, o.maxStrLen);
    if exit.Failure? {
      return Raised(exit.error);
    }
    if exit.value.Some? {
      log.Emit(Line(Number(levelInt), exit.value.value));
    }
    out := Returned(result);
  }

  /**
   * A call that returns, with conversions that succeed, emits the enter line
   * first, then the callable's lines, then one exit line when the result or
   * the time is logged; and it returns the callable's result.
   */
  lemma LegacyCallReturns(o: LegacyOptions, levelInt: int, name: string, args: Value, kwargs: Value,
                          v: Value, inner: seq<Line>, execTime: string)
    requires LegacyLevelInt(o.level) == Success(Success(levelInt))
    requires o.logArgs ==> PyStr(args).Success? && PyStr(kwargs).Success?
    requires o.logReturn ==> PyStr(v).Success?
    ensures var lines := LegacyLines(o, levelInt, name, args, kwargs, Run(inner, Returned(v)), execTime);
            && |lines| == 1 + |inner| + (if o.logReturn || o.measureTime then 1 else 0)
            && lines[0] == Line(Number(levelInt), LegacyEnterText(name, args, kwargs, o.logArgs, o.maxStrLen).value)
            && lines[1..1 + |inner|] == inner
    ensures LegacyOutcome(o, name, args, kwargs, Run(inner, Returned(v)), execTime) == Returned(v)
  {
    var exit := LegacyExitText(name, v, execTime, o.logReturn, o.measureTime, o.maxStrLen);
    assert exit.Success?;
    assert exit.value.Some? <==> o.logReturn || o.measureTime;
  }

  /** A call that raises emits only the enter line and the callable's own lines, and re-raises. */
  lemma LegacyCallRaises(o: LegacyOptions, levelInt: int, name: string, args: Value, kwargs: Value,
                         e: Exc, inner: seq<Line>, execTime: string)
    requires LegacyLevelInt(o.level) == Success(Success(levelInt))
    requires LegacyEnterText(name, args, kwargs, o.logArgs, o.maxStrLen).Success?
    ensures LegacyLines(o, levelInt, name, args, kwargs, Run(inner, Raised(e)), execTime)
         == [Line(Number(levelInt), LegacyEnterText(name, args, kwargs, o.logArgs, o.maxStrLen).value)] + inner
    ensures LegacyOutcome(o, name, args, kwargs, Run(inner, Raised(e)), execTime) == Raised(e)
  {
    assert [Line(Number(levelInt), LegacyEnterText(name, args, kwargs, o.logArgs, o.maxStrLen).value)] + inner + []
        == [Line(Number(levelInt), LegacyEnterText(name, args, kwargs, o.logArgs, o.maxStrLen).value)] + inner;
  }

  /**
   * With the older decorator's defaults (arguments, result and time all
   * logged), a call whose conversions succeed emits the enter line, the
   * callable's lines and one exit line `name() Ts | result`, and returns
   * the result.
   */
  lemma LegacyDefaultsReturn(levelInt: int, name: string, args: Value, kwargs: Value,
                             v: Value, inner: seq<Line>, execTime: string)
    requires LegacyLevelInt(LEGACY_DEFAULTS.level) == Success(Success(levelInt))
    requires PyStr(args).Success? && PyStr(kwargs).Success? && PyStr(v).Success?
    ensures var lines := LegacyLines(LEGACY_DEFAULTS, levelInt, name, args, kwargs, Run(inner, Returned(v)), execTime);
            && |lines| == 2 + |inner|
            && lines[|lines| - 1]
               == Line(Number(levelInt), name + "() " + execTime + "s | " + LegacyTruncStr(PyStr(v).value, 1000))
    ensures LegacyOutcome(LEGACY_DEFAULTS, name, args, kwargs, Run(inner, Returned(v)), execTime) == Returned(v)
  {
    LegacyCallReturns(LEGACY_DEFAULTS, levelInt, name, args, kwargs, v, inner, execTime);
  }
}
