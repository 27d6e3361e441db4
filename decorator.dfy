/**
 * The `logf` decorator of logfunc/main.py: options resolved once when the
 * decorator is built, then, on every call, an optional enter line, the
 * call itself and one exit line.
 */
module Decorator {
  import opened Wrappers
  import opened Values
  import opened Sink

  /** The arguments of `logf(...)`; `measureTime` is the `measure_time` entry of `**kwargs`, if any. */
  datatype Options = Options(
    level: Level,
    logArgs: bool,
    logReturn: bool,
    maxStrLen: Option<int>,
    logExecTime: bool,
    singleMsg: bool,
    usePrint: bool,
    useLogger: Option<string>,
    measureTime: Option<bool>)

  /**
   * What `get_evar` found for the three options it is asked about: `None`
   * when the environment does not override the option.
   */
  datatype Overrides = Overrides(
    maxStrLen: Option<Option<int>>,
    singleMsg: Option<bool>,
    usePrint: Option<bool>)

  /** The settings a decorated function runs with, fixed when the decorator is built. */
  datatype Settings = Settings(
    level: Level,
    logArgs: bool,
    logReturn: bool,
    maxStrLen: Option<int>,
    logExecTime: bool,
    singleMsg: bool,
    usePrint: bool,
    useLogger: Option<string>)

  /**
   * `logf(...)`: the environment overrides `max_str_len`, `single_msg` and
   * `use_print`; a `measure_time` keyword, when given, replaces
   * `log_exec_time`; the other options are kept as passed.
   */
  function Logf(o: Options, env: Overrides): (s: Settings)
    ensures s.maxStrLen == (if env.maxStrLen.Some? then env.maxStrLen.value else o.maxStrLen)
    ensures s.singleMsg == (if env.singleMsg.Some? then env.singleMsg.value else o.singleMsg)
    ensures s.usePrint == (if env.usePrint.Some? then env.usePrint.value else o.usePrint)
    ensures s.logExecTime == (if o.measureTime.Some? then o.measureTime.value else o.logExecTime)
    ensures s.level == o.level && s.logArgs == o.logArgs && s.logReturn == o.logReturn
    ensures s.useLogger == o.useLogger
  {
    Settings(
      o.level, o.logArgs, o.logReturn,
      env.maxStrLen.GetOr(o.maxStrLen),
      o.measureTime.GetOr(o.logExecTime),
      env.singleMsg.GetOr(o.singleMsg),
      env.usePrint.GetOr(o.usePrint),
      o.useLogger)
  }

  /** Without overrides and without `measure_time`, every option is used as passed. */
  lemma LogfNoOverrides(o: Options)
    requires o.measureTime.None?
    ensures var s := Logf(o, Overrides(None, None, None));
            s == Settings(o.level, o.logArgs, o.logReturn, o.maxStrLen, o.logExecTime,
                          o.singleMsg, o.usePrint, o.useLogger)
  {
  }

  /** The start time: the clock reading when execution time is logged, else `None`. */
  function StartTime(s: Settings, isAsync: bool, wallClock: real, loopClock: real): (t: Option<real>)
    ensures t.None? <==> !s.logExecTime
    ensures t.Some? ==> t.value == if isAsync then loopClock else wallClock
  {
    if s.logExecTime then Some(if isAsync then loopClock else wallClock) else None
  }

  /**
   * What `func_args_str` gives: the enter line's text, or the exception it
   * raises. It is only asked for outside single-message mode.
   */
  type EnterText = Result<string, Exc>

  /**
   * What `func_return_str` gives for a result and a start time: the exit
   * line's text, or the exception it raises.
   */
  type ExitBuilder = (Value, Option<real>) -> Result<string, Exc>

  /**
   * The lines one call emits: the enter line unless in single-message mode,
   * then whatever the callable logs, then, after a normal return, the exit
   * line built from the result and the start time. Nothing handles an
   * exception from either builder: a failing enter text ends the call
   * before the callable runs, a failing exit text leaves out the exit line.
   */
  function CallLines(s: Settings, enterMsg: EnterText, call: Run,
                     exitMsg: ExitBuilder, startTime: Option<real>): seq<Line>
  {
    if !s.singleMsg && enterMsg.Failure? then []
    else
      (if s.singleMsg then [] else [Line(s.level, enterMsg.value)])
      + call.emitted
      + match call.outcome
        case Raised(_) => []
        case Returned(v) =>
          match exitMsg(v, startTime)
          case Success(t) => [Line(s.level, t)]
          case Failure(_) => []
  }

  /**
   * How one call ends: the exception of the enter text, of the callable or
   * of the exit text, whichever comes first; otherwise the callable's result.
   */
  function CallOutcome(s: Settings, enterMsg: EnterText, call: Run,
                       exitMsg: ExitBuilder, startTime: Option<real>): Outcome
  {
    if !s.singleMsg && enterMsg.Failure? then Raised(enterMsg.error)
    else
      match call.outcome
      case Raised(e) => Raised(e)
      case Returned(v) =>
        match exitMsg(v, startTime)
        case Success(_) => Returned(v)
        case Failure(e) => Raised(e)
  }

  /**
   * One call of the decorated function, the sync and the async body alike
   * (they differ only in the clock that gives the start time). `enterMsg`
   * is what `func_args_str` builds and `exitMsg` stands for
   * `func_return_str`; both are outside this model.
   */
  method Invoke(s: Settings, isAsync: bool, enterMsg: EnterText, call: Run,
                exitMsg: ExitBuilder, wallClock: real, loopClock: real, log: Log)
    returns (out: Outcome, startTime: Option<real>)
    modifies log
    ensures startTime == StartTime(s, isAsync, wallClock, loopClock)
    ensures log.lines == old(log.lines) + CallLines(s, enterMsg, call, exitMsg, startTime)
    ensures out == CallOutcome(s, enterMsg, call, exitMsg, startTime)
  {
    if isAsync {
      startTime := if s.logExecTime then Some(loopClock) else None;
    } else {
      startTime := if s.logExecTime then Some(wallClock) else None;
    }
    if !s.singleMsg {
      if enterMsg.Failure? {
        out := Raised(enterMsg.error);
        return;
      }
      log.Emit(Line(s.level, enterMsg.value));
    }
    log.EmitAll(call.emitted);
    if call.outcome.Raised? {
      out := call.outcome;
      return;
    }
    var result := call.outcome.value;
    var exit := exitMsg(result, startTime);
    if exit.Failure? {
      out := Raised(exit.error);
      return;
    }
    log.Emit(Line(s.level, exit.value));
    out := Returned(result);
  }

  /**
   * A call returns the callable's result exactly when the enter text (if
   * asked for), the callable and the exit text all succeed.
   */
  lemma CallReturnsIff(s: Settings, enterMsg: EnterText, call: Run,
                       exitMsg: ExitBuilder, startTime: Option<real>)
    ensures CallOutcome(s, enterMsg, call, exitMsg, startTime).Returned?
        <==> (s.singleMsg || enterMsg.Success?) && call.outcome.Returned?
             && exitMsg(call.outcome.value, startTime).Success?
    ensures CallOutcome(s, enterMsg, call, exitMsg, startTime).Returned?
        ==> CallOutcome(s, enterMsg, call, exitMsg, startTime) == call.outcome
  {
  }

  /**
   * A call whose builders succeed and whose callable returns emits one line
   * in single-message mode and two otherwise (besides the callable's own),
   * the enter line before the callable's lines and the exit line last.
   */
  lemma CallLinesReturned(s: Settings, enterMsg: EnterText, inner: seq<Line>, v: Value,
                          exitMsg: ExitBuilder, startTime: Option<real>)
    requires s.singleMsg || enterMsg.Success?
    requires exitMsg(v, startTime).Success?
    ensures var lines := CallLines(s, enterMsg, Run(inner, Returned(v)), exitMsg, startTime);
            var k := if s.singleMsg then 0 else 1;
            && |lines| == k + |inner| + 1
            && (!s.singleMsg ==> lines[0] == Line(s.level, enterMsg.value))
            && lines[k..k + |inner|] == inner
            && lines[|lines| - 1] == Line(s.level, exitMsg(v, startTime).value)
  {
  }

  /** A call whose callable raises emits no exit line and re-raises. */
  lemma CallLinesRaised(s: Settings, enterMsg: EnterText, inner: seq<Line>, e: Exc,
                        exitMsg: ExitBuilder, startTime: Option<real>)
    requires s.singleMsg || enterMsg.Success?
    ensures CallLines(s, enterMsg, Run(inner, Raised(e)), exitMsg, startTime)
         == (if s.singleMsg then [] else [Line(s.level, enterMsg.value)]) + inner
    ensures CallOutcome(s, enterMsg, Run(inner, Raised(e)), exitMsg, startTime) == Raised(e)
  {
    var head: seq<Line> := if s.singleMsg then [] else [Line(s.level, enterMsg.value)];
    assert head + inner + [] == head + inner;
  }

  /**
   * When `func_args_str` raises, nothing is logged, the callable does not
   * run, and its exception propagates.
   */
  lemma CallEnterFails(s: Settings, e: Exc, call: Run, exitMsg: ExitBuilder, startTime: Option<real>)
    requires !s.singleMsg
    ensures CallLines(s, Failure(e), call, exitMsg, startTime) == []
    ensures CallOutcome(s, Failure(e), call, exitMsg, startTime) == Raised(e)
  {
  }

  /**
   * When `func_return_str` raises after the callable returned, the lines up
   * to the callable's are logged, no exit line is, and the wrapper raises
   * instead of returning the result.
   */
  lemma CallExitFails(s: Settings, enterMsg: EnterText, inner: seq<Line>, v: Value, e: Exc,
                      exitMsg: ExitBuilder, startTime: Option<real>)
    requires s.singleMsg || enterMsg.Success?
    requires exitMsg(v, startTime) == Failure(e)
    ensures CallLines(s, enterMsg, Run(inner, Returned(v)), exitMsg, startTime)
         == (if s.singleMsg then [] else [Line(s.level, enterMsg.value)]) + inner
    ensures CallOutcome(s, enterMsg, Run(inner, Returned(v)), exitMsg, startTime) == Raised(e)
  {
    var head: seq<Line> := if s.singleMsg then [] else [Line(s.level, enterMsg.value)];
    assert head + inner + [] == head + inner;
  }

  /**
   * With a callable that logs nothing and builders that succeed, a
   * successful call emits exactly one line in single-message mode and two
   * otherwise.
   */
  lemma CallLineCount(s: Settings, enterMsg: EnterText, v: Value,
                      exitMsg: ExitBuilder, startTime: Option<real>)
    requires s.singleMsg || enterMsg.Success?
    requires exitMsg(v, startTime).Success?
    ensures |CallLines(s, enterMsg, Run([], Returned(v)), exitMsg, startTime)| == if s.singleMsg then 1 else 2
  {
    CallLinesReturned(s, enterMsg, [], v, exitMsg, startTime);
  }
}
