/**
 * logfunc/msgs.py: the exit line of a call. Choosing the template is kept
 * apart from rendering it.
 */
module Msgs {
  import opened Wrappers
  import opened StrFormat
  import opened Config

  /** The label of the call: the name, preceded by the call id when there is one. */
  function IdName(funcName: string, funcId: Option<string>): (r: string)
    ensures funcId.None? ==> r == funcName
    ensures funcId.Some? ==> r == funcId.value + " " + funcName
    ensures |r| >= |funcName| && r[|r| - |funcName|..] == funcName
  {
    match funcId
    case None => funcName
    case Some(id) => id + " " + funcName
  }

  /** The three exit templates. */
  datatype ExitTemplate = Single | Exit | ExitNoReturn

  /** Python truthiness of an optional string: `None` and `''` are false. */
  predicate Truthy(s: Option<string>) {
    s.Some? && s.value != ""
  }

  /** `str.format` of an optional string: `None` prints as `None`. */
  function FormatValue(s: Option<string>): string {
    match s
    case None => "None"
    case Some(v) => v
  }

  /**
   * The `if single_msg / elif result_str / else` chain: single-message mode
   * wins whatever the result; otherwise a non-empty result selects `exit`.
   */
  function SelectExit(singleMsg: bool, resultStr: Option<string>): (t: ExitTemplate)
    ensures t == Single <==> singleMsg
    ensures t == Exit <==> !singleMsg && Truthy(resultStr)
    ensures t == ExitNoReturn <==> !singleMsg && !Truthy(resultStr)
  {
    if singleMsg then Single
    else if Truthy(resultStr) then Exit
    else ExitNoReturn
  }

  // The keyword arguments each branch of `exit_msg` passes to `format`.

  function SingleKwargs(funcName: string, execTime: string, argsStr: string, resultStr: Option<string>): map<string, string> {
    map["func_name" := funcName, "exec_time" := execTime, "args_str" := argsStr,
        "result" := FormatValue(resultStr)]
  }

  function ExitKwargs(idname: string, execTime: string, argsStr: string, resultStr: Option<string>): map<string, string> {
    map["id_func_name" := idname, "exec_time" := execTime, "args_str" := argsStr,
        "result" := FormatValue(resultStr)]
  }

  function ExitNoReturnKwargs(idname: string, execTime: string): map<string, string> {
    map["id_func_name" := idname, "exec_time" := execTime]
  }

  /** `exit_msg(...)` exactly as written: the label goes in under `id_func_name`. */
  function ExitMsg(singleMsg: bool, funcName: string, execTime: string, argsStr: string,
                   resultStr: Option<string>, funcId: Option<string>): (r: Result<string, FormatError>)
    ensures r.Success? <==> singleMsg
    ensures r.Failure? ==> r.error == KeyError("func_name")
  {
    var idname := IdName(funcName, funcId);
    match SelectExit(singleMsg, resultStr)
    case Single => Render(MSG_FORMATS.single, SingleKwargs(funcName, execTime, argsStr, resultStr))
    case Exit => Render(MSG_FORMATS.exit, ExitKwargs(idname, execTime, argsStr, resultStr))
    case ExitNoReturn => Render(MSG_FORMATS.exit_no_return, ExitNoReturnKwargs(idname, execTime))
  }

  /** In single-message mode the line carries time, arguments and result, and no id. */
  lemma ExitMsgSingle(funcName: string, execTime: string, argsStr: string,
                      resultStr: Option<string>, funcId: Option<string>)
    ensures ExitMsg(true, funcName, execTime, argsStr, resultStr, funcId)
         == Success(funcName + "() " + execTime + "s | " + argsStr + " | " + FormatValue(resultStr))
  {
    RenderSingle(funcName, execTime, argsStr, FormatValue(resultStr));
  }

  /**
   * Outside single-message mode the call as written always fails: both
   * templates start with `{func_name}`, and that key is not passed.
   */
  lemma ExitMsgMissingKey(funcName: string, execTime: string, argsStr: string,
                          resultStr: Option<string>, funcId: Option<string>)
    ensures ExitMsg(false, funcName, execTime, argsStr, resultStr, funcId)
         == Failure(KeyError("func_name"))
  {
    assert EXIT_MSG[0] == EXIT_MSG_NO_RETURN[0] == Field("func_name");
  }

  /**
   * `exit_msg` as its templates require it: the label goes in under
   * `func_name`.
   */
  function ExitMsgFixed(singleMsg: bool, funcName: string, execTime: string, argsStr: string,
                        resultStr: Option<string>, funcId: Option<string>): (r: Result<string, FormatError>)
    ensures r.Success?
  {
    var idname := IdName(funcName, funcId);
    match SelectExit(singleMsg, resultStr)
    case Single => Render(MSG_FORMATS.single, SingleKwargs(funcName, execTime, argsStr, resultStr))
    case Exit =>
      Render(MSG_FORMATS.exit, map["func_name" := idname, "exec_time" := execTime,
                                   "args_str" := argsStr, "result" := FormatValue(resultStr)])
    case ExitNoReturn =>
      Render(MSG_FORMATS.exit_no_return, map["func_name" := idname, "exec_time" := execTime])
  }

  /**
   * The corrected exit line, case by case: `label() Ts | result` for a
   * non-empty result and `label() Ts` otherwise; single mode is unchanged.
   * It never fails.
   */
  lemma ExitMsgFixedLines(singleMsg: bool, funcName: string, execTime: string, argsStr: string,
                          resultStr: Option<string>, funcId: Option<string>)
    ensures var r := ExitMsgFixed(singleMsg, funcName, execTime, argsStr, resultStr, funcId);
            var tag := IdName(funcName, funcId);
            && (singleMsg ==> r == ExitMsg(singleMsg, funcName, execTime, argsStr, resultStr, funcId))
            && (!singleMsg && Truthy(resultStr) ==>
                  r == Success(tag + "() " + execTime + "s | " + resultStr.value))
            && (!singleMsg && !Truthy(resultStr) ==> r == Success(tag + "() " + execTime + "s"))
  {
    var tag := IdName(funcName, funcId);
    if !singleMsg && Truthy(resultStr) {
      var kw := map["func_name" := tag, "exec_time" := execTime, "result" := resultStr.value];
      var more := map["func_name" := tag, "exec_time" := execTime,
                      "args_str" := argsStr, "result" := FormatValue(resultStr)];
      RenderExit(tag, execTime, resultStr.value);
      RenderExtraKeys(EXIT_MSG, kw, more);
    } else if !singleMsg {
      RenderExitNoReturn(tag, execTime);
    }
  }
}
