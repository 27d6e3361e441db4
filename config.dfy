/**
 * The override keys, the environment snapshot `Env` and the message
 * templates of logfunc/config.py.
 */
module Config {
  import opened Wrappers
  import opened PyText
  import opened StrFormat

  /** The environment variables that may override a decorator option. */
  const EVARS: seq<string> := [
    "LOGF_USE_PRINT",
    "LOGF_SINGLE_MSG",
    "LOGF_MAX_STR_LEN",
    "LOGF_LEVEL",
    "LOGF_LOG_ARGS",
    "LOGF_LOG_RETURN",
    "LOGF_LOG_EXEC_TIME",
    "LOGF_USE_LOGGER",
    "LOGF_STACK_INFO",
    "LOGF_LOG_EXCEPTION",
    "LOGF_SINGLE_EXCEPTION"
  ]

  /** There are eleven override keys and no key is listed twice. */
  lemma EvarsDistinct()
    ensures |EVARS| == 11 && Distinct(EVARS)
  {
  }

  /** What `os.environ.get(key)` gives: the value, or `None` when unset. */
  function EnvironGet(environ: map<string, string>, key: string): Option<string> {
    if key in environ then Some(environ[key]) else None
  }

  /**
   * `Env()`: an object with one attribute per override key, holding the
   * environment's value or `None`. The process environment is passed in.
   */
  class Env {
    var attrs: map<string, Option<string>>

    constructor (environ: map<string, string>)
      ensures attrs.Keys == set k | k in EVARS
      ensures forall k :: k in EVARS ==> attrs[k] == EnvironGet(environ, k)
    {
      var m: map<string, Option<string>> := map[];
      for i := 0 to |EVARS|
        invariant m.Keys == set k | k in EVARS[..i]
        invariant forall k :: k in EVARS[..i] ==> m[k] == EnvironGet(environ, k)
      {
        assert EVARS[..i + 1] == EVARS[..i] + [EVARS[i]];
        m := m[EVARS[i] := EnvironGet(environ, EVARS[i])];
      }
      assert EVARS[..|EVARS|] == EVARS;
      attrs := m;
    }
  }

  // The message templates, as `str.format` reads them.

  const ARGSSTR: Template := [Field("func_args"), Text(" "), Field("func_kwargs")]
  const ENTER_MSG: Template := [Field("func_name"), Text("() | "), Field("args_str")]
  const EXIT_MSG_NO_RETURN: Template := [Field("func_name"), Text("() "), Field("exec_time"), Text("s")]
  const EXIT_MSG: Template :=
    [Field("func_name"), Text("() "), Field("exec_time"), Text("s | "), Field("result")]
  const SINGLE_MSG: Template :=
    [Field("func_name"), Text("() "), Field("exec_time"), Text("s | "), Field("args_str"),
     Text(" | "), Field("result")]
  const ENTER_MSG_NO_ARGS: Template := [Field("func_name"), Text("()")]
  const ERROR_MSG: Template :=
    [Text("ERROR "), Field("func_name"), Text("(): "), Field("exc_type"), Text(" | "), Field("exc_val")]

  /** The class `MSG_FORMATS`: one attribute per template. */
  datatype MsgFormats = MsgFormats(
    argstr: Template,
    enter: Template,
    enter_no_args: Template,
    exit: Template,
    exit_no_return: Template,
    single: Template,
    error: Template)

  const MSG_FORMATS := MsgFormats(
    ARGSSTR, ENTER_MSG, ENTER_MSG_NO_ARGS, EXIT_MSG, EXIT_MSG_NO_RETURN, SINGLE_MSG, ERROR_MSG)

  /** Each attribute of `MSG_FORMATS` is the template of the same name. */
  lemma MsgFormatsFields()
    ensures MSG_FORMATS.argstr == ARGSSTR && MSG_FORMATS.enter == ENTER_MSG
    ensures MSG_FORMATS.enter_no_args == ENTER_MSG_NO_ARGS && MSG_FORMATS.exit == EXIT_MSG
    ensures MSG_FORMATS.exit_no_return == EXIT_MSG_NO_RETURN && MSG_FORMATS.single == SINGLE_MSG
    ensures MSG_FORMATS.error == ERROR_MSG
  {
  }

  /** The field names of the templates can stand between braces. */
  lemma FieldNames()
    ensures FieldName("func_args") && FieldName("func_kwargs") && FieldName("func_name")
    ensures FieldName("args_str") && FieldName("exec_time") && FieldName("result")
    ensures FieldName("exc_type") && FieldName("exc_val")
  {
    SnakeCaseName("func_args");
    SnakeCaseName("func_kwargs");
    SnakeCaseName("func_name");
    SnakeCaseName("args_str");
    SnakeCaseName("exec_time");
    SnakeCaseName("result");
    SnakeCaseName("exc_type");
    SnakeCaseName("exc_val");
  }

  /** The literal text between the fields holds no brace. */
  lemma TemplateTexts()
    ensures NoBraces(" ") && NoBraces("() | ") && NoBraces("()") && NoBraces("() ")
    ensures NoBraces("s") && NoBraces("s | ") && NoBraces(" | ") && NoBraces("(): ")
    ensures NoBraces("ERROR ")
  {
  }

  // Every template has plain texts and field names, so `str.format` of its text is `Render`.

  lemma ArgstrWellFormed()
    ensures WellFormed(ARGSSTR)
  {
    FieldNames();
    TemplateTexts();
  }

  lemma EnterWellFormed()
    ensures WellFormed(ENTER_MSG)
  {
    FieldNames();
    TemplateTexts();
  }

  lemma EnterNoArgsWellFormed()
    ensures WellFormed(ENTER_MSG_NO_ARGS)
  {
    FieldNames();
    TemplateTexts();
  }

  lemma ExitWellFormed()
    ensures WellFormed(EXIT_MSG)
  {
    FieldNames();
    TemplateTexts();
  }

  lemma ExitNoReturnWellFormed()
    ensures WellFormed(EXIT_MSG_NO_RETURN)
  {
    FieldNames();
    TemplateTexts();
  }

  lemma SingleWellFormed()
    ensures WellFormed(SINGLE_MSG)
  {
    FieldNames();
    TemplateTexts();
  }

  lemma ErrorWellFormed()
    ensures WellFormed(ERROR_MSG)
  {
    FieldNames();
    TemplateTexts();
  }

  // The written text of each template is the string literal of logfunc/config.py:
  // `Source` unfolds to one piece per part (`...Pieces`), and those parts spell
  // the literal (`...Literal`).

  lemma ArgstrSource()
    ensures Source(ARGSSTR) == "{func_args} {func_kwargs}"
  {
    ArgstrPieces();
    ArgstrLiteral();
  }

  lemma ArgstrPieces()
    ensures Source(ARGSSTR) == ("{" + "func_args" + "}" + (" " + ("{" + "func_kwargs" + "}" + "")))
  {
  }

  lemma ArgstrLiteral()
    ensures ("{" + "func_args" + "}" + (" " + ("{" + "func_kwargs" + "}" + ""))) == "{func_args} {func_kwargs}"
  {
  }

  lemma EnterSource()
    ensures Source(ENTER_MSG) == "{func_name}() | {args_str}"
  {
    EnterPieces();
    EnterLiteral();
  }

  lemma EnterPieces()
    ensures Source(ENTER_MSG) == ("{" + "func_name" + "}" + ("() | " + ("{" + "args_str" + "}" + "")))
  {
  }

  lemma EnterLiteral()
    ensures ("{" + "func_name" + "}" + ("() | " + ("{" + "args_str" + "}" + ""))) == "{func_name}() | {args_str}"
  {
  }

  lemma ExitNoReturnSource()
    ensures Source(EXIT_MSG_NO_RETURN) == "{func_name}() {exec_time}s"
  {
    ExitNoReturnPieces();
    ExitNoReturnLiteral();
  }

  lemma ExitNoReturnPieces()
    ensures Source(EXIT_MSG_NO_RETURN) == ("{" + "func_name" + "}" + ("() " + ("{" + "exec_time" + "}" + ("s" + ""))))
  {
  }

  lemma ExitNoReturnLiteral()
    ensures ("{" + "func_name" + "}" + ("() " + ("{" + "exec_time" + "}" + ("s" + "")))) == "{func_name}() {exec_time}s"
  {
  }

  lemma ExitSource()
    ensures Source(EXIT_MSG) == "{func_name}() {exec_time}s | {result}"
  {
    ExitPieces();
    ExitLiteral();
  }

  lemma ExitPieces()
    ensures Source(EXIT_MSG) == ("{" + "func_name" + "}" + ("() " + ("{" + "exec_time" + "}" + ("s | " + ("{" + "result" + "}" + "")))))
  {
  }

  lemma ExitLiteral()
    ensures ("{" + "func_name" + "}" + ("() " + ("{" + "exec_time" + "}" + ("s | " + ("{" + "result" + "}" + ""))))) == "{func_name}() {exec_time}s | {result}"
  {
  }

  lemma SingleSource()
    ensures Source(SINGLE_MSG) == "{func_name}() {exec_time}s | {args_str} | {result}"
  {
    SinglePieces();
    SingleLiteral();
  }

  lemma SinglePieces()
    ensures Source(SINGLE_MSG) == ("{" + "func_name" + "}" + ("() " + ("{" + "exec_time" + "}" + ("s | " + ("{" + "args_str" + "}" + (" | " + ("{" + "result" + "}" + "")))))))
  {
  }

  lemma SingleLiteral()
    ensures ("{" + "func_name" + "}" + ("() " + ("{" + "exec_time" + "}" + ("s | " + ("{" + "args_str" + "}" + (" | " + ("{" + "result" + "}" + ""))))))) == "{func_name}() {exec_time}s | {args_str} | {result}"
  {
    var back := "{" + "args_str" + "}" + (" | " + ("{" + "result" + "}" + ""));
    SingleLiteralBack();
    SingleLiteralFront(back);
    SingleLiteralSplit();
  }

  // The literal of `single` in two halves, as `SingleLiteral` joins them.

  lemma SingleLiteralBack()
    ensures "{" + "args_str" + "}" + (" | " + ("{" + "result" + "}" + "")) == "{args_str} | {result}"
  {
  }

  lemma SingleLiteralFront(back: string)
    ensures "{" + "func_name" + "}" + ("() " + ("{" + "exec_time" + "}" + ("s | " + back)))
         == "{func_name}() {exec_time}s | " + back
  {
  }

  lemma SingleLiteralSplit()
    ensures "{func_name}() {exec_time}s | {args_str} | {result}"
         == "{func_name}() {exec_time}s | " + "{args_str} | {result}"
  {
  }

  lemma EnterNoArgsSource()
    ensures Source(ENTER_MSG_NO_ARGS) == "{func_name}()"
  {
    EnterNoArgsPieces();
    EnterNoArgsLiteral();
  }

  lemma EnterNoArgsPieces()
    ensures Source(ENTER_MSG_NO_ARGS) == ("{" + "func_name" + "}" + ("()" + ""))
  {
  }

  lemma EnterNoArgsLiteral()
    ensures ("{" + "func_name" + "}" + ("()" + "")) == "{func_name}()"
  {
  }

  lemma ErrorSource()
    ensures Source(ERROR_MSG) == "ERROR {func_name}(): {exc_type} | {exc_val}"
  {
    ErrorPieces();
    ErrorLiteral();
  }

  lemma ErrorPieces()
    ensures Source(ERROR_MSG) == ("ERROR " + ("{" + "func_name" + "}" + ("(): " + ("{" + "exc_type" + "}" + (" | " + ("{" + "exc_val" + "}" + ""))))))
  {
  }

  lemma ErrorLiteral()
    ensures ("ERROR " + ("{" + "func_name" + "}" + ("(): " + ("{" + "exc_type" + "}" + (" | " + ("{" + "exc_val" + "}" + "")))))) == "ERROR {func_name}(): {exc_type} | {exc_val}"
  {
  }

  /**
   * `.format(**kw)` on each string literal of logfunc/config.py is `Render`
   * of its template, whatever the keyword arguments.
   */
  lemma FormatLiterals(kw: map<string, string>)
    ensures Format("{func_args} {func_kwargs}", kw) == Render(ARGSSTR, kw)
    ensures Format("{func_name}() | {args_str}", kw) == Render(ENTER_MSG, kw)
    ensures Format("{func_name}() {exec_time}s", kw) == Render(EXIT_MSG_NO_RETURN, kw)
    ensures Format("{func_name}() {exec_time}s | {result}", kw) == Render(EXIT_MSG, kw)
    ensures Format("{func_name}() {exec_time}s | {args_str} | {result}", kw) == Render(SINGLE_MSG, kw)
    ensures Format("{func_name}()", kw) == Render(ENTER_MSG_NO_ARGS, kw)
    ensures Format("ERROR {func_name}(): {exc_type} | {exc_val}", kw) == Render(ERROR_MSG, kw)
  {
    ArgstrSource();
    ArgstrWellFormed();
    FormatSource(ARGSSTR, kw);
    EnterSource();
    EnterWellFormed();
    FormatSource(ENTER_MSG, kw);
    ExitNoReturnSource();
    ExitNoReturnWellFormed();
    FormatSource(EXIT_MSG_NO_RETURN, kw);
    ExitSource();
    ExitWellFormed();
    FormatSource(EXIT_MSG, kw);
    SingleSource();
    SingleWellFormed();
    FormatSource(SINGLE_MSG, kw);
    EnterNoArgsSource();
    EnterNoArgsWellFormed();
    FormatSource(ENTER_MSG_NO_ARGS, kw);
    ErrorSource();
    ErrorWellFormed();
    FormatSource(ERROR_MSG, kw);
  }

  // What each template renders to when given the keys its fields name.

  /** `argstr` joins the two rendered argument strings with one space. */
  lemma RenderArgstr(args: string, kwargs: string)
    ensures Render(ARGSSTR, map["func_args" := args, "func_kwargs" := kwargs])
         == Success(args + " " + kwargs)
  {
    var kw := map["func_args" := args, "func_kwargs" := kwargs];
    var t := ARGSSTR;
    assert Render(t[2..], kw) == Success(kwargs + "");
    assert Render(t[1..], kw) == Success(" " + (kwargs + ""));
    assert args + (" " + (kwargs + "")) == args + " " + kwargs;
  }

  /** `enter` gives `name() | args`. */
  lemma RenderEnter(name: string, argsStr: string)
    ensures Render(ENTER_MSG, map["func_name" := name, "args_str" := argsStr])
         == Success(name + "() | " + argsStr)
  {
    var kw := map["func_name" := name, "args_str" := argsStr];
    var t := ENTER_MSG;
    assert Render(t[2..], kw) == Success(argsStr + "");
    assert Render(t[1..], kw) == Success("() | " + (argsStr + ""));
    assert name + ("() | " + (argsStr + "")) == name + "() | " + argsStr;
  }

  /** `enter_no_args` gives `name()`. */
  lemma RenderEnterNoArgs(name: string)
    ensures Render(ENTER_MSG_NO_ARGS, map["func_name" := name]) == Success(name + "()")
  {
    var kw := map["func_name" := name];
    var t := ENTER_MSG_NO_ARGS;
    assert Render(t[1..], kw) == Success("()" + "");
    assert name + ("()" + "") == name + "()";
  }

  /** `exit_no_return` gives `name() Ts` from the keys its fields name. */
  lemma RenderExitNoReturn(name: string, execTime: string)
    ensures Render(EXIT_MSG_NO_RETURN, map["func_name" := name, "exec_time" := execTime])
         == Success(name + "() " + execTime + "s")
  {
    var kw := map["func_name" := name, "exec_time" := execTime];
    var t := EXIT_MSG_NO_RETURN;
    assert Render(t[3..], kw) == Success("s" + "");
    assert Render(t[2..], kw) == Success(execTime + ("s" + ""));
    assert Render(t[1..], kw) == Success("() " + (execTime + ("s" + "")));
    assert name + ("() " + (execTime + ("s" + ""))) == name + "() " + execTime + "s";
  }

  /** `exit` gives `name() Ts | result` from the keys its fields name. */
  lemma RenderExit(name: string, execTime: string, result: string)
    ensures Render(EXIT_MSG, map["func_name" := name, "exec_time" := execTime, "result" := result])
         == Success(name + "() " + execTime + "s | " + result)
  {
    var kw := map["func_name" := name, "exec_time" := execTime, "result" := result];
    var t := EXIT_MSG;
    assert Render(t[4..], kw) == Success(result + "");
    assert Render(t[3..], kw) == Success("s | " + (result + ""));
    assert Render(t[2..], kw) == Success(execTime + ("s | " + (result + "")));
    assert Render(t[1..], kw) == Success("() " + (execTime + ("s | " + (result + ""))));
    assert name + ("() " + (execTime + ("s | " + (result + ""))))
        == name + "() " + execTime + "s | " + result;
  }

  /** `single` gives `name() Ts | args | result`: time, arguments, result, in that order. */
  lemma RenderSingle(name: string, execTime: string, argsStr: string, result: string)
    ensures Render(SINGLE_MSG,
                   map["func_name" := name, "exec_time" := execTime, "args_str" := argsStr, "result" := result])
         == Success(name + "() " + execTime + "s | " + argsStr + " | " + result)
  {
    var kw := map["func_name" := name, "exec_time" := execTime, "args_str" := argsStr, "result" := result];
    var t := SINGLE_MSG;
    assert Render(t[6..], kw) == Success(result + "");
    assert Render(t[5..], kw) == Success(" | " + (result + ""));
    assert Render(t[4..], kw) == Success(argsStr + (" | " + (result + "")));
    assert Render(t[3..], kw) == Success("s | " + (argsStr + (" | " + (result + ""))));
    assert Render(t[2..], kw) == Success(execTime + ("s | " + (argsStr + (" | " + (result + "")))));
    assert Render(t[1..], kw) == Success("() " + (execTime + ("s | " + (argsStr + (" | " + (result + ""))))));
    assert name + ("() " + (execTime + ("s | " + (argsStr + (" | " + (result + ""))))))
        == name + "() " + execTime + "s | " + argsStr + " | " + result;
  }

  /** `error` gives `ERROR name(): type | value`. */
  lemma RenderError(name: string, excType: string, excVal: string)
    ensures Render(ERROR_MSG, map["func_name" := name, "exc_type" := excType, "exc_val" := excVal])
         == Success("ERROR " + name + "(): " + excType + " | " + excVal)
  {
    var kw := map["func_name" := name, "exc_type" := excType, "exc_val" := excVal];
    var t := ERROR_MSG;
    assert Render(t[5..], kw) == Success(excVal + "");
    assert Render(t[4..], kw) == Success(" | " + (excVal + ""));
    assert Render(t[3..], kw) == Success(excType + (" | " + (excVal + "")));
    assert Render(t[2..], kw) == Success("(): " + (excType + (" | " + (excVal + ""))));
    assert Render(t[1..], kw) == Success(name + ("(): " + (excType + (" | " + (excVal + "")))));
    assert "ERROR " + (name + ("(): " + (excType + (" | " + (excVal + "")))))
        == "ERROR " + name + "(): " + excType + " | " + excVal;
  }
}
