# logf in Dafny

A model of the core of `logfunc`, a Python decorator that logs each call of the function it wraps. The model covers:

- how the package turns arguments, results and exceptions into display strings, and truncates them;
- how it resolves a log level from `None`, a name or a number;
- the message templates and `str.format` rendering;
- the choice of exit message in `exit_msg`;
- random call ids spliced into a message's leading `name()` token;
- the environment snapshot `Env`;
- the emission protocol of both decorators, the current one (`logfunc/main.py`) and the older one (`logfunc/__init__.py`).

Modules, one file each:

- `Wrappers`: `Option` and `Result`.
- `Values`: Python values whose `str()` may raise; exceptions; the `level` argument.
- `PyText`: the Python string operations used:
  - slicing with a possibly negative stop;
  - ASCII `upper`;
  - `lstrip` with a character set;
  - `replace`.
- `StrFormat`: `str.format` with keyword arguments.
  - `Format` parses a template string: `{{`, `}}`, `{key}`, and the `KeyError`, `IndexError` and `ValueError` cases.
  - `Render` fills a template given as its sequence of texts and fields.
  - `FormatSource` proves the two agree on well-formed templates.
- `Config`: `EVARS`, the class `Env`, the seven templates and `MSG_FORMATS` (logfunc/config.py).
- `Utils`:
  - `trunc_str`, `build_argstr`, `loglevel_int` (with `logging.getLevelName` for the standard names) and `identifier`, from logfunc/utils.py.
- `Identifier`: `ID_CHARS`, `ID_LEN`, the match of `FUNC_RE`, and `add_identifier` (logfunc/identifier.py).
- `Msgs`: `exit_msg` as written, and a corrected version (logfunc/msgs.py).
- `Sink`: the log as a class whose sequence of emitted lines grows. A call of the wrapped function is modelled by the lines it logs itself and by how it ends.
- `Legacy`: the older decorator of logfunc/__init__.py.
- `Decorator`: the decorator of logfunc/main.py.

External inputs become parameters:

- Randomness becomes a sequence of draws. A draw `d` picks `chars[d % len(chars)]`.
- The clocks are two `real` readings: wall time and event-loop time.
- The formatted execution time is an opaque string.
- What `get_evar` found in the environment is a value of `Decorator.Overrides`.
- The helpers `func_args_str` and `func_return_str` of the current decorator are parameters of `Decorator.Invoke`: the enter text, or the exception `func_args_str` raises, and a function from result and start time to the exit text or the exception `func_return_str` raises. Their code is not part of this model.

Templates are modelled as the sequence of texts and fields that `str.format` reads from them. `Config.ERROR_MSG`, for example, is `[Text("ERROR "), Field("func_name"), Text("(): "), Field("exc_type"), Text(" | "), Field("exc_val")]`, the pieces of `'ERROR {func_name}(): {exc_type} | {exc_val}'`. `StrFormat.Source` gives back the written string, and the `Config.<name>Source` lemmas prove it equal to each literal of logfunc/config.py. `StrFormat.FormatSource` proves that formatting that string is `Render` of the pieces, and `Config.FormatLiterals` combines the two for the seven literals.

## Model

| member | source | states |
|---|---|---|
| Values.PyStr | logfunc/utils.py:34-36 | `str(v)`: a `str` is itself; any other object gives its own text, or raises exactly the exception its conversion raises |
| PyText.PrefixLength | logfunc/utils.py:43 | length of Python's `s[:stop]`: `stop` clamped to `[0, len(s)]`, a negative stop counted from the end |
| PyText.Prefix | logfunc/__init__.py:31 | `s[:stop]` is a prefix of `s` of that length |
| PyText.Upper | logfunc/utils.py:55 | `s.upper()` keeps the length and upper-cases each ASCII letter |
| PyText.LStrip | logfunc/identifier.py:15 | `s.lstrip(chars)` is a suffix of `s`; every removed character is in the set `chars`, and the first kept one is not |
| PyText.LStripExactly | logfunc/identifier.py:15 | stripping `p + rest` by a set that holds every character of `p`, where `rest` does not start with one of them, leaves exactly `rest` |
| PyText.Replace | logfunc/identifier.py:16 | `s.replace(pat, rep)`: non-overlapping occurrences found left to right become `rep`, and replacements are not rescanned; `ReplaceSkips` and `ReplaceAbsent` state its properties |
| PyText.ReplaceSkips | logfunc/identifier.py:16 | `replace` copies unchanged a prefix in which no occurrence of the pattern starts |
| PyText.ReplaceAbsent | logfunc/identifier.py:16 | `replace` without an occurrence of the pattern returns its input |
| StrFormat.Format | logfunc/utils.py:18 | `str.format` returns a template without braces unchanged |
| StrFormat.FormatText | logfunc/msgs.py:12-17 | brace-free text in front of a template is copied in front of the rendering |
| StrFormat.FormatField | logfunc/msgs.py:12-17 | a field `{key}` is replaced by `kw[key]`, or raises `KeyError(key)` when the key is not passed |
| StrFormat.Render | logfunc/msgs.py:12-27 | rendering fails exactly when some field of the template has no keyword argument, and then with a `KeyError` naming such a field |
| StrFormat.FormatSource | logfunc/config.py:26-33 | for a well-formed template, `str.format` of its written text equals `Render` of its pieces |
| StrFormat.RenderExtraKeys | logfunc/msgs.py:19-24 | keyword arguments that no field names do not change a successful rendering |
| Config.EvarsDistinct | logfunc/config.py:5-17 | `EVARS` holds 11 distinct keys |
| Config.Env.constructor | logfunc/config.py:20-23 | after `Env(environ)`, the attributes are exactly the keys of `EVARS`; each holds `environ.get(key)`, which is `None` when the key is absent |
| Config.MsgFormatsFields | logfunc/config.py:36-43 | each attribute of `MSG_FORMATS` is the template of the same name |
| Config.ArgstrWellFormed | logfunc/config.py:26 | the `argstr` template is well formed (plain texts and field names) |
| Config.EnterWellFormed | logfunc/config.py:27 | the `enter` template is well formed |
| Config.ExitNoReturnWellFormed | logfunc/config.py:28 | the `exit_no_return` template is well formed |
| Config.ExitWellFormed | logfunc/config.py:29 | the `exit` template is well formed |
| Config.SingleWellFormed | logfunc/config.py:30 | the `single` template is well formed |
| Config.EnterNoArgsWellFormed | logfunc/config.py:31 | the `enter_no_args` template is well formed |
| Config.ErrorWellFormed | logfunc/config.py:33 | the `error` template is well formed |
| Config.ArgstrSource | logfunc/config.py:26 | the pieces of `ARGSSTR` spell `'{func_args} {func_kwargs}'` |
| Config.EnterSource | logfunc/config.py:27 | the pieces of `ENTER_MSG` spell `'{func_name}() \| {args_str}'` |
| Config.ExitNoReturnSource | logfunc/config.py:28 | the pieces of `EXIT_MSG_NO_RETURN` spell `'{func_name}() {exec_time}s'` |
| Config.ExitSource | logfunc/config.py:29 | the pieces of `EXIT_MSG` spell `'{func_name}() {exec_time}s \| {result}'` |
| Config.SingleSource | logfunc/config.py:30 | the pieces of `SINGLE_MSG` spell `'{func_name}() {exec_time}s \| {args_str} \| {result}'` |
| Config.EnterNoArgsSource | logfunc/config.py:31 | the pieces of `ENTER_MSG_NO_ARGS` spell `'{func_name}()'` |
| Config.ErrorSource | logfunc/config.py:33 | the pieces of `ERROR_MSG` spell `'ERROR {func_name}(): {exc_type} \| {exc_val}'` |
| Config.FormatLiterals | logfunc/config.py:26-33 | for any keyword arguments, `.format(**kw)` on each literal of logfunc/config.py equals `Render` of its template |
| Config.RenderArgstr | logfunc/config.py:26 | `argstr` renders to `args + " " + kwargs` |
| Config.RenderEnter | logfunc/config.py:27 | `enter` renders to `name + "() \| " + args_str` |
| Config.RenderExitNoReturn | logfunc/config.py:28 | `exit_no_return`, given `func_name` and `exec_time`, renders to `name + "() " + T + "s"` |
| Config.RenderExit | logfunc/config.py:29 | `exit`, given `func_name`, `exec_time` and `result`, renders to `name + "() " + T + "s \| " + R` |
| Config.RenderSingle | logfunc/config.py:30 | `single` renders to name, time, arguments and result in that order, separated by `" \| "` |
| Config.RenderEnterNoArgs | logfunc/config.py:31 | `enter_no_args` renders to `name + "()"` |
| Config.RenderError | logfunc/config.py:33 | `error` renders to `"ERROR " + name + "(): " + type + " \| " + val` |
| Utils.Display | logfunc/utils.py:34-38 | the display string is `str(v)`; a conversion that raises an `Exception` becomes `[LOGF STR ERROR: <str(e)>]`; it fails exactly when the conversion raises an exception that derives only from `BaseException` (which propagates) or one whose own `str()` raises (whose exception propagates) |
| Utils.Cut | logfunc/utils.py:40-43 | no limit, or a string strictly shorter than it: the string itself; otherwise `s[0:max_length] + "..."`, of length `max_length + 3` for a limit `>= 0` |
| Utils.TruncStr | logfunc/utils.py:21-43 | `trunc_str` fails exactly when `Display` does, with its exception; otherwise it is the cut of the display string |
| Utils.TruncStrAtLimit | logfunc/utils.py:40-43 | a string of exactly `max_length` characters still gets `...` |
| Utils.TruncStrIdempotent | logfunc/utils.py:40-43 | with no limit, or a limit `>= 0`, truncating a successfully truncated string changes nothing |
| Utils.TruncStrNegativeLimit | logfunc/utils.py:43 | a negative limit counts from the end, and a second truncation with it cuts again, so idempotence needs a limit that is not negative |
| Utils.BuildArgstr | logfunc/utils.py:11-18 | `''` when arguments are not logged; otherwise the truncated args, a space and the truncated kwargs, rendered through `argstr`; an exception from truncating the args comes first, then one from the kwargs |
| Utils.GetLevelName | logfunc/utils.py:55 | a standard name gives its number (DEBUG 10, INFO 20, WARNING/WARN 30, ERROR 40, CRITICAL/FATAL 50, NOTSET 0); any other name gives the text `Level <name>` |
| Utils.LogLevelInt | logfunc/utils.py:46-56 | `None` gives DEBUG (10), a name is looked up upper-cased, a number is returned as itself |
| Utils.LogLevelIgnoresCase | logfunc/utils.py:55 | a name and its upper-cased form give the same level |
| Utils.LogLevelStandard | logfunc/utils.py:46-56 | DEBUG, ERROR and NOTSET map to 10, 40 and 0; `10` and `None` map to 10 |
| Utils.LogLevelAnyCase | logfunc/utils.py:55 | `info`, `Warning` and `critical` map to 20, 30 and 50 |
| Utils.Identifier | logfunc/utils.py:84-91 | `identifier(len, chars)` has exactly `max(0, len)` characters, all from `chars`; it fails (an `IndexError` from `choice`) exactly when `chars` is empty and `len > 0` |
| Utils.IdentifierAsChoices | logfunc/utils.py:91 | on a non-empty alphabet, `identifier` gives the characters `random.choices` gives for the same draws |
| Identifier.IdBlocks | logfunc/identifier.py:6 | `ID_CHARS` is the 26 lower-case letters, the 26 upper-case letters, the 10 digits, `_` and `-` |
| Identifier.IdAlphabet | logfunc/identifier.py:6-7 | `ID_CHARS` has 64 distinct characters, and `64^ID_LEN` = 68719476736 |
| Identifier.Choices | logfunc/identifier.py:13 | `random.choices(chars, k)` gives `k` characters, all from `chars` |
| Identifier.ChoicesCover | logfunc/identifier.py:13 | every string over `chars` is the outcome of some draws |
| Identifier.NewId | logfunc/identifier.py:13 | the id has length `ID_LEN` and only characters of `ID_CHARS` |
| Identifier.NewIdCovers | logfunc/identifier.py:13 | every string of `ID_LEN` characters of `ID_CHARS` can be drawn |
| Identifier.LeadingToken | logfunc/identifier.py:8-14 | `FUNC_RE` matches the maximal non-empty run of non-space characters at the start; there is no match exactly when the message is empty or starts with a space |
| Identifier.StripToken | logfunc/identifier.py:15 | `msg.lstrip(fstr)` removes exactly `len(fstr)` characters |
| Identifier.AddIdentifier | logfunc/identifier.py:11-16 | the result is `fstr.replace("()", "(" + id + ")") + msg[len(fstr):]`; without a match it fails, as `.group` on `None` does |
| Identifier.AddIdentifierNoCall | logfunc/identifier.py:16 | a leading token without `()` leaves the message unchanged |
| Identifier.LeadingTokenAtCall | logfunc/identifier.py:8-14 | the leading token of `name() ...` is `name()` |
| Identifier.ReplaceAtCall | logfunc/identifier.py:16 | in `name()`, where the name holds no `(`, the only `()` becomes the replacement |
| Identifier.AddIdentifierAtCall | logfunc/identifier.py:11-16 | `name() rest` becomes `name(<id>) rest` |
| Msgs.IdName | logfunc/msgs.py:7-10 | the label is `func_name` without an id, else `func_id + " " + func_name`; it always ends with the name |
| Msgs.SelectExit | logfunc/msgs.py:11-27 | single mode always selects `single`; otherwise a non-empty result selects `exit`, and an empty or `None` result selects `exit_no_return`; exactly one applies |
| Msgs.ExitMsg | logfunc/msgs.py:4-27 | `exit_msg` as written succeeds exactly in single-message mode; otherwise it raises `KeyError('func_name')` |
| Msgs.ExitMsgSingle | logfunc/msgs.py:11-17 | in single mode the exit line is `name() Ts \| args \| result`, the same whatever the id (`None` prints as `None`) |
| Msgs.ExitMsgMissingKey | logfunc/msgs.py:18-27 | as written, outside single mode `exit_msg` always raises `KeyError('func_name')` |
| Msgs.ExitMsgFixed | logfunc/msgs.py:4-27 | `exit_msg` with the label passed as `func_name` never fails |
| Msgs.ExitMsgFixedLines | logfunc/msgs.py:18-27 | with the label passed as `func_name`: `label() Ts \| result` for a non-empty result, `label() Ts` otherwise, and never a failure |
| Sink.Log.Emit | logfunc/main.py:98 | emitting appends exactly one line |
| Sink.Log.EmitAll | logfunc/main.py:86 | the lines the called function logs are appended in order |
| Legacy.LegacyTruncStr | logfunc/__init__.py:18-32 | a string longer than the limit becomes `s[:max_length-3] + "..."`, of length exactly `max_length` when `max_length >= 3`; otherwise it is unchanged |
| Legacy.LegacyTruncStrFits | logfunc/__init__.py:30-32 | for a limit of at least 3 the older result never exceeds the limit |
| Legacy.TruncStrVersions | logfunc/__init__.py:30-32 | against `utils.trunc_str` for a limit `m >= 3`: equal below `m`; at `m` only the newer one adds `...`; above `m` the older one has `m` characters, the newer `m + 3`; above `m` the older one equals the newer with limit `m - 3` |
| Legacy.LegacyLevelInt | logfunc/__init__.py:56-59 | a name is looked up upper-cased, a number is kept, and `None` raises `TypeError` |
| Legacy.LevelVersions | logfunc/__init__.py:56-59 | the older and the newer level conversion agree except on `None`, which only the newer one accepts (as DEBUG) |
| Legacy.LegacyEnterText | logfunc/__init__.py:68-71 | the enter line is `name() \| str(args)[:max] str(kwargs)[:max]` (a plain cut, no `...`) or `name()`; a failing `str()` propagates |
| Legacy.LegacyExitText | logfunc/__init__.py:78-94 | four cases: both flags give `name() Ts \| R`; `log_return` alone gives `name() \| R`; `measure_time` alone gives `name() Ts`; neither gives no line; only the cases that log the result convert it |
| Legacy.LegacyLines | logfunc/__init__.py:63-100 | the lines of one call: none when building the enter line raises; else the enter line, the callee's lines, and the exit line when the callee returned and the exit text is not `None` |
| Legacy.LegacyOutcome | logfunc/__init__.py:63-100 | how one call ends: the first exception of the enter text, the callee and the exit text; otherwise the callee's result |
| Legacy.LegacyCall | logfunc/__init__.py:56-100 | with `levelInt` the number `o.level` converts to, the wrapper appends exactly the lines of `LegacyLines` and ends as `LegacyOutcome` |
| Legacy.LegacyCallReturns | logfunc/__init__.py:73-100 | a successful call emits `1 + (1 if log_return or measure_time else 0)` lines besides the callee's own; the enter line comes first and the result is returned unchanged |
| Legacy.LegacyDefaultsReturn | logfunc/__init__.py:35-40 | with the defaults (`DEBUG`, all flags on, limit 1000), a successful call emits two lines besides the callee's, the last `name() Ts \| result` cut to 1000 characters, and returns the result |
| Legacy.LegacyCallRaises | logfunc/__init__.py:76 | if the function raises, only the enter line (and the callee's own lines) were emitted, and the exception propagates |
| Decorator.Logf | logfunc/main.py:62-69 | the environment overrides `max_str_len`, `single_msg` and `use_print`; a `measure_time` keyword replaces `log_exec_time`; everything is fixed when the decorator is built |
| Decorator.LogfNoOverrides | logfunc/main.py:62-69 | without overrides or `measure_time`, every option is used as passed |
| Decorator.StartTime | logfunc/main.py:77-107 | the start time is `None` exactly when execution time is not logged; otherwise it is the loop clock for async functions and the wall clock for sync ones |
| Decorator.CallLines | logfunc/main.py:110-133 | the lines of one call: none when `func_args_str` raises outside single mode; else the enter line (outside single mode), the callee's lines, and the exit line when the callee returned and `func_return_str` succeeded |
| Decorator.CallOutcome | logfunc/main.py:110-133 | how one call ends: the first exception of `func_args_str`, the callee and `func_return_str`, none of which is caught; otherwise the callee's result |
| Decorator.Invoke | logfunc/main.py:73-135 | one call appends exactly the lines of `CallLines` and ends as `CallOutcome`, with the start time of `StartTime` |
| Decorator.CallReturnsIff | logfunc/main.py:110-133 | a call returns exactly when `func_args_str` (if asked), the callee and `func_return_str` all succeed, and it then returns the callee's result |
| Decorator.CallLinesReturned | logfunc/main.py:110-133 | after a normal return with both helpers succeeding, the enter line comes before the callee's lines and the exit line comes last |
| Decorator.CallLinesRaised | logfunc/main.py:119 | when the callee raises, no exit line is emitted and the exception propagates |
| Decorator.CallEnterFails | logfunc/main.py:113-117 | when `func_args_str` raises, nothing is logged, the callee does not run, and the exception propagates |
| Decorator.CallExitFails | logfunc/main.py:119-133 | when `func_return_str` raises after the callee returned, no exit line is logged and the wrapper raises instead of returning the result |
| Decorator.CallLineCount | logfunc/main.py:110-133 | a call whose callee logs nothing and whose helpers succeed emits 1 line in single mode and 2 otherwise |

## Left out

- Sinks: `handle_log`, `print_or_log` (assumed not to raise), `logging.log`, `logger.log`, `print`, and the choice between them (`use_print`, `use_logger`). Each emission is one appended line of `Sink.Log`.
- Timing: `time.time()`, the event-loop clock and `f"{exec_time:.5f}s"`. Clock readings are parameters and the formatted time is an opaque string.
- Randomness: `random.choice` and `random.choices` are replaced by a sequence of draws.
- Python's own `str()` and `repr` of tuples, dicts and other objects. A value carries the outcome of its own conversion.
- `logging.getLevelName` beyond the standard names: any other name gives the text `Level <NAME>`, as Python returns it. The type error that logging such a level would then raise is not modelled.
- Legacy.LegacyCall: requires that `o.level` converted to a number when the decorator was built. A `None` level, whose `int()` raises at build time, and a name `getLevelName` does not know, which gives a string that `logger.log` then rejects, are outside it.
- Async dispatch: `inspect.iscoroutinefunction` and `await`. The sync and async bodies are one method; an `isAsync` flag picks the clock.
- `func_args_str`, `func_return_str`, `get_evar` and `print_or_log`: logfunc/main.py:15-22 imports them from logfunc/utils.py, which defines none of them. They appear as parameters, or as already-found override values.
- `TRUNC_STR_LEN`: logfunc/main.py:14 imports it from logfunc/config.py, which does not define it; only logfunc/utils.py:8 takes it from logfunc/defaults.py, which is not part of this model. The current decorator's defaults are not modelled; the limit is always a parameter.
- `ID_CHARS` and `ID_LEN` are taken from logfunc/identifier.py:6-7. logfunc/config.py defines neither, although logfunc/utils.py:6 imports both from it.
- Features the tests exercise but the modelled sources lack: `Cfg`, `LOGF_LOG_LEVEL` gating, `LOGF_IDENTIFIER`, and the thread-local single-exception counter.
- `str.format` features the templates never use: format specs, conversions (`!r`), and attribute or index access in fields. A field name is any non-empty text without braces, `.`, `[`, `:` or `!` that does not start with a digit.
- `Upper` upper-cases ASCII letters only. Python's full Unicode case mapping is not modelled.

## Findings

| source | as written | input that shows it | evidently intended | confidence | as-written member | corrected member |
|---|---|---|---|---|---|---|
| logfunc/msgs.py:18-27 | outside single mode `exit_msg` passes the label as `id_func_name`, but the `exit` and `exit_no_return` templates (logfunc/config.py:28-29) name `{func_name}`, so `format` raises `KeyError('func_name')` | `exit_msg(False, 'f', '0.1', '', '1', None)` | the label (id and name) fills `{func_name}`, giving `f() 0.1s \| 1` | high, not executed | Msgs.ExitMsgMissingKey | Msgs.ExitMsgFixedLines |
