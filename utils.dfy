/**
 * The string helpers of logfunc/utils.py: display-and-truncate, the
 * argument string, level resolution and random identifiers.
 */
module Utils {
  import opened Wrappers
  import opened Values
  import opened PyText
  import StrFormat
  import Config
  import Ids = Identifier

  /**
   * The display string of a value (utils.py:34-38): a `str` is used as it
   * is, anything else goes through `str()`. A conversion that raises an
   * `Exception` is replaced by a placeholder holding `str()` of that
   * exception; an exception that derives only from `BaseException`
   * propagates, and so does one raised by `str()` of the caught exception,
   * since nothing catches it.
   */
  function Display(v: Value): (r: Result<string, Exc>)
    ensures PyStr(v).Success? ==> r == Success(PyStr(v).value)
    ensures PyStr(v).Failure? && !PyStr(v).error.isException ==> r == Failure(PyStr(v).error)
    ensures PyStr(v).Failure? && PyStr(v).error.isException && PyStr(v).error.asStr.Converts? ==>
              r == Success("[LOGF STR ERROR: " + PyStr(v).error.asStr.text + "]")
    ensures PyStr(v).Failure? && PyStr(v).error.isException && PyStr(v).error.asStr.Raises? ==>
              r == Failure(PyStr(v).error.asStr.exc)
    // it fails exactly when the conversion raises something it cannot turn into text
    ensures r.Failure? <==>
              PyStr(v).Failure? && (!PyStr(v).error.isException || PyStr(v).error.asStr.Raises?)
  {
    match PyStr(v)
    case Success(s) => Success(s)
    case Failure(e) =>
      if !e.isException then Failure(e)
      else
        match e.asStr
        case Converts(t) => Success("[LOGF STR ERROR: " + t + "]")
        case Raises(e2) => Failure(e2)
  }

  /**
   * The cut `trunc_str` applies to the display string (utils.py:40-43): the
   * string itself when there is no limit or it is strictly shorter than the
   * limit, else a Python prefix of it marked with `...`.
   */
  function Cut(s: string, maxLength: Option<int>): (r: string)
    // no limit, or strictly shorter than it: the string itself
    ensures maxLength.None? || |s| < maxLength.value ==> r == s
    // otherwise a Python prefix of it and the ellipsis
    ensures maxLength.Some? && |s| >= maxLength.value ==>
              |r| == PrefixLength(s, maxLength.value) + 3
              && r[..|r| - 3] <= s && r[|r| - 3..] == "..."
    // with a limit m >= 0 that the string reaches: exactly m characters kept
    ensures maxLength.Some? && 0 <= maxLength.value <= |s| ==>
              |r| == maxLength.value + 3 && r == s[..maxLength.value] + "..."
  {
    if maxLength.None? || |s| < maxLength.value then s
    else Prefix(s, maxLength.value) + "..."
  }

  /** `trunc_str(v, max_length)`: the cut of the display string, or the exception `Display` lets through. */
  function TruncStr(v: Value, maxLength: Option<int>): (r: Result<string, Exc>)
    ensures r.Failure? <==> Display(v).Failure?
    ensures r.Failure? ==> r.error == Display(v).error
    ensures r.Success? ==> r.value == Cut(Display(v).value, maxLength)
  {
    match Display(v)
    case Success(s) => Success(Cut(s, maxLength))
    case Failure(e) => Failure(e)
  }

  /** A string of exactly `max_length` characters still gets the ellipsis. */
  lemma TruncStrAtLimit(s: string)
    ensures TruncStr(Str(s), Some(|s|)) == Success(s + "...")
  {
    assert s[..|s|] == s;
  }

  /** Truncating again with the same limit `>= 0` (or none) changes nothing. */
  lemma TruncStrIdempotent(v: Value, maxLength: Option<int>)
    requires maxLength.None? || maxLength.value >= 0
    ensures TruncStr(v, maxLength).Success? ==>
              TruncStr(Str(TruncStr(v, maxLength).value), maxLength) == TruncStr(v, maxLength)
  {
    if Display(v).Success? {
      var s := Display(v).value;
      var r := Cut(s, maxLength);
      if maxLength.Some? && |s| >= maxLength.value {
        var m := maxLength.value;
        assert |r| == m + 3;
        assert r[..m] == s[..m];
      }
      assert Cut(r, maxLength) == r;
    }
  }

  /**
   * A negative limit counts from the end, as Python slicing does, and a
   * second truncation with it cuts again: the idempotence above needs a
   * limit that is not negative.
   */
  lemma TruncStrNegativeLimit()
    ensures TruncStr(Str("abcd"), Some(-1)) == Success("abc...")
    ensures TruncStr(Str("abc..."), Some(-1)) == Success("abc.....")
    ensures TruncStr(Str(TruncStr(Str("abcd"), Some(-1)).value), Some(-1)) != TruncStr(Str("abcd"), Some(-1))
  {
    assert Prefix("abcd", -1) == "abc";
    assert Cut("abcd", Some(-1)) == "abc...";
    assert Prefix("abc...", -1) == "abc..";
    assert Cut("abc...", Some(-1)) == "abc.....";
  }

  /**
   * `build_argstr`: empty when arguments are not logged, otherwise the two
   * truncated display strings joined by the `argstr` template; the
   * arguments are truncated first, so their exception wins.
   */
  function BuildArgstr(args: Value, kwargs: Value, maxLength: Option<int>, logArgs: bool): (r: Result<string, Exc>)
    ensures !logArgs ==> r == Success("")
    ensures logArgs && TruncStr(args, maxLength).Failure? ==> r == Failure(TruncStr(args, maxLength).error)
    ensures logArgs && TruncStr(args, maxLength).Success? && TruncStr(kwargs, maxLength).Failure? ==>
              r == Failure(TruncStr(kwargs, maxLength).error)
    ensures logArgs && TruncStr(args, maxLength).Success? && TruncStr(kwargs, maxLength).Success? ==>
              r == Success(TruncStr(args, maxLength).value + " " + TruncStr(kwargs, maxLength).value)
  {
    if !logArgs then Success("")
    else
      match TruncStr(args, maxLength)
      case Failure(e) => Failure(e)
      case Success(a) =>
        match TruncStr(kwargs, maxLength)
        case Failure(e) => Failure(e)
        case Success(k) =>
          Config.RenderArgstr(a, k);
          match StrFormat.Render(Config.MSG_FORMATS.argstr, map["func_args" := a, "func_kwargs" := k])
          case Success(s) => Success(s)
          case Failure(_) => assert false; Success("")
  }

  /** The numeric value of a standard level name, as Python's `logging` knows them. */
  function LevelOfName(name: string): Option<int> {
    if name == "CRITICAL" || name == "FATAL" then Some(50)
    else if name == "ERROR" then Some(40)
    else if name == "WARNING" || name == "WARN" then Some(30)
    else if name == "INFO" then Some(20)
    else if name == "DEBUG" then Some(10)
    else if name == "NOTSET" then Some(0)
    else None
  }

  /**
   * `logging.getLevelName(name)` for a name: the level's number, or (as a
   * failure) the text `Level <name>` that Python returns for unknown names.
   */
  function GetLevelName(name: string): (r: Result<int, string>)
    ensures LevelOfName(name).Some? <==> r.Success?
    ensures r.Success? ==> r.value == LevelOfName(name).value
    ensures r.Failure? ==> r.error == "Level " + name
  {
    match LevelOfName(name)
    case Some(n) => Success(n)
    case None => Failure("Level " + name)
  }

  /** `loglevel_int`: `None` is DEBUG, a name is looked up upper-cased, a number is itself. */
  function LogLevelInt(level: Level): (r: Result<int, string>)
    ensures level.Unset? ==> r == Success(10)
    ensures level.Number? ==> r == Success(level.n)
    ensures level.Name? ==> r == GetLevelName(Upper(level.name))
  {
    match level
    case Unset => Success(10)
    case Name(s) => GetLevelName(Upper(s))
    case Number(n) => Success(n)
  }

  /** A name and its upper-cased form resolve to the same level. */
  lemma LogLevelIgnoresCase(s: string)
    ensures LogLevelInt(Name(s)) == LogLevelInt(Name(Upper(s)))
  {
    UpperIdempotent(s);
  }

  /** The standard names, written upper-case, and a number or `None`. */
  lemma LogLevelStandard()
    ensures LogLevelInt(Name("DEBUG")) == Success(10)
    ensures LogLevelInt(Name("ERROR")) == Success(40)
    ensures LogLevelInt(Name("NOTSET")) == Success(0)
    ensures LogLevelInt(Number(10)) == Success(10)
    ensures LogLevelInt(Unset) == Success(10)
  {
    assert Upper("DEBUG") == "DEBUG";
    assert Upper("ERROR") == "ERROR";
    assert Upper("NOTSET") == "NOTSET";
  }

  /** The standard names in lower or mixed case. */
  lemma LogLevelAnyCase()
    ensures LogLevelInt(Name("info")) == Success(20)
    ensures LogLevelInt(Name("Warning")) == Success(30)
    ensures LogLevelInt(Name("critical")) == Success(50)
  {
    assert Upper("info") == "INFO";
    assert Upper("Warning") == "WARNING";
    assert Upper("critical") == "CRITICAL";
  }

  /**
   * `identifier(len, chars)`: `len` characters, each `random.choice(chars)`.
   * The random source is the sequence `draws`: `choice` takes the character
   * at `draw % len(chars)`; on an empty alphabet it raises `IndexError` at
   * the first draw. A non-positive `len` gives the empty string.
   */
  function Identifier(len: int, chars: string, draws: seq<nat>): (r: Result<string, Exc>)
    requires len <= |draws|
    ensures r.Failure? <==> len > 0 && chars == []
    ensures r.Success? ==> |r.value| == Max(0, len)
    ensures r.Success? ==> forall i :: 0 <= i < |r.value| ==> r.value[i] in chars
    decreases len
  {
    if len <= 0 then Success("")
    else if chars == [] then Failure(StdExc("IndexError", "Cannot choose from an empty sequence"))
    else
      match Identifier(len - 1, chars, draws[1..])
      case Success(rest) => Success([chars[draws[0] % |chars|]] + rest)
      case Failure(e) => Failure(e)
  }

  /**
   * On a non-empty alphabet, `identifier` draws what `random.choices` would
   * from the same random source: one character per draw.
   */
  lemma {:induction false} IdentifierAsChoices(len: nat, chars: string, draws: seq<nat>)
    requires len <= |draws| && chars != []
    ensures Identifier(len, chars, draws) == Success(Ids.Choices(chars, draws[..len]))
  {
    if len > 0 {
      IdentifierAsChoices(len - 1, chars, draws[1..]);
      assert draws[1..][..len - 1] == draws[..len][1..];
      var c := Ids.Choices(chars, draws[..len]);
      assert c == [c[0]] + Ids.Choices(chars, draws[..len][1..]);
    }
  }
}
