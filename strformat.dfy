/**
 * Python's `str.format` applied to a template with named replacement
 * fields and keyword arguments only, which is how every message template of
 * the logging core is rendered.
 */
module StrFormat {
  import opened Wrappers
  import opened PyText

  /** Why `str.format` raises. */
  datatype FormatError =
    | KeyError(key: string)   // a named field with no keyword argument
    | IndexError              // an empty or numeric field: a positional argument, never passed here
    | ValueError              // an unmatched `{` or `}`

  predicate IsDigit(c: char) { '0' <= c <= '9' }

  predicate AllDigits(s: string) {
    forall i :: 0 <= i < |s| ==> IsDigit(s[i])
  }

  /** Neither brace occurs in `s`: it renders as itself. */
  predicate NoBraces(s: string) {
    forall i :: 0 <= i < |s| ==> s[i] != '{' && s[i] != '}'
  }

  /**
   * A name that can stand between braces as a plain keyword field, as every
   * template's fields do: no brace, no `.` or `[` (attribute and index
   * access), no `:` or `!` (format spec and conversion), and not starting
   * with a digit (a positional field).
   */
  predicate FieldName(key: string) {
    && key != [] && NoBraces(key) && !IsDigit(key[0])
    && forall i :: 0 <= i < |key| ==> key[i] != '.' && key[i] != '[' && key[i] != ':' && key[i] != '!'
  }

  /** A non-empty name of lower-case letters and `_` is a plain field name. */
  lemma SnakeCaseName(key: string)
    requires key != []
    requires forall i :: 0 <= i < |key| ==> 'a' <= key[i] <= 'z' || key[i] == '_'
    ensures FieldName(key)
  {
  }

  /** `prefix + r` when `r` is a rendered string; a failure passes through. */
  function Prepend(prefix: string, r: Result<string, FormatError>): Result<string, FormatError> {
    match r
    case Success(s) => Success(prefix + s)
    case Failure(e) => Failure(e)
  }

  /**
   * `t.format(**kw)`, left to right: `{{` and `}}` are literal braces,
   * `{key}` is replaced by `kw[key]`, and the first field that cannot be
   * filled decides the error. Keyword arguments that no field names are
   * ignored.
   */
  function Format(t: string, kw: map<string, string>): (r: Result<string, FormatError>)
    ensures NoBraces(t) ==> r == Success(t)
    decreases |t|
  {
    if t == [] then Success("")
    else if t[0] == '{' && 1 < |t| && t[1] == '{' then Prepend("{", Format(t[2..], kw))
    else if t[0] == '{' then
      var j := FindFrom(t, '}', 1);
      if j == |t| then Failure(ValueError)
      else
        var key := t[1..j];
        if '{' in key then Failure(ValueError)
        else if key == [] || AllDigits(key) then Failure(IndexError)
        else if key !in kw then Failure(KeyError(key))
        else Prepend(kw[key], Format(t[j + 1..], kw))
    else if t[0] == '}' then
      if 1 < |t| && t[1] == '}' then Prepend("}", Format(t[2..], kw)) else Failure(ValueError)
    else
      assert [t[0]] + t[1..] == t;
      Prepend([t[0]], Format(t[1..], kw))
  }

  lemma PrependAssoc(a: string, b: string, r: Result<string, FormatError>)
    ensures Prepend(a, Prepend(b, r)) == Prepend(a + b, r)
  {
    if r.Success? {
      assert a + (b + r.value) == (a + b) + r.value;
    }
  }

  /** Text without braces is copied in front of whatever the rest renders to. */
  lemma {:induction false} FormatText(text: string, rest: string, kw: map<string, string>)
    requires NoBraces(text)
    ensures Format(text + rest, kw) == Prepend(text, Format(rest, kw))
  {
    if text == [] {
      assert text + rest == rest;
      match Format(rest, kw)
      case Success(s) => assert [] + s == s;
      case Failure(_) =>
    } else {
      var t := text + rest;
      assert t[0] == text[0];
      assert t[1..] == text[1..] + rest;
      FormatText(text[1..], rest, kw);
      PrependAssoc([text[0]], text[1..], Format(rest, kw));
      assert [text[0]] + text[1..] == text;
    }
  }

  /** One field `{key}`: filled from `kw`, or a `KeyError` naming it. */
  lemma FormatField(key: string, rest: string, kw: map<string, string>)
    requires FieldName(key)
    ensures Format("{" + key + "}" + rest, kw)
         == if key in kw then Prepend(kw[key], Format(rest, kw)) else Failure(KeyError(key))
  {
    var t := "{" + key + "}" + rest;
    assert t[0] == '{' && t[1] == key[0] && t[1 + |key|] == '}';
    assert forall k :: 1 <= k < 1 + |key| ==> t[k] == key[k - 1];
    var j := FindFrom(t, '}', 1);
    assert j == 1 + |key|;
    assert t[1..j] == key;
    assert t[j + 1..] == rest;
  }

  /** One part of a template: literal text, or a named replacement field. */
  datatype Piece = Text(text: string) | Field(name: string)

  /** A template as `str.format` parses it: its text and fields in order. */
  type Template = seq<Piece>

  /** The template as written: texts as they are, each field as `{name}`. */
  function Source(t: Template): string {
    if t == [] then ""
    else
      match t[0]
      case Text(s) => s + Source(t[1..])
      case Field(k) => "{" + k + "}" + Source(t[1..])
  }

  /** A text without braces, or a field with a plain name. */
  predicate PieceOk(p: Piece) {
    match p
    case Text(s) => NoBraces(s)
    case Field(k) => FieldName(k)
  }

  /** Every piece is plain, as in every message template. */
  predicate WellFormed(t: Template) {
    forall i :: 0 <= i < |t| ==> PieceOk(t[i])
  }

  /** `t` has a field named `k`. */
  predicate HasField(t: Template, k: string) {
    exists i :: 0 <= i < |t| && t[i] == Field(k)
  }

  /**
   * Filling the fields of `t` from `kw`, left to right. It fails exactly
   * when some field has no keyword argument, and then with a `KeyError`
   * for such a field.
   */
  function Render(t: Template, kw: map<string, string>): (r: Result<string, FormatError>)
    ensures r.Success? <==> forall k :: HasField(t, k) ==> k in kw
    ensures r.Failure? ==> r.error.KeyError? && HasField(t, r.error.key) && r.error.key !in kw
  {
    if t == [] then Success("")
    else
      assert forall k :: HasField(t, k) <==> t[0] == Field(k) || HasField(t[1..], k) by {
        forall k ensures HasField(t, k) ==> t[0] == Field(k) || HasField(t[1..], k) {
          if HasField(t, k) && t[0] != Field(k) {
            var i :| 0 <= i < |t| && t[i] == Field(k);
            assert t[1..][i - 1] == Field(k);
          }
        }
        forall k ensures HasField(t[1..], k) ==> HasField(t, k) {
          if HasField(t[1..], k) {
            var i :| 0 <= i < |t[1..]| && t[1..][i] == Field(k);
            assert t[i + 1] == Field(k);
          }
        }
      }
      match t[0]
      case Text(s) => Prepend(s, Render(t[1..], kw))
      case Field(k) => if k in kw then Prepend(kw[k], Render(t[1..], kw)) else Failure(KeyError(k))
  }

  /**
   * `Source(t).format(**kw)` is `Render(t, kw)`: parsing the written
   * template finds exactly its texts and fields.
   */
  lemma {:induction false} FormatSource(t: Template, kw: map<string, string>)
    requires WellFormed(t)
    ensures Format(Source(t), kw) == Render(t, kw)
  {
    if t != [] {
      assert WellFormed(t[1..]) by {
        forall i | 0 <= i < |t[1..]| ensures t[1..][i] == t[i + 1] { }
      }
      FormatSource(t[1..], kw);
      assert PieceOk(t[0]);
      match t[0]
      case Text(s) => FormatText(s, Source(t[1..]), kw);
      case Field(k) => FormatField(k, Source(t[1..]), kw);
    }
  }

  /**
   * Keyword arguments beyond those a successful rendering used change
   * nothing: only the fields of the template are looked up.
   */
  lemma {:induction false} RenderExtraKeys(t: Template, kw: map<string, string>, more: map<string, string>)
    requires Render(t, kw).Success?
    requires forall k :: k in kw ==> k in more && more[k] == kw[k]
    ensures Render(t, more) == Render(t, kw)
  {
    if t != [] {
      RenderExtraKeys(t[1..], kw, more);
    }
  }
}
