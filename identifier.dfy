/**
 * logfunc/identifier.py: a random call id spliced into the leading
 * `name()` token of a log message.
 */
module Identifier {
  import opened Wrappers
  import opened Values
  import opened PyText

  const ASCII_LOWERCASE: string := "abcdefghijklmnopqrstuvwxyz"
  const ASCII_UPPERCASE: string := "ABCDEFGHIJKLMNOPQRSTUVWXYZ"
  const ASCII_LETTERS: string := ASCII_LOWERCASE + ASCII_UPPERCASE
  const DIGITS: string := "0123456789"

  /** The id alphabet: `string.ascii_letters + string.digits + '_-'`. */
  const ID_CHARS: string := ASCII_LETTERS + DIGITS + "_-"
  /** The id length. */
  const ID_LEN: nat := 6

  /** The characters `c`, `c+1`, ..., `n` of them. */
  function CharRange(c: char, n: nat): (r: string)
    requires c as int + n < 0xD800
    ensures |r| == n
    ensures forall i :: 0 <= i < n ==> r[i] as int == c as int + i
  {
    seq(n, i requires 0 <= i < n => (c as int + i) as char)
  }

  /** The code point of `ID_CHARS[i]`, block by block. */
  function IdCode(i: int): int {
    if i < 26 then 'a' as int + i
    else if i < 52 then 'A' as int + (i - 26)
    else if i < 62 then '0' as int + (i - 52)
    else if i == 62 then '_' as int
    else '-' as int
  }

  lemma IdBlocks()
    ensures ID_CHARS == CharRange('a', 26) + CharRange('A', 26) + CharRange('0', 10) + "_-"
  {
    assert ASCII_LOWERCASE == CharRange('a', 26);
    assert ASCII_UPPERCASE == CharRange('A', 26);
    assert DIGITS == CharRange('0', 10);
  }

  function Pow(b: nat, e: nat): nat {
    if e == 0 then 1 else b * Pow(b, e - 1)
  }

  /**
   * The alphabet has 64 distinct characters, so there are 64^6 =
   * 68719476736 ids of length `ID_LEN`.
   */
  lemma IdAlphabet()
    ensures |ID_CHARS| == 64 && Distinct(ID_CHARS)
    ensures Pow(|ID_CHARS|, ID_LEN) == 68719476736
  {
    IdBlocks();
    assert forall i :: 0 <= i < 64 ==> ID_CHARS[i] as int == IdCode(i);
    forall i, j | 0 <= i < j < |ID_CHARS|
      ensures ID_CHARS[i] != ID_CHARS[j]
    {
      assert IdCode(i) != IdCode(j);
    }
    assert Pow(64, 6) == 68719476736;
  }

  /** The index of the first `c` in `s`. */
  function IndexOf(s: string, c: char): (k: nat)
    requires c in s
    ensures k < |s| && s[k] == c
  {
    if s[0] == c then 0 else 1 + IndexOf(s[1..], c)
  }

  /**
   * `random.choices(chars, k=|draws|)` with the random source given as
   * `draws`: the i-th choice is `chars[draws[i] % len(chars)]`.
   */
  function Choices(chars: string, draws: seq<nat>): (r: string)
    requires chars != []
    ensures |r| == |draws|
    ensures forall i :: 0 <= i < |r| ==> r[i] in chars
  {
    seq(|draws|, i requires 0 <= i < |draws| => chars[draws[i] % |chars|])
  }

  lemma ModSmall(k: nat, n: nat)
    requires k < n
    ensures k % n == k
  {
  }

  /** Every string over `chars` is the outcome of some draws. */
  lemma ChoicesCover(chars: string, s: string)
    requires chars != []
    requires forall i :: 0 <= i < |s| ==> s[i] in chars
    ensures exists draws :: |draws| == |s| && Choices(chars, draws) == s
  {
    var draws := seq(|s|, i requires 0 <= i < |s| => IndexOf(chars, s[i]));
    forall i | 0 <= i < |s|
      ensures Choices(chars, draws)[i] == s[i]
    {
      ModSmall(IndexOf(chars, s[i]), |chars|);
    }
    assert Choices(chars, draws) == s;
  }

  /** `''.join(random.choices(ID_CHARS, k=ID_LEN))`, the new call id. */
  function NewId(draws: seq<nat>): (id: string)
    requires |draws| == ID_LEN
    ensures |id| == ID_LEN
    ensures forall i :: 0 <= i < |id| ==> id[i] in ID_CHARS
  {
    Choices(ID_CHARS, draws)
  }

  /** Every string of `ID_LEN` characters from the alphabet can come out. */
  lemma NewIdCovers(id: string)
    requires |id| == ID_LEN
    requires forall i :: 0 <= i < |id| ==> id[i] in ID_CHARS
    ensures exists draws :: |draws| == ID_LEN && NewId(draws) == id
  {
    ChoicesCover(ID_CHARS, id);
  }

  /**
   * The match of `FUNC_RE = r'^([^ ]+())'`: the longest non-empty run of
   * non-space characters at the start of `msg`, or `None` when `msg` is
   * empty or begins with a space.
   */
  function LeadingToken(msg: string): (r: Option<string>)
    ensures r.None? <==> msg == [] || msg[0] == ' '
    ensures r.Some? ==> r.value != [] && r.value <= msg
    ensures r.Some? ==> forall i :: 0 <= i < |r.value| ==> r.value[i] != ' '
    ensures r.Some? ==> |r.value| == |msg| || msg[|r.value|] == ' '
  {
    var k := FindFrom(msg, ' ', 0);
    if k == 0 then None else Some(msg[..k])
  }

  /**
   * `msg.lstrip(fstr)` removes exactly the leading token: every character of
   * the token is in the token, and the next one is a space, which is not.
   */
  lemma StripToken(msg: string)
    requires LeadingToken(msg).Some?
    ensures LStrip(msg, LeadingToken(msg).value) == msg[|LeadingToken(msg).value|..]
  {
    var tok := LeadingToken(msg).value;
    var rest := msg[|tok|..];
    assert msg == tok + rest;
    forall i | 0 <= i < |tok| ensures tok[i] in tok { }
    LStripExactly(tok, rest, tok);
  }

  const NO_MATCH: Exc := StdExc("AttributeError", "'NoneType' object has no attribute 'group'")

  /**
   * `add_identifier(msg)` with the id drawn from `draws`: every `()` in
   * the leading token becomes `(<id>)`; a
   * message without a leading token fails on `.group`.
   */
  function AddIdentifier(msg: string, draws: seq<nat>): (r: Result<string, Exc>)
    requires |draws| == ID_LEN
    ensures r.Failure? <==> msg == [] || msg[0] == ' '
    ensures r.Failure? ==> r.error == NO_MATCH
    ensures r.Success? ==>
              var tok := LeadingToken(msg).value;
              r.value == Replace(tok, "()", "(" + NewId(draws) + ")") + msg[|tok|..]
  {
    var id := NewId(draws);
    match LeadingToken(msg)
    case None => Failure(NO_MATCH)
    case Some(fstr) =>
      StripToken(msg);
      Success(Replace(fstr, "()", "(" + id + ")") + LStrip(msg, fstr))
  }

  /** `add_identifier` on a message whose leading token is `tok`. */
  lemma AddIdentifierAt(msg: string, tok: string, draws: seq<nat>)
    requires |draws| == ID_LEN
    requires LeadingToken(msg) == Some(tok)
    ensures AddIdentifier(msg, draws) == Success(Replace(tok, "()", "(" + NewId(draws) + ")") + msg[|tok|..])
  {
  }

  /** A leading token without `()` leaves the message as it was. */
  lemma AddIdentifierNoCall(msg: string, draws: seq<nat>)
    requires |draws| == ID_LEN
    requires LeadingToken(msg).Some? && NoOccurrence(LeadingToken(msg).value, "()")
    ensures AddIdentifier(msg, draws) == Success(msg)
  {
    var tok := LeadingToken(msg).value;
    AddIdentifierAt(msg, tok, draws);
    ReplaceAbsent(tok, "()", "(" + NewId(draws) + ")");
    assert tok + msg[|tok|..] == msg;
  }

  /** The leading token of `name() ...` is `name()`. */
  lemma LeadingTokenAtCall(name: string, tail: string)
    requires forall i :: 0 <= i < |name| ==> name[i] != ' '
    requires tail == [] || tail[0] == ' '
    ensures LeadingToken(name + "()" + tail) == Some(name + "()")
  {
    var msg := name + "()" + tail;
    assert msg[..|name| + 2] == name + "()";
    assert |msg| == |name| + 2 || msg[|name| + 2] == ' ';
    assert FindFrom(msg, ' ', 0) == |name| + 2;
  }

  /** In `name()`, with no `(` in the name, the one `()` is the one replaced. */
  lemma ReplaceAtCall(name: string, rep: string)
    requires forall i :: 0 <= i < |name| ==> name[i] != '('
    ensures Replace(name + "()", "()", rep) == name + rep
  {
    forall i | 0 <= i < |name|
      ensures !("()" <= (name + "()")[i..])
    {
      assert (name + "()")[i] == name[i];
    }
    ReplaceSkips(name, "()", "()", rep);
    assert Replace("()", "()", rep) == rep + Replace([], "()", rep) == rep;
  }

  /**
   * A log line `name() ...` (a name without spaces or `(`) becomes
   * `name(<id>) ...`; the rest of the line is untouched.
   */
  lemma AddIdentifierAtCall(name: string, tail: string, draws: seq<nat>)
    requires |draws| == ID_LEN
    requires forall i :: 0 <= i < |name| ==> name[i] != ' ' && name[i] != '('
    requires tail == [] || tail[0] == ' '
    ensures AddIdentifier(name + "()" + tail, draws) == Success(name + "(" + NewId(draws) + ")" + tail)
  {
    LeadingTokenAtCall(name, tail);
    AddIdentifierAt(name + "()" + tail, name + "()", draws);
    SpliceAtCall(name, tail, NewId(draws));
  }

  /** The replaced token followed by the rest of `name() ...` is `name(<id>) ...`. */
  lemma SpliceAtCall(name: string, tail: string, id: string)
    requires forall i :: 0 <= i < |name| ==> name[i] != '('
    ensures Replace(name + "()", "()", "(" + id + ")") + (name + "()" + tail)[|name + "()"|..]
         == name + "(" + id + ")" + tail
  {
    var rep := "(" + id + ")";
    ReplaceAtCall(name, rep);
    assert (name + "()" + tail)[|name + "()"|..] == tail;
    assert name + rep + tail == name + "(" + id + ")" + tail;
  }
}
