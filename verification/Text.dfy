/** Characters and strings as the deployer sees them, for ASCII text. */
module Text {

  datatype Result<+T, +E> = Ok(value: T) | Err(error: E)

  datatype Option<+T> = None | Some(value: T)

  const BYTE_ORDER_MARK: char := '\U{feff}'

  /** `str.isspace`, which is also what the regular expressions call `\s` and `strip` removes. */
  predicate IsSpace(c: char) {
    9 <= c as int <= 13 || 28 <= c as int <= 32
  }

  predicate IsDigit(c: char) {
    '0' <= c <= '9'
  }

  predicate IsAlpha(c: char) {
    'a' <= c <= 'z' || 'A' <= c <= 'Z'
  }

  predicate IsNameStart(c: char) {
    IsAlpha(c) || c == '_'
  }

  predicate IsNameChar(c: char) {
    IsNameStart(c) || IsDigit(c)
  }

  /** A character that continues an SQL word: a dollar sign may, a digit may. */
  predicate IsWordChar(c: char) {
    IsNameChar(c) || c == '$'
  }

  const LOWER := "abcdefghijklmnopqrstuvwxyz"
  const UPPER := "ABCDEFGHIJKLMNOPQRSTUVWXYZ"
  const DIGITS := "0123456789"

  lemma PlaceIn(letters: string, first: char, c: char)
    requires first as int + |letters| < 128 && first <= c < (first as int + |letters|) as char
    requires forall i :: 0 <= i < |letters| ==> letters[i] == (first as int + i) as char
    ensures c in letters
  {
    assert letters[c as int - first as int] == c;
  }

  lemma Alphabets()
    ensures |LOWER| == |UPPER| == 26 && |DIGITS| == 10
    ensures forall i :: 0 <= i < 26 ==> LOWER[i] == ('a' as int + i) as char && UPPER[i] == ('A' as int + i) as char
    ensures forall i :: 0 <= i < 10 ==> DIGITS[i] == ('0' as int + i) as char
  {}

  /** The characters that begin a word, and those that go on with one. */
  lemma WordCharacters(c: char)
    ensures IsNameStart(c) <==> c in LOWER || c in UPPER || c in "_"
    ensures IsWordChar(c) <==> c in LOWER || c in UPPER || c in DIGITS || c in "_$"
  {
    Alphabets();
    hide LOWER, UPPER, DIGITS;
    if 'a' <= c <= 'z' { PlaceIn(LOWER, 'a', c); }
    if 'A' <= c <= 'Z' { PlaceIn(UPPER, 'A', c); }
    if '0' <= c <= '9' { PlaceIn(DIGITS, '0', c); }
  }

  predicate IsBlank(s: string) {
    forall i :: 0 <= i < |s| ==> IsSpace(s[i])
  }

  predicate AllWordChars(s: string) {
    forall i :: 0 <= i < |s| ==> IsWordChar(s[i])
  }

  function Lower(c: char): char {
    if 'A' <= c <= 'Z' then (c as int + 32) as char else c
  }

  function Casefold(s: string): (r: string)
    ensures |r| == |s|
    ensures forall i :: 0 <= i < |s| ==> r[i] == Lower(s[i])
  {
    if s == "" then "" else [Lower(s[0])] + Casefold(s[1..])
  }

  function StripLeft(s: string): (r: string)
    ensures |r| <= |s|
    ensures r != "" ==> !IsSpace(r[0])
  {
    if s != "" && IsSpace(s[0]) then StripLeft(s[1..]) else s
  }

  function StripRight(s: string): (r: string)
    ensures |r| <= |s|
    ensures r != "" ==> !IsSpace(r[|r| - 1]) && r[0] == s[0]
  {
    if s != "" && IsSpace(s[|s| - 1]) then StripRight(s[..|s| - 1]) else s
  }

  function Strip(s: string): string {
    StripRight(StripLeft(s))
  }

  lemma {:induction false} StripLeftBlank(before: string, s: string)
    requires IsBlank(before)
    ensures StripLeft(before + s) == StripLeft(s)
  {
    if before == "" {
      assert before + s == s;
    } else {
      assert (before + s)[1..] == before[1..] + s;
      StripLeftBlank(before[1..], s);
    }
  }

  lemma {:induction false} StripRightBlank(s: string, after: string)
    requires IsBlank(after)
    ensures StripRight(s + after) == StripRight(s)
  {
    if after == "" {
      assert s + after == s;
    } else {
      assert (s + after)[..|s + after| - 1] == s + after[..|after| - 1];
      StripRightBlank(s, after[..|after| - 1]);
    }
  }

  /** A text that starts and ends in ink is what remains of it between any blanks. */
  lemma StripUnique(before: string, ink: string, after: string)
    requires IsBlank(before) && IsBlank(after)
    requires ink != "" ==> !IsSpace(ink[0]) && !IsSpace(ink[|ink| - 1])
    ensures Strip(before + ink + after) == ink
  {
    assert before + ink + after == before + (ink + after);
    StripLeftBlank(before, ink + after);
    if ink == "" {
      assert ink + after == after && after == after + "" && "" + after == after;
      StripLeftBlank(after, "");
    } else {
      assert (ink + after)[0] == ink[0];
      StripRightBlank(ink, after);
    }
  }

  lemma {:induction false} StripLeftParts(s: string) returns (before: string)
    ensures IsBlank(before) && s == before + StripLeft(s)
  {
    before := "";
    if s != "" && IsSpace(s[0]) {
      var more := StripLeftParts(s[1..]);
      before := [s[0]] + more;
    }
  }

  lemma {:induction false} StripRightParts(s: string) returns (after: string)
    ensures IsBlank(after) && s == StripRight(s) + after
  {
    after := "";
    if s != "" && IsSpace(s[|s| - 1]) {
      var more := StripRightParts(s[..|s| - 1]);
      after := more + [s[|s| - 1]];
    }
  }

  /** How a text splits into blank, stripped part, blank. */
  lemma StripParts(s: string) returns (before: string, after: string)
    ensures IsBlank(before) && IsBlank(after) && s == before + Strip(s) + after
    ensures Strip(s) != "" ==> !IsSpace(Strip(s)[0]) && !IsSpace(Strip(s)[|Strip(s)| - 1])
  {
    before := StripLeftParts(s);
    after := StripRightParts(StripLeft(s));
    assert before + (Strip(s) + after) == before + Strip(s) + after;
  }

  lemma BlankConcat(s: string, t: string)
    ensures IsBlank(s + t) <==> IsBlank(s) && IsBlank(t)
  {
    if IsBlank(s + t) {
      forall i | 0 <= i < |s| ensures IsSpace(s[i]) { assert (s + t)[i] == s[i]; }
      forall i | 0 <= i < |t| ensures IsSpace(t[i]) { assert (s + t)[|s| + i] == t[i]; }
    }
  }

  lemma Cancel<T>(p: seq<T>, a: seq<T>, b: seq<T>)
    requires p + a == p + b
    ensures a == b
  {
    assert (p + a)[|p|..] == a && (p + b)[|p|..] == b;
  }

  lemma Assoc<T>(a: seq<T>, b: seq<T>, c: seq<T>)
    ensures (a + b) + c == a + (b + c)
  {}

  lemma Regroup(a: string, b: string, c: string, d: string, e: string)
    ensures a + (b + c + d) + e == (a + b) + c + (d + e)
  {}

  /** Blanks added around a text are stripped again. */
  lemma StripAround(before: string, s: string, after: string)
    requires IsBlank(before) && IsBlank(after)
    ensures Strip(before + s + after) == Strip(s)
  {
    var b, a := StripParts(s);
    var ink := Strip(s);
    Regroup(before, b, ink, a, after);
    BlankConcat(before, b);
    BlankConcat(a, after);
    StripUnique(before + b, ink, a + after);
  }
}
