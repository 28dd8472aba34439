/** SQL string literals: how the deployer writes them, how its masking pattern reads them back, and how its
    statement splitter sees them. */
module SqlLiteral {
  import opened Text
  import opened SqlLexer

  /** `value.replace("'", "''")` */
  function Doubled(value: string): string {
    if value == "" then ""
    else (if value[0] == '\'' then "''" else [value[0]]) + Doubled(value[1..])
  }

  function Literal(value: string): string {
    "'" + Doubled(value) + "'"
  }

  /** `text.replace("''", "'")`, left to right without overlap. */
  function Undoubled(text: string): string
    decreases |text|
  {
    if text == "" then ""
    else if |text| > 1 && text[0] == '\'' && text[1] == '\'' then "'" + Undoubled(text[2..])
    else [text[0]] + Undoubled(text[1..])
  }

  /** The pattern `'(?:''|[^'])*'` after its opening quote: the length up to and with the closing quote, or none.
      At a doubled quote the pattern goes on, and comes back to close there when it finds no later end. */
  function ClosingAt(text: string): (end: int)
    ensures end <= |text| && (end >= 0 ==> end > 0 && text[end - 1] == '\'')
    decreases |text|
  {
    if text == "" then -1
    else if text[0] != '\'' then
      var end := ClosingAt(text[1..]);
      if end < 0 then -1 else end + 1
    else if |text| > 1 && text[1] == '\'' then
      var end := ClosingAt(text[2..]);
      if end < 0 then 1 else end + 2
    else 1
  }

  const EXAM_MODULE := "operator_final_exam"
  const EXAM_MASK := " __operator_final_exam_literal__ "
  const OTHER_MASK := " __literal__ "

  /** `SQL_LITERAL.sub`: every literal of the text is replaced by a mask that tells only the exam module apart. */
  function Masked(sql: string): string
    decreases |sql|
  {
    if sql == "" then ""
    else
      var end := if sql[0] == '\'' then ClosingAt(sql[1..]) else -1;
      if end < 0 then [sql[0]] + Masked(sql[1..])
      else (if Undoubled(sql[1..end]) == EXAM_MODULE then EXAM_MASK else OTHER_MASK) + Masked(sql[end + 1..])
  }

  lemma {:induction false} UndoubleDoubled(value: string)
    ensures Undoubled(Doubled(value)) == value
  {
    if value != "" {
      var rest := Doubled(value[1..]);
      UndoubleDoubled(value[1..]);
      if value[0] == '\'' {
        assert ("''" + rest)[2..] == rest;
      } else {
        assert ([value[0]] + rest)[1..] == rest;
      }
      assert value == [value[0]] + value[1..];
    }
  }

  lemma {:induction false} ClosingOfDoubled(value: string, rest: string)
    requires rest != "" ==> rest[0] != '\''
    ensures ClosingAt(Doubled(value) + ("'" + rest)) == |Doubled(value)| + 1
    decreases |value|
  {
    var tail := "'" + rest;
    if value == "" {
      assert "" + tail == tail;
    } else {
      ClosingOfDoubled(value[1..], rest);
      ClosingStep(value[0], Doubled(value[1..]) + tail);
      Assoc(if value[0] == '\'' then "''" else [value[0]], Doubled(value[1..]), tail);
    }
  }

  lemma ClosingStep(c: char, more: string)
    requires ClosingAt(more) >= 0
    ensures var head := if c == '\'' then "''" else [c]; ClosingAt(head + more) == |head| + ClosingAt(more)
  {
    if c == '\'' {
      assert ("''" + more)[2..] == more;
    } else {
      assert ([c] + more)[1..] == more;
    }
  }

  /** Writing a value as a literal and reading it back with the masking pattern consumes exactly the literal and
      returns the value, whatever the value holds, when no quote follows. */
  lemma LiteralRoundTrip(value: string, rest: string)
    requires rest != "" ==> rest[0] != '\''
    ensures
      var text := Literal(value) + rest;
      var end := ClosingAt(text[1..]);
      && end + 1 == |Literal(value)|
      && Undoubled(text[1..end]) == value
      && text[end + 1..] == rest
  {
    var text := Literal(value) + rest;
    var tail := "'" + rest;
    assert text[1..] == Doubled(value) + tail;
    ClosingOfDoubled(value, rest);
    assert text[1..|Doubled(value)| + 1] == Doubled(value);
    UndoubleDoubled(value);
  }

  /** No two values are written as the same literal. */
  lemma LiteralInjective(v: string, w: string)
    requires Literal(v) == Literal(w)
    ensures v == w
  {
    assert Doubled(v) == Literal(v)[1..|Literal(v)| - 1];
    assert Doubled(w) == Literal(w)[1..|Literal(w)| - 1];
    UndoubleDoubled(v);
    UndoubleDoubled(w);
  }

  /** A literal is masked as the exam module exactly when its value is the exam module's name. */
  lemma LiteralMasked(value: string, rest: string)
    requires rest != "" ==> rest[0] != '\''
    ensures Masked(Literal(value) + rest)
         == (if value == EXAM_MODULE then EXAM_MASK else OTHER_MASK) + Masked(rest)
  {
    LiteralRoundTrip(value, rest);
  }

  /** A backslash right before a quote is what the splitter refuses as ambiguous. */
  predicate Unambiguous(value: string) {
    && (value != "" ==> value[|value| - 1] != '\\')
    && forall i :: 0 <= i < |value| - 1 ==> !(value[i] == '\\' && value[i + 1] == '\'')
  }

  /** In quotes, with or without a backslash just read. */
  ghost predicate InLiteral(s: State, raw: string, tokens: seq<Token>, statements: seq<Statement>) {
    s == Reading(Quoted(false), raw, tokens, statements) || s == Reading(QuotedBackslash(false), raw, tokens, statements)
  }

  lemma {:induction false} RunDoubled(s: State, value: string)
    requires s.Reading? && InLiteral(s, s.raw, s.tokens, s.statements)
    requires Unambiguous(value)
    requires s.mode.QuotedBackslash? ==> value != "" && value[0] != '\''
    ensures Run(s, Doubled(value) + "'") == Reading(QuotedQuote(false), s.raw + (Doubled(value) + "'"), s.tokens, s.statements)
    decreases |value|
  {
    var text := Doubled(value) + "'";
    if value == "" {
      assert text == "'" && text[1..] == "";
      assert Run(s, text) == Run(Step(s, '\''), "");
    } else {
      var more := Doubled(value[1..]) + "'";
      var head := if value[0] == '\'' then "''" else [value[0]];
      assert text == head + more;
      assert s.raw + text == (s.raw + head) + more;
      RunConcat(s, head, more);
      RunHead(s, value[0]);
      RunDoubled(Run(s, head), value[1..]);
    }
  }

  lemma RunHead(s: State, c: char)
    requires s.Reading? && InLiteral(s, s.raw, s.tokens, s.statements)
    requires s.mode.QuotedBackslash? ==> c != '\''
    ensures
      var head := if c == '\'' then "''" else [c];
      Run(s, head) == Reading(if c == '\\' then QuotedBackslash(false) else Quoted(false), s.raw + head, s.tokens, s.statements)
  {
    RunChar(s, c);
    if c == '\'' { RunDoubledQuote(s); }
  }

  lemma RunDoubledQuote(s: State)
    requires s.Reading? && s.mode == Quoted(false)
    ensures Run(s, "''") == s.(raw := s.raw + "''")
  {
    hide Run;
    var t := s.(mode := QuotedQuote(false), raw := s.raw + ['\'']);
    RunChar(s, '\'');
    RunChar(t, '\'');
    RunThen(s, "'", t, "'", Step(t, '\''));
    assert "'" + "'" == "''" && (s.raw + ['\'']) + ['\''] == s.raw + "''";
  }

  /** The splitter reads an unambiguous literal that does not follow a lone `e` as one string without tokens. */
  lemma LiteralIsOneString(raw: string, tokens: seq<Token>, statements: seq<Statement>, value: string)
    requires !EscapeOpens(raw) && Unambiguous(value)
    ensures Run(Reading(Normal, raw, tokens, statements), Literal(value))
         == Reading(QuotedQuote(false), raw + Literal(value), tokens, statements)
  {
    var s := Reading(Normal, raw, tokens, statements);
    var text := Literal(value);
    assert text == "'" + (Doubled(value) + "'");
    assert text[1..] == Doubled(value) + "'";
    assert raw + text == (raw + "'") + (Doubled(value) + "'");
    RunDoubled(Step(s, '\''), value);
  }

  /** Any other literal makes the splitter refuse the whole text. */
  lemma {:induction false} AmbiguousRefused(s: State, value: string, rest: string)
    requires s.Reading? && s.mode == Quoted(false)
    requires !Unambiguous(value)
    ensures Run(s, Doubled(value) + "'" + rest) == Rejected(AmbiguousBackslashQuote)
    decreases |value|
  {
    var head := if value[0] == '\'' then "''" else [value[0]];
    var more := Doubled(value[1..]) + "'" + rest;
    assert Doubled(value) + "'" + rest == head + more;
    RunConcat(s, head, more);
    RunHead(s, value[0]);
    var t := Run(s, head);
    if Unambiguous(value[1..]) {
      assert value[0] == '\\' && (|value| == 1 || value[1] == '\'');
      assert more[0] == '\'';
      RunRejected(Step(t, '\''), more[1..]);
    } else if value[0] == '\\' {
      BackslashThen(t, more);
      AmbiguousRefused(t.(mode := Quoted(false)), value[1..], rest);
    } else {
      AmbiguousRefused(t, value[1..], rest);
    }
  }

  /** A pending backslash is forgotten unless a quote comes next; another backslash is pending in turn. */
  lemma BackslashThen(t: State, text: string)
    requires t.Reading? && t.mode == QuotedBackslash(false) && text != ""
    ensures text[0] != '\'' ==> Run(t, text) == Run(t.(mode := Quoted(false)), text)
    ensures text[0] == '\'' ==> Run(t, text) == Rejected(AmbiguousBackslashQuote)
  {
    if text[0] == '\'' { RunRejected(Step(t, '\''), text[1..]); }
  }
}
