/** Reading SQL text that is put together from known pieces: words, punctuation, literals, dollar quotes. */
module SqlPieces {
  import opened Text
  import opened SqlLexer
  import opened LexerLaws
  import opened SqlLiteral

  /** A character that means nothing to the splitter: a blank, a digit, or punctuation that opens nothing. */
  predicate IsInert(c: char) {
    c !in ";'\"$-/" && !IsNameStart(c)
  }

  predicate AllInert(s: string) {
    forall i :: 0 <= i < |s| ==> IsInert(s[i])
  }

  lemma {:induction false} RunInert(raw: string, tokens: seq<Token>, statements: seq<Statement>, gap: string)
    requires AllInert(gap)
    ensures Run(Reading(Normal, raw, tokens, statements), gap) == Reading(Normal, raw + gap, tokens, statements)
    decreases |gap|
  {
    if gap == "" {
      assert raw + "" == raw;
    } else {
      assert (raw + [gap[0]]) + gap[1..] == raw + gap;
      RunInert(raw + [gap[0]], tokens, statements, gap[1..]);
    }
  }

  lemma {:induction false} RunWordRest(w: string, raw: string, tokens: seq<Token>, statements: seq<Statement>, rest: string)
    requires AllWordChars(rest)
    ensures Run(Reading(Word(w), raw, tokens, statements), rest) == Reading(Word(w + rest), raw + rest, tokens, statements)
    decreases |rest|
  {
    if rest == "" {
      assert raw + "" == raw && w + "" == w;
    } else {
      assert (raw + [rest[0]]) + rest[1..] == raw + rest;
      assert (w + [rest[0]]) + rest[1..] == w + rest;
      RunWordRest(w + [rest[0]], raw + [rest[0]], tokens, statements, rest[1..]);
    }
  }

  predicate IsWord(w: string) {
    w != "" && IsNameStart(w[0]) && AllWordChars(w)
  }

  lemma RunWord(raw: string, tokens: seq<Token>, statements: seq<Statement>, w: string)
    requires IsWord(w)
    ensures Run(Reading(Normal, raw, tokens, statements), w) == Reading(Word(w), raw + w, tokens, statements)
  {
    assert (raw + [w[0]]) + w[1..] == raw + w;
    assert [w[0]] + w[1..] == w;
    RunWordRest([w[0]], raw + [w[0]], tokens, statements, w[1..]);
  }

  function Decimal(n: nat): string {
    if n < 10 then [('0' as int + n) as char] else Decimal(n / 10) + [('0' as int + n % 10) as char]
  }

  lemma {:induction false} DecimalDigits(n: nat)
    ensures Decimal(n) != "" && forall i :: 0 <= i < |Decimal(n)| ==> IsDigit(Decimal(n)[i])
  {
    if n >= 10 { DecimalDigits(n / 10); }
  }

  /** A word, a literal or a number, with the inert text after it. */
  datatype Piece = Code(word: string, gap: string) | Value(value: string, gap: string) | Count(n: nat, gap: string)

  function Render(p: Piece): string {
    match p
    case Code(word, gap) => word + gap
    case Value(value, gap) => Literal(value) + gap
    case Count(n, gap) => Decimal(n) + gap
  }

  function RenderAll(ps: seq<Piece>): string {
    if ps == [] then "" else Render(ps[0]) + RenderAll(ps[1..])
  }

  function TokensOf(ps: seq<Piece>): seq<Token> {
    if ps == [] then [] else (if ps[0].Code? then [Casefold(ps[0].word)] else []) + TokensOf(ps[1..])
  }

  predicate Readable(p: Piece) {
    && p.gap != "" && AllInert(p.gap) && !IsDigit(p.gap[0])
    && match p
       case Code(word, _) => IsWord(word)
       case Value(value, _) => Unambiguous(value)
       case Count(_, _) => true
  }

  /** The text so far does not end in a letter that could turn a literal into an escape string. */
  predicate Calm(raw: string) {
    raw != "" ==> IsInert(raw[|raw| - 1])
  }

  /** What the splitter is in after a word, a literal or a number. */
  function After(p: Piece): Mode {
    match p
    case Code(word, _) => Word(word)
    case Value(_, _) => QuotedQuote(false)
    case Count(_, _) => Normal
  }

  function Head(p: Piece): string {
    match p
    case Code(word, _) => word
    case Value(value, _) => Literal(value)
    case Count(n, _) => Decimal(n)
  }

  lemma RunHeadOf(raw: string, tokens: seq<Token>, statements: seq<Statement>, p: Piece)
    requires Readable(p) && Calm(raw)
    ensures Run(Reading(Normal, raw, tokens, statements), Head(p)) == Reading(After(p), raw + Head(p), tokens, statements)
  {
    if p.Code? {
      RunWord(raw, tokens, statements, p.word);
    } else if p.Value? {
      LiteralIsOneString(raw, tokens, statements, p.value);
    } else {
      DecimalDigits(p.n);
      RunInert(raw, tokens, statements, Decimal(p.n));
    }
  }

  lemma RunGap(raw: string, tokens: seq<Token>, statements: seq<Statement>, p: Piece)
    requires Readable(p)
    ensures Run(Reading(After(p), raw, tokens, statements), p.gap)
         == Reading(Normal, raw + p.gap, tokens + TokensOf([p]), statements)
  {
    var s := Reading(After(p), raw, tokens, statements);
    var gap := p.gap;
    StepInCode(s, gap[0]);
    assert Pending(s) == tokens + TokensOf([p]);
    RunInert(raw + [gap[0]], tokens + TokensOf([p]), statements, gap[1..]);
    assert (raw + [gap[0]]) + gap[1..] == raw + gap;
  }

  lemma RunPiece(raw: string, tokens: seq<Token>, statements: seq<Statement>, p: Piece)
    requires Readable(p) && Calm(raw)
    ensures Run(Reading(Normal, raw, tokens, statements), Render(p))
         == Reading(Normal, raw + Render(p), tokens + TokensOf([p]), statements)
  {
    hide Run, TokensOf, Readable, Calm, After;
    var s := Reading(Normal, raw, tokens, statements);
    RunHeadOf(raw, tokens, statements, p);
    RunGap(raw + Head(p), tokens, statements, p);
    RunThen(s, Head(p), Reading(After(p), raw + Head(p), tokens, statements), p.gap,
            Reading(Normal, (raw + Head(p)) + p.gap, tokens + TokensOf([p]), statements));
    assert (raw + Head(p)) + p.gap == raw + Render(p);
  }

  lemma CalmAfter(raw: string, p: Piece)
    requires Readable(p)
    ensures Calm(raw + Render(p))
  {
    var text := Render(p);
    assert text[|text| - 1] == p.gap[|p.gap| - 1];
    assert (raw + text)[|raw| + |text| - 1] == text[|text| - 1];
  }

  lemma {:induction false} RunPieces(raw: string, tokens: seq<Token>, statements: seq<Statement>, ps: seq<Piece>)
    requires Calm(raw) && forall i :: 0 <= i < |ps| ==> Readable(ps[i])
    ensures Run(Reading(Normal, raw, tokens, statements), RenderAll(ps))
         == Reading(Normal, raw + RenderAll(ps), tokens + TokensOf(ps), statements)
    decreases |ps|
  {
    if ps == [] {
      assert raw + "" == raw && tokens + [] == tokens;
    } else {
      hide Run, RenderAll, TokensOf, Render;
      var s := Reading(Normal, raw, tokens, statements);
      var p, rest := ps[0], ps[1..];
      RunPiece(raw, tokens, statements, p);
      CalmAfter(raw, p);
      RunPieces(raw + Render(p), tokens + TokensOf([p]), statements, rest);
      var t := Reading(Normal, raw + Render(p), tokens + TokensOf([p]), statements);
      RunThen(s, Render(p), t, RenderAll(rest), Run(t, RenderAll(rest)));
      RenderOne(raw, tokens, ps);
    }
  }

  lemma RenderOne(raw: string, tokens: seq<Token>, ps: seq<Piece>)
    requires ps != []
    ensures (tokens + TokensOf([ps[0]])) + TokensOf(ps[1..]) == tokens + TokensOf(ps)
    ensures RenderAll(ps) == Render(ps[0]) + RenderAll(ps[1..])
    ensures (raw + Render(ps[0])) + RenderAll(ps[1..]) == raw + RenderAll(ps)
  {
    Assoc(raw, Render(ps[0]), RenderAll(ps[1..]));
    TokensOne(ps);
    Assoc(tokens, TokensOf([ps[0]]), TokensOf(ps[1..]));
  }

  lemma TokensOne(ps: seq<Piece>)
    requires ps != []
    ensures TokensOf([ps[0]]) + TokensOf(ps[1..]) == TokensOf(ps)
  {
    assert [ps[0]][1..] == [];
  }

  /** A statement of pieces and a semicolon, after whatever tokens were left over. */
  lemma RunStatement(raw: string, tokens: seq<Token>, statements: seq<Statement>, ps: seq<Piece>)
    requires Calm(raw) && TokensOf(ps) != [] && forall i :: 0 <= i < |ps| ==> Readable(ps[i])
    ensures Run(Reading(Normal, raw, tokens, statements), RenderAll(ps) + ";")
         == Fresh(statements + [Statement(Strip(raw + RenderAll(ps) + ";"), tokens + TokensOf(ps))])
  {
    hide Run, TokensOf, RenderAll;
    RunPieces(raw, tokens, statements, ps);
    var t := Reading(Normal, raw + RenderAll(ps), tokens + TokensOf(ps), statements);
    RunChar(t, ';');
    RunThen(Reading(Normal, raw, tokens, statements), RenderAll(ps), t, ";", Step(t, ';'));
  }

  predicate DollarFree(s: string) {
    forall i :: 0 <= i < |s| ==> s[i] != '$'
  }

  lemma DollarFreeConcat(s: string, t: string)
    requires DollarFree(s) && DollarFree(t)
    ensures DollarFree(s + t)
  {}

  predicate IsTag(tag: string) {
    && tag != "" && IsNameStart(tag[0])
    && forall i :: 0 <= i < |tag| ==> IsNameChar(tag[i])
  }

  lemma {:induction false} RunTag(tag: string, raw: string, tokens: seq<Token>, statements: seq<Statement>, rest: string)
    requires tag != "" && forall i :: 0 <= i < |rest| ==> IsNameChar(rest[i])
    ensures Run(Reading(DollarTag(tag), raw, tokens, statements), rest)
         == Reading(DollarTag(tag + rest), raw + rest, tokens, statements)
    decreases |rest|
  {
    if rest == "" {
      assert raw + "" == raw && tag + "" == tag;
    } else {
      assert (raw + [rest[0]]) + rest[1..] == raw + rest;
      assert (tag + [rest[0]]) + rest[1..] == tag + rest;
      RunTag(tag + [rest[0]], raw + [rest[0]], tokens, statements, rest[1..]);
    }
  }

  lemma RunOpeningTag(raw: string, tokens: seq<Token>, statements: seq<Statement>, tag: string)
    requires IsTag(tag)
    ensures Run(Reading(Normal, raw, tokens, statements), "$" + tag + "$")
         == Reading(DollarBody("$" + tag + "$", ""), raw + ("$" + tag + "$"), tokens + [DOLLAR_QUOTE], statements)
  {
    hide Run;
    var s := Reading(Normal, raw, tokens, statements);
    var s1 := Reading(DollarTag(""), raw + ['$'], tokens, statements);
    RunChar(s, '$');
    var first, rest := [tag[0]], tag[1..];
    var s2 := Reading(DollarTag(first), (raw + ['$']) + first, tokens, statements);
    RunChar(s1, tag[0]);
    assert "" + first == first;
    RunThen(s, "$", s1, first, s2);
    RunTag(first, s2.raw, tokens, statements, rest);
    assert first + rest == tag;
    var s3 := Reading(DollarTag(tag), s2.raw + rest, tokens, statements);
    RunThen(s, "$" + first, s2, rest, s3);
    RunChar(s3, '$');
    RunThen(s, ("$" + first) + rest, s3, "$", Step(s3, '$'));
    assert (("$" + first) + rest) + "$" == "$" + tag + "$";
    assert (s2.raw + rest) + ['$'] == raw + ("$" + tag + "$");
  }

  /** A prefix of a dollar-free body followed by the closing delimiter does not end with the delimiter before its end. */
  lemma OpenUntilEnd(body: string, delimiter: string, k: nat)
    requires DollarFree(body) && |delimiter| > 1 && delimiter[0] == '$' && delimiter[|delimiter| - 1] == '$'
    requires forall i :: 0 < i < |delimiter| - 1 ==> delimiter[i] != '$'
    requires k < |body + delimiter|
    ensures !EndsWith((body + delimiter)[..k], delimiter)
  {
    var text := body + delimiter;
    if |delimiter| <= k {
      assert text[k - 1] != '$' || k - 1 == |body|;
      var d := k - |delimiter|;
      var tail := text[..k][d..];
      assert tail[0] == text[d] && tail[|delimiter| - 1] == text[k - 1];
    }
  }

  lemma RunDollarBody(raw: string, tokens: seq<Token>, statements: seq<Statement>, delimiter: string, body: string)
    requires DollarFree(body) && |delimiter| > 1 && delimiter[0] == '$' && delimiter[|delimiter| - 1] == '$'
    requires forall i :: 0 < i < |delimiter| - 1 ==> delimiter[i] != '$'
    ensures Run(Reading(DollarBody(delimiter, ""), raw, tokens, statements), body + delimiter)
         == Reading(Normal, raw + (body + delimiter), tokens, statements)
  {
    hide Run;
    var text := body + delimiter;
    var last := |text| - 1;
    var most := text[..last];
    OpenBody(raw, tokens, statements, delimiter, body);
    assert text == most + [text[last]];
    var t := Reading(DollarBody(delimiter, most), raw + most, tokens, statements);
    assert text[last] == delimiter[|delimiter| - 1];
    assert most + ['$'] == text && text[|body|..] == delimiter;
    RunChar(t, '$');
    assert (raw + most) + ['$'] == raw + text;
    RunThen(Reading(DollarBody(delimiter, ""), raw, tokens, statements), most, t, ['$'], Step(t, '$'));
  }

  lemma OpenBody(raw: string, tokens: seq<Token>, statements: seq<Statement>, delimiter: string, body: string)
    requires DollarFree(body) && |delimiter| > 1 && delimiter[0] == '$' && delimiter[|delimiter| - 1] == '$'
    requires forall i :: 0 < i < |delimiter| - 1 ==> delimiter[i] != '$'
    ensures
      var text := body + delimiter;
      var most := text[..|text| - 1];
      Run(Reading(DollarBody(delimiter, ""), raw, tokens, statements), most)
      == Reading(DollarBody(delimiter, most), raw + most, tokens, statements)
  {
    var text := body + delimiter;
    var most := text[..|text| - 1];
    forall k | 0 < k <= |most| ensures !EndsWith("" + most[0..k], delimiter) {
      OpenUntilEnd(body, delimiter, k);
      assert "" + most[0..k] == text[..k];
    }
    hide Run, EndsWith, DollarFree;
    RunStays(Reading(DollarBody(delimiter, ""), raw, tokens, statements), most, 0, |most|);
    assert most[0..] == most && most[0..|most|] == most && most[|most|..] == "" && "" + most == most;
  }

  /** A whole dollar quote is one token, whatever its dollar-free body says. */
  lemma RunDollarQuote(raw: string, tokens: seq<Token>, statements: seq<Statement>, tag: string, body: string)
    requires IsTag(tag) && DollarFree(body)
    ensures
      var delimiter := "$" + tag + "$";
      Run(Reading(Normal, raw, tokens, statements), delimiter + (body + delimiter))
      == Reading(Normal, raw + (delimiter + (body + delimiter)), tokens + [DOLLAR_QUOTE], statements)
  {
    hide Run;
    var delimiter := "$" + tag + "$";
    RunOpeningTag(raw, tokens, statements, tag);
    RunDollarBody(raw + delimiter, tokens + [DOLLAR_QUOTE], statements, delimiter, body);
    assert (raw + delimiter) + (body + delimiter) == raw + (delimiter + (body + delimiter));
    RunThen(Reading(Normal, raw, tokens, statements), delimiter,
            Reading(DollarBody(delimiter, ""), raw + delimiter, tokens + [DOLLAR_QUOTE], statements), body + delimiter,
            Reading(Normal, (raw + delimiter) + (body + delimiter), tokens + [DOLLAR_QUOTE], statements));
  }
}
