/** SQL texts put together from the constructs of the language, written without the splitter: words, plain and escape
    strings, quoted names, dollar quotes and comments. The splitter reads every one of them as a whole, and ends a
    statement at the semicolons between them and nowhere else. */
module SqlRegions {
  import opened Text
  import opened SqlLexer
  import opened LexerLaws
  import opened SqlLiteral
  import opened SqlPieces

  // ---------------------------------------------------------------------------------------------
  // Escape strings
  // ---------------------------------------------------------------------------------------------

  /** What an escape string is made of: an ordinary character, a doubled quote, or a backslash with any character. */
  datatype Unit = Plain(c: char) | DoubledQuote | Escaped(c: char)

  predicate IsUnit(u: Unit) {
    u.Plain? ==> u.c != '\'' && u.c != '\\'
  }

  predicate AreUnits(units: seq<Unit>) {
    forall i :: 0 <= i < |units| ==> IsUnit(units[i])
  }

  function UnitText(u: Unit): string {
    match u
    case Plain(c) => [c]
    case DoubledQuote => "''"
    case Escaped(c) => ['\\', c]
  }

  function UnitsText(units: seq<Unit>): string {
    if units == [] then "" else UnitText(units[0]) + UnitsText(units[1..])
  }

  /** `e'...'` or `E'...'` */
  function EscapeLiteral(letter: char, units: seq<Unit>): string {
    [letter] + ("'" + (UnitsText(units) + "'"))
  }

  /** How any value is written: backslash and quote each with a backslash. */
  function UnitsOf(value: string): seq<Unit> {
    if value == "" then []
    else [if value[0] == '\'' || value[0] == '\\' then Escaped(value[0]) else Plain(value[0])] + UnitsOf(value[1..])
  }

  /** Reading units up to the closing quote, and the text after it; none when there is no end. */
  function ReadUnits(text: string): Option<(seq<Unit>, string)>
    decreases |text|
  {
    if text == "" || text == "\\" then None
    else if text[0] == '\\' then Then(Escaped(text[1]), ReadUnits(text[2..]))
    else if text[0] != '\'' then Then(Plain(text[0]), ReadUnits(text[1..]))
    else if |text| > 1 && text[1] == '\'' then Then(DoubledQuote, ReadUnits(text[2..]))
    else Some(([], text[1..]))
  }

  function Then(u: Unit, more: Option<(seq<Unit>, string)>): Option<(seq<Unit>, string)> {
    if more.None? then None else Some(([u] + more.value.0, more.value.1))
  }

  function ValueOf(units: seq<Unit>): string {
    if units == [] then ""
    else [if units[0].DoubledQuote? then '\'' else units[0].c] + ValueOf(units[1..])
  }

  lemma {:induction false} UnitsReadBack(units: seq<Unit>, rest: string)
    requires AreUnits(units) && (rest != "" ==> rest[0] != '\'')
    ensures ReadUnits(UnitsText(units) + ("'" + rest)) == Some((units, rest))
  {
    var tail := "'" + rest;
    if units == [] {
      QuoteEnds(rest);
      assert UnitsText(units) + tail == tail;
    } else {
      hide ReadUnits, UnitText;
      UnitsReadBack(units[1..], rest);
      var more := UnitsText(units[1..]) + tail;
      UnitFirst(units[0], more);
      Assoc(UnitText(units[0]), UnitsText(units[1..]), tail);
      assert units == [units[0]] + units[1..];
    }
  }

  lemma QuoteEnds(rest: string)
    requires rest != "" ==> rest[0] != '\''
    ensures ReadUnits("'" + rest) == Some(([], rest))
  {
    var text := "'" + rest;
    assert text[0] == '\'' && text[1..] == rest && "\\"[0] != '\'';
    if rest != "" { assert text[1] == rest[0]; }
  }

  lemma UnitFirst(u: Unit, more: string)
    requires IsUnit(u) && more != ""
    ensures ReadUnits(UnitText(u) + more) == Then(u, ReadUnits(more))
  {
    var text := UnitText(u) + more;
    assert u.Plain? ==> text[1..] == more;
    assert !u.Plain? ==> text[2..] == more;
  }

  lemma {:induction false} UnitsOfValue(value: string)
    ensures AreUnits(UnitsOf(value)) && ValueOf(UnitsOf(value)) == value
  {
    if value != "" {
      UnitsOfValue(value[1..]);
      assert UnitsOf(value)[1..] == UnitsOf(value[1..]);
      assert value == [value[0]] + value[1..];
    }
  }

  /** A value written as an escape string is read back, whatever it holds. */
  lemma EscapeRoundTrip(value: string, rest: string)
    requires rest != "" ==> rest[0] != '\''
    ensures
      var read := ReadUnits(UnitsText(UnitsOf(value)) + ("'" + rest));
      read.Some? && ValueOf(read.value.0) == value && read.value.1 == rest
  {
    UnitsOfValue(value);
    UnitsReadBack(UnitsOf(value), rest);
  }

  lemma RunUnit(s: State, u: Unit)
    requires s.Reading? && s.mode == Quoted(true) && IsUnit(u)
    ensures Run(s, UnitText(u)) == s.(raw := s.raw + UnitText(u))
  {
    hide Run;
    if u.Plain? {
      RunChar(s, u.c);
    } else {
      var first, second := if u.Escaped? then '\\' else '\'', if u.Escaped? then u.c else '\'';
      var t := s.(mode := if u.Escaped? then QuotedBackslash(true) else QuotedQuote(true), raw := s.raw + [first]);
      RunChar(s, first);
      RunChar(t, second);
      RunThen(s, [first], t, [second], Step(t, second));
      assert UnitText(u) == [first] + [second];
      Assoc(s.raw, [first], [second]);
    }
  }

  /** Nothing in an escape string ends it before its closing quote. */
  lemma {:induction false} RunUnits(s: State, units: seq<Unit>)
    requires s.Reading? && s.mode == Quoted(true) && AreUnits(units)
    ensures Run(s, UnitsText(units)) == s.(raw := s.raw + UnitsText(units))
    decreases |units|
  {
    if units == [] {
      assert s.raw + "" == s.raw;
    } else {
      hide Run, UnitText;
      var t := s.(raw := s.raw + UnitText(units[0]));
      RunUnit(s, units[0]);
      RunUnits(t, units[1..]);
      RunThen(s, UnitText(units[0]), t, UnitsText(units[1..]), Run(t, UnitsText(units[1..])));
      Assoc(s.raw, UnitText(units[0]), UnitsText(units[1..]));
    }
  }

  /** No word goes on over the end of the text. */
  predicate WordEnds(raw: string) {
    raw == "" || !IsWordChar(raw[|raw| - 1])
  }

  /** After `e` or `E` where no word goes on before it, the whole escape string is one region, and the only token is the
      letter's own. */
  lemma EscapeIsOneString(raw: string, tokens: seq<Token>, statements: seq<Statement>, letter: char, units: seq<Unit>)
    requires (letter == 'e' || letter == 'E') && WordEnds(raw) && AreUnits(units)
    ensures Run(Reading(Normal, raw, tokens, statements), EscapeLiteral(letter, units))
         == Reading(QuotedQuote(true), raw + EscapeLiteral(letter, units), tokens + ["e"], statements)
  {
    var s := Reading(Normal, raw, tokens, statements);
    var word := Reading(Word([letter]), raw + [letter], tokens, statements);
    var inside := Reading(Quoted(true), (raw + [letter]) + ['\''], tokens + ["e"], statements);
    LetterFolds(letter);
    LetterOpens(raw, letter);
    RunChar(s, letter);
    RunChar(word, '\'');
    assert Step(word, '\'') == inside;
    hide Run, UnitsText;
    RunUnits(inside, units);
    var last := inside.(raw := inside.raw + UnitsText(units));
    RunChar(last, '\'');
    RunThen(inside, UnitsText(units), last, "'", Step(last, '\''));
    RunThen(word, "'", inside, UnitsText(units) + "'", Step(last, '\''));
    RunThen(s, [letter], word, "'" + (UnitsText(units) + "'"), Step(last, '\''));
    FourAgain(raw, [letter], UnitsText(units));
  }

  lemma FourAgain(raw: string, letter: string, inside: string)
    ensures (((raw + letter) + ['\'']) + inside) + ['\''] == raw + (letter + ("'" + (inside + "'")))
  {}

  lemma LetterFolds(letter: char)
    requires letter == 'e' || letter == 'E'
    ensures Casefold([letter]) == "e" && IsNameStart(letter)
  {}

  lemma LetterOpens(raw: string, letter: char)
    requires (letter == 'e' || letter == 'E') && WordEnds(raw)
    ensures EscapeOpens(raw + [letter])
  {
    if raw != "" { assert (raw + [letter])[|raw| - 1] == raw[|raw| - 1]; }
  }

  /** A text that ends in an escape string is refused, with the reason told by a backslash at the end. */
  lemma EscapeUnterminated(s: State, units: seq<Unit>)
    requires s.Reading? && s.mode == Quoted(true) && AreUnits(units)
    ensures Outcome(s, UnitsText(units)) == Err(UnterminatedString)
    ensures Outcome(s, UnitsText(units) + "\\") == Err(UnterminatedEscapeString)
  {
    RunUnits(s, units);
    var t := s.(raw := s.raw + UnitsText(units));
    RunChar(t, '\\');
    RunThen(s, UnitsText(units), t, "\\", Step(t, '\\'));
  }

  /** After any longer word, or an `e` that goes on with one, a quote opens a plain string. */
  lemma StringAfterWord(raw: string, tokens: seq<Token>, statements: seq<Statement>, word: string, value: string)
    requires IsWord(word) && Unambiguous(value)
    requires |word| > 1 || (word != "e" && word != "E") || !WordEnds(raw)
    ensures Run(Reading(Normal, raw, tokens, statements), word + Literal(value))
         == Reading(QuotedQuote(false), raw + (word + Literal(value)), tokens + [Casefold(word)], statements)
  {
    hide Run, Literal, Casefold, EscapeOpens;
    var s := Reading(Normal, raw, tokens, statements);
    var t := Reading(Word(word), raw + word, tokens, statements);
    WordDoesNotOpen(raw, word);
    RunWord(raw, tokens, statements, word);
    LiteralIsOneString(raw + word, tokens + [Casefold(word)], statements, value);
    QuoteEndsWord(raw + word, tokens, statements, word, value);
    RunThen(s, word, t, Literal(value), Run(t, Literal(value)));
    Assoc(raw, word, Literal(value));
  }

  /** A quote ends the word before it. */
  lemma QuoteEndsWord(raw: string, tokens: seq<Token>, statements: seq<Statement>, word: string, value: string)
    ensures Run(Reading(Word(word), raw, tokens, statements), Literal(value))
         == Run(Reading(Normal, raw, tokens + [Casefold(word)], statements), Literal(value))
  {
    var t := Reading(Word(word), raw, tokens, statements);
    var u := Reading(Normal, raw, tokens + [Casefold(word)], statements);
    assert Step(t, '\'') == Step(u, '\'') && Literal(value)[0] == '\'';
  }

  lemma WordDoesNotOpen(raw: string, word: string)
    requires IsWord(word) && (|word| > 1 || (word != "e" && word != "E") || !WordEnds(raw))
    ensures !EscapeOpens(raw + word)
  {
    var text := raw + word;
    assert text[|text| - 1] == word[|word| - 1];
    if |word| > 1 {
      assert text[|text| - 2] == word[|word| - 2] && IsWordChar(word[|word| - 2]);
    } else {
      assert word == [word[0]];
      if !WordEnds(raw) { assert text[|text| - 2] == raw[|raw| - 1]; }
    }
  }

  // ---------------------------------------------------------------------------------------------
  // Comments and quoted names
  // ---------------------------------------------------------------------------------------------

  /** What a block comment holds: characters that belong to no mark, and block comments. */
  datatype Remark = Nothing | Char(c: char, rest: Remark) | Nested(inner: Remark, rest: Remark)

  predicate IsRemark(r: Remark) {
    match r
    case Nothing => true
    case Char(c, rest) => c != '/' && c != '*' && IsRemark(rest)
    case Nested(inner, rest) => IsRemark(inner) && IsRemark(rest)
  }

  function RemarkText(r: Remark): string {
    match r
    case Nothing => ""
    case Char(c, rest) => [c] + RemarkText(rest)
    case Nested(inner, rest) => BlockText(RemarkText(inner)) + RemarkText(rest)
  }

  function BlockText(inside: string): string {
    "/*" + (inside + "*/")
  }

  lemma RunPair(s: State, t: State, pair: string)
    requires |pair| == 2 && t == Step(Step(s, pair[0]), pair[1])
    ensures Run(s, pair) == t
  {
    RunChar(s, pair[0]);
    RunChar(Step(s, pair[0]), pair[1]);
    RunThen(s, [pair[0]], Step(s, pair[0]), [pair[1]], t);
    assert pair == [pair[0]] + [pair[1]];
  }

  /** A block comment in a block comment leaves it where it was. */
  lemma {:induction false} RunRemark(s: State, r: Remark)
    requires s.Reading? && s.mode.BlockComment? && s.mode.depth > 0 && IsRemark(r)
    ensures Run(s, RemarkText(r)) == s.(raw := s.raw + RemarkText(r))
    decreases r
  {
    match r {
      case Nothing => assert s.raw + "" == s.raw;
      case Char(c, rest) =>
        RunChar(s, c);
        var t := s.(raw := s.raw + [c]);
        RunRemark(t, rest);
        hide Run;
        RunThen(s, [c], t, RemarkText(rest), Run(t, RemarkText(rest)));
        Assoc(s.raw, [c], RemarkText(rest));
      case Nested(inner, rest) =>
        hide Run, RemarkText;
        var begun := s.(mode := BlockComment(s.mode.depth + 1), raw := s.raw + "/*");
        BlockOpens(s);
        RunRemark(begun, inner);
        BlockCloses(s, begun, RemarkText(inner));
        var t := s.(raw := s.raw + BlockText(RemarkText(inner)));
        RunRemark(t, rest);
        RunThen(s, BlockText(RemarkText(inner)), t, RemarkText(rest), Run(t, RemarkText(rest)));
        Assoc(s.raw, BlockText(RemarkText(inner)), RemarkText(rest));
        NestedText(inner, rest);
    }
  }

  lemma NestedText(inner: Remark, rest: Remark)
    ensures RemarkText(Nested(inner, rest)) == BlockText(RemarkText(inner)) + RemarkText(rest)
  {}

  lemma BlockOpens(s: State)
    requires s.Reading? && (s.mode.Normal? || s.mode.BlockComment?)
    ensures Run(s, "/*") == s.(mode := BlockComment(if s.mode.Normal? then 1 else s.mode.depth + 1), raw := s.raw + "/*")
  {
    var t := s.(mode := BlockComment(if s.mode.Normal? then 1 else s.mode.depth + 1), raw := s.raw + "/*");
    assert (s.raw + ['/']) + ['*'] == s.raw + "/*";
    RunPair(s, t, "/*");
  }

  lemma BlockCloses(s: State, begun: State, inside: string)
    requires s.Reading? && (s.mode.Normal? || (s.mode.BlockComment? && s.mode.depth > 0))
    requires begun == s.(mode := BlockComment(if s.mode.Normal? then 1 else s.mode.depth + 1), raw := s.raw + "/*")
    requires Run(s, "/*") == begun && Run(begun, inside) == begun.(raw := begun.raw + inside)
    ensures Run(s, BlockText(inside)) == s.(raw := s.raw + BlockText(inside))
  {
    var t := begun.(raw := begun.raw + inside);
    var closed := s.(raw := t.raw + "*/");
    assert (t.raw + ['*']) + ['/'] == t.raw + "*/";
    RunPair(t, closed, "*/");
    hide Run;
    RunThen(begun, inside, t, "*/", closed);
    RunThen(s, "/*", begun, inside + "*/", closed);
    Assoc(s.raw, "/*", inside);
    Assoc(s.raw, "/*" + inside, "*/");
    Assoc("/*", inside, "*/");
  }

  /** A whole block comment is passed over, however deep it goes. */
  lemma RunBlock(s: State, r: Remark)
    requires s.Reading? && s.mode.Normal? && IsRemark(r)
    ensures Run(s, BlockText(RemarkText(r))) == s.(raw := s.raw + BlockText(RemarkText(r)))
  {
    var begun := s.(mode := BlockComment(1), raw := s.raw + "/*");
    BlockOpens(s);
    RunRemark(begun, r);
    BlockCloses(s, begun, RemarkText(r));
  }

  predicate IsOneLine(text: string) {
    forall i :: 0 <= i < |text| ==> text[i] != '\n'
  }

  function LineText(text: string): string {
    "--" + (text + "\n")
  }

  /** A line comment is passed over, up to and with the end of the line. */
  lemma RunLineComment(s: State, text: string)
    requires s.Reading? && s.mode.Normal? && IsOneLine(text)
    ensures Run(s, LineText(text)) == s.(raw := s.raw + LineText(text))
  {
    var begun := s.(mode := LineComment, raw := s.raw + "--");
    assert (s.raw + ['-']) + ['-'] == s.raw + "--";
    RunPair(s, begun, "--");
    InLine(begun, text);
    var t := begun.(raw := begun.raw + text);
    var closed := s.(raw := t.raw + "\n");
    RunChar(t, '\n');
    hide Run;
    RunThen(begun, text, t, "\n", closed);
    RunThen(s, "--", begun, text + "\n", closed);
    Assoc(s.raw, "--", text);
    Assoc(s.raw, "--" + text, "\n");
    Assoc("--", text, "\n");
  }

  lemma {:induction false} InLine(s: State, text: string)
    requires s.Reading? && s.mode.LineComment? && IsOneLine(text)
    ensures Run(s, text) == s.(raw := s.raw + text)
    decreases |text|
  {
    if text == "" {
      assert s.raw + "" == s.raw;
    } else {
      InLine(Step(s, text[0]), text[1..]);
      assert (s.raw + [text[0]]) + text[1..] == s.raw + text;
    }
  }

  /** A name in double quotes, with those in the name doubled. */
  function NameText(name: string): string {
    if name == "" then "" else (if name[0] == '"' then "\"\"" else [name[0]]) + NameText(name[1..])
  }

  function QuotedName(name: string): string {
    "\"" + (NameText(name) + "\"")
  }

  lemma {:induction false} RunName(s: State, name: string)
    requires s.Reading? && s.mode.Identifier?
    ensures Run(s, NameText(name)) == s.(raw := s.raw + NameText(name))
    decreases |name|
  {
    if name == "" {
      assert s.raw + "" == s.raw;
    } else {
      var head := if name[0] == '"' then "\"\"" else [name[0]];
      var t := s.(raw := s.raw + head);
      if name[0] == '"' {
        assert (s.raw + ['"']) + ['"'] == s.raw + head;
        RunPair(s, t, head);
      } else {
        RunChar(s, name[0]);
      }
      RunName(t, name[1..]);
      hide Run;
      RunThen(s, head, t, NameText(name[1..]), Run(t, NameText(name[1..])));
      Assoc(s.raw, head, NameText(name[1..]));
    }
  }

  /** A quoted name is one token, whatever it holds. */
  lemma RunQuotedName(s: State, name: string)
    requires s.Reading? && s.mode.Normal?
    ensures Run(s, QuotedName(name))
         == s.(mode := IdentifierQuote, raw := s.raw + QuotedName(name), tokens := s.tokens + [QUOTED_IDENTIFIER])
  {
    var begun := s.(mode := Identifier, raw := s.raw + "\"", tokens := s.tokens + [QUOTED_IDENTIFIER]);
    RunChar(s, '"');
    RunName(begun, name);
    var t := begun.(raw := begun.raw + NameText(name));
    RunChar(t, '"');
    hide Run;
    RunThen(begun, NameText(name), t, "\"", Step(t, '"'));
    RunThen(s, "\"", begun, NameText(name) + "\"", Step(t, '"'));
    Assoc(s.raw, "\"", NameText(name));
    Assoc(s.raw, "\"" + NameText(name), "\"");
    Assoc("\"", NameText(name), "\"");
  }

  // ---------------------------------------------------------------------------------------------
  // Texts of regions
  // ---------------------------------------------------------------------------------------------

  datatype Region =
    | Part(piece: Piece)
    | EscapeString(letter: char, units: seq<Unit>, gap: string)
    | Name(name: string, gap: string)
    | DollarQuoted(tag: string, body: string, gap: string)
    | LineRemark(text: string)
    | BlockRemark(remark: Remark, gap: string)

  /** What stands between two regions: signs and blanks that mean nothing to the splitter. */
  predicate IsBetween(gap: string) {
    gap != "" && AllInert(gap) && !IsDigit(gap[0]) && !IsDigit(gap[|gap| - 1])
  }

  predicate IsRegion(r: Region) {
    match r
    case Part(piece) => Readable(piece) && IsBetween(piece.gap)
    case EscapeString(letter, units, gap) => (letter == 'e' || letter == 'E') && AreUnits(units) && IsBetween(gap)
    case Name(_, gap) => IsBetween(gap)
    case DollarQuoted(tag, body, gap) => IsTag(tag) && DollarFree(body) && IsBetween(gap)
    case LineRemark(text) => IsOneLine(text)
    case BlockRemark(remark, gap) => IsRemark(remark) && IsBetween(gap)
  }

  function RegionHead(r: Region): string {
    match r
    case Part(piece) => Head(piece)
    case EscapeString(letter, units, _) => EscapeLiteral(letter, units)
    case Name(name, _) => QuotedName(name)
    case DollarQuoted(tag, body, _) => ("$" + tag + "$") + (body + ("$" + tag + "$"))
    case LineRemark(text) => LineText(text)
    case BlockRemark(remark, _) => BlockText(RemarkText(remark))
  }

  function GapOf(r: Region): string {
    match r
    case Part(piece) => piece.gap
    case LineRemark(_) => ""
    case _ => r.gap
  }

  function RegionText(r: Region): string {
    RegionHead(r) + GapOf(r)
  }

  /** A word, an escape string's letter, a quoted name and a dollar quote are tokens; nothing else is. */
  function RegionTokens(r: Region): seq<Token> {
    match r
    case Part(piece) => if piece.Code? then [Casefold(piece.word)] else []
    case EscapeString(_, _, _) => ["e"]
    case Name(_, _) => [QUOTED_IDENTIFIER]
    case DollarQuoted(_, _, _) => [DOLLAR_QUOTE]
    case _ => []
  }

  function RegionsText(rs: seq<Region>): string {
    if rs == [] then "" else RegionText(rs[0]) + RegionsText(rs[1..])
  }

  function RegionsTokens(rs: seq<Region>): seq<Token> {
    if rs == [] then [] else RegionTokens(rs[0]) + RegionsTokens(rs[1..])
  }

  predicate AreRegions(rs: seq<Region>) {
    forall i :: 0 <= i < |rs| ==> IsRegion(rs[i])
  }

  /** Nothing that the next region could be taken together with. */
  predicate IsSettled(raw: string) {
    raw != "" ==> IsInert(raw[|raw| - 1]) && !IsDigit(raw[|raw| - 1])
  }

  lemma SettledWordEnds(raw: string)
    requires IsSettled(raw)
    ensures WordEnds(raw) && Calm(raw) && !EscapeOpens(raw)
  {}

  /** After the region and its gap, the splitter is back in normal code. */
  lemma GapReturns(s: State, gap: string)
    requires s.Reading? && (s.mode.Normal? || s.mode.QuotedQuote? || s.mode.IdentifierQuote?) && IsBetween(gap)
    ensures Run(s, gap) == Reading(Normal, s.raw + gap, s.tokens, s.statements)
  {
    var t := Reading(Normal, s.raw + [gap[0]], s.tokens, s.statements);
    assert IsInert(gap[0]);
    StepInCode(s, gap[0]);
    RunChar(s, gap[0]);
    RunInert(t.raw, s.tokens, s.statements, gap[1..]);
    hide Run;
    RunThen(s, [gap[0]], t, gap[1..], Run(t, gap[1..]));
    assert [gap[0]] + gap[1..] == gap;
    Assoc(s.raw, [gap[0]], gap[1..]);
  }

  lemma RunRegionHead(raw: string, tokens: seq<Token>, statements: seq<Statement>, r: Region)
    requires IsSettled(raw) && IsRegion(r) && !r.Part?
    ensures
      var t := Run(Reading(Normal, raw, tokens, statements), RegionHead(r));
      && t.Reading? && (t.mode.Normal? || t.mode.QuotedQuote? || t.mode.IdentifierQuote?)
      && t.raw == raw + RegionHead(r) && t.tokens == tokens + RegionTokens(r) && t.statements == statements
      && (r.LineRemark? ==> t.mode.Normal?)
  {
    SettledWordEnds(raw);
    var s := Reading(Normal, raw, tokens, statements);
    assert tokens + [] == tokens;
    hide Run, EscapeLiteral, QuotedName, LineText, BlockText, RemarkText, IsSettled;
    match r {
      case EscapeString(letter, units, _) => EscapeIsOneString(raw, tokens, statements, letter, units);
      case Name(name, _) => RunQuotedName(s, name);
      case DollarQuoted(tag, body, _) => RunDollarQuote(raw, tokens, statements, tag, body);
      case LineRemark(text) => RunLineComment(s, text);
      case BlockRemark(remark, _) => RunBlock(s, remark);
    }
  }

  lemma RunRegion(raw: string, tokens: seq<Token>, statements: seq<Statement>, r: Region)
    requires IsSettled(raw) && IsRegion(r)
    ensures Run(Reading(Normal, raw, tokens, statements), RegionText(r))
         == Reading(Normal, raw + RegionText(r), tokens + RegionTokens(r), statements)
  {
    hide Run, RegionHead, Readable, IsBetween, IsSettled, RegionTokens, Head;
    if r.Part? {
      SettledWordEnds(raw);
      RunPiece(raw, tokens, statements, r.piece);
      PartText(r);
    } else {
      var s := Reading(Normal, raw, tokens, statements);
      RunRegionHead(raw, tokens, statements, r);
      var t := Run(s, RegionHead(r));
      if r.LineRemark? {
        assert RegionHead(r) + "" == RegionHead(r);
      } else {
        GapReturns(t, GapOf(r));
        RunThen(s, RegionHead(r), t, GapOf(r), Run(t, GapOf(r)));
        Assoc(raw, RegionHead(r), GapOf(r));
      }
    }
  }

  lemma PartText(r: Region)
    requires r.Part?
    ensures RegionText(r) == Render(r.piece) && RegionTokens(r) == TokensOf([r.piece])
  {
    assert [r.piece][1..] == [];
  }

  lemma SettledAfter(raw: string, r: Region)
    requires IsRegion(r)
    ensures IsSettled(raw + RegionText(r))
  {
    var text := RegionText(r);
    var gap := GapOf(r);
    if r.LineRemark? {
      assert text[|text| - 1] == '\n';
    } else {
      assert text[|text| - 1] == gap[|gap| - 1] && IsInert(gap[|gap| - 1]);
    }
    assert (raw + text)[|raw| + |text| - 1] == text[|text| - 1];
  }

  /** A text of regions adds their tokens and leaves the statement open. */
  lemma {:induction false} RunRegions(raw: string, tokens: seq<Token>, statements: seq<Statement>, rs: seq<Region>)
    requires IsSettled(raw) && AreRegions(rs)
    ensures Run(Reading(Normal, raw, tokens, statements), RegionsText(rs))
         == Reading(Normal, raw + RegionsText(rs), tokens + RegionsTokens(rs), statements)
    decreases |rs|
  {
    if rs == [] {
      assert raw + "" == raw && tokens + [] == tokens;
    } else {
      hide Run, RegionText, RegionTokens, IsRegion, IsSettled;
      var s := Reading(Normal, raw, tokens, statements);
      var t := Reading(Normal, raw + RegionText(rs[0]), tokens + RegionTokens(rs[0]), statements);
      RunRegion(raw, tokens, statements, rs[0]);
      SettledAfter(raw, rs[0]);
      RunRegions(t.raw, t.tokens, statements, rs[1..]);
      RunThen(s, RegionText(rs[0]), t, RegionsText(rs[1..]), Run(t, RegionsText(rs[1..])));
      Assoc(raw, RegionText(rs[0]), RegionsText(rs[1..]));
      Assoc(tokens, RegionTokens(rs[0]), RegionsTokens(rs[1..]));
    }
  }

  // ---------------------------------------------------------------------------------------------
  // Statements
  // ---------------------------------------------------------------------------------------------

  function StatementText(rs: seq<Region>): string {
    RegionsText(rs) + ";"
  }

  function StatementsText(all: seq<seq<Region>>): string {
    if all == [] then "" else StatementText(all[0]) + StatementsText(all[1..])
  }

  /** One statement for every list of regions that has a token. */
  function StatementsOf(all: seq<seq<Region>>): seq<Statement> {
    if all == [] then []
    else (if RegionsTokens(all[0]) == [] then [] else [Statement(Strip(StatementText(all[0])), RegionsTokens(all[0]))])
         + StatementsOf(all[1..])
  }

  lemma RunOneStatement(statements: seq<Statement>, rs: seq<Region>)
    requires AreRegions(rs)
    ensures Run(Fresh(statements), StatementText(rs)) == Fresh(statements + StatementsOf([rs]))
  {
    hide *;
    RunRegions("", [], statements, rs) by { NothingSettled(); }
    assert "" + RegionsText(rs) == RegionsText(rs) && [] + RegionsTokens(rs) == RegionsTokens(rs);
    FreshIs(statements);
    var t := Reading(Normal, RegionsText(rs), RegionsTokens(rs), statements);
    RunSemicolon(RegionsText(rs), RegionsTokens(rs), statements);
    RunThen(Fresh(statements), RegionsText(rs), t, ";", Run(t, ";"));
    StatementOf(rs, statements);
  }

  lemma NothingSettled()
    ensures IsSettled("")
  {}

  lemma FreshIs(statements: seq<Statement>)
    ensures Fresh(statements) == Reading(Normal, "", [], statements)
  {}

  lemma RunSemicolon(raw: string, tokens: seq<Token>, statements: seq<Statement>)
    ensures Run(Reading(Normal, raw, tokens, statements), ";") == Fresh(Split(raw + ";", tokens, statements))
  {
    RunChar(Reading(Normal, raw, tokens, statements), ';');
  }

  lemma StatementOf(rs: seq<Region>, statements: seq<Statement>)
    ensures StatementText(rs) == RegionsText(rs) + ";"
    ensures statements + StatementsOf([rs]) == Split(RegionsText(rs) + ";", RegionsTokens(rs), statements)
  {
    hide RegionsText, RegionsTokens, Strip;
    assert [rs][1..] == [] && statements + [] == statements;
  }

  lemma {:induction false} RunStatements(statements: seq<Statement>, all: seq<seq<Region>>)
    requires forall i :: 0 <= i < |all| ==> AreRegions(all[i])
    ensures Run(Fresh(statements), StatementsText(all)) == Fresh(statements + StatementsOf(all))
    decreases |all|
  {
    if all == [] {
      assert statements + [] == statements;
    } else {
      hide Run, StatementText, AreRegions;
      var next := statements + StatementsOf([all[0]]);
      RunOneStatement(statements, all[0]);
      RunStatements(next, all[1..]);
      RunThen(Fresh(statements), StatementText(all[0]), Fresh(next), StatementsText(all[1..]), Fresh(next + StatementsOf(all[1..])));
      FirstStatement(all);
      Assoc(statements, StatementsOf([all[0]]), StatementsOf(all[1..]));
    }
  }

  lemma FirstStatement(all: seq<seq<Region>>)
    requires all != []
    ensures StatementsOf(all) == StatementsOf([all[0]]) + StatementsOf(all[1..])
  {
    assert [all[0]][1..] == [];
    hide RegionsTokens, StatementText;
  }

  /** Splitting a text of statements gives those statements: the semicolons between the regions separate them, and those
      inside strings, names, dollar quotes and comments do not. */
  lemma SplitsIntoStatements(all: seq<seq<Region>>)
    requires forall i :: 0 <= i < |all| ==> AreRegions(all[i])
    ensures Lex(StatementsText(all)) == Ok(StatementsOf(all))
  {
    hide AreRegions, StatementsOf, StatementsText;
    RunStatements([], all);
    assert [] + StatementsOf(all) == StatementsOf(all);
  }
}
