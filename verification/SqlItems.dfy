/** Reading an SQL text back without the splitter: its words, numbers, literals and signs, with blanks and comments left
    out. */
module SqlItems {
  import opened Text
  import opened SqlLexer
  import opened LexerLaws
  import opened SqlLiteral
  import opened SqlPieces

  datatype Item = Name(text: string) | Number(n: nat) | Quote(value: string) | Sign(c: char)

  // ---------------------------------------------------------------------------------------------
  // Blanks and comments
  // ---------------------------------------------------------------------------------------------

  predicate OpensLine(text: string) {
    |text| > 1 && text[0] == '-' && text[1] == '-'
  }

  predicate OpensBlock(text: string) {
    |text| > 1 && text[0] == '/' && text[1] == '*'
  }

  predicate ClosesBlock(text: string) {
    |text| > 1 && text[0] == '*' && text[1] == '/'
  }

  function AfterLine(text: string): (rest: string)
    ensures |rest| <= |text|
  {
    if text == "" then "" else if text[0] == '\n' then text[1..] else AfterLine(text[1..])
  }

  /** After the end of a block comment that is this deep; nothing is left of one without an end. */
  function AfterBlock(text: string, depth: nat): (rest: string)
    ensures |rest| <= |text|
    decreases |text|
  {
    if depth == 0 then text
    else if OpensBlock(text) then AfterBlock(text[2..], depth + 1)
    else if ClosesBlock(text) then AfterBlock(text[2..], depth - 1)
    else if text == "" then ""
    else AfterBlock(text[1..], depth)
  }

  function AfterTrivia(text: string): (own: string)
    ensures |own| <= |text|
    ensures own != "" ==> !IsSpace(own[0]) && !OpensLine(own) && !OpensBlock(own)
    decreases |text|
  {
    if text == "" then ""
    else if IsSpace(text[0]) then AfterTrivia(text[1..])
    else if OpensLine(text) then AfterTrivia(AfterLine(text[2..]))
    else if OpensBlock(text) then AfterTrivia(AfterBlock(text[2..], 1))
    else text
  }

  // ---------------------------------------------------------------------------------------------
  // Items
  // ---------------------------------------------------------------------------------------------

  function WordLength(text: string): (n: nat)
    ensures n <= |text|
  {
    if text != "" && IsWordChar(text[0]) then 1 + WordLength(text[1..]) else 0
  }

  function DigitsLength(text: string): (n: nat)
    ensures n <= |text|
  {
    if text != "" && IsDigit(text[0]) then 1 + DigitsLength(text[1..]) else 0
  }

  function DigitOf(c: char): nat
    requires IsDigit(c)
  {
    c as int - '0' as int
  }

  function NumberOf(digits: string): nat
    requires forall i :: 0 <= i < |digits| ==> IsDigit(digits[i])
  {
    if digits == "" then 0 else NumberOf(digits[..|digits| - 1]) * 10 + DigitOf(digits[|digits| - 1])
  }

  /** The first item of a text that starts with one, and the text after it. */
  function FirstItem(own: string): (r: (Item, string))
    requires own != ""
    ensures |r.1| < |own|
  {
    if IsNameStart(own[0]) then (Name(Casefold(own[..WordLength(own)])), own[WordLength(own)..])
    else if IsDigit(own[0]) then
      DigitsAre(own);
      (Number(NumberOf(own[..DigitsLength(own)])), own[DigitsLength(own)..])
    else if own[0] == '\'' && ClosingAt(own[1..]) >= 0 then
      (Quote(Undoubled(own[1..ClosingAt(own[1..])])), own[ClosingAt(own[1..]) + 1..])
    else (Sign(own[0]), own[1..])
  }

  function Items(text: string): seq<Item>
    decreases |text|
  {
    var own := AfterTrivia(text);
    if own == "" then [] else
    var (item, rest) := FirstItem(own);
    [item] + Items(rest)
  }

  lemma {:induction false} DigitsAre(text: string)
    ensures forall i :: 0 <= i < DigitsLength(text) ==> IsDigit(text[..DigitsLength(text)][i])
  {
    if text != "" && IsDigit(text[0]) {
      var rest := text[1..];
      DigitsAre(rest);
      var n := DigitsLength(text);
      assert DigitsLength(rest) == n - 1;
      hide IsDigit, DigitsLength;
      forall i | 0 <= i < n ensures IsDigit(text[..n][i]) {
        if i == 0 { assert text[..n][0] == text[0]; } else { assert text[..n][i] == rest[..n - 1][i - 1]; }
      }
    }
  }

  // ---------------------------------------------------------------------------------------------
  // Reading pieces back
  // ---------------------------------------------------------------------------------------------

  /** A blank, or a sign that is an item by itself. */
  predicate IsSign(c: char) {
    c !in "'$-/" && !IsNameStart(c) && !IsDigit(c)
  }

  predicate AreSigns(gap: string) {
    forall i :: 0 <= i < |gap| ==> IsSign(gap[i])
  }

  function Signs(gap: string): seq<Item> {
    if gap == "" then [] else (if IsSpace(gap[0]) then [] else [Sign(gap[0])]) + Signs(gap[1..])
  }

  predicate Spoken(p: Piece) {
    p.gap != "" && AreSigns(p.gap) && (p.Code? ==> IsWord(p.word))
  }

  function HeadItem(p: Piece): Item {
    match p
    case Code(word, _) => Name(Casefold(word))
    case Value(value, _) => Quote(value)
    case Count(n, _) => Number(n)
  }

  function Meant(p: Piece): seq<Item> {
    [HeadItem(p)] + Signs(p.gap)
  }

  function MeantAll(ps: seq<Piece>): seq<Item> {
    if ps == [] then [] else Meant(ps[0]) + MeantAll(ps[1..])
  }

  lemma ItemsBlank(c: char, rest: string)
    requires IsSpace(c)
    ensures Items([c] + rest) == Items(rest)
  {
    assert ([c] + rest)[1..] == rest;
  }

  lemma {:induction false} ItemsBlanks(blank: string, rest: string)
    requires IsBlank(blank)
    ensures Items(blank + rest) == Items(rest)
  {
    if blank == "" {
      assert blank + rest == rest;
    } else {
      assert blank + rest == [blank[0]] + (blank[1..] + rest);
      ItemsBlank(blank[0], blank[1..] + rest);
      ItemsBlanks(blank[1..], rest);
    }
  }

  lemma ItemsSign(c: char, rest: string)
    requires IsSign(c) && !IsSpace(c)
    ensures Items([c] + rest) == [Sign(c)] + Items(rest)
  {
    assert AfterTrivia([c] + rest) == [c] + rest;
    assert ([c] + rest)[1..] == rest;
  }

  lemma {:induction false} ItemsSigns(gap: string, rest: string)
    requires AreSigns(gap)
    ensures Items(gap + rest) == Signs(gap) + Items(rest)
  {
    hide Items, IsSign;
    if gap == "" {
      assert gap + rest == rest;
    } else {
      var c, more := gap[0], gap[1..];
      assert gap + rest == [c] + (more + rest);
      ItemsSigns(more, rest);
      if IsSpace(c) { ItemsBlank(c, more + rest); } else { ItemsSign(c, more + rest); }
    }
  }

  lemma {:induction false} WordRead(word: string, rest: string)
    requires AllWordChars(word) && (rest != "" ==> !IsWordChar(rest[0]))
    ensures WordLength(word + rest) == |word|
  {
    if word == "" {
      assert word + rest == rest;
    } else {
      assert (word + rest)[1..] == word[1..] + rest;
      WordRead(word[1..], rest);
    }
  }

  lemma {:induction false} DigitsRead(digits: string, rest: string)
    requires (forall i :: 0 <= i < |digits| ==> IsDigit(digits[i])) && (rest != "" ==> !IsDigit(rest[0]))
    ensures DigitsLength(digits + rest) == |digits|
  {
    if digits == "" {
      assert digits + rest == rest;
    } else {
      assert (digits + rest)[1..] == digits[1..] + rest;
      DigitsRead(digits[1..], rest);
    }
  }

  lemma {:induction false} NumberOfDecimal(n: nat)
    requires forall i :: 0 <= i < |Decimal(n)| ==> IsDigit(Decimal(n)[i])
    ensures NumberOf(Decimal(n)) == n
  {
    var text := Decimal(n);
    if n >= 10 {
      DecimalDigits(n / 10);
      NumberOfDecimal(n / 10);
      assert text[..|text| - 1] == Decimal(n / 10);
    } else {
      assert text[..|text| - 1] == "";
    }
  }

  lemma ItemsWord(word: string, rest: string)
    requires IsWord(word) && (rest != "" ==> !IsWordChar(rest[0]))
    ensures Items(word + rest) == [Name(Casefold(word))] + Items(rest)
  {
    var text := word + rest;
    WordRead(word, rest);
    assert text[0] == word[0] && text[..|word|] == word && text[|word|..] == rest;
    assert AfterTrivia(text) == text;
  }

  lemma ItemsDollar(rest: string)
    ensures Items(['$'] + rest) == [Sign('$')] + Items(rest)
  {
    assert AfterTrivia(['$'] + rest) == ['$'] + rest;
    assert (['$'] + rest)[1..] == rest;
  }

  /** The item that a piece starts with. */
  lemma FirstOfPiece(p: Piece, rest: string)
    requires Spoken(p)
    ensures
      var own := Head(p) + (p.gap + rest);
      && own != "" && AfterTrivia(own) == own && FirstItem(own) == (HeadItem(p), p.gap + rest)
  {
    var after := p.gap + rest;
    var own := Head(p) + after;
    assert after[0] == p.gap[0] && IsSign(after[0]);
    match p {
      case Code(word, _) =>
        WordRead(word, after);
        assert own[0] == word[0] && own[..|word|] == word && own[|word|..] == after;
      case Value(value, _) =>
        LiteralRoundTrip(value, after);
        assert own[0] == '\'';
      case Count(n, _) =>
        DecimalDigits(n);
        var digits := Decimal(n);
        DigitsRead(digits, after);
        NumberOfDecimal(n);
        assert own[0] == digits[0] && own[..|digits|] == digits && own[|digits|..] == after;
    }
  }

  lemma ItemsOfPiece(p: Piece, rest: string)
    requires Spoken(p)
    ensures Items(Render(p) + rest) == Meant(p) + Items(rest)
  {
    hide Items, AfterTrivia, FirstItem, Signs, Head, HeadItem;
    FirstOfPiece(p, rest);
    ItemsFrom(Head(p) + (p.gap + rest));
    RenderIs(p);
    Assoc(Head(p), p.gap, rest);
    ItemsSigns(p.gap, rest);
    Assoc([HeadItem(p)], Signs(p.gap), Items(rest));
  }

  lemma RenderIs(p: Piece)
    ensures Render(p) == Head(p) + p.gap
  {}

  lemma ItemsFrom(own: string)
    requires own != "" && AfterTrivia(own) == own
    ensures Items(own) == [FirstItem(own).0] + Items(FirstItem(own).1)
  {
    hide AfterTrivia, FirstItem;
  }

  /** A text of pieces says what its pieces say. */
  lemma {:induction false} ItemsOfPieces(ps: seq<Piece>, rest: string)
    requires forall i :: 0 <= i < |ps| ==> Spoken(ps[i])
    ensures Items(RenderAll(ps) + rest) == MeantAll(ps) + Items(rest)
  {
    hide Items, Meant, Render, Spoken;
    if ps == [] {
      assert RenderAll(ps) + rest == rest;
    } else {
      ItemsOfPieces(ps[1..], rest);
      ItemsOfPiece(ps[0], RenderAll(ps[1..]) + rest);
      Assoc(Render(ps[0]), RenderAll(ps[1..]), rest);
      Assoc(Meant(ps[0]), MeantAll(ps[1..]), Items(rest));
    }
  }

  // ---------------------------------------------------------------------------------------------
  // Against the splitter: what may stand before a statement
  // ---------------------------------------------------------------------------------------------

  /** The rest of a line comment: it ends at the newline, or with the text. */
  lemma {:induction false} LineRun(s: State, text: string) returns (ended: bool, line: string)
    requires s.Reading? && s.mode.LineComment?
    ensures ended ==> text == line + AfterLine(text) && Run(s, line) == s.(mode := Normal, raw := s.raw + line)
    ensures ended ==> forall u :: AfterLine(text + u) == AfterLine(text) + u
    ensures !ended ==> AfterLine(text) == "" && Run(s, text) == s.(raw := s.raw + text)
    ensures !ended ==> forall t :: AfterLine(text + ("\n" + t)) == t
    decreases |text|
  {
    if text == "" {
      ended, line := false, "";
      assert s.raw + "" == s.raw;
      forall t ensures AfterLine(text + ("\n" + t)) == t { assert (text + ("\n" + t))[1..] == t; }
    } else if text[0] == '\n' {
      ended, line := true, "\n";
      RunChar(s, '\n');
      forall u ensures AfterLine(text + u) == AfterLine(text) + u { assert (text + u)[1..] == text[1..] + u; }
    } else {
      var more;
      ended, more := LineRun(Step(s, text[0]), text[1..]);
      line := [text[0]] + more;
      assert (s.raw + [text[0]]) + text[1..] == s.raw + text && (s.raw + [text[0]]) + more == s.raw + line;
      assert line[1..] == more;
      forall u ensures AfterLine(text + u) == AfterLine(text[1..] + u) { assert (text + u)[1..] == text[1..] + u; }
    }
  }

  predicate InBlockMode(mode: Mode) {
    mode.BlockComment? || mode.BlockSlash? || mode.BlockStar?
  }

  lemma RunTwo(s: State, text: string)
    requires |text| > 1
    ensures Run(s, text) == Run(Step(Step(s, text[0]), text[1]), text[2..])
  {
    assert text[1..][1..] == text[2..];
  }

  /** A slash or star in a block comment that is not the first half of a mark is an ordinary character. */
  lemma HalfMark(s: State, text: string)
    requires s.Reading? && s.mode.BlockComment? && text != "" && !OpensBlock(text) && !ClosesBlock(text)
    requires |text| > 1
    ensures Step(Step(s, text[0]), text[1]) == Step(s.(raw := s.raw + [text[0]]), text[1])
  {}

  /** The rest of a block comment: it ends at the end of the outermost comment, or not at all. */
  lemma {:induction false} BlockRun(s: State, text: string) returns (ended: bool, block: string)
    requires s.Reading? && s.mode.BlockComment? && s.mode.depth > 0
    ensures ended ==> |block| > 1 && text == block + AfterBlock(text, s.mode.depth)
    ensures ended ==> Run(s, block) == s.(mode := Normal, raw := s.raw + block)
    ensures ended ==> forall u :: AfterBlock(text + u, s.mode.depth) == AfterBlock(text, s.mode.depth) + u
    ensures !ended ==> Run(s, text).Reading? && InBlockMode(Run(s, text).mode) && AfterBlock(text, s.mode.depth) == ""
    decreases |text|
  {
    var d := s.mode.depth;
    if text == "" {
      ended, block := false, "";
    } else if OpensBlock(text) || ClosesBlock(text) {
      ended, block := BlockMarkRun(s, text);
    } else if |text| == 1 {
      ended, block := false, "";
      RunChar(s, text[0]);
      assert text == [text[0]] && text[1..] == "";
    } else {
      var t := s.(raw := s.raw + [text[0]]);
      var more;
      ended, more := BlockRun(t, text[1..]);
      block := [text[0]] + more;
      HalfMark(s, text);
      assert t.raw + more == s.raw + block;
      if ended {
        assert more[0] == text[1] && block[1..] == more;
        forall u ensures AfterBlock(text + u, d) == AfterBlock(text, d) + u { assert (text + u)[1..] == text[1..] + u; }
      }
    }
  }

  lemma {:induction false} BlockMarkRun(s: State, text: string) returns (ended: bool, block: string)
    requires s.Reading? && s.mode.BlockComment? && s.mode.depth > 0 && (OpensBlock(text) || ClosesBlock(text))
    ensures ended ==> |block| > 1 && text == block + AfterBlock(text, s.mode.depth)
    ensures ended ==> Run(s, block) == s.(mode := Normal, raw := s.raw + block)
    ensures ended ==> forall u :: AfterBlock(text + u, s.mode.depth) == AfterBlock(text, s.mode.depth) + u
    ensures !ended ==> Run(s, text).Reading? && InBlockMode(Run(s, text).mode) && AfterBlock(text, s.mode.depth) == ""
    decreases |text|, 0
  {
    var d := s.mode.depth;
    var mark := text[..2];
    var t := MarkStep(s, text);
    hide Run, Step, AfterBlock;
    if ClosesBlock(text) && d == 1 {
      ended, block := true, mark;
      assert mark + "" == mark && t.raw + "" == t.raw && text == mark + text[2..];
      RunNothing(t);
    } else {
      var more;
      ended, more := BlockRun(t, text[2..]);
      block := mark + more;
      Assoc(s.raw, mark, more);
    }
    if ended {
      forall u ensures AfterBlock(text + u, d) == AfterBlock(text, d) + u { MarkSkipped(text, d, u); }
    }
  }

  lemma RunNothing(s: State)
    ensures Run(s, "") == s
  {}

  /** A mark is read in two characters, and changes the depth by one. */
  lemma MarkStep(s: State, text: string) returns (t: State)
    requires s.Reading? && s.mode.BlockComment? && s.mode.depth > 0 && (OpensBlock(text) || ClosesBlock(text))
    ensures
      var d := s.mode.depth;
      var next := if OpensBlock(text) then d + 1 else d - 1;
      && t == s.(mode := if next == 0 then Normal else BlockComment(next), raw := s.raw + text[..2])
      && AfterBlock(text, d) == AfterBlock(text[2..], next)
    ensures Run(s, text) == Run(t, text[2..])
    ensures forall more :: Run(s, text[..2] + more) == Run(t, more)
  {
    t := Step(Step(s, text[0]), text[1]);
    RunTwo(s, text);
    assert t.raw == s.raw + text[..2];
    forall more ensures Run(s, text[..2] + more) == Run(t, more) {
      RunTwo(s, text[..2] + more);
      assert (text[..2] + more)[2..] == more;
    }
  }

  lemma MarkSkipped(text: string, d: nat, u: string)
    requires d > 0 && (OpensBlock(text) || ClosesBlock(text))
    requires
      var next := if OpensBlock(text) then d + 1 else d - 1;
      AfterBlock(text[2..] + u, next) == AfterBlock(text[2..], next) + u
    ensures AfterBlock(text + u, d) == AfterBlock(text, d) + u
  {
    assert (text + u)[2..] == text[2..] + u;
  }

  /** What the text after `f`, on a new line, is read as: `f` itself is over, and was blank or comment. */
  ghost predicate Passes(f: string) {
    forall t :: AfterTrivia(f + ("\n" + t)) == AfterTrivia(t)
  }

  /** A text that goes on with a newline starts with the same ink. */
  ghost predicate Sticks(f: string) {
    forall u :: u != "" && u[0] == '\n' ==> AfterTrivia(f + u) == AfterTrivia(f) + u
  }

  /** From normal code, blanks and comments lead to normal code, and to the first ink if there is any. */
  lemma {:induction false} TriviaRun(s: State, f: string) returns (before: string)
    requires s.Reading? && s.mode == Normal
    ensures AfterTrivia(f) != "" ==> f == before + AfterTrivia(f) && Run(s, before) == s.(raw := s.raw + before) && Sticks(f)
    ensures AfterTrivia(f) == "" ==>
      && Run(s, f).Reading?
      && (InBlockMode(Run(s, f).mode) || ((Run(s, f).mode.Normal? || Run(s, f).mode.LineComment?) && Passes(f)))
    decreases |f|, 1
  {
    hide AfterTrivia, Sticks, Passes, Step, OpensLine, OpensBlock;
    before := "";
    if f == "" {
      NothingPasses();
    } else if IsSpace(f[0]) {
      BlankStep(s, f[0]);
      var t := s.(raw := s.raw + [f[0]]);
      var more := TriviaRun(t, f[1..]);
      before := [f[0]] + more;
      assert f == [f[0]] + f[1..];
      RunThen(s, [f[0]], t, more, Run(t, more));
      RunThen(s, [f[0]], t, f[1..], Run(t, f[1..]));
      Assoc(s.raw, [f[0]], more);
      BlankFirst(f);
      RestDecides(f, f[1..]);
    } else if OpensLine(f) || OpensBlock(f) {
      before := CommentRun(s, f);
    } else {
      assert s.raw + "" == s.raw;
      InkFirst(f);
    }
  }

  lemma NothingPasses()
    ensures AfterTrivia("") == "" && Passes("")
  {
    forall t ensures AfterTrivia("" + ("\n" + t)) == AfterTrivia(t) { assert ("" + ("\n" + t))[1..] == t; }
  }

  lemma BlankStep(s: State, c: char)
    requires s.Reading? && s.mode == Normal && IsSpace(c)
    ensures Run(s, [c]) == s.(raw := s.raw + [c])
  {
    RunChar(s, c);
  }

  lemma InkFirst(f: string)
    requires f != "" && !IsSpace(f[0]) && !OpensLine(f) && !OpensBlock(f)
    ensures AfterTrivia(f) == f && Sticks(f)
  {}

  lemma BlankFirst(f: string)
    requires f != "" && IsSpace(f[0])
    ensures forall u :: AfterTrivia(f + u) == AfterTrivia(f[1..] + u)
  {
    forall u ensures AfterTrivia(f + u) == AfterTrivia(f[1..] + u) { assert (f + u)[1..] == f[1..] + u; }
  }

  /** What stands after the blanks and comments decides. */
  lemma RestDecides(f: string, rest: string)
    requires forall u :: AfterTrivia(f + u) == AfterTrivia(rest + u)
    ensures AfterTrivia(f) == AfterTrivia(rest)
    ensures Sticks(rest) ==> Sticks(f)
    ensures Passes(rest) ==> Passes(f)
  {
    assert f + "" == f && rest + "" == rest;
    assert AfterTrivia(f + "") == AfterTrivia(rest + "");
  }

  lemma {:induction false} CommentRun(s: State, f: string) returns (before: string)
    requires s.Reading? && s.mode == Normal && (OpensLine(f) || OpensBlock(f))
    ensures AfterTrivia(f) != "" ==> f == before + AfterTrivia(f) && Run(s, before) == s.(raw := s.raw + before) && Sticks(f)
    ensures AfterTrivia(f) == "" ==>
      && Run(s, f).Reading?
      && (InBlockMode(Run(s, f).mode) || ((Run(s, f).mode.Normal? || Run(s, f).mode.LineComment?) && Passes(f)))
    decreases |f|, 0
  {
    before := "";
    var ended, comment, rest := OneComment(s, f);
    hide Step, Sticks, Passes, OpensLine, OpensBlock, AfterTrivia;
    if ended {
      var v := s.(raw := s.raw + comment);
      RunThen(s, comment, v, rest, Run(v, rest));
      var more := TriviaRun(v, rest);
      before := comment + more;
      RunThen(s, comment, v, more, Run(v, more));
      Assoc(s.raw, comment, more);
      Assoc(comment, more, AfterTrivia(rest));
      RestDecides(f, rest);
    }
  }

  /** One comment: it ends and leaves the rest to decide, or the text ends in it. */
  lemma OneComment(s: State, f: string) returns (ended: bool, comment: string, rest: string)
    requires s.Reading? && s.mode == Normal && (OpensLine(f) || OpensBlock(f))
    ensures ended ==> |comment| > 1 && f == comment + rest && Run(s, comment) == s.(raw := s.raw + comment)
    ensures ended ==> forall u :: AfterTrivia(f + u) == AfterTrivia(rest + u)
    ensures !ended ==> AfterTrivia(f) == "" && Run(s, f).Reading?
    ensures !ended ==> InBlockMode(Run(s, f).mode) || (Run(s, f).mode.LineComment? && Passes(f))
  {
    var mark, text := f[..2], f[2..];
    var t := Step(Step(s, f[0]), f[1]);
    RunTwo(s, f);
    assert t.raw == s.raw + mark;
    var inside;
    if OpensLine(f) {
      ended, inside := LineRun(t, text);
      LineFirst(f, ended);
      rest := AfterLine(text);
    } else {
      ended, inside := BlockRun(t, text);
      BlockFirst(f, ended);
      rest := AfterBlock(text, 1);
    }
    comment := mark + inside;
    hide Run, AfterTrivia, AfterLine, AfterBlock;
    if ended { MarkedRun(s, mark, t, inside); }
  }

  lemma MarkedRun(s: State, mark: string, t: State, inside: string)
    requires |mark| == 2 && s.Reading? && t.Reading? && t == Step(Step(s, mark[0]), mark[1])
    requires t.raw == s.raw + mark && Run(t, inside) == s.(raw := t.raw + inside)
    ensures Run(s, mark + inside) == s.(raw := s.raw + (mark + inside))
  {
    RunTwo(s, mark + inside);
    assert (mark + inside)[2..] == inside;
    Assoc(s.raw, mark, inside);
  }

  lemma LineFirst(f: string, ended: bool)
    requires OpensLine(f)
    requires ended ==> forall u :: AfterLine(f[2..] + u) == AfterLine(f[2..]) + u
    requires !ended ==> AfterLine(f[2..]) == "" && forall t :: AfterLine(f[2..] + ("\n" + t)) == t
    ensures ended ==> forall u :: AfterTrivia(f + u) == AfterTrivia(AfterLine(f[2..]) + u)
    ensures !ended ==> AfterTrivia(f) == "" && Passes(f)
  {
    forall u ensures AfterTrivia(f + u) == AfterTrivia(AfterLine(f[2..] + u)) { assert (f + u)[2..] == f[2..] + u; }
    assert f + "" == f;
  }

  lemma BlockFirst(f: string, ended: bool)
    requires OpensBlock(f)
    requires ended ==> forall u :: AfterBlock(f[2..] + u, 1) == AfterBlock(f[2..], 1) + u
    requires !ended ==> AfterBlock(f[2..], 1) == ""
    ensures ended ==> forall u :: AfterTrivia(f + u) == AfterTrivia(AfterBlock(f[2..], 1) + u)
    ensures !ended ==> AfterTrivia(f) == ""
  {
    forall u ensures AfterTrivia(f + u) == AfterTrivia(AfterBlock(f[2..] + u, 1)) { BlockSkipped(f, u); }
    BlockSkipped(f, "");
    assert f + "" == f && f[2..] + "" == f[2..];
    hide AfterTrivia, AfterBlock;
  }

  lemma BlockSkipped(f: string, u: string)
    requires OpensBlock(f)
    ensures AfterTrivia(f + u) == AfterTrivia(AfterBlock(f[2..] + u, 1))
  {
    assert (f + u)[2..] == f[2..] + u;
    hide AfterBlock;
  }

  /** Once a word has begun, the open statement has a token. */
  lemma {:induction false} TokensStay(s: State, text: string)
    requires s.Reading? && Pending(s) != []
    ensures var t := Run(s, text); t.Reading? ==> Pending(t) != [] || t.statements != s.statements
    decreases |text|
  {
    if text != "" {
      var t := Step(s, text[0]);
      TokenStays(s, text[0]);
      if t.Rejected? {
        RunRejected(t, text[1..]);
      } else if Pending(t) != [] {
        TokensStay(t, text[1..]);
      }
      if t.Reading? { StatementsGrow(t, text[1..]); }
    }
  }

  lemma TokenStays(s: State, c: char)
    requires s.Reading? && Pending(s) != []
    ensures
      var t := Step(s, c);
      t.Reading? ==> s.statements <= t.statements && (if Pending(t) == [] then s.statements != t.statements else s.statements == t.statements)
  {
    hide Strip, Casefold, IsWordChar, IsNameStart, IsNameChar, EscapeOpens, EndsWith;
    if InCode(s.mode) && !GoesOn(s.mode, c) { StepInCode(s, c); }
  }

  lemma {:induction false} StatementsGrow(s: State, text: string)
    requires s.Reading?
    ensures var t := Run(s, text); t.Reading? ==> s.statements <= t.statements
    decreases |text|
  {
    if text != "" {
      hide Step;
      StatementsStay(s, text[0]);
      var t := Step(s, text[0]);
      if t.Reading? { StatementsGrow(t, text[1..]); } else { RunRejected(t, text[1..]); }
    }
  }

  lemma StatementsStay(s: State, c: char)
    requires s.Reading?
    ensures Step(s, c).Reading? ==> s.statements <= Step(s, c).statements
  {
    hide Strip, Casefold, IsWordChar, IsNameStart, IsNameChar, EscapeOpens, EndsWith;
    if InCode(s.mode) && !GoesOn(s.mode, c) { StepInCode(s, c); }
  }

  /** An open statement without tokens says nothing, or starts with something that is no word: then whatever follows it
      on a new line is read after that. */
  lemma QuietItems(s: State, next: string)
    requires s.Reading? && StandsAlone(s) && Pending(s) == [] && (InCode(s.mode) || s.mode.LineComment?)
    ensures Items(s.raw) == [] ==> Items(s.raw + ("\n" + next)) == Items(next)
    ensures Items(s.raw) != [] ==>
      var items := Items(s.raw + ("\n" + next)); items != [] && !items[0].Name?
  {
    hide AfterTrivia, Items, Step, Sticks, Passes, StandsAlone, IsNameStart;
    var f := s.raw;
    var own := AfterTrivia(f);
    var before := TriviaRun(Fresh([]), f);
    assert "" + before == before;
    AloneIs(s);
    ItemsStart(f);
    if own == "" {
      PassesOver(f, next);
      SameItems(f + ("\n" + next), next);
    } else {
      var t := Reading(Normal, before, [], []);
      RunThen(Fresh([]), before, t, own, Run(t, own));
      if IsNameStart(own[0]) { NameLeavesToken(t, own); }
      SticksTo(f, next);
      ItemsStart(f + ("\n" + next));
    }
  }

  lemma AloneIs(s: State)
    requires s.Reading? && StandsAlone(s)
    ensures Run(Fresh([]), s.raw) == s.(statements := [])
  {}

  lemma PassesOver(f: string, next: string)
    requires Passes(f)
    ensures AfterTrivia(f + ("\n" + next)) == AfterTrivia(next)
  {}

  lemma SticksTo(f: string, next: string)
    requires Sticks(f) && AfterTrivia(f) != ""
    ensures var own := AfterTrivia(f + ("\n" + next)); own != "" && own[0] == AfterTrivia(f)[0]
  {
    assert ("\n" + next)[0] == '\n';
  }

  /** The first item is a word exactly when the first ink may begin one. */
  lemma ItemsStart(text: string)
    ensures Items(text) == [] <==> AfterTrivia(text) == ""
    ensures AfterTrivia(text) != "" ==> (Items(text)[0].Name? <==> IsNameStart(AfterTrivia(text)[0]))
  {
    hide AfterTrivia, IsNameStart;
  }

  /** Where a word begins, the open statement gets a token. */
  lemma NameLeavesToken(t: State, own: string)
    requires t.Reading? && t.mode == Normal && own != "" && IsNameStart(own[0])
    ensures var u := Run(t, own); u.Reading? ==> Pending(u) != [] || u.statements != t.statements
  {
    var next := Step(t, own[0]);
    assert next.Reading? && Pending(next) != [] && next.statements == t.statements;
    TokensStay(next, own[1..]);
  }

  lemma SameItems(a: string, b: string)
    requires AfterTrivia(a) == AfterTrivia(b)
    ensures Items(a) == Items(b)
  {}
}
