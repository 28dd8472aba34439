/** What the database reads in a request: the row that the receipt writes, the count and the rows that the guard compares
    with the table, and the lock; in the words of the database and not of the text's author. */
module RequestReading {
  import opened Text
  import opened SqlLexer
  import opened LexerLaws
  import opened SqlPieces
  import opened SqlItems
  import opened DeploymentText

  /** What the guard compares with the table: the number of its rows, and rows that it must hold. */
  datatype Comparison = Comparison(count: nat, rows: seq<Row>)

  function Past(items: seq<Item>, head: seq<Item>): Option<seq<Item>> {
    if head <= items then Some(items[|head|..]) else None
  }

  // ---------------------------------------------------------------------------------------------
  // The receipt
  // ---------------------------------------------------------------------------------------------

  const INSERT_ITEMS: seq<Item> :=
    [ Name("insert"), Name("into"), Name("contentengine_deploy"), Sign('.'), Name("schema_migrations"), Sign('(') ]

  /** Two columns, and a literal for each. */
  predicate AreTwoValues(items: seq<Item>) {
    && |items| == 11
    && items[0].Name? && items[1] == Sign(',') && items[2].Name? && items[3] == Sign(')')
    && items[4] == Name("values") && items[5] == Sign('(')
    && items[6].Quote? && items[7] == Sign(',') && items[8].Quote? && items[9] == Sign(')') && items[10] == Sign(';')
  }

  /** The row of the history table that an INSERT writes, each value in the column that stands in its place. */
  function ReadInsert(items: seq<Item>): Option<Row> {
    var rest := Past(items, INSERT_ITEMS);
    if rest.None? || !AreTwoValues(rest.value) then None
    else
      var columns, first, second := [rest.value[0].text, rest.value[2].text], rest.value[6].value, rest.value[8].value;
      if columns == ["version", "sha256"] then Some(Row(first, second))
      else if columns == ["sha256", "version"] then Some(Row(second, first))
      else None
  }

  // ---------------------------------------------------------------------------------------------
  // The guard
  // ---------------------------------------------------------------------------------------------

  /** The tag of the dollar quote, with the sign that ends its marks. */
  const TAG_WORD := GUARD_TAG + "$"

  const DO_ITEMS: seq<Item> := [Name("do"), Sign('$'), Name(TAG_WORD)]

  const COUNT_ITEMS: seq<Item> :=
    [ Name("begin"), Name("if"), Sign('('), Name("select"), Name("count"), Sign('('), Sign('*'), Sign(')'), Name("from"),
      Name("contentengine_deploy"), Sign('.'), Name("schema_migrations"), Sign(')'), Sign('<'), Sign('>') ]

  const RAISE_ITEMS: seq<Item> :=
    [ Name("raise"), Name("exception"), Name("using"), Name("message"), Sign('='),
      Quote("deployment_history_changed_retry"), Sign(';'), Name("end"), Name("if"), Sign(';') ]

  const VALUES_ITEMS: seq<Item> :=
    [ Name("if"), Name("exists"), Sign('('), Name("select"), Number(1), Name("from"), Sign('('), Name("values"), Sign('(') ]

  const JOIN_ITEMS: seq<Item> :=
    [ Name("expected"), Sign('('), Name("version"), Sign(','), Name("sha256"), Sign(')'), Name("left"), Name("join"),
      Name("contentengine_deploy"), Sign('.'), Name("schema_migrations"), Name("actual") ]

  const ON_ITEMS: seq<Item> :=
    [ Name("on"), Name("actual"), Sign('.'), Name("version"), Sign('='), Name("expected"), Sign('.'), Name("version") ]

  const WHERE_ITEMS: seq<Item> :=
    [ Name("where"), Name("actual"), Sign('.'), Name("sha256"), Name("is"), Name("distinct"), Name("from"),
      Name("expected"), Sign('.'), Name("sha256"), Sign(')'), Name("then") ]

  const END_ITEMS: seq<Item> := [Name("end"), Sign(';'), Sign('$'), Name(TAG_WORD), Sign(';')]

  predicate IsRowThere(items: seq<Item>) {
    && |items| >= 5
    && items[0].Quote? && items[1] == Sign(',') && items[2].Quote? && items[3] == Sign(')')
  }

  /** The rows of the VALUES list after its first parenthesis, and what follows the list. */
  function ReadRows(items: seq<Item>): Option<(seq<Row>, seq<Item>)> {
    if !IsRowThere(items) then None
    else
      var row := Row(items[0].value, items[2].value);
      if items[4] == Sign(')') then Some(([row], items[5..]))
      else if |items| >= 6 && items[4] == Sign(',') && items[5] == Sign('(') then
        var more := ReadRows(items[6..]);
        if more.None? then None else Some(([row] + more.value.0, more.value.1))
      else None
  }

  /** The test of the count, with the exception when it fails. */
  function ReadCount(items: seq<Item>): Option<(nat, seq<Item>)> {
    var rest := Past(items, DO_ITEMS + COUNT_ITEMS);
    if rest.None? || rest.value == [] || !rest.value[0].Number? then None
    else
      var then_ := Past(rest.value[1..], [Name("then")] + RAISE_ITEMS);
      if then_.None? then None else Some((rest.value[0].n, then_.value))
  }

  /** The left join with the expected rows, with the exception when one of them is missing or differs. */
  function ReadMatch(items: seq<Item>): Option<(seq<Row>, seq<Item>)> {
    var list := Past(items, VALUES_ITEMS);
    if list.None? then None
    else
      var rows := ReadRows(list.value);
      if rows.None? then None
      else
        var rest := Past(rows.value.1, (JOIN_ITEMS + ON_ITEMS + WHERE_ITEMS) + RAISE_ITEMS);
        if rest.None? then None else Some((rows.value.0, rest.value))
  }

  function ReadGuard(items: seq<Item>): Option<Comparison> {
    var counted := ReadCount(items);
    if counted.None? then None
    else if counted.value.1 == END_ITEMS then Some(Comparison(counted.value.0, []))
    else
      var matched := ReadMatch(counted.value.1);
      if matched.None? || matched.value.1 != END_ITEMS then None
      else Some(Comparison(counted.value.0, matched.value.0))
  }

  // ---------------------------------------------------------------------------------------------
  // The lock
  // ---------------------------------------------------------------------------------------------

  /** The transaction-level advisory lock that all deployments share. */
  const LOCK_ITEMS: seq<Item> :=
    [ Name("select"), Name("pg_advisory_xact_lock"), Sign('('), Name("hashtextextended"), Sign('('),
      Quote("contentengine_deploy:production"), Sign(','), Number(0), Sign(')'), Sign(')'), Sign(';') ]

  // ---------------------------------------------------------------------------------------------
  // What the pieces of the request say
  // ---------------------------------------------------------------------------------------------

  lemma MeantStep(ps: seq<Piece>, i: nat)
    requires i < |ps|
    ensures MeantAll(ps[i..]) == Meant(ps[i]) + MeantAll(ps[i + 1..])
  {
    assert ps[i..][1..] == ps[i + 1..];
  }

  lemma {:induction false} MeantConcat(a: seq<Piece>, b: seq<Piece>)
    ensures MeantAll(a + b) == MeantAll(a) + MeantAll(b)
  {
    if a == [] {
      assert a + b == b;
    } else {
      assert (a + b)[1..] == a[1..] + b;
      MeantConcat(a[1..], b);
    }
  }

  lemma SignsA()
    ensures Signs(" ") == []
    ensures Signs(".") == [Sign('.')]
    ensures Signs("\n  ") == []
  {}

  lemma SignsB()
    ensures Signs(" (") == [Sign('(')]
    ensures Signs("(*) ") == [Sign('('), Sign('*'), Sign(')')]
    ensures Signs(")\n       <> ") == [Sign(')'), Sign('<'), Sign('>')]
  {}

  lemma SignsC()
    ensures Signs("\n    ") == []
    ensures Signs(" = ") == [Sign('=')]
    ensures Signs(";\n  ") == [Sign(';')]
  {}

  lemma SignsD()
    ensures Signs(" (\n  ") == [Sign('(')]
    ensures Signs("(") == [Sign('(')]
    ensures Signs(", ") == [Sign(',')]
  {}

  lemma SignsE()
    ensures Signs(")\n  ") == [Sign(')')]
    ensures Signs("\n) ") == [Sign(')')]
    ensures Signs(";\n") == [Sign(';')]
  {}

  lemma SignsF()
    ensures Signs(";") == [Sign(';')]
    ensures Signs(")) ") == [Sign(')'), Sign(')')]
    ensures Signs("),\n(") == [Sign(')'), Sign(','), Sign('(')]
  {}

  lemma SignsG()
    ensures Signs(")\n") == [Sign(')')]
    ensures Signs(")") == [Sign(')')]
  {}

  lemma AllSigns()
    ensures Signs(" ") == []
    ensures Signs(".") == [Sign('.')]
    ensures Signs("\n  ") == []
    ensures Signs(" (") == [Sign('(')]
    ensures Signs("(*) ") == [Sign('('), Sign('*'), Sign(')')]
    ensures Signs(")\n       <> ") == [Sign(')'), Sign('<'), Sign('>')]
    ensures Signs("\n    ") == []
    ensures Signs(" = ") == [Sign('=')]
    ensures Signs(";\n  ") == [Sign(';')]
    ensures Signs(" (\n  ") == [Sign('(')]
    ensures Signs("(") == [Sign('(')]
    ensures Signs(", ") == [Sign(',')]
    ensures Signs(")\n  ") == [Sign(')')]
    ensures Signs("\n) ") == [Sign(')')]
    ensures Signs(";\n") == [Sign(';')]
    ensures Signs(";") == [Sign(';')]
    ensures Signs(")) ") == [Sign(')'), Sign(')')]
    ensures Signs("),\n(") == [Sign(')'), Sign(','), Sign('(')]
    ensures Signs(")\n") == [Sign(')')]
    ensures Signs(")") == [Sign(')')]
  {
    hide Signs;
    SignsA();
    SignsB();
    SignsC();
    SignsD();
    SignsE();
    SignsF();
    SignsG();
  }

  lemma NothingMeant()
    ensures MeantAll([]) == []
  {}

  lemma RaiseMeant(gap: string, last: string)
    requires IsSeparator(gap) && IsSeparator(last) && Signs(gap) == [Sign(';')] && Signs(last) == [Sign(';')]
    ensures MeantAll(RaisePieces(gap, last)) == RAISE_ITEMS
  {
    hide MeantAll, Signs, Casefold, NoDollar, Spoken, IsSayable, IsSeparator, AllFit, Fits;
    AllSigns();
    var ps := RaisePieces(gap, last);
    RaiseFits(gap, last);
    PlainWords(ps);
    MeantStep(ps, 6);
    MeantStep(ps, 5);
    MeantStep(ps, 4);
    MeantStep(ps, 3);
    MeantStep(ps, 2);
    MeantStep(ps, 1);
    MeantStep(ps, 0);
    assert ps[0..] == ps && ps[7..] == [];
    NothingMeant();
  }

  lemma CountHeadMeant(n: nat)
    ensures MeantAll(CountPieces(n)[..9]) == COUNT_ITEMS + [Number(n)] + [Name("then")]
  {
    hide MeantAll, Casefold, AllFit, RaisePieces;
    CountPiecesFit(n);
    FirstsFit(CountPieces(n), 9);
    var ps := CountPieces(n)[..9];
    PlainWords(ps);
    CountTestMeant(ps, n);
    CountBeginMeant(ps);
    hide CountPieces;
  }

  lemma {:induction false} CountBeginMeant(ps: seq<Piece>)
    requires |ps| == 9 && ps[0] == Code("begin", "\n  ") && ps[1] == Code("if", " (") && ps[2] == Code("select", " ")
    requires ps[3] == Code("count", "(*) ") && ps[4] == Code("from", " ")
    requires forall i :: 0 <= i < |ps| && ps[i].Code? ==> Casefold(ps[i].word) == ps[i].word
    ensures MeantAll(ps)
         == [ Name("begin"), Name("if"), Sign('('), Name("select"), Name("count"), Sign('('), Sign('*'), Sign(')'),
              Name("from") ] + MeantAll(ps[5..])
  {
    hide MeantAll, Signs, Casefold;
    AllSigns();
    MeantStep(ps, 4);
    MeantStep(ps, 3);
    MeantStep(ps, 2);
    MeantStep(ps, 1);
    MeantStep(ps, 0);
    assert ps[0..] == ps;
  }

  /** The table and the number that it is compared with. */
  lemma {:induction false} CountTestMeant(ps: seq<Piece>, n: nat)
    requires |ps| == 9 && ps[5] == Code("contentengine_deploy", ".") && ps[6] == Code("schema_migrations", ")\n       <> ")
    requires ps[7] == Count(n, " ") && ps[8] == Code("then", "\n    ")
    requires forall i :: 0 <= i < |ps| && ps[i].Code? ==> Casefold(ps[i].word) == ps[i].word
    ensures MeantAll(ps[5..])
         == [ Name("contentengine_deploy"), Sign('.'), Name("schema_migrations"), Sign(')'), Sign('<'), Sign('>'), Number(n),
              Name("then") ]
  {
    hide MeantAll, Signs, Casefold;
    AllSigns();
    MeantStep(ps, 8);
    MeantStep(ps, 7);
    MeantStep(ps, 6);
    MeantStep(ps, 5);
    assert ps[9..] == [];
    NothingMeant();
  }

  lemma MatchHeadMeant()
    ensures MeantAll(MatchHead()) == VALUES_ITEMS
  {
    hide MeantAll, Signs, Casefold, NoDollar, Spoken, IsSayable, IsSeparator, AllFit, Fits;
    AllSigns();
    var ps := MatchHead();
    JoinFits();
    PlainWords(ps);
    MeantStep(ps, 5);
    MeantStep(ps, 4);
    MeantStep(ps, 3);
    MeantStep(ps, 2);
    MeantStep(ps, 1);
    MeantStep(ps, 0);
    assert ps[0..] == ps && ps[6..] == [];
    NothingMeant();
  }

  lemma JoinMeant()
    ensures MeantAll(JoinPieces()) == JOIN_ITEMS
  {
    hide MeantAll, Signs, Casefold, NoDollar, Spoken, IsSayable, IsSeparator, AllFit, Fits;
    AllSigns();
    var ps := JoinPieces();
    JoinFits();
    PlainWords(ps);
    MeantStep(ps, 7);
    MeantStep(ps, 6);
    MeantStep(ps, 5);
    MeantStep(ps, 4);
    MeantStep(ps, 3);
    MeantStep(ps, 2);
    MeantStep(ps, 1);
    MeantStep(ps, 0);
    assert ps[0..] == ps && ps[8..] == [];
    NothingMeant();
  }

  lemma OnMeant()
    ensures MeantAll(OnPieces()) == ON_ITEMS
  {
    hide MeantAll, Signs, Casefold, NoDollar, Spoken, IsSayable, IsSeparator, AllFit, Fits;
    AllSigns();
    var ps := OnPieces();
    JoinFits();
    PlainWords(ps);
    MeantStep(ps, 4);
    MeantStep(ps, 3);
    MeantStep(ps, 2);
    MeantStep(ps, 1);
    MeantStep(ps, 0);
    assert ps[0..] == ps && ps[5..] == [];
    NothingMeant();
  }

  lemma WhereMeant()
    ensures MeantAll(WherePieces()) == WHERE_ITEMS
  {
    hide MeantAll, Signs, Casefold, NoDollar, Spoken, IsSayable, IsSeparator, AllFit, Fits;
    AllSigns();
    var ps := WherePieces();
    JoinFits();
    PlainWords(ps);
    MeantStep(ps, 8);
    MeantStep(ps, 7);
    MeantStep(ps, 6);
    MeantStep(ps, 5);
    MeantStep(ps, 4);
    MeantStep(ps, 3);
    MeantStep(ps, 2);
    MeantStep(ps, 1);
    MeantStep(ps, 0);
    assert ps[0..] == ps && ps[9..] == [];
    NothingMeant();
  }

  lemma PlainWords(ps: seq<Piece>)
    requires AllFit(ps)
    ensures forall i :: 0 <= i < |ps| && ps[i].Code? ==> Casefold(ps[i].word) == ps[i].word
  {
    hide NoDollar, Spoken, Casefold;
  }

  lemma FirstsFit(ps: seq<Piece>, n: nat)
    requires AllFit(ps) && n <= |ps|
    ensures AllFit(ps[..n])
  {}

  lemma CountMeant(n: nat)
    ensures MeantAll(CountPieces(n)) == COUNT_ITEMS + ([Number(n)] + ([Name("then")] + RAISE_ITEMS))
  {
    hide MeantAll, RaisePieces, Signs;
    assert IsSeparator(";\n  ");
    AllSigns();
    CountHeadMeant(n);
    RaiseMeant(";\n  ", ";\n  ");
    assert CountPieces(n) == CountPieces(n)[..9] + RaisePieces(";\n  ", ";\n  ");
    MeantConcat(CountPieces(n)[..9], RaisePieces(";\n  ", ";\n  "));
    Assoc(COUNT_ITEMS + [Number(n)], [Name("then")], RAISE_ITEMS);
    Assoc(COUNT_ITEMS, [Number(n)], [Name("then")] + RAISE_ITEMS);
  }

  lemma RowMeant(row: Row, gap: string)
    ensures MeantAll(RowPair(row, gap)) == [Quote(row.version), Sign(','), Quote(row.sha256)] + Signs(gap)
  {
    hide MeantAll, Signs;
    AllSigns();
    var ps := RowPair(row, gap);
    MeantStep(ps, 1);
    MeantStep(ps, 0);
    assert ps[0..] == ps && ps[2..] == [];
    NothingMeant();
  }

  function RowItems(row: Row): seq<Item> {
    [Quote(row.version), Sign(','), Quote(row.sha256), Sign(')')]
  }

  lemma LastRow(row: Row, rest: seq<Item>)
    ensures MeantAll(RowPieces([row])) == RowItems(row) + [Sign(')')]
    ensures ReadRows(RowItems(row) + [Sign(')')] + rest) == Some(([row], rest))
  {
    hide MeantAll, Signs;
    AllSigns();
    RowMeant(row, ")) ");
    assert RowPieces([row]) == RowPair(row, ")) ");
    hide RowPieces, RowPair;
    assert (RowItems(row) + [Sign(')')] + rest)[5..] == rest;
  }

  lemma NextRow(rows: seq<Row>)
    requires |rows| > 1
    ensures MeantAll(RowPieces(rows)) == RowItems(rows[0]) + [Sign(','), Sign('(')] + MeantAll(RowPieces(rows[1..]))
  {
    hide MeantAll, Signs, RowPair;
    AllSigns();
    RowMeant(rows[0], "),\n(");
    MeantConcat(RowPair(rows[0], "),\n("), RowPieces(rows[1..]));
  }

  lemma ReadNext(row: Row, items: seq<Item>)
    requires ReadRows(items).Some?
    ensures ReadRows(RowItems(row) + [Sign(','), Sign('(')] + items)
         == Some(([row] + ReadRows(items).value.0, ReadRows(items).value.1))
  {
    assert (RowItems(row) + [Sign(','), Sign('(')] + items)[6..] == items;
  }

  /** The rows of the list are read back in their order, up to the end of the list. */
  lemma {:induction false} RowsRead(rows: seq<Row>, rest: seq<Item>)
    requires rows != []
    ensures ReadRows(MeantAll(RowPieces(rows)) + rest) == Some((rows, rest))
  {
    hide *;
    if |rows| == 1 {
      assert rows == [rows[0]];
      LastRow(rows[0], rest);
    } else {
      var more := MeantAll(RowPieces(rows[1..]));
      RowsRead(rows[1..], rest);
      NextRow(rows);
      ReadNext(rows[0], more + rest);
      Assoc(RowItems(rows[0]) + [Sign(','), Sign('(')], more, rest);
      assert rows == [rows[0]] + rows[1..];
    }
  }

  lemma MatchMeant(rows: seq<Row>)
    requires rows != []
    ensures MeantAll(MatchPieces(rows))
         == VALUES_ITEMS + (MeantAll(RowPieces(rows)) + ((JOIN_ITEMS + ON_ITEMS + WHERE_ITEMS) + RAISE_ITEMS))
  {
    assert IsSeparator(";\n") && IsSeparator(";");
    AllSigns();
    hide MeantAll, RaisePieces, RowPieces, MatchHead, JoinPieces, OnPieces, WherePieces, Signs, IsSeparator;
    RaiseMeant(";\n", ";");
    MatchHeadMeant();
    JoinMeant();
    OnMeant();
    WhereMeant();
    var join := JoinPieces() + OnPieces() + WherePieces();
    MeantConcat(JoinPieces(), OnPieces());
    MeantConcat(JoinPieces() + OnPieces(), WherePieces());
    MeantConcat(MatchHead(), RowPieces(rows));
    MeantConcat(MatchHead() + RowPieces(rows), join);
    MeantConcat(MatchHead() + RowPieces(rows) + join, RaisePieces(";\n", ";"));
    hide *;
    Assoc(VALUES_ITEMS, MeantAll(RowPieces(rows)), JOIN_ITEMS + ON_ITEMS + WHERE_ITEMS);
    Assoc(VALUES_ITEMS, MeantAll(RowPieces(rows)) + (JOIN_ITEMS + ON_ITEMS + WHERE_ITEMS), RAISE_ITEMS);
    Assoc(MeantAll(RowPieces(rows)), JOIN_ITEMS + ON_ITEMS + WHERE_ITEMS, RAISE_ITEMS);
  }

  lemma PastHead(head: seq<Item>, rest: seq<Item>)
    ensures Past(head + rest, head) == Some(rest)
  {}

  lemma CountRead(n: nat, rest: seq<Item>)
    ensures ReadCount(DO_ITEMS + (MeantAll(CountPieces(n)) + rest)) == Some((n, rest))
  {
    CountMeant(n);
    hide MeantAll, CountPieces, Past;
    var raise := [Name("then")] + RAISE_ITEMS;
    Assoc(COUNT_ITEMS, [Number(n)] + raise, rest);
    Assoc([Number(n)], raise, rest);
    Assoc(DO_ITEMS, COUNT_ITEMS, [Number(n)] + (raise + rest));
    PastHead(DO_ITEMS + COUNT_ITEMS, [Number(n)] + (raise + rest));
    assert ([Number(n)] + (raise + rest))[1..] == raise + rest;
    PastHead(raise, rest);
  }

  lemma MatchRead(rows: seq<Row>, rest: seq<Item>)
    requires rows != []
    ensures ReadMatch(MeantAll(MatchPieces(rows)) + rest) == Some((rows, rest))
  {
    MatchMeant(rows);
    hide MeantAll, MatchPieces, RowPieces, Past, ReadRows;
    var join := (JOIN_ITEMS + ON_ITEMS + WHERE_ITEMS) + RAISE_ITEMS;
    var list := MeantAll(RowPieces(rows));
    Assoc(VALUES_ITEMS, list + join, rest);
    Assoc(list, join, rest);
    PastHead(VALUES_ITEMS, list + (join + rest));
    RowsRead(rows, join + rest);
    PastHead(join, rest);
  }

  /** The guard compares the table with the number of the expected rows, and with those rows. */
  lemma GuardReads(rows: seq<Row>)
    ensures ReadGuard(DO_ITEMS + (MeantAll(GuardPieces(rows)) + END_ITEMS)) == Some(Comparison(|rows|, rows))
  {
    hide MeantAll, CountPieces, ReadCount, ReadMatch;
    MeantConcat(CountPieces(|rows|), MatchPieces(rows));
    var matched := MeantAll(MatchPieces(rows));
    Assoc(MeantAll(CountPieces(|rows|)), matched, END_ITEMS);
    CountRead(|rows|, matched + END_ITEMS);
    if rows == [] {
      assert matched + END_ITEMS == END_ITEMS by { NothingMeant(); }
    } else {
      MatchRead(rows, END_ITEMS);
      MatchLonger(rows);
    }
  }

  lemma MatchLonger(rows: seq<Row>)
    requires rows != []
    ensures MeantAll(MatchPieces(rows)) + END_ITEMS != END_ITEMS
  {
    MatchMeant(rows);
    hide MeantAll, MatchPieces;
  }

  // ---------------------------------------------------------------------------------------------
  // The texts of the request, read
  // ---------------------------------------------------------------------------------------------

  lemma AllSpoken(ps: seq<Piece>)
    requires AllFit(ps)
    ensures forall i :: 0 <= i < |ps| ==> Spoken(ps[i])
  {
    hide Spoken, NoDollar;
  }

  lemma MarkWord()
    ensures IsWord(TAG_WORD) && Casefold(TAG_WORD) == TAG_WORD && GUARD_MARK == ['$'] + TAG_WORD
  {
    TagPlain();
    hide GUARD_TAG;
    assert TAG_WORD[0] == GUARD_TAG[0];
    forall i | 0 <= i < |TAG_WORD| ensures IsWordChar(TAG_WORD[i]) && Lower(TAG_WORD[i]) == TAG_WORD[i] {
      if i < |GUARD_TAG| { assert TAG_WORD[i] == GUARD_TAG[i]; }
    }
  }

  lemma TagPlain()
    ensures IsPlain(GUARD_TAG)
  {}

  /** A mark of the dollar quote, where no word goes on. */
  lemma MarkItems(rest: string)
    requires rest != "" && !IsWordChar(rest[0])
    ensures Items(GUARD_MARK + rest) == [Sign('$'), Name(TAG_WORD)] + Items(rest)
  {
    hide *;
    MarkWord();
    ItemsWord(TAG_WORD, rest);
    ItemsDollar(TAG_WORD + rest);
    Assoc(['$'], TAG_WORD, rest);
    assert [Sign('$')] + ([Name(TAG_WORD)] + Items(rest))
        == [Sign('$'), Name(TAG_WORD)] + Items(rest);
  }

  lemma WordItems(word: string, gap: string, rest: string)
    requires IsSayable(word) && IsSeparator(gap)
    ensures Items((word + gap) + rest) == [Name(word)] + (Signs(gap) + Items(rest))
  {
    CodeFits(word, gap);
    hide IsSayable, IsSeparator, Items, Signs;
    ItemsOfPiece(Code(word, gap), rest);
    Assoc([Name(word)], Signs(gap), Items(rest));
  }

  lemma EndItems()
    ensures Items(("\n" + "end;\n") + (GUARD_MARK + ";")) == END_ITEMS
  {
    hide IsSayable, IsSeparator, Items, Signs, GUARD_MARK, TAG_WORD, IsWordChar;
    Sayable();
    AllSigns();
    NewlineIsBlank();
    SemicolonItem();
    MarkItems(";");
    WordItems("end", ";\n", GUARD_MARK + ";");
    ItemsBlank('\n', ("end" + ";\n") + (GUARD_MARK + ";"));
    assert ("\n" + "end;\n") + (GUARD_MARK + ";") == ['\n'] + (("end" + ";\n") + (GUARD_MARK + ";"));
  }

  lemma SemicolonItem()
    ensures Items(";") == [Sign(';')] && !IsWordChar(';')
  {
    ItemsSign(';', "");
    assert [';'] + "" == ";" && Items("") == [];
  }

  lemma NewlineIsBlank()
    ensures IsSpace('\n') && !IsWordChar('\n')
  {}

  lemma DoSayable()
    ensures IsSayable("do")
  {}

  lemma BodyItems(rows: seq<Row>) returns (body: string)
    requires forall i :: 0 <= i < |rows| ==> IsRow(rows[i])
    ensures body == ['\n'] + (RenderAll(GuardPieces(rows)) + (("\n" + "end;\n") + (GUARD_MARK + ";")))
    ensures Items(body) == MeantAll(GuardPieces(rows)) + END_ITEMS
  {
    hide *;
    NewlineIsBlank();
    GuardFits(rows);
    AllSpoken(GuardPieces(rows));
    EndItems();
    var tail := ("\n" + "end;\n") + (GUARD_MARK + ";");
    var inner := RenderAll(GuardPieces(rows)) + tail;
    ItemsOfPieces(GuardPieces(rows), tail);
    ItemsBlank('\n', inner);
    body := ['\n'] + inner;
  }

  lemma DoFirst(items: seq<Item>)
    ensures [Name("do")] + ([] + ([Sign('$'), Name(TAG_WORD)] + items)) == DO_ITEMS + items
  {}

  lemma GuardItems(rows: seq<Row>)
    requires forall i :: 0 <= i < |rows| ==> IsRow(rows[i])
    ensures Items(Guard(rows)) == DO_ITEMS + (MeantAll(GuardPieces(rows)) + END_ITEMS)
  {
    hide *;
    NewlineIsBlank();
    DoSayable();
    Sayable();
    AllSigns();
    var body := BodyItems(rows);
    MarkItems(body);
    WordItems("do", " ", GUARD_MARK + body);
    GuardRegrouped(rows, body);
    DoFirst(Items(body));
  }

  lemma GuardRegrouped(rows: seq<Row>, body: string)
    requires body == ['\n'] + (RenderAll(GuardPieces(rows)) + (("\n" + "end;\n") + (GUARD_MARK + ";")))
    ensures Guard(rows) == ("do" + " ") + (GUARD_MARK + body)
  {
    hide GuardPieces, RenderAll, GUARD_MARK;
    assert GuardBody(rows) + (GUARD_MARK + ";") == body;
    Assoc(GuardBody(rows), GUARD_MARK, ";");
    Assoc(GUARD_MARK, GuardBody(rows) + GUARD_MARK, ";");
  }

  /** Reading the guard back gives the number of the expected rows and the rows themselves. */
  lemma GuardSays(rows: seq<Row>)
    requires forall i :: 0 <= i < |rows| ==> IsRow(rows[i])
    ensures ReadGuard(Items(Guard(rows))) == Some(Comparison(|rows|, rows))
  {
    hide *;
    GuardItems(rows);
    GuardReads(rows);
  }

  lemma LockFits()
    ensures AllFit(LOCK_PIECES)
  {
    hide IsSayable, IsSeparator, Fits;
    LockSayable();
    Sayable();
    CodesFit();
    CountFits(0, "))");
    LockValueFits();
  }

  lemma LockSayable()
    ensures IsSayable("pg_advisory_xact_lock") && IsSayable("hashtextextended") && IsSeparator("))")
  {}

  lemma LockValueFits()
    ensures Fits(Value("contentengine_deploy:production", ", "))
  {
    hide *;
    Sayable();
    ValueFits("contentengine_deploy:production", ", ");
  }

  /** The lock that the request takes. */
  lemma LockSays()
    ensures Items(LockText()) == LOCK_ITEMS
  {
    hide *;
    LockMeant();
    SemicolonItem();
    LockFits();
    AllSpoken(LOCK_PIECES);
    ItemsOfPieces(LOCK_PIECES, ";");
    LockIs();
  }

  lemma LockIs()
    ensures LockText() == RenderAll(LOCK_PIECES) + ";"
  {}

  lemma LockSigns()
    ensures Signs("))") == [Sign(')'), Sign(')')]
  {}

  lemma LockMeant()
    ensures MeantAll(LOCK_PIECES) + [Sign(';')] == LOCK_ITEMS
  {
    hide MeantAll, Signs, Casefold, NoDollar, Spoken, IsSayable, IsSeparator, AllFit, Fits;
    AllSigns();
    LockSigns();
    var ps := LOCK_PIECES;
    LockFits();
    PlainWords(ps);
    MeantStep(ps, 4);
    MeantStep(ps, 3);
    MeantStep(ps, 2);
    MeantStep(ps, 1);
    MeantStep(ps, 0);
    assert ps[0..] == ps && ps[5..] == [];
    NothingMeant();
  }

  lemma InsertFits(row: Row)
    requires IsRow(row)
    ensures AllFit(InsertPieces(row))
  {
    hide IsSayable, IsSeparator, Fits, IsRow;
    InsertSayable();
    Sayable();
    CodesFit();
    RowNoQuote(row);
    ValueFits(row.version, ", ");
    ValueFits(row.sha256, ")");
  }

  lemma InsertSayable()
    ensures IsSayable("insert") && IsSayable("into") && IsSeparator(")\n") && IsSeparator(")")
  {}

  lemma RowNoQuote(row: Row)
    requires IsRow(row)
    ensures forall i :: 0 <= i < |row.version| ==> row.version[i] != '\'' && row.version[i] != '$'
    ensures forall i :: 0 <= i < |row.sha256| ==> row.sha256[i] != '\'' && row.sha256[i] != '$'
  {
    NoHexQuote();
    assert forall i :: 0 <= i < |row.version| ==> IsHex(row.version[i]);
  }

  lemma InsertHeadMeant(row: Row)
    requires AllFit(InsertPieces(row))
    ensures MeantAll(InsertPieces(row)[..4]) == INSERT_ITEMS
  {
    hide MeantAll, Signs, Casefold, NoDollar, Spoken, IsSayable, IsSeparator, AllFit, Fits;
    AllSigns();
    FirstsFit(InsertPieces(row), 4);
    var ps := InsertPieces(row)[..4];
    PlainWords(ps);
    MeantStep(ps, 3);
    MeantStep(ps, 2);
    MeantStep(ps, 1);
    MeantStep(ps, 0);
    assert ps[0..] == ps && ps[4..] == [];
    NothingMeant();
  }

  function ValuesItems(row: Row): seq<Item> {
    [ Name("version"), Sign(','), Name("sha256"), Sign(')'), Name("values"), Sign('('), Quote(row.version), Sign(','),
      Quote(row.sha256), Sign(')') ]
  }

  lemma InsertTailMeant(row: Row)
    requires AllFit(InsertPieces(row))
    ensures MeantAll(InsertPieces(row)[4..]) == ValuesItems(row)
  {
    hide MeantAll, Signs, Casefold, NoDollar, Spoken, IsSayable, IsSeparator, AllFit, Fits;
    AllSigns();
    var ps := InsertPieces(row);
    PlainWords(ps);
    MeantStep(ps, 8);
    MeantStep(ps, 7);
    MeantStep(ps, 6);
    MeantStep(ps, 5);
    MeantStep(ps, 4);
    assert ps[9..] == [];
    NothingMeant();
  }

  /** Reading the receipt back gives the row of the migration: the version and the checksum, each in its column. */
  lemma ReceiptSays(row: Row)
    requires IsRow(row)
    ensures ReadInsert(Items(RenderAll(InsertPieces(row)) + ";")) == Some(row)
  {
    hide *;
    InsertFits(row);
    var ps := InsertPieces(row);
    AllSpoken(ps);
    ItemsOfPieces(ps, ";");
    SemicolonItem();
    InsertHeadMeant(row);
    InsertTailMeant(row);
    NineInsert(row);
    MeantConcat(ps[..4], ps[4..]);
    InsertRead(row);
  }

  lemma NineInsert(row: Row)
    ensures |InsertPieces(row)| == 9 && InsertPieces(row)[..4] + InsertPieces(row)[4..] == InsertPieces(row)
  {}

  lemma InsertRead(row: Row)
    ensures ReadInsert((INSERT_ITEMS + ValuesItems(row)) + [Sign(';')]) == Some(row)
  {
    var rest := ValuesItems(row) + [Sign(';')];
    Assoc(INSERT_ITEMS, ValuesItems(row), [Sign(';')]);
    PastHead(INSERT_ITEMS, rest);
    assert AreTwoValues(rest);
  }
}
