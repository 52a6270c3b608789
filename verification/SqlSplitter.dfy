/** Cutting a migration script into statements, and quoting a literal for one. */
module SqlSplitter {
  import opened Wrappers
  import opened Text

  /** What the scanner remembers: the quotes it is in, and whether it just passed a backslash. */
  datatype Scan = Scan(inSingle: bool, inDouble: bool, prevSlash: bool)

  const START := Scan(false, false, false)

  predicate Outside(s: Scan) {
    !s.inSingle && !s.inDouble
  }

  /** A semicolon outside quotes ends a statement. */
  predicate Ends(s: Scan, c: char) {
    c == ';' && Outside(s)
  }

  function Advance(s: Scan, c: char): Scan {
    Scan(if c == '\'' && !s.inDouble && !s.prevSlash then !s.inSingle else s.inSingle,
         if c == '"' && !s.inSingle && !s.prevSlash then !s.inDouble else s.inDouble,
         c == '\\')
  }

  function ScanFrom(s: Scan, text: string): Scan
    decreases |text|
  {
    if text == [] then s else Advance(ScanFrom(s, text[..|text| - 1]), text[|text| - 1])
  }

  /** No statement ends inside the text. */
  predicate Whole(s: Scan, text: string)
    decreases |text|
  {
    text != [] ==> Whole(s, text[..|text| - 1]) && !Ends(ScanFrom(s, text[..|text| - 1]), text[|text| - 1])
  }

  /** A trimmed statement, unless nothing is left of it. */
  function Kept(s: string): seq<string> {
    if TrimSpace(s) == "" then [] else [TrimSpace(s)]
  }

  /** The statements that ended in the text, and what was read of the next. */
  function Cut(text: string): (r: (seq<string>, string))
    decreases |text|
  {
    if text == [] then ([], "")
    else
      var (done, current) := Cut(text[..|text| - 1]);
      var c := text[|text| - 1];
      if Ends(ScanFrom(START, current), c) then (done + Kept(current), "") else (done, current + [c])
  }

  function Split(text: string): seq<string> {
    Cut(text).0 + Kept(Cut(text).1)
  }

  lemma CutStep(text: string, i: nat)
    requires i < |text|
    ensures var (done, current) := Cut(text[..i]);
            Cut(text[..i + 1]) == if Ends(ScanFrom(START, current), text[i]) then (done + Kept(current), "")
                                  else (done, current + [text[i]])
  {
    hide Kept, ScanFrom;
    assert text[..i + 1][..i] == text[..i];
  }

  lemma ScanStep(s: Scan, text: string, c: char)
    ensures ScanFrom(s, text + [c]) == Advance(ScanFrom(s, text), c)
  {
    hide Advance;
    assert (text + [c])[..|text|] == text;
  }

  method SplitSQLStatements(sqlText: string) returns (out: seq<string>)
    ensures out == Split(sqlText)
  {
    hide TrimSpace, Cut, ScanFrom;
    out := [];
    var builder := "";
    NothingRead(sqlText);
    var inSingle, inDouble, prevSlash := false, false, false;
    for i := 0 to |sqlText|
      invariant Cut(sqlText[..i]) == (out, builder)
      invariant Scan(inSingle, inDouble, prevSlash) == ScanFrom(START, builder)
    {
      var r := sqlText[i];
      CutStep(sqlText, i);
      ScanStep(START, builder, r);
      var ended := false;
      if r == '\'' {
        if !inDouble && !prevSlash {
          inSingle := !inSingle;
        }
      } else if r == '"' {
        if !inSingle && !prevSlash {
          inDouble := !inDouble;
        }
      } else if r == ';' && !inSingle && !inDouble {
        var stmt := TrimSpace(builder);
        assert out + [] == out;
        if stmt != "" {
          out := out + [stmt];
        }
        builder := "";
        prevSlash := false;
        ended := true;
      }
      if !ended {
        builder := builder + [r];
        prevSlash := r == '\\';
      }
    }
    assert sqlText[..|sqlText|] == sqlText;
    var stmt := TrimSpace(builder);
    assert out + [] == out;
    if stmt != "" {
      out := out + [stmt];
    }
  }

  lemma NothingRead(text: string)
    ensures Cut(text[..0]) == ([], "") && ScanFrom(START, "") == START
  {
  }

  // ---------------------------------------------------------------- scanning in pieces

  lemma {:induction false} ScanAppend(s: Scan, a: string, b: string)
    ensures ScanFrom(s, a + b) == ScanFrom(ScanFrom(s, a), b)
    ensures Whole(s, a + b) <==> Whole(s, a) && Whole(ScanFrom(s, a), b)
    decreases |b|
  {
    if b == [] {
      assert a + b == a;
    } else {
      ScanAppend(s, a, b[..|b| - 1]);
      assert (a + b)[..|a + b| - 1] == a + b[..|b| - 1];
    }
  }

  /** White space moves no quotes and ends no statement. */
  lemma {:induction false} SpaceScan(s: Scan, sp: string)
    requires AllSpace(sp)
    ensures ScanFrom(s, sp) == if sp == [] then s else s.(prevSlash := false)
    ensures Whole(s, sp)
    decreases |sp|
  {
    if sp != [] {
      SpaceScan(s, sp[..|sp| - 1]);
    }
  }

  /** Trimming changes neither the quotes a text ends in nor whether it is whole. */
  lemma TrimScan(s: string)
    requires Whole(START, s)
    ensures Whole(START, TrimSpace(s))
    ensures Outside(ScanFrom(START, TrimSpace(s))) <==> Outside(ScanFrom(START, s))
    ensures Trimmed(TrimSpace(s))
  {
    hide AllSpace, ScanFrom, Whole, TrimSpace;
    var before, after := TrimParts(s);
    var mid := TrimSpace(s);
    SpaceScan(START, before);
    ScanAppend(START, before, mid);
    ScanAppend(START, before + mid, after);
    SpaceScan(ScanFrom(START, mid), after);
  }

  // ---------------------------------------------------------------- joining and splitting

  function Join(statements: seq<string>): string
    decreases |statements|
  {
    if statements == [] then ""
    else if |statements| == 1 then statements[0]
    else Join(statements[..|statements| - 1]) + ";" + statements[|statements| - 1]
  }

  predicate IsStatement(s: string) {
    s != "" && Trimmed(s) && Whole(START, s)
  }

  /** Nonempty trimmed statements without a semicolon outside quotes; only the last may leave a quote open. */
  predicate Separable(statements: seq<string>) {
    forall i :: 0 <= i < |statements| ==>
      IsStatement(statements[i]) && (i < |statements| - 1 ==> Outside(ScanFrom(START, statements[i])))
  }

  lemma KeptStatement(s: string)
    requires s != "" && Trimmed(s)
    ensures Kept(s) == [s]
  {
    TrimOfTrimmed(s);
  }

  lemma {:induction false} CutGrows(text: string, s: string)
    requires Cut(text).1 == "" && Whole(START, s)
    ensures Cut(text + s) == (Cut(text).0, s)
    decreases |s|
  {
    hide Kept, Advance;
    if s == [] {
      assert text + s == text;
    } else {
      CutGrows(text, s[..|s| - 1]);
      assert (text + s)[..|text + s| - 1] == text + s[..|s| - 1];
      assert s[..|s| - 1] + [s[|s| - 1]] == s;
    }
  }

  lemma CutEnds(text: string)
    requires Outside(ScanFrom(START, Cut(text).1))
    ensures Cut(text + ";") == (Cut(text).0 + Kept(Cut(text).1), "")
  {
    hide Kept, ScanFrom;
    assert (text + ";")[..|text|] == text;
  }

  lemma {:induction false} CutOfJoin(statements: seq<string>)
    requires Separable(statements) && statements != []
    ensures Cut(Join(statements)) == (statements[..|statements| - 1], statements[|statements| - 1])
    decreases |statements|
  {
    hide ScanFrom, Whole, Kept, Trimmed;
    var n := |statements| - 1;
    var last := statements[n];
    if n == 0 {
      NothingCut();
      CutGrows("", last);
      assert "" + last == last;
    } else {
      var init := statements[..n];
      CutOfJoin(init);
      CutEnds(Join(init));
      KeptStatement(init[n - 1]);
      assert init[..n - 1] + [init[n - 1]] == init;
      CutGrows(Join(init) + ";", last);
    }
  }

  lemma NothingCut()
    ensures Cut("") == ([], "")
  {
  }

  /** What was cut off so far is separable, all of it closed. */
  predicate Closed(done: seq<string>) {
    forall i :: 0 <= i < |done| ==> IsStatement(done[i]) && Outside(ScanFrom(START, done[i]))
  }

  lemma {:induction false} CutIsSeparable(text: string)
    ensures Closed(Cut(text).0) && Whole(START, Cut(text).1)
    decreases |text|
  {
    hide Advance, Trimmed, ScanFrom, TrimSpace;
    if text != [] {
      var init, c := text[..|text| - 1], text[|text| - 1];
      CutIsSeparable(init);
      var current := Cut(init).1;
      if Ends(ScanFrom(START, current), c) {
        TrimScan(current);
      } else {
        assert (current + [c])[..|current|] == current;
        assert Whole(START, current + [c]);
      }
    }
  }

  /** Whatever is split, the parts are statements and could be joined again. */
  lemma SplitIsSeparable(text: string)
    ensures Separable(Split(text))
  {
    hide Trimmed, ScanFrom, Whole;
    CutIsSeparable(text);
    TrimScan(Cut(text).1);
  }

  /** Joining and splitting gives a list back exactly if its members are separable statements. */
  lemma {:induction false} JoinThenSplit(statements: seq<string>)
    ensures Split(Join(statements)) == statements <==> Separable(statements)
  {
    SplitIsSeparable(Join(statements));
    hide Trimmed, ScanFrom, Whole, Kept;
    if Separable(statements) {
      if statements == [] {
        NothingKept();
      } else {
        CutOfJoin(statements);
        KeptStatement(statements[|statements| - 1]);
      }
    }
  }

  lemma NothingKept()
    ensures Split("") == []
  {
  }

  /** Splitting is stable: rejoining a script's statements and splitting again changes nothing. */
  lemma SplitIsStable(text: string)
    ensures Split(Join(Split(text))) == Split(text)
  {
    hide Split, Join, Separable;
    SplitIsSeparable(text);
    JoinThenSplit(Split(text));
  }

  // ---------------------------------------------------------------- literals

  /** Every single quote doubled. */
  function Doubled(value: string): string
    decreases |value|
  {
    if value == [] then []
    else
      Doubled(value[..|value| - 1]) +
      if value[|value| - 1] == '\'' then "''" else [value[|value| - 1]]
  }

  function QuoteSQLLiteral(value: string): string {
    "'" + Doubled(value) + "'"
  }

  /** How SQL reads the text after an opening quote: the value up to the closing one, and what follows it. */
  function ReadQuoted(text: string): Option<(string, string)>
    decreases |text|
  {
    if text == "" then None
    else if text[0] != '\'' then
      match ReadQuoted(text[1..])
      case None => None
      case Some(r) => Some(([text[0]] + r.0, r.1))
    else if |text| > 1 && text[1] == '\'' then
      match ReadQuoted(text[2..])
      case None => None
      case Some(r) => Some(("'" + r.0, r.1))
    else Some(("", text[1..]))
  }

  function DoubledChar(c: char): string {
    if c == '\'' then "''" else [c]
  }

  lemma {:induction false} DoubledFront(value: string)
    requires value != ""
    ensures Doubled(value) == DoubledChar(value[0]) + Doubled(value[1..])
    decreases |value|
  {
    var n := |value| - 1;
    DoubledLast(value);
    hide Doubled;
    if n == 0 {
      assert value[..0] == value[1..] == "";
      DoubledNothing();
    } else {
      DoubledFront(value[..n]);
      DoubledLast(value[1..]);
      assert value[..n][1..] == value[1..][..n - 1];
    }
  }

  lemma DoubledLast(value: string)
    requires value != ""
    ensures Doubled(value) == Doubled(value[..|value| - 1]) + DoubledChar(value[|value| - 1])
  {
  }

  lemma DoubledNothing()
    ensures Doubled("") == ""
  {
  }

  /** The literal of a value is read back as the value, and ends where it should. */
  lemma {:induction false} QuotedReadsBack(value: string, rest: string)
    requires rest != "" ==> rest[0] != '\''
    ensures QuoteSQLLiteral(value)[0] == '\''
    ensures ReadQuoted((QuoteSQLLiteral(value) + rest)[1..]) == Some((value, rest))
    decreases |value|
  {
    hide Doubled;
    var text := Doubled(value) + "'" + rest;
    assert (QuoteSQLLiteral(value) + rest)[1..] == text;
    if value == "" {
      DoubledNothing();
      assert text == "'" + rest && text[1..] == rest;
    } else {
      var more := Doubled(value[1..]) + "'" + rest;
      DoubledFront(value);
      QuotedReadsBack(value[1..], rest);
      assert (QuoteSQLLiteral(value[1..]) + rest)[1..] == more;
      if value[0] == '\'' {
        assert text == "''" + more && text[2..] == more;
        assert value == "'" + value[1..];
      } else {
        assert text == [value[0]] + more && text[1..] == more;
        assert value == [value[0]] + value[1..];
      }
    }
  }

  /** No backslash directly before a quote, and none at the end. */
  predicate NoEscapes(value: string) {
    forall i :: 0 <= i < |value| && value[i] == '\\' ==> i + 1 < |value| && value[i + 1] != '\''
  }

  const INSIDE := Scan(true, false, false)

  /**
   * The scanner reads the literal as SQL does: it is inside the quotes after every character of the
   * value and outside once the literal is over.
   */
  predicate Faithful(value: string) {
    && (forall n :: 0 <= n <= |value| ==> ScanFrom(INSIDE, Doubled(value[..n])).inSingle)
    && Outside(ScanFrom(START, QuoteSQLLiteral(value)))
  }

  lemma DoubledStep(value: string, n: nat)
    requires n < |value|
    ensures Doubled(value[..n + 1]) == Doubled(value[..n]) + if value[n] == '\'' then "''" else [value[n]]
  {
    assert value[..n + 1][..n] == value[..n];
  }

  /** One character of the value, as long as no quote follows a backslash. */
  lemma ValueStep(s: Scan, c: char)
    requires s.inSingle && !s.inDouble && (c == '\'' ==> !s.prevSlash)
    ensures ScanFrom(s, if c == '\'' then "''" else [c]) == Scan(true, false, c == '\\')
    ensures Whole(s, if c == '\'' then "''" else [c])
  {
    ScanStep(s, "", c);
    assert "" + [c] == [c] && "''"[..1] == "'" && "'"[..0] == "";
  }

  predicate SlashBeforeQuote(value: string, i: nat) {
    i + 1 < |value| && value[i] == '\\' && value[i + 1] == '\''
  }

  /** Before the first backslash that precedes a quote, the scanner stays inside. */
  lemma {:induction false} InsideValue(value: string, n: nat)
    requires n <= |value| && forall i :: 0 <= i < n ==> i + 1 < n ==> !SlashBeforeQuote(value, i)
    ensures ScanFrom(INSIDE, Doubled(value[..n])) == Scan(true, false, n > 0 && value[n - 1] == '\\')
    ensures Whole(INSIDE, Doubled(value[..n]))
    decreases n
  {
    hide Doubled;
    if n == 0 {
      NothingDoubled(value);
    } else {
      InsideValue(value, n - 1);
      DoubledStep(value, n - 1);
      var before := ScanFrom(INSIDE, Doubled(value[..n - 1]));
      assert n > 1 ==> !SlashBeforeQuote(value, n - 2);
      hide ScanFrom, Whole;
      ValueStep(before, value[n - 1]);
      ScanAppend(INSIDE, Doubled(value[..n - 1]), if value[n - 1] == '\'' then "''" else [value[n - 1]]);
    }
  }

  lemma NothingDoubled(value: string)
    ensures Doubled(value[..0]) == ""
  {
  }

  lemma LiteralScan(value: string)
    ensures ScanFrom(START, QuoteSQLLiteral(value)) == Advance(ScanFrom(INSIDE, Doubled(value)), '\'')
    ensures Whole(INSIDE, Doubled(value)) && ScanFrom(INSIDE, Doubled(value)).inSingle ==>
            Whole(START, QuoteSQLLiteral(value))
  {
    var inner := Doubled(value);
    ScanStep(START, "", '\'');
    assert "" + ['\''] == "'";
    assert Whole(START, "'");
    ScanAppend(START, "'", inner);
    ScanStep(START, "'" + inner, '\'');
    ScanAppend(START, "'" + inner, "'");
  }

  /** The literal of a value without such backslashes is one token, whatever quotes and semicolons it holds. */
  lemma LiteralIsToken(value: string)
    requires NoEscapes(value)
    ensures Faithful(value) && ScanFrom(START, QuoteSQLLiteral(value)) == START && Whole(START, QuoteSQLLiteral(value))
  {
    hide ScanFrom, Whole, Doubled, QuoteSQLLiteral;
    LiteralScan(value);
    InsideValue(value, |value|);
    assert value[..|value|] == value;
    forall n | 0 <= n <= |value| ensures ScanFrom(INSIDE, Doubled(value[..n])).inSingle {
      InsideValue(value, n);
    }
  }

  lemma FirstSlash(value: string, i: nat) returns (k: nat)
    requires SlashBeforeQuote(value, i)
    ensures SlashBeforeQuote(value, k) && forall j :: 0 <= j < k ==> !SlashBeforeQuote(value, j)
  {
    k := 0;
    while !SlashBeforeQuote(value, k)
      invariant k <= i && forall j :: 0 <= j < k ==> !SlashBeforeQuote(value, j)
      decreases i - k
    {
      k := k + 1;
    }
  }

  /** A backslash makes the scanner skip the first half of a doubled quote, so the second half closes the literal. */
  lemma SlashLeaves(value: string, k: nat)
    requires SlashBeforeQuote(value, k) && forall j :: 0 <= j < k ==> !SlashBeforeQuote(value, j)
    ensures !ScanFrom(INSIDE, Doubled(value[..k + 2])).inSingle
  {
    hide Doubled;
    InsideValue(value, k + 1);
    DoubledStep(value, k + 1);
    var before := Doubled(value[..k + 1]);
    var s := ScanFrom(INSIDE, before);
    assert s == Scan(true, false, true);
    ScanAppend(INSIDE, before, "''");
    assert "''"[..1] == "'" && "'"[..0] == "";
  }

  /** The scanner and SQL agree on a literal exactly if no backslash stands before a quote or at the end. */
  lemma FaithfulExactly(value: string)
    ensures Faithful(value) <==> NoEscapes(value)
  {
    hide ScanFrom, Whole, Doubled, QuoteSQLLiteral;
    if NoEscapes(value) {
      LiteralIsToken(value);
    } else {
      var i :| 0 <= i < |value| && value[i] == '\\' && (i + 1 == |value| || value[i + 1] == '\'');
      if SlashBeforeQuote(value, i) {
        var k := FirstSlash(value, i);
        SlashLeaves(value, k);
      } else if forall j :: 0 <= j < |value| ==> !SlashBeforeQuote(value, j) {
        LiteralScan(value);
        InsideValue(value, |value|);
        assert value[..|value|] == value;
      } else {
        var j :| 0 <= j < |value| && SlashBeforeQuote(value, j);
        var k := FirstSlash(value, j);
        SlashLeaves(value, k);
      }
    }
  }

  /** Put into a statement outside quotes, such a literal neither splits it nor changes how the rest is read. */
  lemma LiteralNeverSplits(before: string, value: string, after: string)
    requires NoEscapes(value) && ScanFrom(START, before) == START
    ensures Whole(START, before + QuoteSQLLiteral(value) + after) <==> Whole(START, before) && Whole(START, after)
    ensures ScanFrom(START, before + QuoteSQLLiteral(value) + after) == ScanFrom(START, after)
  {
    hide Doubled, QuoteSQLLiteral, ScanFrom, Whole, Trimmed;
    LiteralIsToken(value);
    ScanAppend(START, before, QuoteSQLLiteral(value));
    ScanAppend(START, before + QuoteSQLLiteral(value), after);
  }

  /** Inside single quotes nothing but a single quote matters. */
  lemma {:induction false} StaysInside(s: Scan, text: string)
    requires s.inSingle && forall i :: 0 <= i < |text| ==> text[i] != '\''
    ensures ScanFrom(s, text).inSingle && Whole(s, text)
    decreases |text|
  {
    if text != [] {
      StaysInside(s, text[..|text| - 1]);
    }
  }

  /** A value that ends in a backslash leaves the quotes open: what follows, semicolons and all, is swallowed. */
  lemma TrailingSlashSwallows(value: string, rest: string)
    requires value != "" && value[|value| - 1] == '\\' && forall i :: 0 <= i < |value| ==> !SlashBeforeQuote(value, i)
    requires forall i :: 0 <= i < |rest| ==> rest[i] != '\''
    ensures !NoEscapes(value) && Split(QuoteSQLLiteral(value) + rest) == Kept(QuoteSQLLiteral(value) + rest)
  {
    var lit := QuoteSQLLiteral(value);
    hide ScanFrom, Whole, Doubled, QuoteSQLLiteral, Kept, Cut;
    LiteralScan(value);
    InsideValue(value, |value|);
    assert value[..|value|] == value;
    StaysInside(ScanFrom(START, lit), rest);
    ScanAppend(START, lit, rest);
    NothingCut();
    CutGrows("", lit + rest);
    assert "" + (lit + rest) == lit + rest;
    assert [] + Kept(lit + rest) == Kept(lit + rest);
  }
}
