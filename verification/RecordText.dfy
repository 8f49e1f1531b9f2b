/**
  The text of a recording: lines cut at "||" and "|", and the "a=v|a=v" text of the attributes
  of a bulk call.
 */
module RecordText {
  import opened Text

  const BAR := '|'
  const EQUALS := '='

  // ---------- white space ----------

  predicate IsSpace(c: char) {
    c == ' ' || ('\t' <= c <= '\r') || ('\U{1C}' <= c <= '\U{1F}')
  }

  function StripLeft(s: string): string {
    if |s| > 0 && IsSpace(s[0]) then StripLeft(s[1..]) else s
  }

  function StripRight(s: string): string {
    if |s| > 0 && IsSpace(s[|s| - 1]) then StripRight(s[..|s| - 1]) else s
  }

  function Strip(s: string): string {
    StripRight(StripLeft(s))
  }

  /** No white space at either end. */
  predicate Tight(s: string) {
    |s| > 0 && !IsSpace(s[0]) && !IsSpace(s[|s| - 1])
  }

  lemma StripTight(s: string)
    requires Tight(s)
    ensures Strip(s) == s && Strip(s + "\n") == s
  {
    assert (s + "\n")[..|s|] == s;
    assert StripRight(s + "\n") == StripRight(s);
  }

  /** The ASCII characters that str.strip takes for white space. */
  lemma IsSpaceIs(c: char)
    ensures IsSpace(c) <==>
      c == ' ' || c == '\t' || c == '\n' || c == '\U{B}' || c == '\U{C}' || c == '\r' || c == '\U{1C}' || c == '\U{1D}' || c == '\U{1E}' || c == '\U{1F}'
  {
  }

  predicate White(s: string) {
    forall i | 0 <= i < |s| :: IsSpace(s[i])
  }

  lemma {:induction false} StripLeftWhite(p: string, s: string)
    requires White(p)
    ensures StripLeft(p + s) == StripLeft(s)
  {
    if |p| > 0 {
      assert (p + s)[1..] == p[1..] + s;
      StripLeftWhite(p[1..], s);
    } else {
      assert p + s == s;
    }
  }

  lemma {:induction false} StripRightWhite(s: string, q: string)
    requires White(q)
    ensures StripRight(s + q) == StripRight(s)
  {
    if |q| > 0 {
      var n := |q| - 1;
      assert (s + q)[..|s| + n] == s + q[..n];
      StripRightWhite(s, q[..n]);
    } else {
      assert s + q == s;
    }
  }

  /** White space around a text is stripped, and no more than that. */
  lemma {:induction false} StripsAll(p: string, s: string, q: string)
    requires Tight(s) && White(p) && White(q)
    ensures Strip(p + s + q) == s
  {
    assert p + s + q == p + (s + q);
    StripLeftWhite(p, s + q);
    StripRightWhite(s, q);
  }

  // ---------- cutting at "||" ----------

  /** The character belongs to the first piece. */
  function Prepend(c: char, r: seq<string>): (r': seq<string>)
    requires |r| > 0
    ensures |r'| == |r|
  {
    [[c] + r[0]] + r[1..]
  }

  lemma PrependConcat(c: char, q: seq<string>, rest: seq<string>)
    requires |q| > 0
    ensures Prepend(c, q) + rest == Prepend(c, q + rest)
  {
  }

  function SplitBars(s: string): (r: seq<string>)
    ensures |r| > 0
  {
    if |s| < 2 then [s]
    else if s[0] == BAR && s[1] == BAR then [""] + SplitBars(s[2..])
    else Prepend(s[0], SplitBars(s[1..]))
  }

  /** No two bars in a row, and none at the end. */
  predicate NoBars(s: string) {
    (forall i | 0 <= i < |s| - 1 :: !(s[i] == BAR && s[i + 1] == BAR)) && (|s| > 0 ==> s[|s| - 1] != BAR)
  }

  lemma {:induction false} SplitBarsNone(s: string)
    requires NoBars(s)
    ensures SplitBars(s) == [s]
  {
    if |s| >= 2 {
      SplitBarsNone(s[1..]);
      assert [s[0]] + s[1..] == s;
    }
  }

  lemma {:induction false} SplitBarsStep(a: char, r: string)
    requires |r| > 0 && !(a == BAR && r[0] == BAR)
    ensures SplitBars([a] + r) == Prepend(a, SplitBars(r))
  {
    assert ([a] + r)[1..] == r;
  }

  lemma {:induction false} SplitBarsFirst(s: string, rest: string)
    requires NoBars(s)
    ensures SplitBars(s + ("||" + rest)) == [s] + SplitBars(rest)
  {
    if |s| == 0 {
      var t := "||" + rest;
      assert s + t == t && t[2..] == rest;
    } else {
      var tail := s[1..] + ("||" + rest);
      SplitBarsFirst(s[1..], rest);
      assert s + ("||" + rest) == [s[0]] + tail;
      assert !(s[0] == BAR && tail[0] == BAR);
      SplitBarsStep(s[0], tail);
      assert Prepend(s[0], [s[1..]]) == [s] by { assert [s[0]] + s[1..] == s; }
      PrependConcat(s[0], [s[1..]], SplitBars(rest));
    }
  }

  lemma {:induction false} SplitBarsJoin(parts: seq<string>)
    requires |parts| > 0 && forall i | 0 <= i < |parts| :: NoBars(parts[i])
    ensures SplitBars(Join(parts, "||")) == parts
  {
    if |parts| == 1 {
      SplitBarsNone(parts[0]);
    } else {
      SplitBarsJoin(parts[1..]);
      SplitBarsFirst(parts[0], Join(parts[1..], "||"));
      assert parts[0] + "||" + Join(parts[1..], "||") == parts[0] + ("||" + Join(parts[1..], "||"));
    }
  }

  // ---------- lines ----------

  /** A field as recordings have them: not empty, without bars or outer white space. */
  predicate Field(s: string) {
    Tight(s) && Free(s, BAR)
  }

  predicate Fields(fs: seq<string>) {
    |fs| > 0 && forall i | 0 <= i < |fs| :: Field(fs[i])
  }

  lemma {:induction false} JoinedFields(fs: seq<string>)
    requires Fields(fs)
    ensures Tight(Join(fs, [BAR])) && NoBars(Join(fs, [BAR]))
  {
    if |fs| > 1 {
      JoinedFields(fs[1..]);
      var x, rest := fs[0], Join(fs[1..], [BAR]);
      var s := x + [BAR] + rest;
      forall i | 0 <= i < |s| - 1 ensures !(s[i] == BAR && s[i + 1] == BAR) {
        if i < |x| { assert x[i] != BAR; } else if i > |x| { assert s[i] == rest[i - |x| - 1] && s[i + 1] == rest[i - |x|]; }
      }
    }
  }

  function LineOf(fs: seq<string>): string
    requires Fields(fs)
  {
    Join(fs, [BAR])
  }

  function Lines(rec: seq<seq<string>>): (r: seq<string>)
    requires forall i | 0 <= i < |rec| :: Fields(rec[i])
    ensures |r| == |rec|
  {
    seq(|rec|, i requires 0 <= i < |rec| => LineOf(rec[i]))
  }

  predicate Record(date: string, rec: seq<seq<string>>) {
    |rec| > 0 && forall i | 0 <= i < |rec| :: Fields(Dated(date, rec)[i])
  }

  function Dated(date: string, rec: seq<seq<string>>): (r: seq<seq<string>>)
    requires |rec| > 0
    ensures |r| == |rec|
  {
    [[date] + rec[0]] + rec[1..]
  }

  /** A record of the documented format: date, action and type in front, then the bulk entries if there are any. */
  function Print(date: string, rec: seq<seq<string>>): string
    requires Record(date, rec)
  {
    Join(Lines(Dated(date, rec)), "||") + "\n"
  }

  /** The fields of the i-th piece; the first piece starts with the date. */
  function TokensAt(piece: string, i: nat): seq<string> {
    var tokens := Split(Strip(piece), BAR);
    if i == 0 then tokens[1..] else tokens
  }

  function Tokens(pieces: seq<string>): (r: seq<seq<string>>)
    ensures |r| == |pieces|
  {
    seq(|pieces|, i requires 0 <= i < |pieces| => TokensAt(pieces[i], i))
  }

  function ParseLine(line: string): seq<seq<string>> {
    Tokens(SplitBars(Strip(line)))
  }

  /** The inner loop of the code, over one line. */
  method LineData(line: string) returns (data: seq<seq<string>>)
    ensures data == ParseLine(line)
  {
    data := [];
    var pieces := SplitBars(Strip(line));
    for i := 0 to |pieces|
      invariant data == Tokens(pieces)[..i]
    {
      var tokens := Split(Strip(pieces[i]), BAR);
      if i == 0 { tokens := tokens[1..]; }
      TokensNext(pieces, i);
      data := data + [tokens];
    }
    assert Tokens(pieces)[..|pieces|] == Tokens(pieces);
  }

  lemma TokensNext(pieces: seq<string>, i: nat)
    requires i < |pieces|
    ensures Tokens(pieces)[..i + 1] == Tokens(pieces)[..i] + [TokensAt(pieces[i], i)]
  {
  }

  lemma {:induction false} JoinTight(parts: seq<string>)
    requires |parts| > 0 && forall i | 0 <= i < |parts| :: Tight(parts[i])
    ensures Tight(Join(parts, "||"))
  {
    if |parts| > 1 { JoinTight(parts[1..]); }
  }

  /** Printing a record and parsing the line gives the record back. */
  lemma ParsePrint(date: string, rec: seq<seq<string>>)
    requires Record(date, rec)
    ensures ParseLine(Print(date, rec)) == rec
  {
    var all := Dated(date, rec);
    var pieces := Lines(all);
    forall i | 0 <= i < |all| ensures Fields(all[i]) && Tight(pieces[i]) && NoBars(pieces[i]) && Split(Strip(pieces[i]), BAR) == all[i] {
      JoinedFields(all[i]);
      StripTight(pieces[i]);
      SplitJoin(all[i], BAR);
    }
    JoinTight(pieces);
    StripTight(Join(pieces, "||"));
    SplitBarsJoin(pieces);
    assert forall i | 0 <= i < |rec| :: Tokens(pieces)[i] == rec[i];
  }

  /** Each piece between these texts. */
  function Padded(pieces: seq<string>, ls: seq<string>, rs: seq<string>): (r: seq<string>)
    requires |pieces| == |ls| == |rs|
    ensures |r| == |pieces|
  {
    seq(|pieces|, i requires 0 <= i < |pieces| => ls[i] + pieces[i] + rs[i])
  }

  lemma {:induction false} JoinFront(x: string, part: string, rest: seq<string>, sep: string)
    ensures Join([x + part] + rest, sep) == x + Join([part] + rest, sep)
  {
    if |rest| > 0 {
      assert ([x + part] + rest)[1..] == rest && ([part] + rest)[1..] == rest;
      assert (x + part) + sep + Join(rest, sep) == x + (part + sep + Join(rest, sep));
    }
  }

  lemma {:induction false} JoinBack(rest: seq<string>, part: string, x: string, sep: string)
    ensures Join(rest + [part + x], sep) == Join(rest + [part], sep) + x
  {
    if |rest| > 0 {
      JoinBack(rest[1..], part, x, sep);
      assert (rest + [part + x])[1..] == rest[1..] + [part + x] && (rest + [part])[1..] == rest[1..] + [part];
      var j := Join(rest[1..] + [part], sep);
      assert rest[0] + sep + (j + x) == (rest[0] + sep + j) + x;
    }
  }

  lemma {:induction false} PaddedNoBars(p: string, s: string, q: string)
    requires White(p) && White(q) && NoBars(s)
    ensures NoBars(p + s + q)
  {
    var t := p + s + q;
    forall i | 0 <= i < |t| - 1 ensures !(t[i] == BAR && t[i + 1] == BAR) {
      if i < |p| {
        assert t[i] == p[i];
      } else if i < |p| + |s| {
        assert t[i] == s[i - |p|] && (i + 1 < |p| + |s| ==> t[i + 1] == s[i + 1 - |p|]);
      } else {
        assert t[i] == q[i - |p| - |s|];
      }
    }
  }

  /** Without the outermost white space of the line. */
  lemma {:induction false} OuterStripped(pieces: seq<string>, ls: seq<string>, rs: seq<string>, n: nat)
    requires |pieces| == |ls| == |rs| == n + 1
    ensures Join(Padded(pieces, ls, rs), "||") == ls[0] + Join(Padded(pieces, ls[0 := ""], rs[n := ""]), "||") + rs[n]
  {
    var a := Padded(pieces, ls, rs);
    var b := Padded(pieces, ls[0 := ""], rs);
    var c := Padded(pieces, ls[0 := ""], rs[n := ""]);
    assert ls[0] + (pieces[0] + rs[0]) == ls[0] + pieces[0] + rs[0] && "" + pieces[0] + rs[0] == pieces[0] + rs[0];
    assert a == [ls[0] + (pieces[0] + rs[0])] + a[1..] && b == [pieces[0] + rs[0]] + a[1..];
    JoinFront(ls[0], pieces[0] + rs[0], a[1..], "||");
    var front := ls[0 := ""][n] + pieces[n];
    assert front + "" == front;
    assert b == c[..n] + [front + rs[n]] && c == c[..n] + [front];
    JoinBack(c[..n], front, rs[n], "||");
    assert ls[0] + (Join(c, "||") + rs[n]) == ls[0] + Join(c, "||") + rs[n];
  }

  lemma {:induction false} TightEnds(x: string, mid: string, y: string)
    requires Tight(x) && Tight(y)
    ensures Tight(x + mid + y)
  {
  }

  /** Padded inside only, the joined line begins and ends with the fields. */
  lemma {:induction false} InnerTight(pieces: seq<string>, ls: seq<string>, rs: seq<string>, n: nat)
    requires |pieces| == |ls| == |rs| == n + 1 && ls[0] == "" && rs[n] == "" && forall i | 0 <= i <= n :: Tight(pieces[i])
    ensures Tight(Join(Padded(pieces, ls, rs), "||"))
  {
    var a := Padded(pieces, ls, rs);
    var x, y := pieces[0], pieces[n];
    if n == 0 {
      assert "" + x + "" == x && a == [x];
    } else {
      assert "" + x + rs[0] == x + rs[0] && ls[n] + y + "" == ls[n] + y;
      assert a == [x + rs[0]] + a[1..] && a[1..] == a[1..n] + [ls[n] + y];
      JoinFront(x, rs[0], a[1..], "||");
      var rest := [rs[0]] + a[1..];
      assert rest == ([rs[0]] + a[1..n]) + [ls[n] + y];
      JoinBack([rs[0]] + a[1..n], ls[n], y, "||");
      var mid := Join(([rs[0]] + a[1..n]) + [ls[n]], "||");
      assert x + (mid + y) == x + mid + y;
      TightEnds(x, mid, y);
    }
  }

  /** White space at the ends of the line and of its pieces makes no difference. */
  lemma {:induction false} ParsePadded(date: string, rec: seq<seq<string>>, ls: seq<string>, rs: seq<string>)
    requires Record(date, rec) && |ls| == |rs| == |rec| && forall i | 0 <= i < |rec| :: White(ls[i]) && White(rs[i])
    ensures ParseLine(Join(Padded(Lines(Dated(date, rec)), ls, rs), "||") + "\n") == rec
  {
    var all, n := Dated(date, rec), |rec| - 1;
    var pieces, ls', rs' := Lines(all), ls[0 := ""], rs[n := ""];
    var a := Padded(pieces, ls', rs');
    forall i | 0 <= i <= n ensures Tight(pieces[i]) && NoBars(a[i]) && Split(Strip(a[i]), BAR) == all[i] {
      assert Fields(all[i]);
      JoinedFields(all[i]);
      PaddedNoBars(ls'[i], pieces[i], rs'[i]);
      StripsAll(ls'[i], pieces[i], rs'[i]);
      SplitJoin(all[i], BAR);
    }
    OuterStripped(pieces, ls, rs, n);
    InnerTight(pieces, ls', rs', n);
    var line := Join(a, "||");
    assert (ls[0] + line + rs[n]) + "\n" == ls[0] + line + (rs[n] + "\n");
    StripsAll(ls[0], line, rs[n] + "\n");
    SplitBarsJoin(a);
    assert forall i | 0 <= i < |rec| :: Tokens(a)[i] == rec[i];
  }

  // ---------- whole recordings ----------

  /** Text as the file is read: every line end becomes a single newline. */
  function Newlines(s: string): string {
    if |s| == 0 then ""
    else if s[0] == '\r' then "\n" + Newlines(if |s| > 1 && s[1] == '\n' then s[2..] else s[1..])
    else [s[0]] + Newlines(s[1..])
  }

  /** The lines of a text, each with its newline; the last one may have none. */
  function TextLines(s: string): (r: seq<string>)
    ensures |s| > 0 ==> |r| > 0
  {
    if |s| == 0 then []
    else if s[0] == '\n' then ["\n"] + TextLines(s[1..])
    else if |s| == 1 then [s]
    else Prepend(s[0], TextLines(s[1..]))
  }

  function FileLines(text: string): seq<string> {
    TextLines(Newlines(text))
  }

  function ParseLines(lines: seq<string>): (r: seq<seq<seq<string>>>)
    ensures |r| == |lines|
  {
    seq(|lines|, i requires 0 <= i < |lines| => ParseLine(lines[i]))
  }

  /** The records by their numbers, which count from 1. */
  function Numbered(recs: seq<seq<seq<string>>>): (r: map<nat, seq<seq<string>>>)
    ensures forall n :: n in r <==> 1 <= n <= |recs|
    ensures forall n | n in r :: r[n] == recs[n - 1]
  {
    if |recs| == 0 then map[] else Numbered(recs[..|recs| - 1])[|recs| := recs[|recs| - 1]]
  }

  /** What a recording is read as: every line is a record, and its number is that of the line. */
  function ParseFile(text: string): map<nat, seq<seq<string>>> {
    Numbered(ParseLines(FileLines(text)))
  }

  method ParseRec(text: string) returns (rec: map<nat, seq<seq<string>>>)
    ensures rec == ParseFile(text)
  {
    var lines := FileLines(text);
    var cnt := 0;
    rec := map[];
    for i := 0 to |lines|
      invariant cnt == i && rec == Numbered(ParseLines(lines)[..i])
    {
      assert ParseLines(lines)[..i + 1][..i] == ParseLines(lines)[..i];
      cnt := cnt + 1;
      var data := LineData(lines[i]);
      rec := rec[cnt := data];
    }
    assert ParseLines(lines)[..|lines|] == ParseLines(lines);
  }

  predicate OneLine(s: string) {
    Free(s, '\n') && Free(s, '\r')
  }

  predicate OnOneLine(date: string, rec: seq<seq<string>>) {
    && OneLine(date)
    && forall i, j | 0 <= i < |rec| && 0 <= j < |rec[i]| :: OneLine(rec[i][j])
  }

  lemma {:induction false} OneLineJoin(parts: seq<string>, sep: string)
    requires |parts| > 0 && OneLine(sep) && forall i | 0 <= i < |parts| :: OneLine(parts[i])
    ensures OneLine(Join(parts, sep))
  {
    if |parts| > 1 { OneLineJoin(parts[1..], sep); }
  }

  /** Without line ends inside, the line is read as it is, and the rest of the file after it. */
  lemma {:induction false} FirstLine(x: string, rest: string)
    requires OneLine(x)
    ensures FileLines(x + ("\n" + rest)) == [x + "\n"] + FileLines(rest)
  {
    if |x| == 0 {
      var t := "\n" + rest;
      assert x + t == t && t[1..] == rest;
      assert (['\n'] + Newlines(rest))[1..] == Newlines(rest);
      assert x + "\n" == "\n";
    } else {
      var tail := x[1..] + ("\n" + rest);
      FirstLine(x[1..], rest);
      assert x + ("\n" + rest) == [x[0]] + tail && ([x[0]] + tail)[1..] == tail;
      var u := Newlines(tail);
      assert |u| > 0 && ([x[0]] + u)[1..] == u;
      PrependConcat(x[0], [x[1..] + "\n"], FileLines(rest));
      assert [x[0]] + (x[1..] + "\n") == x + "\n" by { assert x == [x[0]] + x[1..]; }
    }
  }

  /** The text with other line ends: a carriage return, and after it a newline or none. */
  function WithEnds(s: string, both: bool): string {
    if |s| == 0 then ""
    else if s[0] == '\n' then (if both then "\r\n" else "\r") + WithEnds(s[1..], both)
    else [s[0]] + WithEnds(s[1..], both)
  }

  /** A recording is read the same whichever line ends it has. */
  lemma {:induction false} AnyLineEnds(s: string, both: bool)
    requires Free(s, '\r')
    ensures Newlines(WithEnds(s, both)) == s && ParseFile(WithEnds(s, both)) == ParseFile(s)
  {
    NewlinesBack(s, both);
    NewlinesStay(s);
  }

  lemma {:induction false} NewlinesStay(s: string)
    requires Free(s, '\r')
    ensures Newlines(s) == s
  {
    if |s| > 0 {
      NewlinesStay(s[1..]);
      assert [s[0]] + s[1..] == s;
    }
  }

  lemma {:induction false} NewlinesBack(s: string, both: bool)
    requires Free(s, '\r')
    ensures Newlines(WithEnds(s, both)) == s && (!both && |s| > 0 ==> WithEnds(s, both)[0] != '\n')
  {
    if |s| > 0 {
      var rest := WithEnds(s[1..], both);
      NewlinesBack(s[1..], both);
      assert [s[0]] + s[1..] == s;
      if s[0] == '\n' {
        if both {
          var t := "\r\n" + rest;
          assert t[0] == '\r' && t[1] == '\n' && t[2..] == rest;
        } else {
          var t := "\r" + rest;
          assert t[0] == '\r' && t[1..] == rest;
          if |s| == 1 { assert rest == ""; }
        }
      } else {
        assert ([s[0]] + rest)[1..] == rest;
      }
    }
  }

  /** What is recorded: the records, each with its date, one line after the other. */
  function PrintAll(dates: seq<string>, recs: seq<seq<seq<string>>>): string
    requires |dates| == |recs| && forall i | 0 <= i < |recs| :: Record(dates[i], recs[i])
  {
    if |recs| == 0 then "" else Print(dates[0], recs[0]) + PrintAll(dates[1..], recs[1..])
  }

  lemma PrintedLine(date: string, rec: seq<seq<string>>)
    requires Record(date, rec) && OnOneLine(date, rec)
    ensures OneLine(Join(Lines(Dated(date, rec)), "||"))
  {
    var all := Dated(date, rec);
    forall i | 0 <= i < |all| ensures OneLine(Lines(all)[i]) {
      forall j | 0 <= j < |all[i]| ensures OneLine(all[i][j]) {
        if i == 0 {
          if j > 0 { assert all[0][j] == rec[0][j - 1]; }
        } else {
          assert all[i] == rec[i];
        }
      }
      OneLineJoin(all[i], [BAR]);
    }
    OneLineJoin(Lines(all), "||");
  }

  lemma {:induction false} LinesOfAll(dates: seq<string>, recs: seq<seq<seq<string>>>)
    requires |dates| == |recs| && forall i | 0 <= i < |recs| :: Record(dates[i], recs[i]) && OnOneLine(dates[i], recs[i])
    ensures |FileLines(PrintAll(dates, recs))| == |recs|
    ensures forall i | 0 <= i < |recs| :: FileLines(PrintAll(dates, recs))[i] == Print(dates[i], recs[i])
  {
    if |recs| > 0 {
      LinesOfAll(dates[1..], recs[1..]);
      PrintedLine(dates[0], recs[0]);
      var x, rest := Join(Lines(Dated(dates[0], recs[0])), "||"), PrintAll(dates[1..], recs[1..]);
      FirstLine(x, rest);
      assert (x + "\n") + rest == x + ("\n" + rest);
      forall i | 0 <= i < |recs| ensures FileLines(PrintAll(dates, recs))[i] == Print(dates[i], recs[i]) {
        if i > 0 { assert FileLines(rest)[i - 1] == Print(dates[1..][i - 1], recs[1..][i - 1]); }
      }
    }
  }

  /** Parsing a recording gives every record back under its number, in order. */
  lemma {:induction false} ParsePrintAll(dates: seq<string>, recs: seq<seq<seq<string>>>)
    requires |dates| == |recs| && forall i | 0 <= i < |recs| :: Record(dates[i], recs[i]) && OnOneLine(dates[i], recs[i])
    ensures ParseFile(PrintAll(dates, recs)) == Numbered(recs)
  {
    LinesOfAll(dates, recs);
    forall i | 0 <= i < |recs| ensures ParseLine(FileLines(PrintAll(dates, recs))[i]) == recs[i] {
      ParsePrint(dates[i], recs[i]);
    }
    assert ParseLines(FileLines(PrintAll(dates, recs))) == recs;
  }

  // ---------- the attributes of a bulk call ----------

  /** One more item: a name starts a pair, a value ends it. */
  function Serialize(items: seq<string>): string {
    if |items| == 0 then ""
    else
      var n := |items| - 1;
      var data := Serialize(items[..n]);
      if n % 2 == 0 then WithName(data, items[n]) else data + items[n]
  }

  function WithName(data: string, name: string): string {
    (if |data| > 0 then data + ([BAR] + name) else name) + [EQUALS]
  }

  /** What the code reads back: pieces at bars, each cut at its equals signs. */
  function Items(pieces: seq<string>): seq<string> {
    if |pieces| == 0 then [] else Split(pieces[0], EQUALS) + Items(pieces[1..])
  }

  function Deserialize(s: string): seq<string> {
    Items(Split(s, BAR))
  }

  method BulkAttrSerialize(attr: seq<string>) returns (data: string)
    ensures data == Serialize(attr)
  {
    data := "";
    for i := 0 to |attr|
      invariant data == Serialize(attr[..i])
    {
      assert attr[..i + 1][..i] == attr[..i];
      if i % 2 == 0 {
        assert |data| > 0 ==> data + [BAR] + (attr[i] + [EQUALS]) == WithName(data, attr[i]);
        if |data| > 0 { data := data + [BAR]; }
        data := data + (attr[i] + [EQUALS]);
      } else {
        data := data + attr[i];
      }
    }
    assert attr[..|attr|] == attr;
  }

  method AttrsOf(fields: seq<string>) returns (attrs: seq<string>)
    ensures attrs == Items(fields)
  {
    attrs := [];
    for i := 0 to |fields|
      invariant attrs + Items(fields[i..]) == Items(fields)
    {
      attrs := attrs + Split(fields[i], EQUALS);
    }
  }

  // ---------- reading back what was serialized ----------

  predicate IsSep(c: char) {
    c == BAR || c == EQUALS
  }

  predicate Clean(s: string) {
    Free(s, BAR) && Free(s, EQUALS)
  }

  function SplitEither(s: string): (r: seq<string>)
    ensures |r| > 0
  {
    if |s| == 0 then [""]
    else if IsSep(s[0]) then [""] + SplitEither(s[1..])
    else Prepend(s[0], SplitEither(s[1..]))
  }

  lemma {:induction false} PrependItems(c: char, r: seq<string>)
    requires |r| > 0 && c != BAR
    ensures |Items(r)| > 0
    ensures Items(Prepend(c, r)) == if c == EQUALS then [""] + Items(r) else Prepend(c, Items(r))
  {
    var q, rest := Split(r[0], EQUALS), Items(r[1..]);
    assert Prepend(c, r)[1..] == r[1..] && ([c] + r[0])[1..] == r[0];
    if c == EQUALS {
      assert ([""] + q) + rest == [""] + (q + rest);
    } else {
      PrependConcat(c, q, rest);
    }
  }

  /** Cutting at bars and then at equals signs is cutting at both. */
  lemma {:induction false} DeserializeCutsAtBoth(s: string)
    ensures Deserialize(s) == SplitEither(s)
  {
    if |s| == 0 {
      assert Items([""]) == Split("", EQUALS) + Items([]);
    } else {
      var r := Split(s[1..], BAR);
      DeserializeCutsAtBoth(s[1..]);
      if s[0] == BAR {
        assert ([""] + r)[1..] == r;
      } else {
        PrependItems(s[0], r);
      }
    }
  }

  function Seps(s: string): nat {
    if |s| == 0 then 0 else Seps(s[1..]) + if IsSep(s[0]) then 1 else 0
  }

  lemma {:induction false} PiecesAreSeps(s: string)
    ensures |SplitEither(s)| == Seps(s) + 1
  {
    if |s| > 0 { PiecesAreSeps(s[1..]); }
  }

  lemma {:induction false} SepsConcat(s: string, t: string)
    ensures Seps(s + t) == Seps(s) + Seps(t)
  {
    if |s| == 0 {
      assert s + t == t;
    } else {
      SepsConcat(s[1..], t);
      assert (s + t)[1..] == s[1..] + t;
    }
  }

  lemma {:induction false} CleanHasNone(s: string)
    ensures Clean(s) <==> Seps(s) == 0
  {
    if |s| > 0 { CleanHasNone(s[1..]); }
  }

  lemma {:induction false} CleanSplit(x: string)
    requires Clean(x)
    ensures SplitEither(x) == [x]
  {
    if |x| > 0 {
      CleanSplit(x[1..]);
      assert [x[0]] + x[1..] == x;
    }
  }

  lemma {:induction false} SplitEitherStep(a: char, r: string)
    ensures SplitEither([a] + r) == if IsSep(a) then [""] + SplitEither(r) else Prepend(a, SplitEither(r))
  {
    assert ([a] + r)[1..] == r;
  }

  lemma {:induction false} SplitEitherSnoc(s: string, c: char, x: string)
    requires IsSep(c) && Clean(x)
    ensures SplitEither(s + ([c] + x)) == SplitEither(s) + [x]
  {
    if |s| == 0 {
      CleanSplit(x);
      SplitEitherStep(c, x);
      assert s + ([c] + x) == [c] + x;
    } else {
      var tail := s[1..] + ([c] + x);
      SplitEitherSnoc(s[1..], c, x);
      SplitEitherStep(s[0], tail);
      SplitEitherStep(s[0], s[1..]);
      assert s == [s[0]] + s[1..];
      Associates([s[0]], s[1..], [c] + x);
      if IsSep(s[0]) {
        assert ([""] + SplitEither(s[1..])) + [x] == [""] + (SplitEither(s[1..]) + [x]);
      } else {
        PrependConcat(s[0], SplitEither(s[1..]), [x]);
      }
    }
  }

  function ItemSeps(items: seq<string>): nat {
    if |items| == 0 then 0 else ItemSeps(items[..|items| - 1]) + Seps(items[|items| - 1])
  }

  /** The separators in the text are those put in and those the items bring along. */
  lemma {:induction false} SerializedSeps(items: seq<string>)
    ensures |items| > 0 ==> |Serialize(items)| > 0
    ensures Seps(Serialize(items)) == ItemSeps(items) + if |items| == 0 then 0 else if |items| % 2 == 0 then |items| - 1 else |items|
  {
    if |items| > 0 {
      var n := |items| - 1;
      SerializedSeps(items[..n]);
      var data := Serialize(items[..n]);
      if n % 2 == 0 {
        SepsConcat([BAR], items[n]);
        SepsConcat(data, [BAR] + items[n]);
        SepsConcat(if |data| > 0 then data + ([BAR] + items[n]) else items[n], [EQUALS]);
      } else {
        SepsConcat(data, items[n]);
      }
    }
  }

  lemma {:induction false} CleanItems(items: seq<string>)
    ensures ItemSeps(items) == 0 <==> forall i | 0 <= i < |items| :: Clean(items[i])
  {
    if |items| > 0 {
      var n := |items| - 1;
      CleanItems(items[..n]);
      CleanHasNone(items[n]);
      assert forall i | 0 <= i < n :: items[..n][i] == items[i];
    }
  }

  lemma {:induction false} SerializeNext(pre: seq<string>, x: string)
    ensures Serialize(pre + [x]) == if |pre| % 2 == 0 then WithName(Serialize(pre), x) else Serialize(pre) + x
  {
    assert (pre + [x])[..|pre|] == pre;
  }

  /** Another pair adds a bar, its name, an equals sign and its value. */
  lemma {:induction false} SerializePair(pre: seq<string>, a: string, v: string, k: nat)
    requires |pre| == 2 * k
    ensures Serialize(pre + [a, v]) == (if |pre| > 0 then Serialize(pre) + ([BAR] + a) else a) + ([EQUALS] + v)
  {
    var one := pre + [a];
    assert pre + [a, v] == one + [v];
    Parity(k);
    SerializeNext(one, v);
    SerializeNext(pre, a);
    SerializedSeps(pre);
    Regroup(if |pre| > 0 then Serialize(pre) + ([BAR] + a) else a, [EQUALS], v);
  }

  lemma Parity(k: nat)
    ensures (2 * k) % 2 == 0 && (2 * k + 1) % 2 == 1
  {
  }

  lemma Regroup(x: string, y: string, z: string)
    ensures (x + y) + z == x + (y + z)
  {
  }

  lemma {:induction false} PairsReadBack(items: seq<string>, k: nat)
    requires |items| == 2 * k + 2 && forall i | 0 <= i < |items| :: Clean(items[i])
    ensures SplitEither(Serialize(items)) == items
  {
    var n := 2 * k;
    var pre, a, v := items[..n], items[n], items[n + 1];
    assert items == pre + [a, v];
    SerializePair(pre, a, v, k);
    if n == 0 {
      CleanSplit(a);
      SplitEitherSnoc(a, EQUALS, v);
    } else {
      assert forall i | 0 <= i < n :: pre[i] == items[i];
      PairsReadBack(pre, k - 1);
      SplitEitherSnoc(Serialize(pre), BAR, a);
      SplitEitherSnoc(Serialize(pre) + ([BAR] + a), EQUALS, v);
    }
  }

  /**
    Serialized bulk attributes are read back as they were exactly when there is at least one pair,
    no name is without a value, and no item contains a bar or an equals sign.
   */
  lemma {:induction false} ReadBackExactly(items: seq<string>)
    ensures Deserialize(Serialize(items)) == items <==>
      |items| > 0 && |items| % 2 == 0 && forall i | 0 <= i < |items| :: Clean(items[i])
  {
    DeserializeCutsAtBoth(Serialize(items));
    PiecesAreSeps(Serialize(items));
    SerializedSeps(items);
    CleanItems(items);
    if |items| > 0 && |items| % 2 == 0 && ItemSeps(items) == 0 { PairsReadBack(items, |items| / 2 - 1); }
  }
}
