/**
  Entry keys as the text a recording shows, TYPE:{"name":"value",...}: replacing OIDs in the text
  is replacing values in the key, as long as no OID's text is found inside another's.
 */
module KeyText {
  import opened Text
  import opened Wrappers
  import opened SaiStore
  import opened ReplaySpec
  import Keys = ReplayKeys
  import EntryKey

  /** How OIDs are written. */
  type Show = Oid -> string

  /** Neither a quote nor "oid:" in it. */
  predicate PlainText(s: string) {
    Free(s, EntryKey.QUOTE) && !EntryKey.IsOid(s)
  }

  /** The values of the key are single OIDs, plain texts and objects of such. */
  ghost predicate Written(f: Fields) {
    match f
    case NoFields => true
    case Field(n, v, rest) =>
      && PlainText(n) && Written(rest)
      && match v
         case Txt(t) => PlainText(t)
         case Ref(_) => true
         case Dict(g) => Written(g)
         case _ => false
  }

  ghost function LeafText(show: Show, v: Value): string {
    match v
    case Txt(t) => t
    case Ref(o) => show(o)
    case _ => ""
  }

  function Comma(rest: Fields): string {
    if rest.NoFields? then "" else ","
  }

  /** The text of the fields, cut at its quotes; `pre` is the text since the last quote. */
  ghost function Pieces(show: Show, f: Fields, pre: string): (r: seq<string>)
    ensures |r| > 0
    decreases f
  {
    match f
    case NoFields => [pre + "}"]
    case Field(n, v, rest) =>
      if v.Dict? then
        var inner := Pieces(show, v.fields, ":{");
        var last := |inner| - 1;
        [pre, n] + inner[..last] + Pieces(show, rest, inner[last] + Comma(rest))
      else
        [pre, n, ":", LeafText(show, v)] + Pieces(show, rest, Comma(rest))
  }

  ghost function Print(show: Show, ty: ObjType, f: Fields): string {
    Join(Pieces(show, f, ty + ":{"), [EntryKey.QUOTE])
  }

  ghost function Texts(show: Show, tokens: seq<Value>): (r: seq<string>)
    ensures |r| == |tokens|
  {
    seq(|tokens|, i requires 0 <= i < |tokens| => LeafText(show, tokens[i]))
  }

  /** The texts of these OIDs have no quote, and none is found inside another. */
  ghost predicate Legible(show: Show, os: set<Oid>) {
    && (forall o | o in os :: EntryKey.IsOid(show(o)) && Free(show(o), EntryKey.QUOTE))
    && (forall o, q | o in os && q in os :: Distinct(show, o, q))
  }

  predicate Distinct(show: Show, o: Oid, q: Oid) {
    o != q ==> !Contains(show(o), show(q))
  }

  /** The tokens are OIDs among `os`, and so are their counterparts. */
  ghost predicate Among(os: set<Oid>, m: Rec2Vid, tokens: seq<Value>) {
    forall i | 0 <= i < |tokens| ::
      && tokens[i].Ref? && tokens[i].oid in os
      && (tokens[i] in m ==> m[tokens[i]].Ref? && m[tokens[i]].oid in os)
  }

  /** rec2vid as the code holds it: texts of OIDs and of their counterparts. */
  ghost predicate Shows(show: Show, os: set<Oid>, m: Rec2Vid, texts: map<string, string>) {
    forall o | o in os ::
      && (Ref(o) in m <==> show(o) in texts)
      && (Ref(o) in m && m[Ref(o)].Ref? ==> texts[show(o)] == show(m[Ref(o)].oid))
  }

  // ---------- plain texts ----------

  lemma PlainNext(s: string, c: char)
    requires PlainText(s) && c != EntryKey.QUOTE && c !in EntryKey.MARK
    ensures PlainText(s + [c])
  {
    var mark := EntryKey.MARK;
    forall i | 0 <= i <= |s + [c]| ensures !HasAt(s + [c], i, mark) {
      assert !HasAt(s, i, mark);
      if i + |mark| <= |s| {
        assert (s + [c])[i..i + |mark|] == s[i..i + |mark|];
      } else if i + |mark| == |s| + 1 {
        assert (s + [c])[i..i + |mark|][|mark| - 1] == c;
      }
    }
  }

  lemma PlainStarts()
    ensures PlainText("") && PlainText(":") && PlainText(",") && PlainText(":{")
  {
    assert PlainText("");
    assert forall i | 0 <= i <= 1 :: !HasAt(":", i, EntryKey.MARK);
    PlainNext("", ',');
    PlainNext(":", '{');
    assert "" + [','] == "," && ":" + ['{'] == ":{";
  }

  lemma PlainComma(s: string, rest: Fields)
    requires PlainText(s)
    ensures PlainText(s + Comma(rest))
  {
    PlainNext(s, ',');
    assert s + "" == s && s + [','] == s + ",";
  }

  /** The last piece is the text after the last quote. */
  lemma {:induction false} LastPlain(show: Show, f: Fields, pre: string)
    requires Written(f) && PlainText(pre)
    ensures var r := Pieces(show, f, pre); PlainText(r[|r| - 1])
    decreases f
  {
    PlainStarts();
    match f
    case NoFields => PlainNext(pre, '}');
    case Field(_, v, rest) =>
      if v.Dict? {
        var inner := Pieces(show, v.fields, ":{");
        LastPlain(show, v.fields, ":{");
        PlainComma(inner[|inner| - 1], rest);
        LastPlain(show, rest, inner[|inner| - 1] + Comma(rest));
      } else {
        PlainComma("", rest);
        assert "" + Comma(rest) == Comma(rest);
        LastPlain(show, rest, Comma(rest));
      }
  }

  // ---------- the OIDs of the text are the OIDs of the key ----------

  lemma OidsOfPlain(a: string, b: string)
    requires PlainText(a) && PlainText(b)
    ensures EntryKey.Oids([a, b]) == []
  {
    EntryKey.OidsOfOne(a);
    EntryKey.OidsOfOne(b);
    EntryKey.OidsConcat([a], [b]);
  }

  lemma {:induction false} OidsWithoutLast(inner: seq<string>)
    requires |inner| > 0 && PlainText(inner[|inner| - 1])
    ensures EntryKey.Oids(inner[..|inner| - 1]) == EntryKey.Oids(inner)
  {
  }

  lemma {:induction false} OidsOfParts(head: seq<string>, inner: seq<string>, tail: seq<string>, oids: seq<string>)
    requires EntryKey.Oids(head) == [] && EntryKey.Oids(inner) == oids
    ensures EntryKey.Oids(head + inner + tail) == oids + EntryKey.Oids(tail)
  {
    EntryKey.OidsOfThree(head, inner, tail);
  }

  lemma {:induction false} OidsOfLeafParts(head: seq<string>, t: string, tail: seq<string>)
    requires EntryKey.Oids(head) == []
    ensures EntryKey.Oids(head + [":", t] + tail) == (if EntryKey.IsOid(t) then [t] else []) + EntryKey.Oids(tail)
  {
    PlainStarts();
    EntryKey.OidsOfOne(":");
    EntryKey.OidsOfOne(t);
    EntryKey.OidsConcat([":"], [t]);
    EntryKey.OidsOfThree(head, [":"] + [t], tail);
    assert [":"] + [t] == [":", t];
  }

  lemma TextsConcat(show: Show, a: seq<Value>, b: seq<Value>)
    ensures Texts(show, a + b) == Texts(show, a) + Texts(show, b)
  {
  }

  lemma {:induction false} OidsOfPieces(show: Show, f: Fields, pre: string)
    requires Written(f) && PlainText(pre) && forall v | v in OidTokens(f) :: v.Ref? && EntryKey.IsOid(show(v.oid))
    ensures EntryKey.Oids(Pieces(show, f, pre)) == Texts(show, OidTokens(f))
    decreases f
  {
    PlainStarts();
    match f
    case NoFields =>
      PlainNext(pre, '}');
      EntryKey.OidsOfOne(pre + "}");
    case Field(n, v, rest) =>
      if v.Dict? { OidsOfObject(show, f, pre); } else { OidsOfLeaf(show, f, pre); }
  }

  lemma {:induction false} OidsOfLeaf(show: Show, f: Fields, pre: string)
    requires Written(f) && PlainText(pre) && forall v | v in OidTokens(f) :: v.Ref? && EntryKey.IsOid(show(v.oid))
    requires f.Field? && !f.val.Dict?
    ensures EntryKey.Oids(Pieces(show, f, pre)) == Texts(show, OidTokens(f))
    decreases f, 0
  {
    PlainStarts();
    var v, rest := f.val, f.rest;
    PlainComma("", rest);
    assert "" + Comma(rest) == Comma(rest);
    assert forall w | w in OidTokens(rest) :: w in OidTokens(f);
    OidsOfPieces(show, rest, Comma(rest));
    var own := if HasOid(v) then [v] else [];
    assert v.Ref? ==> v in OidTokens(f);
    OidsOfPlain(pre, f.name);
    OidsOfLeafParts([pre, f.name], LeafText(show, v), Pieces(show, rest, Comma(rest)));
    assert [pre, f.name] + [":", LeafText(show, v)] == [pre, f.name, ":", LeafText(show, v)];
    TextsConcat(show, own, OidTokens(rest));
    assert Texts(show, own) == if v.Ref? then [show(v.oid)] else [];
  }

  lemma {:induction false} OidsOfObject(show: Show, f: Fields, pre: string)
    requires Written(f) && PlainText(pre) && forall v | v in OidTokens(f) :: v.Ref? && EntryKey.IsOid(show(v.oid))
    requires f.Field? && f.val.Dict?
    ensures EntryKey.Oids(Pieces(show, f, pre)) == Texts(show, OidTokens(f))
    decreases f, 0
  {
    PlainStarts();
    var g, rest := f.val.fields, f.rest;
    var inner := Pieces(show, g, ":{");
    var last := |inner| - 1;
    assert forall w | w in OidTokens(rest) || w in OidTokens(g) :: w in OidTokens(f);
    LastPlain(show, g, ":{");
    PlainComma(inner[last], rest);
    OidsOfPieces(show, g, ":{");
    OidsOfPieces(show, rest, inner[last] + Comma(rest));
    OidsOfPlain(pre, f.name);
    OidsWithoutLast(inner);
    OidsOfParts([pre, f.name], inner[..last], Pieces(show, rest, inner[last] + Comma(rest)), Texts(show, OidTokens(g)));
    TextsConcat(show, OidTokens(g), OidTokens(rest));
  }

  // ---------- what becomes of the pieces is what becomes of the values ----------

  lemma UsableTexts(show: Show, os: set<Oid>, m: Rec2Vid, texts: map<string, string>, tokens: seq<Value>)
    requires Legible(show, os) && Among(os, m, tokens) && Shows(show, os, m, texts) && Keys.Tokens(m, tokens)
    ensures EntryKey.Usable(Texts(show, tokens), texts)
  {
    forall i | 0 <= i < |tokens| ensures |Texts(show, tokens)[i]| > 0 && Texts(show, tokens)[i] in texts {
      var j :| 0 <= j <= |show(tokens[i].oid)| && HasAt(show(tokens[i].oid), j, EntryKey.MARK);
    }
  }

  lemma {:induction false} PlainStays(t: string, oids: seq<string>, texts: map<string, string>)
    requires PlainText(t) && EntryKey.Usable(oids, texts) && forall i | 0 <= i < |oids| :: EntryKey.IsOid(oids[i])
    ensures EntryKey.Now(t, oids, texts) == t
  {
    if |oids| > 0 {
      var n := |oids| - 1;
      assert forall i | 0 <= i < n :: oids[..n][i] == oids[i];
      PlainStays(t, oids[..n], texts);
      if Contains(t, oids[n]) { ContainsTrans(t, oids[n], EntryKey.MARK); }
      ReplaceNone(t, oids[n], texts[oids[n]]);
    }
  }

  lemma {:induction false} OidBecomes(show: Show, os: set<Oid>, m: Rec2Vid, texts: map<string, string>, tokens: seq<Value>, o: Oid, k: nat)
    requires Legible(show, os) && Among(os, m, tokens) && Shows(show, os, m, texts) && Keys.Tokens(m, tokens) && o in os
    requires k <= |tokens| && EntryKey.Usable(Texts(show, tokens), texts)
    ensures EntryKey.Usable(Texts(show, tokens)[..k], texts)
    ensures var v := Keys.NowV(m, Ref(o), tokens[..k]);
      v.Ref? && v.oid in os && EntryKey.Now(show(o), Texts(show, tokens)[..k], texts) == show(v.oid)
  {
    EntryKey.UsablePrefix(Texts(show, tokens), texts, k);
    if k > 0 {
      OidBecomes(show, os, m, texts, tokens, o, k - 1);
      EntryKey.NowNext(show(o), Texts(show, tokens), texts, k - 1);
      Keys.NowVNext(m, Ref(o), tokens, k - 1);
      var x := tokens[k - 1];
      assert Texts(show, tokens)[k - 1] == show(x.oid) && x in m && m[x].Ref? && texts[show(x.oid)] == show(m[x].oid);
      ReplacesThisOnly(show, os, Keys.NowV(m, Ref(o), tokens[..k - 1]).oid, x.oid, texts[show(x.oid)]);
    }
  }

  lemma {:induction false} ReplacesThisOnly(show: Show, os: set<Oid>, u: Oid, x: Oid, w: string)
    requires Legible(show, os) && u in os && x in os && |show(x)| > 0
    ensures Replace(show(u), show(x), w) == if u == x then w else show(u)
  {
    assert Distinct(show, u, x);
    if u == x { ReplaceWhole(show(x), w); } else { ReplaceNone(show(u), show(x), w); }
  }

  /** The tokens, what they may become, and how it is written. */
  ghost predicate Setting(show: Show, os: set<Oid>, m: Rec2Vid, texts: map<string, string>, tokens: seq<Value>) {
    Legible(show, os) && Among(os, m, tokens) && Shows(show, os, m, texts) && Keys.Tokens(m, tokens)
  }

  ghost function NowText(show: Show, m: Rec2Vid, texts: map<string, string>, tokens: seq<Value>, t: string): string {
    if EntryKey.Usable(Texts(show, tokens), texts) then EntryKey.Now(t, Texts(show, tokens), texts) else t
  }

  ghost function AllNow(show: Show, m: Rec2Vid, texts: map<string, string>, tokens: seq<Value>, pieces: seq<string>): (r: seq<string>)
    ensures |r| == |pieces|
  {
    seq(|pieces|, i requires 0 <= i < |pieces| => NowText(show, m, texts, tokens, pieces[i]))
  }

  lemma PlainNow(show: Show, os: set<Oid>, m: Rec2Vid, texts: map<string, string>, tokens: seq<Value>, t: string)
    requires Setting(show, os, m, texts, tokens) && PlainText(t)
    ensures NowText(show, m, texts, tokens, t) == t
  {
    UsableTexts(show, os, m, texts, tokens);
    PlainStays(t, Texts(show, tokens), texts);
  }

  lemma {:induction false} LeafNow(show: Show, os: set<Oid>, m: Rec2Vid, texts: map<string, string>, tokens: seq<Value>, v: Value)
    requires Setting(show, os, m, texts, tokens) && ((v.Txt? && PlainText(v.text)) || (v.Ref? && v.oid in os))
    ensures NowText(show, m, texts, tokens, LeafText(show, v)) == LeafText(show, Keys.NowV(m, v, tokens))
    ensures !Keys.NowV(m, v, tokens).Dict?
  {
    UsableTexts(show, os, m, texts, tokens);
    if v.Ref? {
      OidBecomes(show, os, m, texts, tokens, v.oid, |tokens|);
      assert Texts(show, tokens)[..|tokens|] == Texts(show, tokens) && tokens[..|tokens|] == tokens;
    } else {
      PlainNow(show, os, m, texts, tokens, v.text);
      TextStays(m, v, tokens);
    }
  }

  lemma {:induction false} TextStays(m: Rec2Vid, v: Value, tokens: seq<Value>)
    requires v.Txt? && forall i | 0 <= i < |tokens| :: tokens[i].Ref?
    ensures Keys.NowV(m, v, tokens) == v
  {
    if |tokens| > 0 {
      assert forall i | 0 <= i < |tokens| - 1 :: tokens[..|tokens| - 1][i] == tokens[i];
      TextStays(m, v, tokens[..|tokens| - 1]);
    }
  }

  /** The OIDs of the key are among these. */
  ghost predicate OidsIn(os: set<Oid>, f: Fields) {
    forall v | v in OidTokens(f) :: v.Ref? && v.oid in os
  }

  lemma PartsIn(os: set<Oid>, f: Fields)
    requires f.Field? && OidsIn(os, f)
    ensures OidsIn(os, f.rest)
    ensures f.val.Dict? ==> OidsIn(os, f.val.fields)
    ensures f.val.Ref? ==> f.val.oid in os
  {
    assert forall w | w in OidTokens(f.rest) :: w in OidTokens(f);
    if f.val.Dict? { assert forall w | w in OidTokens(f.val.fields) :: w in OidTokens(f); }
    assert f.val.Ref? ==> f.val in OidTokens(f);
  }

  lemma {:induction false} PiecesBecome(show: Show, os: set<Oid>, m: Rec2Vid, texts: map<string, string>, tokens: seq<Value>, f: Fields, pre: string)
    requires Setting(show, os, m, texts, tokens) && Written(f) && PlainText(pre) && OidsIn(os, f)
    ensures AllNow(show, m, texts, tokens, Pieces(show, f, pre)) == Pieces(show, Keys.NowF(m, f, tokens), pre)
    decreases f
  {
    match f
    case NoFields =>
      PlainNext(pre, '}');
      PlainNow(show, os, m, texts, tokens, pre + "}");
    case Field(n, v, rest) =>
      PlainNow(show, os, m, texts, tokens, pre);
      PlainNow(show, os, m, texts, tokens, n);
      if v.Dict? { ObjectBecomes(show, os, m, texts, tokens, f, pre); } else { LeafBecomes(show, os, m, texts, tokens, f, pre); }
  }

  lemma {:induction false} LeafBecomes(show: Show, os: set<Oid>, m: Rec2Vid, texts: map<string, string>, tokens: seq<Value>, f: Fields, pre: string)
    requires Setting(show, os, m, texts, tokens) && Written(f) && OidsIn(os, f)
    requires f.Field? && !f.val.Dict?
    requires NowText(show, m, texts, tokens, pre) == pre && NowText(show, m, texts, tokens, f.name) == f.name
    ensures AllNow(show, m, texts, tokens, Pieces(show, f, pre)) == Pieces(show, Keys.NowF(m, f, tokens), pre)
    decreases f, 0
  {
    PlainStarts();
    var rest := f.rest;
    PlainComma("", rest);
    assert "" + Comma(rest) == Comma(rest);
    PartsIn(os, f);
    PlainNow(show, os, m, texts, tokens, ":");
    LeafNow(show, os, m, texts, tokens, f.val);
    PiecesBecome(show, os, m, texts, tokens, rest, Comma(rest));
    assert Comma(Keys.NowF(m, rest, tokens)) == Comma(rest);
    FourNow(show, m, texts, tokens, pre, f.name, LeafText(show, f.val), Pieces(show, rest, Comma(rest)));
  }

  lemma FourNow(show: Show, m: Rec2Vid, texts: map<string, string>, tokens: seq<Value>, a: string, b: string, t: string, tail: seq<string>)
    requires NowText(show, m, texts, tokens, a) == a && NowText(show, m, texts, tokens, b) == b && NowText(show, m, texts, tokens, ":") == ":"
    ensures AllNow(show, m, texts, tokens, [a, b, ":", t] + tail) ==
      [a, b, ":", NowText(show, m, texts, tokens, t)] + AllNow(show, m, texts, tokens, tail)
  {
  }

  lemma ThreeNow(show: Show, m: Rec2Vid, texts: map<string, string>, tokens: seq<Value>, a: string, b: string, inner: seq<string>, tail: seq<string>)
    requires NowText(show, m, texts, tokens, a) == a && NowText(show, m, texts, tokens, b) == b && |inner| > 0
    ensures AllNow(show, m, texts, tokens, [a, b] + inner[..|inner| - 1] + tail) ==
      [a, b] + AllNow(show, m, texts, tokens, inner)[..|inner| - 1] + AllNow(show, m, texts, tokens, tail)
  {
  }

  lemma {:induction false} ObjectBecomes(show: Show, os: set<Oid>, m: Rec2Vid, texts: map<string, string>, tokens: seq<Value>, f: Fields, pre: string)
    requires Setting(show, os, m, texts, tokens) && Written(f) && OidsIn(os, f)
    requires f.Field? && f.val.Dict?
    requires NowText(show, m, texts, tokens, pre) == pre && NowText(show, m, texts, tokens, f.name) == f.name
    ensures AllNow(show, m, texts, tokens, Pieces(show, f, pre)) == Pieces(show, Keys.NowF(m, f, tokens), pre)
    decreases f, 0
  {
    PlainStarts();
    var g, rest := f.val.fields, f.rest;
    var inner := Pieces(show, g, ":{");
    var last := inner[|inner| - 1];
    PartsIn(os, f);
    LastPlain(show, g, ":{");
    PlainComma(last, rest);
    PlainNow(show, os, m, texts, tokens, last);
    assert AllNow(show, m, texts, tokens, inner) == Pieces(show, Keys.NowF(m, g, tokens), ":{") by {
      PiecesBecome(show, os, m, texts, tokens, g, ":{");
    }
    PiecesBecome(show, os, m, texts, tokens, rest, last + Comma(rest));
    ObjectParts(show, m, texts, tokens, f, pre, inner, last);
  }

  lemma {:induction false} ObjectParts(show: Show, m: Rec2Vid, texts: map<string, string>, tokens: seq<Value>, f: Fields, pre: string, inner: seq<string>, last: string)
    requires f.Field? && f.val.Dict? && inner == Pieces(show, f.val.fields, ":{") && last == inner[|inner| - 1]
    requires NowText(show, m, texts, tokens, pre) == pre && NowText(show, m, texts, tokens, f.name) == f.name
    requires NowText(show, m, texts, tokens, last) == last
    requires AllNow(show, m, texts, tokens, inner) == Pieces(show, Keys.NowF(m, f.val.fields, tokens), ":{")
    requires AllNow(show, m, texts, tokens, Pieces(show, f.rest, last + Comma(f.rest))) ==
      Pieces(show, Keys.NowF(m, f.rest, tokens), last + Comma(f.rest))
    ensures AllNow(show, m, texts, tokens, Pieces(show, f, pre)) == Pieces(show, Keys.NowF(m, f, tokens), pre)
  {
    var g', rest' := Keys.NowF(m, f.val.fields, tokens), Keys.NowF(m, f.rest, tokens);
    assert Comma(rest') == Comma(f.rest);
    var inner' := AllNow(show, m, texts, tokens, inner);
    assert inner'[|inner| - 1] == last;
    ThreeNow(show, m, texts, tokens, pre, f.name, inner, Pieces(show, f.rest, last + Comma(f.rest)));
    PiecesOfObject(show, f.name, f.val.fields, f.rest, pre, inner, last);
    PiecesOfObject(show, f.name, g', rest', pre, inner', last);
    assert f == Field(f.name, Dict(f.val.fields), f.rest) && Keys.NowF(m, f, tokens) == Field(f.name, Dict(g'), rest');
  }

  lemma {:induction false} PiecesOfObject(show: Show, n: string, g: Fields, rest: Fields, pre: string, inner: seq<string>, last: string)
    requires inner == Pieces(show, g, ":{") && last == inner[|inner| - 1]
    ensures Pieces(show, Field(n, Dict(g), rest), pre) == [pre, n] + inner[..|inner| - 1] + Pieces(show, rest, last + Comma(rest))
  {
  }

  // ---------- the update of the text ----------

  lemma {:induction false} PiecesFree(show: Show, f: Fields, pre: string)
    requires Written(f) && Free(pre, EntryKey.QUOTE) && forall v | v in OidTokens(f) :: v.Ref? && Free(show(v.oid), EntryKey.QUOTE)
    ensures forall i | 0 <= i < |Pieces(show, f, pre)| :: Free(Pieces(show, f, pre)[i], EntryKey.QUOTE)
    decreases f
  {
    match f
    case NoFields =>
    case Field(n, v, rest) =>
      assert forall w | w in OidTokens(rest) :: w in OidTokens(f);
      if v.Dict? {
        assert forall w | w in OidTokens(v.fields) :: w in OidTokens(f);
        var inner := Pieces(show, v.fields, ":{");
        PiecesFree(show, v.fields, ":{");
        PiecesFree(show, rest, inner[|inner| - 1] + Comma(rest));
      } else {
        assert v.Ref? ==> v in OidTokens(f);
        PiecesFree(show, rest, Comma(rest));
      }
  }

  /**
    The code's update of the text of a key gives the text of the updated key, and raises exactly
    when that does.
   */
  lemma {:induction false} TextUpdateIsKeyUpdate(show: Show, os: set<Oid>, ty: ObjType, f: Fields, m: Rec2Vid, texts: map<string, string>)
    requires Written(f) && PlainText(ty + ":{") && Keys.Flat(m)
    requires Legible(show, os) && Among(os, m, OidTokens(f)) && Shows(show, os, m, texts)
    ensures EntryKey.UpdateEntryKey(Print(show, ty, f), texts) ==
      match RewriteFields(m, f) case None => None case Some(f') => Some(Print(show, ty, f'))
  {
    var tokens, pieces := OidTokens(f), Pieces(show, f, ty + ":{");
    PiecesFree(show, f, ty + ":{");
    SplitJoin(pieces, EntryKey.QUOTE);
    OidsOfPieces(show, f, ty + ":{");
    EntryKey.RaisesIffUnknown(Print(show, ty, f), texts);
    SameUnknown(show, os, f, m, texts);
    if RewriteFields(m, f).Some? { KnownTextUpdate(show, os, ty, f, m, texts); }
  }

  ghost predicate AllKnown<K>(keys: seq<K>, known: set<K>) {
    forall i | 0 <= i < |keys| :: keys[i] in known
  }

  lemma {:induction false} SameUnknown(show: Show, os: set<Oid>, f: Fields, m: Rec2Vid, texts: map<string, string>)
    requires Among(os, m, OidTokens(f)) && Shows(show, os, m, texts)
    ensures RewriteFields(m, f).Some? <==> AllKnown(Texts(show, OidTokens(f)), texts.Keys)
    ensures RewriteFields(m, f).Some? <==> Keys.Tokens(m, OidTokens(f))
  {
    var tokens := OidTokens(f);
    Keys.ReplacesIffKnown(m, f, tokens);
    SameTokens(show, os, tokens, m, texts);
    assert RewriteFields(m, f) == ReplaceEach(m, f, tokens);
    assert AllKnown(tokens, m.Keys) <==> ReplaceEach(m, f, tokens).Some?;
  }

  lemma SameTokens(show: Show, os: set<Oid>, tokens: seq<Value>, m: Rec2Vid, texts: map<string, string>)
    requires Among(os, m, tokens) && Shows(show, os, m, texts)
    ensures AllKnown(tokens, m.Keys) <==> AllKnown(Texts(show, tokens), texts.Keys)
    ensures AllKnown(tokens, m.Keys) <==> Keys.Tokens(m, tokens)
  {
    forall i | 0 <= i < |tokens| ensures (Texts(show, tokens)[i] in texts <==> tokens[i] in m) && !tokens[i].Dict? {
      assert tokens[i] == Ref(tokens[i].oid) && Texts(show, tokens)[i] == show(tokens[i].oid);
    }
  }

  lemma {:induction false} KnownTextUpdate(show: Show, os: set<Oid>, ty: ObjType, f: Fields, m: Rec2Vid, texts: map<string, string>)
    requires Written(f) && PlainText(ty + ":{") && Keys.Flat(m) && Setting(show, os, m, texts, OidTokens(f))
    requires EntryKey.Oids(Split(Print(show, ty, f), EntryKey.QUOTE)) == Texts(show, OidTokens(f))
    ensures RewriteFields(m, f).Some?
    ensures EntryKey.UpdateEntryKey(Print(show, ty, f), texts) == Some(Print(show, ty, RewriteFields(m, f).value))
  {
    var tokens, pieces := OidTokens(f), Pieces(show, f, ty + ":{");
    UsableTexts(show, os, m, texts, tokens);
    EntryKey.EachTokenAlone(pieces, Texts(show, tokens), texts);
    assert EntryKey.AllNow(pieces, Texts(show, tokens), texts) == AllNow(show, m, texts, tokens, pieces);
    PiecesBecome(show, os, m, texts, tokens, f, ty + ":{");
    Keys.EachValueAlone(m, f, tokens);
  }
}
