/** The texts of virtual ids of SAI types: none is found inside another, so that keys can be updated as text. */
module VidText {
  import opened Text
  import opened Numbers
  import opened SaiStore
  import EntryKey
  import KeyText
  import Ids = Vid

  const PREFIX := "oid:0x"

  function Write(num: ObjType -> nat, o: Oid): string {
    match o
    case Null => "oid:0x0"
    case Vid(ty, k) => Ids.Encode(num(ty), k)
  }

  function Number(num: ObjType -> nat, o: Oid): nat {
    match o
    case Null => 0
    case Vid(ty, k) => num(ty) * Ids.Pow2(48) + k
  }

  /** Counters below 2^44; type numbers of at most two hex digits, the last one not zero. */
  ghost predicate Usual(num: ObjType -> nat, os: set<Oid>) {
    && (forall o | o in os && o.Vid? :: o.num < Ids.Pow2(44) && num(o.ty) < 256 && num(o.ty) % 16 != 0)
    && (forall o, q | o in os && q in os && o.Vid? && q.Vid? && num(o.ty) == num(q.ty) :: o.ty == q.ty)
  }

  /** `a` without its last k hex digits. */
  function Down(a: nat, k: nat): nat {
    if k == 0 then a else Down(a / 16, k - 1)
  }

  lemma {:induction false} HexDown(a: nat, k: nat)
    requires k < |Hex(a)|
    ensures Hex(a)[..|Hex(a)| - k] == Hex(Down(a, k))
    decreases k
  {
    if k == 0 {
      assert Hex(a)[..|Hex(a)|] == Hex(a);
    } else {
      HexDown(a / 16, k - 1);
      assert Hex(a)[..|Hex(a)| - k] == Hex(a / 16)[..|Hex(a / 16)| - (k - 1)];
    }
  }

  lemma {:induction false} HexNotEmpty(a: nat)
    ensures |Hex(a)| > 0
  {
  }

  /** A number whose hex text starts that of another is that one without its last digits. */
  lemma FrontIsDown(a: nat, b: nat) returns (k: nat)
    requires StartsWith(Hex(a), Hex(b))
    ensures k < |Hex(a)| && b == Down(a, k)
  {
    HexNotEmpty(b);
    k := |Hex(a)| - |Hex(b)|;
    HexDown(a, k);
    HexRoundTrip(b);
    HexRoundTrip(Down(a, k));
  }

  lemma {:induction false} DownShrinks(a: nat, k: nat)
    requires k >= 2
    ensures Down(a, k) <= a / 16 / 16
  {
    if k == 2 {
      assert Down(a, 2) == Down(a / 16, 1) == Down(a / 16 / 16, 0);
    } else {
      DownShrinks(a / 16, k - 1);
    }
  }

  const TWO_TO_THE_44 := 0x1000_0000_0000

  lemma Powers()
    ensures Ids.Pow2(44) == TWO_TO_THE_44 && Ids.Pow2(48) == 16 * TWO_TO_THE_44
  {
    assert Ids.Pow2(11) == 0x800;
    assert Ids.Pow2(22) == 0x800 * Ids.Pow2(11);
    assert Ids.Pow2(33) == 0x800 * Ids.Pow2(22);
    assert Ids.Pow2(44) == 0x800 * Ids.Pow2(33);
    assert Ids.Pow2(48) == 16 * Ids.Pow2(44);
  }

  /** Cutting off digits of a usual number gives no usual number. */
  lemma DownIsUnusual(t: nat, c: nat, t': nat, c': nat, k: nat)
    requires c < TWO_TO_THE_44 && c' < TWO_TO_THE_44 && t < 256 && 0 < t' && t % 16 != 0 && k > 0
    ensures Down(t * (16 * TWO_TO_THE_44) + c, k) != t' * (16 * TWO_TO_THE_44) + c'
  {
    if k == 1 {
      DownOne(t * (16 * TWO_TO_THE_44) + c);
      OneDigitOff(t, c, t', c');
    } else {
      DownShrinks(t * (16 * TWO_TO_THE_44) + c, k);
      TwoDigitsOff(t, c);
    }
  }

  lemma {:induction false} DownOne(a: nat)
    ensures Down(a, 1) == a / 16
  {
    assert Down(a / 16, 0) == a / 16;
  }

  lemma OneDigitOff(t: nat, c: nat, t': nat, c': nat)
    requires c < TWO_TO_THE_44 && c' < TWO_TO_THE_44 && t % 16 != 0
    ensures (t * (16 * TWO_TO_THE_44) + c) / 16 != t' * (16 * TWO_TO_THE_44) + c'
  {
    DivideBySixteen(t * TWO_TO_THE_44, c);
    if t * TWO_TO_THE_44 + c / 16 == (16 * t') * TWO_TO_THE_44 + c' { SameUpper(t, c / 16, 16 * t', c'); }
  }

  lemma DivideBySixteen(y: nat, c: nat)
    ensures (16 * y + c) / 16 == y + c / 16
  {
  }

  lemma SameUpper(x: nat, r: nat, y: nat, s: nat)
    requires r < TWO_TO_THE_44 && s < TWO_TO_THE_44 && x * TWO_TO_THE_44 + r == y * TWO_TO_THE_44 + s
    ensures x == y
  {
  }

  lemma TwoDigitsOff(t: nat, c: nat)
    requires c < TWO_TO_THE_44 && t < 256
    ensures (t * (16 * TWO_TO_THE_44) + c) / 16 / 16 < 16 * TWO_TO_THE_44
  {
  }

  lemma {:induction false} DownPositive(a: nat, k: nat)
    requires k < |Hex(a)|
    ensures Down(a, k) == 0 <==> a == 0
    decreases k
  {
    if k > 0 { DownPositive(a / 16, k - 1); }
  }

  // ---------- texts ----------

  lemma WriteIsHex(num: ObjType -> nat, o: Oid)
    requires o.Vid? ==> o.num < Ids.Pow2(44)
    ensures Write(num, o) == PREFIX + Hex(Number(num, o)) && EntryKey.OidText(Write(num, o))
  {
    Powers();
    var h := Hex(Number(num, o));
    match o
    case Null => assert Hex(0) == "0" && PREFIX + "0" == "oid:0x0";
    case Vid(ty, k) =>
      Ids.OrOfShifted(num(ty), k, 48);
      assert "oid:" + "0x" == PREFIX;
    HexIsPlain(Number(num, o));
    assert (PREFIX + h)[4..] == "0x" + h && (PREFIX + h)[..4] == EntryKey.MARK;
  }

  lemma {:induction false} HexIsPlain(n: nat)
    ensures Free(Hex(n), ':') && Free(Hex(n), EntryKey.QUOTE)
  {
    if n >= 16 { HexIsPlain(n / 16); }
  }

  lemma SameFront(x: string, y: string)
    requires StartsWith(PREFIX + x, PREFIX + y)
    ensures StartsWith(x, y)
  {
    assert x == (PREFIX + x)[6..] && y == (PREFIX + y)[6..];
    assert (PREFIX + x)[..|PREFIX + y|][6..] == x[..|y|];
  }

  /** A usual id is not found in the text of another one. */
  lemma NotInside(num: ObjType -> nat, os: set<Oid>, o: Oid, q: Oid)
    requires Usual(num, os) && o in os && q in os && Contains(Write(num, o), Write(num, q))
    ensures o == q
  {
    WriteIsHex(num, o);
    WriteIsHex(num, q);
    EntryKey.FoundInFront(Write(num, o), Write(num, q));
    SameFront(Hex(Number(num, o)), Hex(Number(num, q)));
    var k := FrontIsDown(Number(num, o), Number(num, q));
    DownIsOther(num, os, o, q, k);
  }

  lemma NumberOf(num: ObjType -> nat, os: set<Oid>, o: Oid)
    requires Usual(num, os) && o in os && o.Vid?
    ensures Number(num, o) == num(o.ty) * (16 * TWO_TO_THE_44) + o.num && o.num < TWO_TO_THE_44 && 0 < num(o.ty) < 256 && num(o.ty) % 16 != 0
  {
    Powers();
  }

  lemma SameParts(t: nat, c: nat, t': nat, c': nat, k: nat)
    requires c < TWO_TO_THE_44 && c' < TWO_TO_THE_44 && t < 256 && 0 < t' && t % 16 != 0
    requires t' * (16 * TWO_TO_THE_44) + c' == Down(t * (16 * TWO_TO_THE_44) + c, k)
    ensures t == t' && c == c'
  {
    if k > 0 { DownIsUnusual(t, c, t', c', k); }
  }

  lemma {:induction false} DownIsOther(num: ObjType -> nat, os: set<Oid>, o: Oid, q: Oid, k: nat)
    requires Usual(num, os) && o in os && q in os && k < |Hex(Number(num, o))| && Number(num, q) == Down(Number(num, o), k)
    ensures o == q
  {
    DownPositive(Number(num, o), k);
    NullIsZero(num, os, o);
    NullIsZero(num, os, q);
    if o.Vid? && q.Vid? { BothVids(num, os, o, q, k); }
  }

  lemma NullIsZero(num: ObjType -> nat, os: set<Oid>, o: Oid)
    requires Usual(num, os) && o in os
    ensures Number(num, o) == 0 <==> o.Null?
  {
    if o.Vid? { NumberOf(num, os, o); }
  }

  lemma {:induction false} BothVids(num: ObjType -> nat, os: set<Oid>, o: Oid, q: Oid, k: nat)
    requires Usual(num, os) && o in os && q in os && o.Vid? && q.Vid? && Number(num, q) == Down(Number(num, o), k)
    ensures o == q
  {
    NumberOf(num, os, o);
    NumberOf(num, os, q);
    SameParts(num(o.ty), o.num, num(q.ty), q.num, k);
  }

  lemma UsualIsLegible(num: ObjType -> nat, os: set<Oid>)
    requires Usual(num, os)
    ensures KeyText.Legible(o => Write(num, o), os)
  {
    var show := o => Write(num, o);
    forall o | o in os ensures EntryKey.IsOid(show(o)) && Free(show(o), EntryKey.QUOTE) {
      WriteIsHex(num, o);
      EntryKey.MarkedOid(show(o));
    }
    forall o, q | o in os && q in os ensures KeyText.Distinct(show, o, q) {
      if Contains(show(o), show(q)) { NotInside(num, os, o, q); }
    }
  }
}
