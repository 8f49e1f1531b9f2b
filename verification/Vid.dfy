/**
  Virtual ids: a type number shifted left by 48 bits, or-ed with a counter, printed in hex, and
  the way back from the text to the type.
 */
module Vid {
  import opened Wrappers
  import opened Numbers

  // ---------- bits ----------

  /** Bitwise or of natural numbers of any width. */
  function BitOr(a: nat, b: nat): nat
    decreases a + b
  {
    if a == 0 && b == 0 then 0
    else 2 * BitOr(a / 2, b / 2) + if a % 2 == 1 || b % 2 == 1 then 1 else 0
  }

  function Pow2(k: nat): (r: nat)
    ensures r > 0
  {
    if k == 0 then 1 else 2 * Pow2(k - 1)
  }

  function Shr(n: nat, k: nat): nat {
    if k == 0 then n else Shr(n / 2, k - 1)
  }

  lemma {:induction false} BitOrZero(a: nat)
    ensures BitOr(a, 0) == a
  {
    if a > 0 { BitOrZero(a / 2); }
  }

  lemma {:induction false} ShrOfShifted(t: nat, k: nat)
    ensures Shr(t * Pow2(k), k) == t
    decreases k
  {
    if k > 0 {
      assert t * Pow2(k) == 2 * (t * Pow2(k - 1));
      ShrOfShifted(t, k - 1);
    }
  }

  lemma {:induction false} ShrOfSmall(v: nat, k: nat)
    ensures Shr(v, k) == 0 <==> v < Pow2(k)
  {
    if k > 0 { ShrOfSmall(v / 2, k - 1); }
  }

  /** Shifting right takes the or of two numbers to the or of their upper parts. */
  lemma {:induction false} ShrOfOr(a: nat, b: nat, k: nat)
    ensures Shr(BitOr(a, b), k) == BitOr(Shr(a, k), Shr(b, k))
    decreases k
  {
    if k > 0 {
      assert BitOr(a, b) / 2 == BitOr(a / 2, b / 2);
      ShrOfOr(a / 2, b / 2, k - 1);
    }
  }

  /** The low part is the counter alone when the type has been shifted past it. */
  lemma {:induction false} OrOfShifted(t: nat, v: nat, k: nat)
    requires v < Pow2(k)
    ensures BitOr(t * Pow2(k), v) == t * Pow2(k) + v
    decreases k
  {
    if k == 0 {
      BitOrZero(t);
    } else {
      var h := t * Pow2(k - 1);
      assert t * Pow2(k) == 2 * h;
      OrOfShifted(t, v / 2, k - 1);
      if 2 * h != 0 || v != 0 { assert BitOr(2 * h, v) == 2 * BitOr(h, v / 2) + v % 2; }
    }
  }

  // ---------- ids ----------

  const SHIFT := 48

  /** The number of a type; SWITCH is one of them. */
  type TypeNum = nat

  function Encode(ty: TypeNum, count: nat): string {
    "oid:" + "0x" + Hex(BitOr(ty * Pow2(SHIFT), count))
  }

  /** int(vid[4:], 16): the prefix "0x" is skipped. */
  function Number(vid: string): nat
    requires |vid| >= 6
  {
    ParseHex(vid[6..])
  }

  function VidToType(vid: string): TypeNum
    requires |vid| >= 6
  {
    Shr(Number(vid), SHIFT)
  }

  lemma {:induction false} EncodeNumber(ty: TypeNum, count: nat)
    ensures |Encode(ty, count)| >= 6 && Number(Encode(ty, count)) == BitOr(ty * Pow2(SHIFT), count)
  {
    var n := BitOr(ty * Pow2(SHIFT), count);
    assert Encode(ty, count)[6..] == Hex(n);
    HexRoundTrip(n);
  }

  /**
    An id decodes to the type it was made for exactly when the bits of the counter above the
    48th are already set in the type; in particular whenever the counter is below 2^48.
   */
  lemma {:induction false} DecodesToType(ty: TypeNum, count: nat)
    ensures |Encode(ty, count)| >= 6
    ensures VidToType(Encode(ty, count)) == ty <==> BitOr(ty, Shr(count, SHIFT)) == ty
    ensures count < Pow2(SHIFT) ==> VidToType(Encode(ty, count)) == ty
  {
    EncodeNumber(ty, count);
    ShrOfOr(ty * Pow2(SHIFT), count, SHIFT);
    ShrOfShifted(ty, SHIFT);
    if count < Pow2(SHIFT) {
      ShrOfSmall(count, SHIFT);
      BitOrZero(ty);
    }
  }

  /** Below 2^48, two texts are the same exactly when type and counter are. */
  lemma EncodeIsInjective(ty: TypeNum, count: nat, ty': TypeNum, count': nat)
    requires count < Pow2(SHIFT) && count' < Pow2(SHIFT)
    ensures Encode(ty, count) == Encode(ty', count') <==> ty == ty' && count == count'
  {
    if Encode(ty, count) == Encode(ty', count') {
      DecodesToType(ty, count);
      DecodesToType(ty', count');
      EncodeNumber(ty, count);
      EncodeNumber(ty', count');
      OrOfShifted(ty, count, SHIFT);
      OrOfShifted(ty', count', SHIFT);
    }
  }

  // ---------- the allocator ----------

  class Allocator {
    const switchType: TypeNum
    /** VIDCOUNTER; None until something has set or incremented it. */
    var counter: Option<nat>

    constructor (switchType: TypeNum)
      ensures counter == None && this.switchType == switchType
    {
      this.switchType, counter := switchType, None;
    }

    /** The first id of all is number 0 if it is for a switch; every other id increments the counter. */
    method AllocVid(ty: TypeNum) returns (vid: string)
      modifies this
      ensures counter == Some(Count(switchType, old(counter), ty)) && vid == Encode(ty, Count(switchType, old(counter), ty))
      ensures old(counter).None? ==> counter == Some(if ty == switchType then 0 else 1)
      ensures old(counter).Some? ==> counter == Some(old(counter).value + 1)
    {
      var count: nat;
      if ty == switchType && counter == None {
        counter := Some(0);
        count := 0;
      } else {
        counter := Some((if counter.Some? then counter.value else 0) + 1);
        count := counter.value;
      }
      vid := Encode(ty, count);
    }

    /** Ids are allocated for these types, one after the other; removing objects in between changes nothing here. */
    method AllocAll(tys: seq<TypeNum>) returns (vids: seq<string>)
      requires (if counter.Some? then counter.value else 0) + |tys| < Pow2(SHIFT)
      modifies this
      ensures |vids| == |tys|
      ensures forall i | 0 <= i < |tys| :: |vids[i]| >= 6 && VidToType(vids[i]) == tys[i]
      ensures forall i, j | 0 <= i < j < |tys| :: vids[i] != vids[j]
      ensures forall i, c: nat, ty | 0 <= i < |tys| && old(counter).Some? && c <= old(counter).value :: vids[i] != Encode(ty, c)
    {
      vids := [];
      ghost var counts: seq<nat> := [];
      ghost var start := counter;
      for k := 0 to |tys|
        invariant |vids| == |counts| == k && Fits(start, counter, counts, k)
        invariant forall i | 0 <= i < k :: vids[i] == Encode(tys[i], counts[i])
      {
        FitsNext(switchType, start, counter, counts, k, tys[k]);
        counts := counts + [Count(switchType, counter, tys[k])];
        var vid := AllocVid(tys[k]);
        vids := vids + [vid];
      }
      forall i | 0 <= i < |tys| ensures |vids[i]| >= 6 && VidToType(vids[i]) == tys[i] { DecodesToType(tys[i], counts[i]); }
      forall i, j | 0 <= i < j < |tys| ensures vids[i] != vids[j] {
        EncodeIsInjective(tys[i], counts[i], tys[j], counts[j]);
      }
      forall i, c: nat, ty | 0 <= i < |tys| && start.Some? && c <= start.value ensures vids[i] != Encode(ty, c) {
        EncodeIsInjective(tys[i], counts[i], ty, c);
      }
    }
  }

  function Count(switchType: TypeNum, counter: Option<nat>, ty: TypeNum): nat {
    if ty == switchType && counter == None then 0
    else (if counter.Some? then counter.value else 0) + 1
  }

  /** The counts handed out since `start` increase strictly up to the counter. */
  ghost predicate Fits(start: Option<nat>, counter: Option<nat>, counts: seq<nat>, k: nat) {
    && |counts| == k
    && (counter.Some? ==> counter.value <= (if start.Some? then start.value else 0) + k)
    && (k == 0 ==> counter == start) && (k > 0 ==> counter.Some? && (start.Some? ==> counter.value > start.value))
    && (forall i | 0 <= i < k :: counts[i] <= counter.value && (start.Some? ==> counts[i] > start.value))
    && (forall i, j | 0 <= i < j < k :: counts[i] < counts[j])
  }

  lemma FitsNext(switchType: TypeNum, start: Option<nat>, counter: Option<nat>, counts: seq<nat>, k: nat, ty: TypeNum)
    requires Fits(start, counter, counts, k)
    ensures var c := Count(switchType, counter, ty); Fits(start, Some(c), counts + [c], k + 1)
  {
  }
}
