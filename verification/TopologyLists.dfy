/**
  The topology builder: bridge ports, LAGs, VLANs and router interfaces are created on top of a
  given store and tracked in six lists, from which teardown removes them again.
 */
module TopologyLists {
  import opened Wrappers
  import opened SaiStore
  import opened Integrity
  import opened BridgePorts
  import opened Attributes

  /** The place of a type in the teardown order; an object refers only to objects of later places. */
  function Rank(ty: ObjType): nat {
    if ty == RIF then 0
    else if ty == VLAN_MEMBER then 1
    else if ty == VLAN then 2
    else if ty == BRIDGE_PORT then 3
    else if ty == LAG_MEMBER then 4
    else if ty == LAG then 5
    else 6
  }

  datatype Lists = Lists(rifs: seq<Oid>, vms: seq<Oid>, vlans: seq<Oid>, bps: seq<Oid>, lms: seq<Oid>, lags: seq<Oid>)

  function Reversed(os: seq<Oid>): seq<Oid> {
    if |os| == 0 then [] else [os[|os| - 1]] + Reversed(os[..|os| - 1])
  }

  /** The order of the teardown. */
  function Order(l: Lists): seq<Oid> {
    Reversed(l.rifs) + l.vms + l.vlans + (Reversed(l.bps) + l.lms + l.lags)
  }

  /** One more removal from the end of a list. */
  lemma {:induction false} ReversedNext(gone: seq<Oid>, os: seq<Oid>, n: nat)
    requires n < |os|
    ensures gone + Reversed(os[..n + 1]) == (gone + [os[n]]) + Reversed(os[..n])
  {
    assert os[..n + 1][..n] == os[..n] && os[..n + 1][n] == os[n];
  }

  lemma {:induction false} OrderInSteps(gone: seq<Oid>, l: Lists)
    ensures gone + Reversed(l.rifs) + l.vms + l.vlans + Reversed(l.bps) + l.lms + l.lags == gone + Order(l)
  {
  }

  const NO_OBJECTS := Lists([], [], [], [], [], [])

  predicate Listed(l: Lists, o: Oid) {
    o in l.rifs || o in l.vms || o in l.vlans || o in l.bps || o in l.lms || o in l.lags
  }

  /** A list holds objects of one rank, each once. */
  ghost predicate Tidy(os: seq<Oid>, rank: nat) {
    && (forall i | 0 <= i < |os| :: os[i].Vid? && Rank(os[i].ty) == rank)
    && (forall i, j | 0 <= i < j < |os| :: os[i] != os[j])
  }

  ghost predicate AllTidy(l: Lists) {
    Tidy(l.rifs, 0) && Tidy(l.vms, 1) && Tidy(l.vlans, 2) && Tidy(l.bps, 3) && Tidy(l.lms, 4) && Tidy(l.lags, 5)
  }

  // ---------- the invariant ----------

  /** The store holds the objects of the base and the listed ones, and no others. */
  ghost predicate Present(base: Store, s: Store, l: Lists, h: Handle) {
    && (h in s <==> h in base || (h.OidH? && Listed(l, h.oid)))
    && (h in base ==> s[h] == base[h])
  }

  /** A listed object is unknown to the base. */
  ghost predicate Added(base: Store, l: Lists, o: Oid) {
    Listed(l, o) ==> o.Vid? && OidH(o) !in base && Unmentioned(base, OidH(o))
  }

  /** What a listed object refers to is null, in the base, or listed with a later rank. */
  ghost predicate Upward(base: Store, s: Store, l: Lists, g: Oid, o: Oid) {
    Listed(l, g) && OidH(g) in s && Refers(s, OidH(g), o) ==>
      o.Null? || OidH(o) in base || (Listed(l, o) && g.Vid? && o.Vid? && Rank(o.ty) > Rank(g.ty))
  }

  ghost predicate PlainState(s: Store, o: Oid) {
    OidH(o) in s && ADMIN_STATE in s[OidH(o)] ==> s[OidH(o)][ADMIN_STATE].Txt?
  }

  ghost predicate Built(base: Store, s: Store, l: Lists) {
    && AllTidy(l)
    && (forall h :: Present(base, s, l, h))
    && (forall o :: Added(base, l, o))
    && (forall g, o :: Upward(base, s, l, g, o))
    && (forall i | 0 <= i < |l.bps| :: PlainState(s, l.bps[i]))
  }

  lemma NothingListed(base: Store, s: Store)
    requires Built(base, s, NO_OBJECTS)
    ensures s == base
  {
    forall h ensures h in s <==> h in base { assert Present(base, s, NO_OBJECTS, h); }
    forall h | h in base ensures s[h] == base[h] { assert Present(base, s, NO_OBJECTS, h); }
  }

  // ---------- changing a text ----------

  lemma FewerMentions(a: Attrs, attr: string, text: string, o: Oid)
    requires MentionsA(a[attr := Txt(text)], o)
    ensures MentionsA(a, o)
  {
    var b := a[attr := Txt(text)];
    var k :| k in b && MentionsV(b[k], o);
    assert k != attr && MentionsV(a[k], o);
  }

  /** A text attribute of an object changes; so the store refers to no more than before. */
  lemma TextRefers(s: Store, h: Handle, attr: string, text: string, g: Handle, o: Oid)
    requires g in s && Refers(WithText(s, h, attr, text), g, o)
    ensures Refers(s, g, o)
  {
    if g == h && MentionsA(s[h][attr := Txt(text)], o) { FewerMentions(s[h], attr, text, o); }
  }

  lemma TextInOrder(s: Store, h: Handle, attr: string, text: string, next: nat)
    requires OldOnly(s, next)
    ensures OldOnly(WithText(s, h, attr, text), next)
  {
    var t := WithText(s, h, attr, text);
    forall g, o: Oid | g in t && o.Vid? && o.num >= next ensures !Refers(t, g, o) {
      if Refers(t, g, o) { TextRefers(s, h, attr, text, g, o); }
    }
  }

  /** An object of the base gets a new text. */
  lemma BaseText(base: Store, s: Store, l: Lists, h: Handle, attr: string, text: string)
    requires Built(base, s, l) && h in base
    ensures Built(WithText(base, h, attr, text), WithText(s, h, attr, text), l)
  {
    var base', t := WithText(base, h, attr, text), WithText(s, h, attr, text);
    assert Present(base, s, l, h);
    forall g ensures Present(base', t, l, g) { assert Present(base, s, l, g); }
    forall o ensures Added(base', l, o) {
      assert Added(base, l, o);
      forall g | g in base' && Listed(l, o) ensures !Refers(base', g, o) {
        if Refers(base', g, o) { TextRefers(base, h, attr, text, g, o); }
      }
    }
    UpwardText(base, base', s, l, h, attr, text);
    forall i | 0 <= i < |l.bps| ensures PlainState(t, l.bps[i]) { assert PlainState(s, l.bps[i]); }
  }

  lemma UpwardText(base: Store, base': Store, s: Store, l: Lists, h: Handle, attr: string, text: string)
    requires base'.Keys == base.Keys && forall g, o :: Upward(base, s, l, g, o)
    ensures forall g, o :: Upward(base', WithText(s, h, attr, text), l, g, o)
  {
    var t := WithText(s, h, attr, text);
    forall g, o ensures Upward(base', t, l, g, o) {
      assert Upward(base, s, l, g, o);
      if Listed(l, g) && OidH(g) in t && Refers(t, OidH(g), o) { TextRefers(s, h, attr, text, OidH(g), o); }
    }
  }

  /** A listed object gets a new text. */
  lemma ListedText(base: Store, s: Store, l: Lists, o: Oid, attr: string, text: string)
    requires Built(base, s, l) && Listed(l, o)
    ensures Built(base, WithText(s, OidH(o), attr, text), l)
  {
    var t := WithText(s, OidH(o), attr, text);
    assert Added(base, l, o);
    forall g ensures Present(base, t, l, g) { assert Present(base, s, l, g); }
    UpwardText(base, base, s, l, OidH(o), attr, text);
    forall i | 0 <= i < |l.bps| ensures PlainState(t, l.bps[i]) { assert PlainState(s, l.bps[i]); }
  }

  // ---------- entries beside the lists ----------

  /** An entry that refers to nothing but the base. */
  lemma BaseEntry(base: Store, s: Store, l: Lists, h: Handle, a: Attrs)
    requires Built(base, s, l) && h.EntryH? && h !in s && forall o | MentionsF(h.key, o) || MentionsA(a, o) :: o.Null? || OidH(o) in base
    requires !Listed(l, Null)
    ensures Built(base[h := a], s[h := a], l)
  {
    var base', t := base[h := a], s[h := a];
    assert Present(base, s, l, h);
    forall g ensures Present(base', t, l, g) { assert Present(base, s, l, g); }
    forall o ensures Added(base', l, o) {
      assert Added(base, l, o);
      forall g | g in base' && Listed(l, o) ensures !Refers(base', g, o) {
        if g != h { assert Refers(base', g, o) <==> Refers(base, g, o); }
      }
    }
    forall g, o ensures Upward(base', t, l, g, o) { assert Upward(base, s, l, g, o); }
    forall i | 0 <= i < |l.bps| ensures PlainState(t, l.bps[i]) { assert PlainState(s, l.bps[i]); }
  }

  lemma BaseEntryGone(base: Store, s: Store, l: Lists, h: Handle)
    requires Built(base, s, l) && h.EntryH? && h in base
    ensures Built(base - {h}, s - {h}, l)
  {
    var base', t := base - {h}, s - {h};
    forall g ensures Present(base', t, l, g) { assert Present(base, s, l, g); }
    forall o ensures Added(base', l, o) {
      assert Added(base, l, o);
      forall g | g in base' && Listed(l, o) ensures !Refers(base', g, o) { assert !Refers(base, g, o); }
    }
    forall g, o ensures Upward(base', t, l, g, o) { assert Upward(base, s, l, g, o); }
    forall i | 0 <= i < |l.bps| ensures PlainState(t, l.bps[i]) { assert PlainState(s, l.bps[i]); }
  }

  // ---------- adding ----------

  /** The lists `m` are `l` with one more object. */
  ghost predicate OneMore(l: Lists, m: Lists, o: Oid) {
    forall x :: Listed(m, x) <==> Listed(l, x) || x == o
  }

  /** An attribute list for an object of this rank. */
  ghost predicate PointsUp(base: Store, s: Store, rank: nat, attrs: seq<Value>) {
    forall i, o: Oid | 0 <= i < |attrs| && MentionsV(attrs[i], o) && OidH(o) in s :: OidH(o) in base || (o.Vid? && Rank(o.ty) > rank)
  }

  lemma {:induction false} Adds(base: Store, s: Store, l: Lists, m: Lists, o: Oid, attrs: seq<Value>)
    requires Built(base, s, l) && AllTidy(m) && OneMore(l, m, o) && o.Vid?
    requires CreateStatus(s, OidH(o), attrs) == Success && Unmentioned(base, OidH(o))
    requires PointsUp(base, s, Rank(o.ty), attrs)
    requires ADMIN_STATE in AttrMap(attrs) ==> AttrMap(attrs)[ADMIN_STATE].Txt?
    ensures Built(base, s[OidH(o) := AttrMap(attrs)], m)
  {
    var t := s[OidH(o) := AttrMap(attrs)];
    assert Present(base, s, l, OidH(o));
    forall h ensures Present(base, t, m, h) { assert Present(base, s, l, h); }
    forall x ensures Added(base, m, x) { assert Added(base, l, x); }
    forall g, x ensures Upward(base, t, m, g, x) {
      assert Upward(base, s, l, g, x) && Present(base, s, l, OidH(g)) && Present(base, s, l, OidH(x));
      if g == o && Refers(t, OidH(o), x) {
        NewRefersBack(s, OidH(o), attrs, x);
        MentionedInList(attrs, x);
      }
    }
    forall i | 0 <= i < |m.bps| ensures PlainState(t, m.bps[i]) {
      if m.bps[i] != o {
        assert Listed(m, m.bps[i]) && Listed(l, m.bps[i]);
        ListedBridgePort(l, m.bps[i]);
      }
    }
  }

  /** An object of the rank of bridge ports is in the list of bridge ports. */
  lemma ListedBridgePort(l: Lists, o: Oid)
    requires AllTidy(l) && Listed(l, o) && o.Vid? && Rank(o.ty) == 3
    ensures exists i :: 0 <= i < |l.bps| && l.bps[i] == o
  {
  }

  // ---------- removing ----------

  /** The lists `m` are `l` without one object. */
  ghost predicate OneLess(l: Lists, m: Lists, o: Oid) {
    forall x :: Listed(m, x) <==> Listed(l, x) && x != o
  }

  /** Every listed object is of this rank or later. */
  ghost predicate RankFrom(l: Lists, rank: nat) {
    forall x: Oid | Listed(l, x) && x.Vid? :: Rank(x.ty) >= rank
  }

  lemma Unreferenced(base: Store, s: Store, l: Lists, o: Oid)
    requires Built(base, s, l) && Listed(l, o) && o.Vid? && RankFrom(l, Rank(o.ty))
    ensures OidH(o) in s && OidH(o) !in base && forall h | h in s :: !Refers(s, h, o)
  {
    assert Added(base, l, o) && Present(base, s, l, OidH(o));
    forall h | h in s ensures !Refers(s, h, o) {
      assert Present(base, s, l, h);
      if h in base {
        assert !Refers(base, h, o);
      } else {
        assert Upward(base, s, l, h.oid, o) && Added(base, l, h.oid);
      }
    }
  }

  /** The first object of the lowest rank left can be removed, and nothing else changes. */
  lemma Removes(base: Store, s: Store, l: Lists, m: Lists, o: Oid)
    requires Built(base, s, l) && Listed(l, o) && o.Vid? && RankFrom(l, Rank(o.ty))
    requires AllTidy(m) && OneLess(l, m, o) && (forall x | x in m.bps :: x in l.bps)
    ensures RemoveObj(s, OidH(o)) == (Success, s - {OidH(o)}) && Built(base, s - {OidH(o)}, m)
  {
    Unreferenced(base, s, l, o);
    var t := s - {OidH(o)};
    forall h ensures Present(base, t, m, h) { assert Present(base, s, l, h); }
    forall x ensures Added(base, m, x) { assert Added(base, l, x); }
    forall g, x ensures Upward(base, t, m, g, x) { assert Upward(base, s, l, g, x); }
    forall i | 0 <= i < |m.bps| ensures PlainState(t, m.bps[i]) {
      assert m.bps[i] in l.bps;
      var j :| 0 <= j < |l.bps| && l.bps[j] == m.bps[i];
      assert PlainState(s, l.bps[j]);
    }
  }

  /** For a bridge port the three calls come to the same. */
  lemma RemovesPort(base: Store, s: Store, l: Lists, o: Oid)
    requires Built(base, s, l) && o in l.bps && o.Vid? && RankFrom(l, Rank(o.ty))
    ensures RemoveBridgePort(s, o) == Some(s - {OidH(o)})
  {
    Unreferenced(base, s, l, o);
    var j :| 0 <= j < |l.bps| && l.bps[j] == o;
    assert PlainState(s, l.bps[j]);
    forall h ensures Plainly(s, h, o) && !Pins(s, h, o) {}
    RemovesUnpinned(s, o);
    NothingToFlush(s, o);
  }

  lemma DynamicOnesRefer(s: Store, b: Oid)
    ensures forall h | h in s && DynamicOn(s, h, b) :: Refers(s, h, b)
  {
    forall h | h in s && DynamicOn(s, h, b) ensures Refers(s, h, b) { assert MentionsV(s[h][FDB_PORT], b); }
  }

  lemma NothingToFlush(s: Store, b: Oid)
    requires forall h | h in s :: !Refers(s, h, b)
    ensures Flush(s, b) == s
  {
    DynamicOnesRefer(s, b);
  }

  // ---------- emptying a list from either end ----------

  lemma WithoutLastRif(l: Lists, n: nat)
    requires AllTidy(l) && |l.rifs| == n + 1
    ensures var m := l.(rifs := l.rifs[..n]);
      AllTidy(m) && OneLess(l, m, l.rifs[n]) && RankFrom(l, 0)
  {
    assert l.rifs == l.rifs[..n] + [l.rifs[n]];
  }

  lemma WithoutFirstVm(l: Lists)
    requires AllTidy(l) && |l.vms| > 0 && l.rifs == []
    ensures var m := l.(vms := l.vms[1..]);
      AllTidy(m) && OneLess(l, m, l.vms[0]) && RankFrom(l, 1)
  {
    assert l.vms == [l.vms[0]] + l.vms[1..];
  }

  lemma WithoutFirstVlan(l: Lists)
    requires AllTidy(l) && |l.vlans| > 0 && l.rifs == [] && l.vms == []
    ensures var m := l.(vlans := l.vlans[1..]);
      AllTidy(m) && OneLess(l, m, l.vlans[0]) && RankFrom(l, 2)
  {
    assert l.vlans == [l.vlans[0]] + l.vlans[1..];
  }

  lemma WithoutLastPort(l: Lists, n: nat)
    requires AllTidy(l) && |l.bps| == n + 1 && l.rifs == [] && l.vms == [] && l.vlans == []
    ensures var m := l.(bps := l.bps[..n]);
      AllTidy(m) && OneLess(l, m, l.bps[n]) && RankFrom(l, 3)
  {
    assert l.bps == l.bps[..n] + [l.bps[n]];
  }

  lemma WithoutFirstLm(l: Lists)
    requires AllTidy(l) && |l.lms| > 0 && l.rifs == [] && l.vms == [] && l.vlans == [] && l.bps == []
    ensures var m := l.(lms := l.lms[1..]);
      AllTidy(m) && OneLess(l, m, l.lms[0]) && RankFrom(l, 4)
  {
    assert l.lms == [l.lms[0]] + l.lms[1..];
  }

  lemma WithoutFirstLag(l: Lists)
    requires AllTidy(l) && |l.lags| > 0 && l.rifs == [] && l.vms == [] && l.vlans == [] && l.bps == [] && l.lms == []
    ensures var m := l.(lags := l.lags[1..]);
      AllTidy(m) && OneLess(l, m, l.lags[0]) && RankFrom(l, 5)
  {
    assert l.lags == [l.lags[0]] + l.lags[1..];
  }
}
