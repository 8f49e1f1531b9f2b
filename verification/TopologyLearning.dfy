/**
  Tearing a topology down while the switch goes on learning and ageing between the calls. VLANs go
  before the bridge ports are flushed, so an address learned in a tracked VLAN is in the way.
 */
module TopologyLearning {
  import opened Wrappers
  import opened SaiStore
  import opened Integrity
  import opened BridgePorts
  import opened Attributes
  import opened TopologyLists
  import opened TopologyNames
  import opened TopologyLayouts

  // ---------- teardown as a list of removals with events in between ----------

  /** What happens before a removal and, for a bridge port, between its three calls. */
  datatype Gap = Gap(before: seq<Event>, disabled: seq<Event>, flushed: seq<Event>)

  function Step(s: Store, o: Oid, g: Gap): Option<Store> {
    if o.Vid? && Rank(o.ty) == 3 then
      var t := Removal(s, o, g.before, g.disabled, g.flushed, []);
      if t.status == Success then Some(t.removed) else None
    else
      var (status, s') := RemoveObj(HappenAll(s, g.before), OidH(o));
      if status == Success then Some(s') else None
  }

  function Down(s: Store, todo: seq<Oid>, gaps: seq<Gap>): Option<Store>
    requires |gaps| == |todo|
  {
    if |todo| == 0 then Some(s)
    else
      var n := |todo| - 1;
      match Down(s, todo[..n], gaps[..n]) case None => None case Some(s') =>
      Step(s', todo[n], gaps[n])
  }

  /** Addresses are learned on bridge ports, and of the tracked objects their keys name VLANs only. */
  ghost predicate Usual(l: Lists, e: Event) {
    && (forall o: Oid | Listed(l, o) && MentionsF(e.key, o) :: o in l.vlans)
    && (e.Learn? ==> e.port.Vid? && Rank(e.port.ty) == 3)
  }

  ghost predicate AllUsual(l: Lists, es: seq<Event>) {
    forall i | 0 <= i < |es| :: Usual(l, es[i])
  }

  ghost predicate UsualGap(l: Lists, g: Gap) {
    AllUsual(l, g.before) && AllUsual(l, g.disabled) && AllUsual(l, g.flushed)
  }

  // ---------- what events leave alone ----------

  ghost function Static(s: Store): Store {
    map h | h in s && !IsDynamic(s, h) :: s[h]
  }

  /** A dynamic entry refers to tracked objects only by the VLAN in its key and the bridge port it is on. */
  ghost predicate Fine(s: Store, l: Lists, h: Handle, o: Oid) {
    h in s && IsDynamic(s, h) && Listed(l, o) && Refers(s, h, o) ==>
      (o in l.vlans && MentionsF(h.key, o)) || (o in l.bps && DynamicOn(s, h, o))
  }

  /** But for dynamic entries, the store holds the base and the listed objects. */
  ghost predicate Stands(base: Store, s: Store, l: Lists) {
    Built(Static(base), Static(s), l) && forall h, o :: Fine(s, l, h, o)
  }

  /** What the builders leave is such a state. */
  lemma BuiltStands(base: Store, s: Store, l: Lists)
    requires Built(base, s, l)
    ensures Stands(base, s, l)
  {
    var b', s' := Static(base), Static(s);
    forall h ensures Present(b', s', l, h) { assert Present(base, s, l, h); }
    forall o ensures Added(b', l, o) {
      assert Added(base, l, o);
      forall g | g in b' && Listed(l, o) ensures !Refers(b', g, o) { assert !Refers(base, g, o); }
    }
    forall g, o ensures Upward(b', s', l, g, o) { assert Upward(base, s, l, g, o); }
    forall i | 0 <= i < |l.bps| ensures PlainState(s', l.bps[i]) { assert PlainState(s, l.bps[i]); }
    forall h, o ensures Fine(s, l, h, o) {
      assert Present(base, s, l, h) && Added(base, l, o);
      if h in s && IsDynamic(s, h) && Listed(l, o) { assert !Refers(base, h, o); }
    }
  }

  lemma HappenIsDynamic(s: Store, e: Event)
    ensures Static(Happen(s, e)) == Static(s)
  {
    FdbNamesDiffer();
  }

  lemma HappenStands(base: Store, s: Store, l: Lists, e: Event)
    requires Stands(base, s, l) && Usual(l, e)
    ensures Stands(base, Happen(s, e), l)
  {
    HappenIsDynamic(s, e);
    var t := Happen(s, e);
    forall h, o ensures Fine(t, l, h, o) {
      assert Fine(s, l, h, o);
      if h in t && !(h in s && t[h] == s[h]) { LearnedIsFine(s, l, e, o); }
    }
  }

  lemma LearnedIsFine(s: Store, l: Lists, e: Event, o: Oid)
    requires e.Learn? && Usual(l, e) && AllTidy(l)
    ensures var h := EntryH(FDB_ENTRY, e.key); Fine(s[h := map[FDB_TYPE := DYNAMIC, FDB_PORT := Ref(e.port)]], l, h, o)
  {
    FdbNamesDiffer();
    if Listed(l, o) && o == e.port { ListedBridgePort(l, o); }
  }

  lemma {:induction false} HappenAllStands(base: Store, s: Store, l: Lists, es: seq<Event>)
    requires Stands(base, s, l) && AllUsual(l, es)
    ensures Stands(base, HappenAll(s, es), l)
  {
    if |es| > 0 {
      var pre := es[..|es| - 1];
      assert forall i | 0 <= i < |pre| :: pre[i] == es[i];
      HappenAllStands(base, s, l, pre);
      HappenStands(base, HappenAll(s, pre), l, es[|es| - 1]);
    }
  }

  // ---------- one removal ----------

  /** A dynamic entry names the VLAN. */
  ghost predicate Named(s: Store, v: Oid) {
    exists h :: NamedBy(s, v, h)
  }

  predicate NamedBy(s: Store, v: Oid, h: Handle) {
    h in s && IsDynamic(s, h) && MentionsF(h.key, v)
  }

  lemma ListedByRank(l: Lists, o: Oid)
    requires AllTidy(l) && Listed(l, o) && o.Vid?
    ensures o in l.vlans <==> Rank(o.ty) == 2
    ensures o in l.bps <==> Rank(o.ty) == 3
  {
  }

  /** Only dynamic entries can be in the way of the lowest rank left. */
  lemma OnlyDynamicInTheWay(base: Store, s: Store, l: Lists, o: Oid, h: Handle)
    requires Stands(base, s, l) && Listed(l, o) && o.Vid? && RankFrom(l, Rank(o.ty)) && h in s && Refers(s, h, o)
    ensures IsDynamic(s, h)
  {
    if !IsDynamic(s, h) {
      Unreferenced(Static(base), Static(s), l, o);
      assert h in Static(s) && Refers(Static(s), h, o);
    }
  }

  /** A removal is accepted exactly if no dynamic entry names the object, which then is a VLAN. */
  lemma AcceptedIfUnnamed(base: Store, s: Store, l: Lists, o: Oid)
    requires Stands(base, s, l) && Listed(l, o) && o.Vid? && RankFrom(l, Rank(o.ty)) && Rank(o.ty) != 3
    ensures RemoveObj(s, OidH(o)).0 == Success <==> (Rank(o.ty) == 2 ==> !Named(s, o))
  {
    Unreferenced(Static(base), Static(s), l, o);
    ListedByRank(l, o);
    assert OidH(o) in s;
    if Named(s, o) { NamedIsInUse(s, o); }
    if InUse(s, o) {
      var h :| h in s && Refers(s, h, o);
      OnlyDynamicInTheWay(base, s, l, o, h);
      assert Fine(s, l, h, o);
      assert NamedBy(s, o, h);
    }
  }

  lemma NamedIsInUse(s: Store, v: Oid)
    requires Named(s, v)
    ensures InUse(s, v)
  {
    var h :| NamedBy(s, v, h);
    assert Refers(s, h, v);
  }

  lemma StandsWithout(base: Store, s: Store, l: Lists, m: Lists, o: Oid)
    requires Stands(base, s, l) && Listed(l, o) && o.Vid? && RankFrom(l, Rank(o.ty))
    requires AllTidy(m) && OneLess(l, m, o) && forall x | x in m.bps :: x in l.bps
    ensures Stands(base, s - {OidH(o)}, m)
  {
    var t := s - {OidH(o)};
    Removes(Static(base), Static(s), l, m, o);
    assert Static(t) == Static(s) - {OidH(o)};
    forall h, x ensures Fine(t, m, h, x) {
      assert Fine(s, l, h, x);
      if Listed(m, x) && x.Vid? {
        ListedByRank(l, x);
        ListedByRank(m, x);
      }
      if Listed(m, x) { assert Added(Static(base), l, x); }
    }
  }

  // ---------- one bridge port ----------

  lemma PlainGap(l: Lists, es: seq<Event>, b: Oid)
    requires AllTidy(l) && b in l.bps && b.Vid? && Rank(b.ty) == 3 && AllUsual(l, es)
    ensures Plain(b, es)
  {
    ListedByRank(l, b);
    forall i | 0 <= i < |es| ensures !MentionsF(es[i].key, b) { assert Usual(l, es[i]); }
  }

  lemma PortIsOrdinary(base: Store, s: Store, l: Lists, b: Oid)
    requires Stands(base, s, l) && b in l.bps && b.Vid? && Rank(b.ty) == 3 && RankFrom(l, 3)
    ensures Ordinary(s, b) && Unpinned(s, b)
  {
    ListedByRank(l, b);
    Unreferenced(Static(base), Static(s), l, b);
    var i :| 0 <= i < |l.bps| && l.bps[i] == b;
    assert PlainState(Static(s), l.bps[i]);
    forall h ensures Plainly(s, h, b) { assert Fine(s, l, h, b); }
    forall h ensures !Pins(s, h, b) {
      if Pins(s, h, b) { OnlyDynamicInTheWay(base, s, l, b, h); }
    }
  }

  lemma DisabledStands(base: Store, s: Store, l: Lists, b: Oid)
    requires Stands(base, s, l) && Listed(l, b) && OidH(b) in s
    ensures Stands(base, Disable(s, b).1, l)
  {
    var t := Disable(s, b).1;
    SetTextAccepted(s, OidH(b), ADMIN_STATE, "false");
    ListedText(Static(base), Static(s), l, b, ADMIN_STATE, "false");
    assert Static(t) == WithText(Static(s), OidH(b), ADMIN_STATE, "false");
    forall h, o ensures Fine(t, l, h, o) { assert Fine(s, l, h, o); }
  }

  lemma FlushedStands(base: Store, s: Store, l: Lists, b: Oid)
    requires Stands(base, s, l)
    ensures Stands(base, Flush(s, b), l)
  {
    var t := Flush(s, b);
    assert Static(t) == Static(s);
    forall h, o ensures Fine(t, l, h, o) { assert Fine(s, l, h, o); }
  }

  lemma {:induction false} EventsKeepPort(s: Store, es: seq<Event>, b: Oid)
    requires Plain(b, es) && OidH(b) in s
    ensures OidH(b) in HappenAll(s, es)
  {
    HappenAllKeeps(s, es, b);
  }

  /** A bridge port goes, whatever is learned between its calls. */
  lemma PortStands(base: Store, s: Store, l: Lists, m: Lists, b: Oid, g: Gap)
    requires Stands(base, s, l) && b in l.bps && b.Vid? && Rank(b.ty) == 3 && RankFrom(l, 3) && UsualGap(l, g)
    requires AllTidy(m) && OneLess(l, m, b) && forall x | x in m.bps :: x in l.bps
    ensures Step(s, b, g).Some? && Stands(base, Step(s, b, g).value, m)
  {
    var t := Removal(s, b, g.before, g.disabled, g.flushed, []);
    PlainGap(l, g.before, b);
    PlainGap(l, g.disabled, b);
    PlainGap(l, g.flushed, b);
    PortIsOrdinary(base, s, l, b);
    NothingLeftDangling(s, b, g.before, g.disabled, g.flushed, []);
    EventsKeepPort(s, g.before, b);
    HappenAllStands(base, s, l, g.before);
    DisabledStands(base, t.s1, l, b);
    HappenAllStands(base, t.disabled, l, g.disabled);
    FlushedStands(base, t.s2, l, b);
    HappenAllStands(base, t.flushed, l, g.flushed);
    StandsWithout(base, t.s3, l, m, b);
  }

  // ---------- the whole teardown ----------

  function Without(os: seq<Oid>, o: Oid): (r: seq<Oid>)
    ensures forall x :: x in r <==> x in os && x != o
  {
    if |os| == 0 then []
    else Without(os[..|os| - 1], o) + if os[|os| - 1] == o then [] else [os[|os| - 1]]
  }

  lemma {:induction false} WithoutIsTidy(os: seq<Oid>, o: Oid, rank: nat)
    requires Tidy(os, rank)
    ensures Tidy(Without(os, o), rank)
  {
    if |os| > 0 {
      var n := |os| - 1;
      assert Tidy(os[..n], rank) && os[n] !in os[..n];
      WithoutIsTidy(os[..n], o, rank);
    }
  }

  ghost function DropOne(l: Lists, o: Oid): Lists {
    Lists(Without(l.rifs, o), Without(l.vms, o), Without(l.vlans, o), Without(l.bps, o), Without(l.lms, o), Without(l.lags, o))
  }

  lemma DropsOne(l: Lists, o: Oid)
    requires AllTidy(l)
    ensures var m := DropOne(l, o); AllTidy(m) && OneLess(l, m, o) && forall x | x in m.bps :: x in l.bps
  {
    WithoutIsTidy(l.rifs, o, 0);
    WithoutIsTidy(l.vms, o, 1);
    WithoutIsTidy(l.vlans, o, 2);
    WithoutIsTidy(l.bps, o, 3);
    WithoutIsTidy(l.lms, o, 4);
    WithoutIsTidy(l.lags, o, 5);
  }

  /** Lower ranks first, each object once. */
  ghost predicate Sorted(todo: seq<Oid>) {
    && (forall i | 0 <= i < |todo| :: todo[i].Vid?)
    && (forall i, j | 0 <= i < j < |todo| :: RankOf(todo[i]) <= RankOf(todo[j]) && todo[i] != todo[j])
  }

  function RankOf(o: Oid): nat {
    if o.Vid? then Rank(o.ty) else 6
  }

  /** The removals are those of the listed objects. */
  ghost predicate Orderly(l: Lists, todo: seq<Oid>) {
    Sorted(todo) && forall o :: Listed(l, o) <==> o in todo
  }

  ghost predicate AllGapsUsual(l: Lists, gaps: seq<Gap>) {
    forall i | 0 <= i < |gaps| :: UsualGap(l, gaps[i])
  }

  lemma StillUsual(l: Lists, m: Lists, g: Gap)
    requires AllTidy(l) && AllTidy(m) && UsualGap(l, g) && (forall x | Listed(m, x) :: Listed(l, x) && x.Vid?)
    ensures UsualGap(m, g)
  {
    AllStillUsual(l, m, g.before);
    AllStillUsual(l, m, g.disabled);
    AllStillUsual(l, m, g.flushed);
  }

  lemma AllStillUsual(l: Lists, m: Lists, es: seq<Event>)
    requires AllTidy(l) && AllTidy(m) && AllUsual(l, es) && (forall x | Listed(m, x) :: Listed(l, x) && x.Vid?)
    ensures AllUsual(m, es)
  {
    forall i | 0 <= i < |es| ensures Usual(m, es[i]) {
      assert Usual(l, es[i]);
      forall o: Oid | Listed(m, o) && MentionsF(es[i].key, o) ensures o in m.vlans {
        ListedByRank(l, o);
        ListedByRank(m, o);
      }
    }
  }

  /** One removal: only a VLAN that an entry names is refused. */
  lemma {:induction false} StepStands(base: Store, s: Store, l: Lists, o: Oid, g: Gap)
    requires Stands(base, s, l) && Listed(l, o) && o.Vid? && RankFrom(l, Rank(o.ty)) && UsualGap(l, g)
    ensures Step(s, o, g).Some? <==> (Rank(o.ty) == 2 ==> !Named(HappenAll(s, g.before), o))
    ensures Step(s, o, g).Some? ==> Stands(base, Step(s, o, g).value, DropOne(l, o))
  {
    DropsOne(l, o);
    ListedByRank(l, o);
    if Rank(o.ty) == 3 {
      PortStands(base, s, l, DropOne(l, o), o, g);
    } else {
      var t := HappenAll(s, g.before);
      HappenAllStands(base, s, l, g.before);
      AcceptedIfUnnamed(base, t, l, o);
      StandsWithout(base, t, l, DropOne(l, o), o);
    }
  }

  /** When this removal is due, a dynamic entry names its VLAN. */
  ghost predicate InTheWay(s: Store, todo: seq<Oid>, gaps: seq<Gap>, k: nat)
    requires |gaps| == |todo| && k < |todo|
  {
    && RankOf(todo[k]) == 2 && Down(s, todo[..k], gaps[..k]).Some?
    && Named(HappenAll(Down(s, todo[..k], gaps[..k]).value, gaps[k].before), todo[k])
  }

  lemma {:induction false} DownNext(s: Store, todo: seq<Oid>, gaps: seq<Gap>, k: nat)
    requires |gaps| == |todo| && k < |todo|
    ensures Down(s, todo[..k + 1], gaps[..k + 1]) ==
      match Down(s, todo[..k], gaps[..k]) case None => None case Some(t) => Step(t, todo[k], gaps[k])
  {
    assert todo[..k + 1][..k] == todo[..k] && gaps[..k + 1][..k] == gaps[..k];
  }

  lemma NextIsLowest(l: Lists, todo: seq<Oid>, k: nat)
    requires Sorted(todo) && k < |todo| && forall x :: Listed(l, x) <==> x in todo[k..]
    ensures Listed(l, todo[k]) && RankFrom(l, RankOf(todo[k]))
    ensures forall x :: x in todo[k + 1..] <==> x in todo[k..] && x != todo[k]
  {
    assert todo[k..] == [todo[k]] + todo[k + 1..];
    forall x: Oid | Listed(l, x) && x.Vid? ensures Rank(x.ty) >= RankOf(todo[k]) {
      var i :| 0 <= i < |todo[k..]| && todo[k..][i] == x;
      assert todo[k + i] == x;
    }
  }

  ghost predicate ClearBefore(s: Store, todo: seq<Oid>, gaps: seq<Gap>, k: nat)
    requires |gaps| == |todo| && k <= |todo|
  {
    forall i | 0 <= i < k :: !InTheWay(s, todo, gaps, i)
  }

  /** After the first removals, which were accepted if nothing was in the way, the others are still listed. */
  ghost predicate SoFar(base: Store, s: Store, m: Lists, todo: seq<Oid>, gaps: seq<Gap>, k: nat)
    requires |gaps| == |todo| && k <= |todo|
  {
    && AllTidy(m) && (forall x :: Listed(m, x) <==> x in todo[k..])
    && var t := Down(s, todo[..k], gaps[..k]);
       (t.Some? ==> Stands(base, t.value, m)) && (t.Some? <==> ClearBefore(s, todo, gaps, k))
  }

  lemma ClearNext(s: Store, todo: seq<Oid>, gaps: seq<Gap>, k: nat)
    requires |gaps| == |todo| && k < |todo|
    ensures ClearBefore(s, todo, gaps, k + 1) <==> ClearBefore(s, todo, gaps, k) && !InTheWay(s, todo, gaps, k)
  {
  }

  /** The object that is due, with the others left, and without it. */
  lemma NextIsListed(l: Lists, m: Lists, todo: seq<Oid>, gaps: seq<Gap>, k: nat)
    requires AllTidy(l) && Orderly(l, todo) && |gaps| == |todo| && AllGapsUsual(l, gaps) && k < |todo|
    requires AllTidy(m) && forall x :: Listed(m, x) <==> x in todo[k..]
    ensures todo[k].Vid? && Listed(m, todo[k]) && RankFrom(m, Rank(todo[k].ty)) && UsualGap(m, gaps[k])
    ensures AllTidy(DropOne(m, todo[k])) && forall x :: Listed(DropOne(m, todo[k]), x) <==> x in todo[k + 1..]
  {
    NextIsLowest(m, todo, k);
    DropsOne(m, todo[k]);
    forall x | Listed(m, x) ensures Listed(l, x) && x.Vid? { assert x in todo; }
    StillUsual(l, m, gaps[k]);
  }

  lemma DownStep(base: Store, s: Store, l: Lists, m: Lists, todo: seq<Oid>, gaps: seq<Gap>, k: nat)
    requires AllTidy(l) && Orderly(l, todo) && |gaps| == |todo| && AllGapsUsual(l, gaps) && k < |todo|
    requires SoFar(base, s, m, todo, gaps, k)
    ensures SoFar(base, s, DropOne(m, todo[k]), todo, gaps, k + 1)
  {
    NextIsListed(l, m, todo, gaps, k);
    DownNext(s, todo, gaps, k);
    ClearNext(s, todo, gaps, k);
    var before := Down(s, todo[..k], gaps[..k]);
    if before.Some? { StepStands(base, before.value, m, todo[k], gaps[k]); }
  }

  lemma {:induction false} DownStands(base: Store, s: Store, l: Lists, todo: seq<Oid>, gaps: seq<Gap>, k: nat) returns (m: Lists)
    requires Stands(base, s, l) && Orderly(l, todo) && |gaps| == |todo| && AllGapsUsual(l, gaps) && k <= |todo|
    ensures SoFar(base, s, m, todo, gaps, k)
  {
    if k == 0 {
      m := l;
      assert todo[0..] == todo && todo[..0] == [] && gaps[..0] == [];
    } else {
      var m' := DownStands(base, s, l, todo, gaps, k - 1);
      DownStep(base, s, l, m', todo, gaps, k - 1);
      m := DropOne(m', todo[k - 1]);
    }
  }

  /**
    Teardown with learning and ageing between any two calls: every removal is accepted exactly if,
    whenever a VLAN is due, no dynamic entry names it; and then all that is left beside dynamic
    entries is what was there before the topology.
   */
  lemma {:induction false} TeardownWhileLearning(base: Store, s: Store, l: Lists, gaps: seq<Gap>)
    requires Built(base, s, l) && |gaps| == |Order(l)| && AllGapsUsual(l, gaps)
    ensures Down(s, Order(l), gaps).Some? <==> ClearBefore(s, Order(l), gaps, |gaps|)
    ensures Down(s, Order(l), gaps).Some? ==> Static(Down(s, Order(l), gaps).value) == Static(base)
  {
    var todo := Order(l);
    BuiltStands(base, s, l);
    OrderIsOrderly(l);
    var m := DownStands(base, s, l, todo, gaps, |todo|);
    assert todo[..|todo|] == todo && gaps[..|todo|] == gaps;
    if Down(s, todo, gaps).Some? {
      NoneListed(m);
      NothingListed(Static(base), Static(Down(s, todo, gaps).value));
    }
  }

  lemma NoneListed(m: Lists)
    requires forall x :: !Listed(m, x)
    ensures m == NO_OBJECTS
  {
    if |m.rifs| > 0 { assert Listed(m, m.rifs[0]); }
    if |m.vms| > 0 { assert Listed(m, m.vms[0]); }
    if |m.vlans| > 0 { assert Listed(m, m.vlans[0]); }
    if |m.bps| > 0 { assert Listed(m, m.bps[0]); }
    if |m.lms| > 0 { assert Listed(m, m.lms[0]); }
    if |m.lags| > 0 { assert Listed(m, m.lags[0]); }
  }

  // ---------- the order ----------

  /** Objects of ranks from lo up to but not including hi, sorted. */
  ghost predicate Between(todo: seq<Oid>, lo: nat, hi: nat) {
    Sorted(todo) && forall i | 0 <= i < |todo| :: lo <= RankOf(todo[i]) < hi
  }

  lemma BetweenJoin(a: seq<Oid>, b: seq<Oid>, lo: nat, mid: nat, hi: nat)
    requires Between(a, lo, mid) && Between(b, mid, hi) && lo <= mid <= hi
    ensures Between(a + b, lo, hi) && forall x :: x in a + b <==> x in a || x in b
  {
  }

  lemma TidyIsBetween(os: seq<Oid>, rank: nat)
    requires Tidy(os, rank)
    ensures Between(os, rank, rank + 1)
  {
  }

  lemma {:induction false} ReversedIsTidy(os: seq<Oid>, rank: nat)
    requires Tidy(os, rank)
    ensures Tidy(Reversed(os), rank) && forall x :: x in Reversed(os) <==> x in os
  {
    if |os| > 0 {
      var pre, last := os[..|os| - 1], os[|os| - 1];
      assert Tidy(pre, rank) && os == pre + [last];
      ReversedIsTidy(pre, rank);
      assert last !in pre;
    }
  }

  lemma OrderIsOrderly(l: Lists)
    requires AllTidy(l)
    ensures Orderly(l, Order(l))
  {
    ReversedIsTidy(l.rifs, 0);
    ReversedIsTidy(l.bps, 3);
    var a, b := Reversed(l.rifs), Reversed(l.bps);
    TidyIsBetween(a, 0);
    TidyIsBetween(l.vms, 1);
    TidyIsBetween(l.vlans, 2);
    TidyIsBetween(b, 3);
    TidyIsBetween(l.lms, 4);
    TidyIsBetween(l.lags, 5);
    BetweenJoin(a, l.vms, 0, 1, 2);
    BetweenJoin(a + l.vms, l.vlans, 0, 2, 3);
    BetweenJoin(b, l.lms, 3, 4, 5);
    BetweenJoin(b + l.lms, l.lags, 3, 5, 6);
    BetweenJoin(a + l.vms + l.vlans, b + l.lms + l.lags, 0, 3, 6);
  }

  // ---------- a history that fails ----------

  const SOME_VLAN := Vid(VLAN, 1)
  const SOME_PORT := Vid(BRIDGE_PORT, 2)
  const QUIET := Gap([], [], [])

  function OneVlanOnePort(v: Oid, b: Oid): Store {
    map[OidH(v) := map[], OidH(b) := map[ADMIN_STATE := Txt("true")]]
  }

  function Both(v: Oid, b: Oid): Lists {
    Lists([], [], [v], [b], [], [])
  }

  function LearnIn(v: Oid, b: Oid): Event {
    Learn(Field("bv_id", Ref(v), NoFields), b)
  }

  /**
    An address is learned in a tracked VLAN, on a bridge port that is still on, just before the
    VLAN is due: its removal is refused. Without the event nothing is.
   */
  lemma LearnedAddressKeepsVlan()
    ensures var v, b := SOME_VLAN, SOME_PORT;
      && Built(map[], OneVlanOnePort(v, b), Both(v, b)) && Order(Both(v, b)) == [v, b]
      && UsualGap(Both(v, b), Gap([LearnIn(v, b)], [], []))
      && Down(OneVlanOnePort(v, b), [v, b], [Gap([LearnIn(v, b)], [], []), QUIET]).None?
      && Down(OneVlanOnePort(v, b), [v, b], [QUIET, QUIET]).Some?
  {
    Ranks();
    OneOfEach(SOME_VLAN, SOME_PORT);
    BothInOrder(SOME_VLAN, SOME_PORT);
    LearnIsUsual(SOME_VLAN, SOME_PORT);
    FailsAfterLearning(SOME_VLAN, SOME_PORT);
    SucceedsInQuiet(SOME_VLAN, SOME_PORT);
  }

  lemma BothListed(v: Oid, b: Oid)
    requires v.Vid? && b.Vid? && Rank(v.ty) == 2 && Rank(b.ty) == 3
    ensures AllTidy(Both(v, b)) && forall o :: Listed(Both(v, b), o) <==> o == v || o == b
  {
  }

  lemma NoReferences(v: Oid, b: Oid)
    ensures var s := OneVlanOnePort(v, b); forall h, o: Oid | h in s :: !Refers(s, h, o)
  {
  }

  lemma OneOfEach(v: Oid, b: Oid)
    requires v.Vid? && b.Vid? && Rank(v.ty) == 2 && Rank(b.ty) == 3
    ensures Built(map[], OneVlanOnePort(v, b), Both(v, b))
  {
    var s, l := OneVlanOnePort(v, b), Both(v, b);
    BothListed(v, b);
    NoReferences(v, b);
    forall h ensures Present(map[], s, l, h) {}
    forall o ensures Added(map[], l, o) {}
    forall g, o ensures Upward(map[], s, l, g, o) {}
    assert PlainState(s, b);
  }

  lemma BothInOrder(v: Oid, b: Oid)
    ensures Order(Both(v, b)) == [v, b]
  {
    assert Reversed([b]) == [b] by { assert [b][..0] == []; }
  }

  lemma LearnIsUsual(v: Oid, b: Oid)
    requires v.Vid? && b.Vid? && Rank(v.ty) == 2 && Rank(b.ty) == 3
    ensures UsualGap(Both(v, b), Gap([LearnIn(v, b)], [], [])) && UsualGap(Both(v, b), QUIET)
  {
    var l, e := Both(v, b), LearnIn(v, b);
    assert !MentionsF(NoFields, b) && !MentionsV(Ref(v), b);
    assert MentionsF(e.key, b) <==> MentionsV(Ref(v), b) || MentionsF(NoFields, b);
    assert Usual(l, e);
  }

  lemma FailsAfterLearning(v: Oid, b: Oid)
    requires v.Vid? && b.Vid? && Rank(v.ty) == 2 && Rank(b.ty) == 3
    ensures Down(OneVlanOnePort(v, b), [v, b], [Gap([LearnIn(v, b)], [], []), QUIET]).None?
  {
    var s, e := OneVlanOnePort(v, b), LearnIn(v, b);
    var todo, gaps := [v, b], [Gap([e], [], []), QUIET];
    Learned(s, e);
    var t, h := HappenAll(s, [e]), EntryH(FDB_ENTRY, e.key);
    assert MentionsV(Ref(v), v);
    assert NamedBy(t, v, h);
    NamedIsInUse(t, v);
    DownNext(s, todo, gaps, 0);
    assert Step(s, v, gaps[0]).None?;
    assert todo[..1] == [v] && gaps[..1] == [gaps[0]];
    DownNext(s, todo, gaps, 1);
    assert todo[..2] == todo && gaps[..2] == gaps;
  }

  lemma SucceedsInQuiet(v: Oid, b: Oid)
    requires v.Vid? && b.Vid? && Rank(v.ty) == 2 && Rank(b.ty) == 3
    ensures Down(OneVlanOnePort(v, b), [v, b], [QUIET, QUIET]).Some?
  {
    OneOfEach(v, b);
    BothInOrder(v, b);
    LearnIsUsual(v, b);
    QuietGaps(Both(v, b));
    NoneIsDynamic(v, b);
    QuietTeardown(OneVlanOnePort(v, b), Both(v, b), [v, b], [QUIET, QUIET]);
  }

  lemma QuietGaps(l: Lists)
    requires UsualGap(l, QUIET)
    ensures AllGapsUsual(l, [QUIET, QUIET])
  {
  }

  lemma NoneIsDynamic(v: Oid, b: Oid)
    ensures var s := OneVlanOnePort(v, b); forall h | h in s :: !IsDynamic(s, h)
  {
  }

  lemma {:induction false} QuietTeardown(s: Store, l: Lists, todo: seq<Oid>, gaps: seq<Gap>)
    requires Built(map[], s, l) && Order(l) == todo && AllGapsUsual(l, gaps)
    requires |todo| == |gaps| == 2 && RankOf(todo[1]) == 3 && gaps[0] == QUIET
    requires forall h | h in s :: !IsDynamic(s, h)
    ensures Down(s, todo, gaps).Some?
  {
    TeardownWhileLearning(map[], s, l, gaps);
    NothingInTheWay(s, todo, gaps, todo[0]);
  }

  lemma NothingInTheWay(s: Store, todo: seq<Oid>, gaps: seq<Gap>, v: Oid)
    requires |todo| == |gaps| == 2 && todo[0] == v && RankOf(todo[1]) == 3 && gaps[0] == QUIET
    requires forall h | h in s :: !IsDynamic(s, h)
    ensures ClearBefore(s, todo, gaps, 2)
  {
    assert todo[..0] == [] && gaps[..0] == [] && HappenAll(s, []) == s;
    forall g ensures !NamedBy(s, v, g) {}
    assert !InTheWay(s, todo, gaps, 0) && !InTheWay(s, todo, gaps, 1);
  }

  lemma {:induction false} Learned(s: Store, e: Event)
    requires e.Learn? && Enabled(s, e.port) && EntryH(FDB_ENTRY, e.key) !in s
    ensures var t := HappenAll(s, [e]); EntryH(FDB_ENTRY, e.key) in t && IsDynamic(t, EntryH(FDB_ENTRY, e.key))
  {
    FdbNamesDiffer();
    assert [e][..0] == [];
    assert HappenAll(s, []) == s;
  }
}
