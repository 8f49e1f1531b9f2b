/**
  Removing a bridge port while the switch goes on learning: disable it, flush its dynamic FDB
  entries, remove it.
 */
module BridgePorts {
  import opened Wrappers
  import opened SaiStore

  const FDB_ENTRY := "FDB_ENTRY"
  const FDB_TYPE := "SAI_FDB_ENTRY_ATTR_TYPE"
  const FDB_PORT := "SAI_FDB_ENTRY_ATTR_BRIDGE_PORT_ID"
  const DYNAMIC := Txt("SAI_FDB_ENTRY_TYPE_DYNAMIC")
  const ADMIN_STATE := "SAI_BRIDGE_PORT_ATTR_ADMIN_STATE"

  // ---------- the calls ----------

  predicate IsDynamic(s: Store, h: Handle)
    requires h in s
  {
    h.EntryH? && h.ty == FDB_ENTRY && FDB_TYPE in s[h] && s[h][FDB_TYPE] == DYNAMIC
  }

  predicate DynamicOn(s: Store, h: Handle, b: Oid)
    requires h in s
  {
    IsDynamic(s, h) && FDB_PORT in s[h] && s[h][FDB_PORT] == Ref(b)
  }

  function Flush(s: Store, b: Oid): Store {
    map h | h in s && !DynamicOn(s, h, b) :: s[h]
  }

  function Disable(s: Store, b: Oid): (Status, Store) {
    SetAttr(s, OidH(b), [Txt(ADMIN_STATE), Txt("false")])
  }

  /** The three calls with nothing in between; None if one of them fails. */
  function RemoveBridgePort(s: Store, b: Oid): Option<Store> {
    var (st, s1) := Disable(s, b);
    if st != Success then None
    else
      var (st', s2) := RemoveObj(Flush(s1, b), OidH(b));
      if st' == Success then Some(s2) else None
  }

  // ---------- the switch between the calls ----------

  datatype Event = Learn(key: Fields, port: Oid) | Age(key: Fields)

  predicate Enabled(s: Store, b: Oid) {
    OidH(b) in s && ADMIN_STATE in s[OidH(b)] && s[OidH(b)][ADMIN_STATE] == Txt("true")
  }

  /** An address is learned on an enabled port, or moves there, unless its entry is static; a dynamic entry may age out. */
  function Happen(s: Store, e: Event): Store {
    var h := EntryH(FDB_ENTRY, e.key);
    match e
    case Learn(_, b) =>
      if Enabled(s, b) && (h in s ==> IsDynamic(s, h)) then s[h := map[FDB_TYPE := DYNAMIC, FDB_PORT := Ref(b)]] else s
    case Age(_) => if h in s && IsDynamic(s, h) then s - {h} else s
  }

  /** What an event changes: the one entry of its address, unless that is static or, for learning, the port is not enabled. */
  lemma HappensExactly(s: Store, e: Event)
    ensures var h, t := EntryH("FDB_ENTRY", e.key), Happen(s, e);
      && (forall g | g != h :: (g in t <==> g in s) && (g in s ==> t[g] == s[g]))
      && (e.Age? && h in s ==> if IsDynamic(s, h) then h !in t else h in t && t[h] == s[h])
      && (e.Age? && h !in s ==> h !in t)
      && (e.Learn? && Enabled(s, e.port) && (h in s ==> IsDynamic(s, h)) ==> h in t && DynamicOn(t, h, e.port))
      && (e.Learn? && !(Enabled(s, e.port) && (h in s ==> IsDynamic(s, h))) ==> t == s)
  {
    FdbNamesDiffer();
  }

  function HappenAll(s: Store, es: seq<Event>): Store {
    if |es| == 0 then s else Happen(HappenAll(s, es[..|es| - 1]), es[|es| - 1])
  }

  /** The address of an entry never names a bridge port. */
  ghost predicate Plain(b: Oid, es: seq<Event>) {
    forall i | 0 <= i < |es| :: !MentionsF(es[i].key, b)
  }

  // ---------- what refers to the port ----------

  /** `h` refers to the port and is not a dynamic entry. */
  predicate Pins(s: Store, h: Handle, b: Oid) {
    h in s && Refers(s, h, b) && !IsDynamic(s, h)
  }

  /** Nothing but dynamic entries refers to the port. */
  ghost predicate Unpinned(s: Store, b: Oid) {
    forall h :: !Pins(s, h, b)
  }

  ghost predicate Plainly(s: Store, h: Handle, b: Oid) {
    h in s && IsDynamic(s, h) && Refers(s, h, b) ==> DynamicOn(s, h, b)
  }

  /** Dynamic entries refer to a bridge port only by being on it, and its admin state is plain text. */
  ghost predicate Ordinary(s: Store, b: Oid) {
    && (forall h :: Plainly(s, h, b))
    && OidH(b) in s && (ADMIN_STATE in s[OidH(b)] ==> s[OidH(b)][ADMIN_STATE].Txt?)
  }

  /** The port is off, and no dynamic entry is left on it. */
  ghost predicate Clean(s: Store, b: Oid) {
    !Enabled(s, b) && forall h :: h in s && IsDynamic(s, h) ==> !Refers(s, h, b)
  }

  ghost predicate SamePin(s: Store, t: Store, b: Oid, h: Handle) {
    Pins(s, h, b) <==> Pins(t, h, b)
  }

  ghost predicate SamePins(s: Store, t: Store, b: Oid) {
    forall h :: SamePin(s, t, b, h)
  }

  lemma FdbNamesDiffer()
    ensures FDB_TYPE != FDB_PORT
  {
    assert FDB_TYPE[19] != FDB_PORT[19];
  }

  lemma {:induction false} LearnedRefers(s: Store, key: Fields, c: Oid, b: Oid)
    requires !MentionsF(key, b)
    ensures var h, a := EntryH(FDB_ENTRY, key), map[FDB_TYPE := DYNAMIC, FDB_PORT := Ref(c)];
      IsDynamic(s[h := a], h) && DynamicOn(s[h := a], h, c) && (Refers(s[h := a], h, b) ==> b == c)
  {
    FdbNamesDiffer();
  }

  /** Learning and ageing leave alone what pins the port, and the port itself. */
  lemma {:induction false} HappenKeeps(s: Store, e: Event, b: Oid)
    requires !MentionsF(e.key, b)
    ensures var t := Happen(s, e);
      && SamePins(s, t, b)
      && (OidH(b) in s <==> OidH(b) in t) && (OidH(b) in s ==> t[OidH(b)] == s[OidH(b)])
      && (Ordinary(s, b) ==> Ordinary(t, b)) && (Clean(s, b) ==> Clean(t, b))
  {
    var t, h := Happen(s, e), EntryH(FDB_ENTRY, e.key);
    if e.Learn? { LearnedRefers(s, e.key, e.port, b); }
    forall g | g in t && g != h ensures g in s && t[g] == s[g] {}
    forall g ensures SamePin(s, t, b, g) {}
    if Ordinary(s, b) {
      forall g ensures Plainly(t, g, b) { assert Plainly(s, g, b); }
    }
  }

  lemma {:induction false} HappenAllKeeps(s: Store, es: seq<Event>, b: Oid)
    requires Plain(b, es)
    ensures var t := HappenAll(s, es);
      && SamePins(s, t, b)
      && (OidH(b) in s <==> OidH(b) in t) && (OidH(b) in s ==> t[OidH(b)] == s[OidH(b)])
      && (Ordinary(s, b) ==> Ordinary(t, b)) && (Clean(s, b) ==> Clean(t, b))
  {
    if |es| > 0 {
      var pre := es[..|es| - 1];
      assert Plain(b, pre);
      HappenAllKeeps(s, pre, b);
      var u := HappenAll(s, pre);
      HappenKeeps(u, es[|es| - 1], b);
      forall h ensures SamePin(s, HappenAll(s, es), b, h) { assert SamePin(s, u, b, h) && SamePin(u, HappenAll(s, es), b, h); }
    } else {
      forall h ensures SamePin(s, s, b, h) {}
    }
  }

  lemma DisableKeeps(s: Store, b: Oid)
    requires Ordinary(s, b)
    ensures Disable(s, b).0 == Success
    ensures var t := Disable(s, b).1;
      && t.Keys == s.Keys && (forall h | h in s && h != OidH(b) :: t[h] == s[h])
      && Ordinary(t, b) && !Enabled(t, b) && SamePins(s, t, b)
  {
    var t, o := Disable(s, b).1, OidH(b);
    var attr := [Txt(ADMIN_STATE), Txt("false")];
    assert attr[..0] == [] && WellFormedAttrs([]) && WellFormedAttrs(attr);
    assert t == s[o := s[o][ADMIN_STATE := Txt("false")]];
    assert Txt("false") != Txt("true");
    forall k | k in s[o] && k != ADMIN_STATE ensures k in t[o] && t[o][k] == s[o][k] {}
    assert MentionsA(t[o], b) <==> MentionsA(s[o], b);
    forall h ensures SamePin(s, t, b, h) {}
    forall h ensures Plainly(t, h, b) { assert Plainly(s, h, b); }
  }

  lemma FlushKeeps(s: Store, b: Oid)
    requires Ordinary(s, b) && !Enabled(s, b)
    ensures var t := Flush(s, b);
      && (forall h | h in s && !DynamicOn(s, h, b) :: h in t && t[h] == s[h])
      && Ordinary(t, b) && Clean(t, b) && SamePins(s, t, b)
  {
    var t := Flush(s, b);
    forall h | h in t && IsDynamic(t, h) ensures !Refers(t, h, b) { assert Plainly(s, h, b); }
    forall h ensures SamePin(s, t, b, h) {}
    forall h ensures Plainly(t, h, b) {}
  }

  lemma RemoveIffUnpinned(s: Store, b: Oid)
    requires Clean(s, b) && OidH(b) in s
    ensures RemoveObj(s, OidH(b)).0 == Success <==> Unpinned(s, b)
    ensures Unpinned(s, b) ==> var t := RemoveObj(s, OidH(b)).1;
      t == s - {OidH(b)} && Clean(t, b) && Unpinned(t, b)
  {
    if InUse(s, b) {
      var h :| h in s && Refers(s, h, b);
      assert Pins(s, h, b);
    } else {
      forall h ensures !Pins(s, h, b) && !Pins(s - {OidH(b)}, h, b) {}
    }
  }

  lemma NothingRefers(s: Store, b: Oid)
    requires Clean(s, b) && Unpinned(s, b)
    ensures forall h | h in s :: !Refers(s, h, b)
  {
    forall h | h in s ensures !Refers(s, h, b) { assert !Pins(s, h, b); }
  }

  // ---------- main theorem ----------

  /** The stores before and after each of the three calls, with events before, between and after them. */
  datatype Trace = Trace(s1: Store, disabled: Store, s2: Store, flushed: Store, s3: Store, status: Status, removed: Store, end: Store)

  function Removal(s: Store, b: Oid, e0: seq<Event>, e1: seq<Event>, e2: seq<Event>, e3: seq<Event>): Trace {
    var s1 := HappenAll(s, e0);
    var disabled := Disable(s1, b).1;
    var s2 := HappenAll(disabled, e1);
    var flushed := Flush(s2, b);
    var s3 := HappenAll(flushed, e2);
    var (status, removed) := RemoveObj(s3, OidH(b));
    Trace(s1, disabled, s2, flushed, s3, status, removed, HappenAll(removed, e3))
  }

  /**
    Whatever the switch learns or ages between the calls: the removal succeeds exactly when
    nothing but dynamic entries referred to the port at the start; afterwards nothing refers to
    it; and the calls drop nothing but the port and dynamic entries on it.
   */
  lemma NothingLeftDangling(s: Store, b: Oid, e0: seq<Event>, e1: seq<Event>, e2: seq<Event>, e3: seq<Event>)
    requires Ordinary(s, b) && Plain(b, e0) && Plain(b, e1) && Plain(b, e2) && Plain(b, e3)
    ensures var t := Removal(s, b, e0, e1, e2, e3);
      && (t.status == Success <==> Unpinned(s, b))
      && (t.status == Success ==> OidH(b) !in t.end && forall h | h in t.end :: !Refers(t.end, h, b))
      && t.disabled.Keys == t.s1.Keys
      && (forall h | h in t.s2 && !DynamicOn(t.s2, h, b) :: h in t.flushed && t.flushed[h] == t.s2[h])
      && t.removed == if t.status == Success then t.s3 - {OidH(b)} else t.s3
  {
    var t := Removal(s, b, e0, e1, e2, e3);
    HappenAllKeeps(s, e0, b);
    DisableKeeps(t.s1, b);
    HappenAllKeeps(t.disabled, e1, b);
    FlushKeeps(t.s2, b);
    HappenAllKeeps(t.flushed, e2, b);
    PinsThroughout(s, t.s1, t.disabled, t.s2, t.flushed, t.s3, b);
    RemoveIffUnpinned(t.s3, b);
    if t.status == Success {
      HappenAllKeeps(t.removed, e3, b);
      forall h ensures !Pins(t.end, h, b) { assert SamePin(t.removed, t.end, b, h); }
      NothingRefers(t.end, b);
    }
  }

  lemma PinsThroughout(s: Store, s1: Store, s2: Store, s3: Store, s4: Store, s5: Store, b: Oid)
    requires SamePins(s, s1, b) && SamePins(s1, s2, b) && SamePins(s2, s3, b) && SamePins(s3, s4, b) && SamePins(s4, s5, b)
    ensures Unpinned(s, b) <==> Unpinned(s5, b)
  {
    forall h ensures Pins(s, h, b) <==> Pins(s5, h, b) {
      assert SamePin(s, s1, b, h) && SamePin(s1, s2, b, h) && SamePin(s2, s3, b, h) && SamePin(s3, s4, b, h) && SamePin(s4, s5, b, h);
    }
  }

  /** The same without events, as the callers below use it. */
  lemma RemovesUnpinned(s: Store, b: Oid)
    requires Ordinary(s, b)
    ensures RemoveBridgePort(s, b).Some? <==> Unpinned(s, b)
    ensures Unpinned(s, b) ==> RemoveBridgePort(s, b) == Some(Flush(s, b) - {OidH(b)})
  {
    DisableKeeps(s, b);
    var s1 := Disable(s, b).1;
    FlushKeeps(s1, b);
    forall h ensures SamePin(s, Flush(s1, b), b, h) { assert SamePin(s, s1, b, h) && SamePin(s1, Flush(s1, b), b, h); }
    RemoveIffUnpinned(Flush(s1, b), b);
    assert Flush(s1, b) - {OidH(b)} == Flush(s, b) - {OidH(b)};
    assert Unpinned(s, b) <==> Unpinned(Flush(s1, b), b) by {
      forall h ensures Pins(s, h, b) <==> Pins(Flush(s1, b), h, b) { assert SamePin(s, Flush(s1, b), b, h); }
    }
  }
}
