/** Whole topology runs: the default VLAN is taken apart, a layout is built, everything is torn down and restored. */
module Layout {
  import opened Wrappers
  import opened SaiStore
  import opened Integrity
  import opened BridgePorts
  import opened Attributes
  import opened DefaultVlan
  import opened TopologyLists
  import opened PortLinks
  import opened TopologyNames
  import opened TopologyLayouts
  import opened TopologyBuilder
  import opened Npu

  /** A live object that is neither a bridge port nor a VLAN member. */
  ghost predicate Standing(s: Store, o: Oid) {
    OidH(o) in s && Portlike(o)
  }

  /** What a topology needs of the switch: its ports, virtual router and the switch object are there. */
  ghost predicate Equipped(npu: Npu, vrf: Oid, switchOid: Oid)
    reads npu
  {
    && Standing(npu.dev.store, vrf) && Standing(npu.dev.store, switchOid)
    && (forall i | 0 <= i < |npu.portOids| :: Standing(npu.dev.store, npu.portOids[i]))
    && (forall ty | Rank(ty) < 6 :: Lone(npu.profile, ty))
  }

  /** The store in which the VLAN ids of these two ports are 0. */
  function PvidsCleared(s: Store, ports: seq<Oid>): Store
    requires |ports| >= 24
  {
    WithText(WithText(s, OidH(ports[2]), PORT_PVID, "0"), OidH(ports[0]), PORT_PVID, "0")
  }

  /** The ports that get a field of their own, port0 to port23. */
  function Exposed(ports: seq<Oid>): (r: seq<Oid>)
    requires |ports| >= 24
    ensures |r| == 24 && forall i | 0 <= i < 24 :: r[i] == ports[i]
  {
    ports[..24]
  }

  // ---------- the ends of a run ----------

  /** The default VLAN is saved and taken apart, and a builder set up on what is left. */
  method Begin(npu: Npu, vrf: Oid, switchOid: Oid, ghost ports: seq<Oid>, ghost members: seq<Oid>)
      returns (topo: Topology, saved: seq<Saved>, ghost was: seq<Oid>)
    requires npu.Valid() && npu.Home(ports, members) && Equipped(npu, vrf, switchOid) && |npu.portOids| >= 24
    modifies npu`dev
    ensures npu.Valid() && NoMembers(npu.dev.store, npu.vlan) && Equipped(npu, vrf, switchOid) && npu.dev.next == old(npu.dev.next)
    ensures Enumerates(old(npu.dev.store), npu.vlan, was) && saved == SavedOf(old(npu.dev.store), was)
    ensures Left(old(npu.dev.store), npu.dev.store) && OnlyTheseWent(old(npu.dev.store), npu.dev.store, npu.bpOids, was)
    ensures |saved| == |npu.bpOids| && forall i | 0 <= i < |saved| :: Restorable(npu.dev.store, saved[i])
    ensures fresh(topo) && topo.Valid() && topo.dev == npu.dev && topo.base == npu.dev.store && topo.ports == Exposed(npu.portOids)
    ensures topo.def == NO_OBJECTS && topo.names == map[] && topo.start == npu.dev.next
    ensures topo.defaultVrf == vrf && topo.switchOid == switchOid
  {
    ghost var s := npu.dev.store;
    npu.HomeIsDetachable(ports, members);
    saved, was := npu.DetachDefaults();
    SavedAtHome(s, npu.vlan, npu.bpOids, ports, members, was);
    SavedStay(s, npu.dev.store, npu.vlan, npu.bpOids, ports, members, was);
    StillEquipped(npu, s, vrf, switchOid, ports, members, was);
    topo := new Topology(npu.profile, npu.dev, Exposed(npu.portOids), vrf, switchOid);
  }

  lemma StillEquipped(npu: Npu, s: Store, vrf: Oid, switchOid: Oid, ports: seq<Oid>, members: seq<Oid>, was: seq<Oid>)
    requires Linked(s, npu.vlan, npu.bpOids, ports, AllSome(members)) && Enumerates(s, npu.vlan, was)
    requires OnlyTheseWent(s, npu.dev.store, npu.bpOids, was) && forall ty | Rank(ty) < 6 :: Lone(npu.profile, ty)
    requires Standing(s, vrf) && Standing(s, switchOid) && forall i | 0 <= i < |npu.portOids| :: Standing(s, npu.portOids[i])
    ensures Equipped(npu, vrf, switchOid)
  {
    forall o | Standing(s, o) ensures Standing(npu.dev.store, o) { StaysPut(s, npu.dev.store, npu.vlan, npu.bpOids, ports, members, was, o); }
  }

  lemma StaysPut(s: Store, t: Store, vlan: Oid, bps: seq<Oid>, ports: seq<Oid>, members: seq<Oid>, was: seq<Oid>, o: Oid)
    requires Linked(s, vlan, bps, ports, AllSome(members)) && Enumerates(s, vlan, was) && OnlyTheseWent(s, t, bps, was) && Standing(s, o)
    ensures Standing(t, o)
  {
    PortIsApart(s, vlan, bps, ports, AllSome(members), o);
    assert o in was ==> IsMember(s, vlan, o);
  }

  /** After teardown the default VLAN is restored from what was saved. */
  method End(npu: Npu, topo: Topology, saved: seq<Saved>, ghost t: Store) returns (ghost ms: seq<Oid>)
    requires npu.Valid() && npu.dev.store == t && NoMembers(t, npu.vlan)
    requires |saved| == |npu.bpOids| == |npu.portOids| && forall i | 0 <= i < |saved| :: Restorable(t, saved[i])
    requires topo.Valid() && topo.dev.store == topo.base && SameButPvids(t, topo.base, topo.ports) && npu.dev.next == topo.start
    modifies npu
    ensures npu.Valid() && npu.portOids == old(npu.portOids) && npu.Home(PortsOf(saved), ms) && npu.Detachable()
    ensures Enumerates(npu.dev.store, npu.vlan, ms) && SavedOf(npu.dev.store, ms) == saved
    ensures Enlarges(topo.dev.store, npu.dev.store)
    ensures forall i | 0 <= i < |npu.bpOids| :: npu.bpOids[i].Vid? && npu.bpOids[i].num >= old(npu.dev.next)
  {
    SameMembers(t, topo.base, topo.ports, npu.vlan);
    npu.dev := topo.dev;
    ms := npu.RestoreDefaults(saved);
    npu.HomeAgain(topo.dev.store, saved, ms);
  }

  /** VLAN ids of ports have nothing to do with memberships. */
  lemma SameMembers(s: Store, t: Store, ports: seq<Oid>, vlan: Oid)
    requires NoMembers(s, vlan) && SameButPvids(s, t, ports)
    ensures NoMembers(t, vlan) && Complete(t, vlan)
  {
    PvidIsApart();
    forall m ensures !IsMember(t, vlan, m) {
      assert IsMember(t, vlan, m) ==> SameButPvid(s[OidH(m)], t[OidH(m)]);
      assert IsMember(t, vlan, m) ==> IsMember(s, vlan, m);
    }
  }

  lemma PvidIsApart()
    ensures PORT_PVID != VM_VLAN && PORT_PVID != FDB_PORT && PORT_PVID != FDB_TYPE
  {
    assert PORT_PVID[9] != VM_VLAN[9] && PORT_PVID[4] != FDB_PORT[4] && PORT_PVID[4] != FDB_TYPE[4];
  }

  // ---------- whole runs ----------

  /** The default VLAN is as it was, on new bridge ports, and a run can begin again. */
  twostate predicate Restored(npu: Npu, vrf: Oid, switchOid: Oid, was: seq<Oid>, ms: seq<Oid>)
    reads npu
  {
    && npu.Valid() && npu.portOids == old(npu.portOids) && Equipped(npu, vrf, switchOid)
    && npu.Home(PortsOf(SavedOf(npu.dev.store, ms)), ms) && npu.Detachable()
    && Enumerates(old(npu.dev.store), npu.vlan, was) && Enumerates(npu.dev.store, npu.vlan, ms)
    && SavedOf(npu.dev.store, ms) == SavedOf(old(npu.dev.store), was)
    && (forall i | 0 <= i < |npu.bpOids| :: OidH(npu.bpOids[i]) !in old(npu.dev.store))
    && OnlyObjects(old(npu.dev.store), npu.dev.store)
  }

  /** The same routes. */
  ghost predicate SameRoutes(s: Store, t: Store) {
    forall h: Handle | h.EntryH? && h.ty == ROUTE_ENTRY :: h in s <==> h in t
  }

  lemma SameRoutesSameLayouts(s: Store, t: Store, switchOid: Oid, vrf: Oid, layout: LayoutKind)
    requires SameRoutes(s, t)
    ensures HasRoutes(s, switchOid, vrf, layout) <==> HasRoutes(t, switchOid, vrf, layout)
  {
  }

  /** Only objects and dynamic FDB entries went. */
  lemma RoutesUntouched(s: Store, t: Store, bps: seq<Oid>, was: seq<Oid>)
    requires Left(s, t) && OnlyTheseWent(s, t, bps, was)
    ensures SameRoutes(s, t)
  {
    NoFdbEntry();
    forall h: Handle | h.EntryH? && h.ty == ROUTE_ENTRY ensures h in s <==> h in t {
      assert h in s ==> !DynamicOnOne(s, h, bps);
    }
  }

  lemma NoFdbEntry()
    ensures ROUTE_ENTRY != FDB_ENTRY
  {
    assert ROUTE_ENTRY[0] != FDB_ENTRY[0];
  }

  /** A layout can be set up: there are ports for all its indices, and it needs no route that is there already. */
  ghost predicate CanSetUp(s: Store, count: nat, switchOid: Oid, vrf: Oid, layout: LayoutKind) {
    count >= 24 && !HasRoutes(s, switchOid, vrf, layout)
  }

  /**
    A layout is set up and torn down: the default VLAN has the same ports with the same tagging
    modes as before, on new bridge ports; the VLAN ids of two ports are 0 now, and everything else
    is as it was but for dynamic entries on the old bridge ports. This is so exactly if there are 24
    ports and the default routes of the layout, if it has any, are not there yet. With fewer ports
    nothing happens; nothing is said of what a set-up that raises leaves, as no teardown follows it.
   */
  method SetupAndTeardown(npu: Npu, vrf: Oid, switchOid: Oid, layout: LayoutKind, ghost ports: seq<Oid>, ghost members: seq<Oid>)
      returns (ok: bool, ghost was: seq<Oid>, ghost ms: seq<Oid>)
    requires npu.Valid() && npu.Home(ports, members) && Equipped(npu, vrf, switchOid)
    modifies npu
    ensures ok <==> CanSetUp(old(npu.dev.store), |old(npu.portOids)|, switchOid, vrf, layout)
    ensures ok ==> Restored(npu, vrf, switchOid, was, ms)
    ensures ok ==> RestWasKept(PvidsCleared(old(npu.dev.store), old(npu.portOids)), npu.dev.store, old(npu.bpOids), was)
    ensures |old(npu.portOids)| < 24 ==> !ok && npu.dev == old(npu.dev) && npu.bpOids == old(npu.bpOids) && npu.portOids == old(npu.portOids)
  {
    if |npu.portOids| < 24 { return false, [], []; }
    ok, was, ms := RunLayout(npu, vrf, switchOid, layout, ports, members);
  }

  method RunLayout(npu: Npu, vrf: Oid, switchOid: Oid, layout: LayoutKind, ghost ports: seq<Oid>, ghost members: seq<Oid>)
      returns (ok: bool, ghost was: seq<Oid>, ghost ms: seq<Oid>)
    requires npu.Valid() && npu.Home(ports, members) && Equipped(npu, vrf, switchOid) && |npu.portOids| >= 24
    modifies npu
    ensures ok <==> !HasRoutes(old(npu.dev.store), switchOid, vrf, layout)
    ensures ok ==> Restored(npu, vrf, switchOid, was, ms)
    ensures ok ==> RestWasKept(PvidsCleared(old(npu.dev.store), npu.portOids), npu.dev.store, old(npu.bpOids), was)
  {
    var topo, saved;
    ms := [];
    ok, topo, saved, was := BeginLayout(npu, vrf, switchOid, layout, ports, members);
    if ok { ms := FinishLayout(npu, vrf, switchOid, topo, saved, old(npu.dev.store), was); }
  }

  /** Detaching, building and tearing down; the default VLAN is not restored yet. */
  method BeginLayout(npu: Npu, vrf: Oid, switchOid: Oid, layout: LayoutKind, ghost ports: seq<Oid>, ghost members: seq<Oid>)
      returns (ok: bool, topo: Topology, saved: seq<Saved>, ghost was: seq<Oid>)
    requires npu.Valid() && npu.Home(ports, members) && Equipped(npu, vrf, switchOid) && |npu.portOids| >= 24
    modifies npu`dev
    ensures ok <==> !HasRoutes(old(npu.dev.store), switchOid, vrf, layout)
    ensures npu.Valid() && NoMembers(npu.dev.store, npu.vlan) && Equipped(npu, vrf, switchOid) && npu.dev.next == old(npu.dev.next)
    ensures Enumerates(old(npu.dev.store), npu.vlan, was) && saved == SavedOf(old(npu.dev.store), was)
    ensures |saved| == |npu.bpOids| && forall i | 0 <= i < |saved| :: Restorable(npu.dev.store, saved[i])
    ensures Left(old(npu.dev.store), npu.dev.store) && OnlyTheseWent(old(npu.dev.store), npu.dev.store, npu.bpOids, was)
    ensures fresh(topo) && topo.ports == Exposed(npu.portOids)
    ensures ok ==> topo.Valid() && npu.dev.next == topo.start && topo.dev.store == topo.base == PvidsCleared(npu.dev.store, topo.ports)
    ensures ok ==> SameButPvids(npu.dev.store, topo.base, topo.ports)
  {
    topo, saved, was := Begin(npu, vrf, switchOid, ports, members);
    RoutesUntouched(old(npu.dev.store), npu.dev.store, npu.bpOids, was);
    ok := BuildLayout(topo, layout);
  }

  method FinishLayout(npu: Npu, vrf: Oid, switchOid: Oid, topo: Topology, saved: seq<Saved>, ghost s: Store, ghost was: seq<Oid>)
      returns (ghost ms: seq<Oid>)
    requires npu.Valid() && NoMembers(npu.dev.store, npu.vlan) && Equipped(npu, vrf, switchOid)
    requires |saved| == |npu.bpOids| == |npu.portOids| && forall i | 0 <= i < |saved| :: Restorable(npu.dev.store, saved[i])
    requires |npu.portOids| >= 24 && topo.Valid() && topo.ports == Exposed(npu.portOids) && npu.dev.next == topo.start
    requires topo.dev.store == topo.base == PvidsCleared(npu.dev.store, topo.ports) && SameButPvids(npu.dev.store, topo.base, topo.ports)
    requires Left(s, npu.dev.store) && OnlyTheseWent(s, npu.dev.store, npu.bpOids, was)
    modifies npu
    ensures npu.Valid() && npu.portOids == old(npu.portOids) && Equipped(npu, vrf, switchOid)
    ensures npu.Home(PortsOf(saved), ms) && npu.Detachable()
    ensures Enumerates(npu.dev.store, npu.vlan, ms) && SavedOf(npu.dev.store, ms) == saved && OnlyObjects(s, npu.dev.store)
    ensures RestWasKept(PvidsCleared(s, npu.portOids), npu.dev.store, old(npu.bpOids), was)
    ensures forall i | 0 <= i < |npu.bpOids| :: npu.bpOids[i].Vid? && npu.bpOids[i].num >= old(npu.dev.next)
  {
    ghost var t, u := npu.dev.store, topo.dev.store;
    ms := Finish(npu, vrf, switchOid, topo, saved, t);
    KeptWithPvids(s, t, npu.dev.store, old(npu.bpOids), was, topo.ports);
    NewSince(s, t, u, npu.dev.store);
  }

  /** The end of a run, which leaves the switch equipped for the next. */
  method Finish(npu: Npu, vrf: Oid, switchOid: Oid, topo: Topology, saved: seq<Saved>, ghost t: Store) returns (ghost ms: seq<Oid>)
    requires npu.Valid() && npu.dev.store == t && NoMembers(t, npu.vlan) && Equipped(npu, vrf, switchOid)
    requires |saved| == |npu.bpOids| == |npu.portOids| && forall i | 0 <= i < |saved| :: Restorable(t, saved[i])
    requires topo.Valid() && topo.dev.store == topo.base && SameButPvids(t, topo.base, topo.ports) && npu.dev.next == topo.start
    modifies npu
    ensures npu.Valid() && npu.portOids == old(npu.portOids) && Equipped(npu, vrf, switchOid)
    ensures npu.Home(PortsOf(saved), ms) && npu.Detachable()
    ensures Enumerates(npu.dev.store, npu.vlan, ms) && SavedOf(npu.dev.store, ms) == saved
    ensures Enlarges(topo.dev.store, npu.dev.store)
    ensures forall i | 0 <= i < |npu.bpOids| :: npu.bpOids[i].Vid? && npu.bpOids[i].num >= old(npu.dev.next)
  {
    ms := End(npu, topo, saved, t);
    EquippedAfter(npu, t, topo.dev.store, vrf, switchOid);
  }

  lemma NewSince(s: Store, t: Store, u: Store, v: Store)
    requires Left(s, t) && t.Keys == u.Keys && Enlarges(u, v)
    ensures OnlyObjects(s, v)
  {
  }

  /** The builder part of a run; only the VLAN ids of two ports are left of it. */
  method BuildLayout(topo: Topology, layout: LayoutKind) returns (ok: bool)
    requires topo.Valid() && topo.def == NO_OBJECTS && topo.names == map[] && topo.base == topo.dev.store && |topo.ports| >= 24
    modifies topo
    ensures ok <==> !HasRoutes(old(topo.dev.store), topo.switchOid, topo.defaultVrf, layout)
    ensures ok ==> topo.Valid() && topo.base == topo.dev.store == PvidsCleared(old(topo.dev.store), topo.ports)
    ensures ok ==> SameButPvids(old(topo.dev.store), topo.base, topo.ports)
  {
    ghost var t := topo.dev.store;
    ok := topo.Setup(layout);
    if !ok { return; }
    topo.TeardownLayout(layout, WithText(WithText(t, OidH(topo.ports[0]), PORT_PVID, "10"), OidH(topo.ports[2]), PORT_PVID, "20"));
    ClearedAtLast(t, topo.ports);
  }

  /** The last text counts. */
  lemma TextTwice(s: Store, h: Handle, g: Handle, attr: string, x: string, y: string)
    ensures WithText(WithText(s, h, attr, x), h, attr, y) == WithText(s, h, attr, y)
    ensures h != g ==> WithText(WithText(s, h, attr, x), g, attr, y) == WithText(WithText(s, g, attr, y), h, attr, x)
  {
    if h in s { assert s[h][attr := Txt(x)][attr := Txt(y)] == s[h][attr := Txt(y)]; }
  }

  lemma ClearedAtLast(t: Store, ports: seq<Oid>)
    requires |ports| >= 24
    ensures PvidsCleared(WithText(WithText(t, OidH(ports[0]), PORT_PVID, "10"), OidH(ports[2]), PORT_PVID, "20"), ports) == PvidsCleared(t, ports)
    ensures SameButPvids(t, PvidsCleared(t, ports), ports)
  {
    var p, q := OidH(ports[0]), OidH(ports[2]);
    var t1 := WithText(t, p, PORT_PVID, "10");
    TextTwice(t1, q, q, PORT_PVID, "20", "0");
    TextTwice(t, p, q, PORT_PVID, "10", "0");
    TextTwice(WithText(t, q, PORT_PVID, "0"), p, q, PORT_PVID, "10", "0");
    PvidChanges(t, ports, 2, "0");
    PvidChanges(WithText(t, q, PORT_PVID, "0"), ports, 0, "0");
    PvidsThen(t, WithText(t, q, PORT_PVID, "0"), PvidsCleared(t, ports), ports);
  }

  lemma EquippedAfter(npu: Npu, t: Store, u: Store, vrf: Oid, switchOid: Oid)
    requires t.Keys == u.Keys && Extends(u, npu.dev.store) && forall ty | Rank(ty) < 6 :: Lone(npu.profile, ty)
    requires Standing(t, vrf) && Standing(t, switchOid) && forall i | 0 <= i < |npu.portOids| :: Standing(t, npu.portOids[i])
    ensures Equipped(npu, vrf, switchOid)
  {
    forall o | Standing(t, o) ensures Standing(npu.dev.store, o) { assert OidH(o) in u; }
  }

  lemma KeptWithPvids(s: Store, t: Store, u: Store, bps: seq<Oid>, was: seq<Oid>, ports: seq<Oid>)
    requires |ports| >= 24 && Left(s, t) && OnlyTheseWent(s, t, bps, was) && Extends(PvidsCleared(t, ports), u)
    ensures RestWasKept(PvidsCleared(s, ports), u, bps, was)
  {
    PvidIsApart();
    var s', t' := PvidsCleared(s, ports), PvidsCleared(t, ports);
    forall h | h in s' && !(h.OidH? && (h.oid in bps || h.oid in was)) && !DynamicOnOne(s', h, bps) ensures h in u && u[h] == s'[h] {
      assert forall b :: DynamicOn(s', h, b) <==> DynamicOn(s, h, b);
      assert h in t;
      assert t'[h] == s'[h];
    }
  }

  method RunBuilders(npu: Npu, vrf: Oid, switchOid: Oid, calls: seq<BuilderCall>, ghost ports: seq<Oid>, ghost members: seq<Oid>)
      returns (ghost was: seq<Oid>, ghost ms: seq<Oid>)
    requires npu.Valid() && npu.Home(ports, members) && Equipped(npu, vrf, switchOid) && |npu.portOids| >= 24
    requires forall i | 0 <= i < |calls| :: CallKnown(npu.dev.store, calls[i])
    modifies npu
    ensures Restored(npu, vrf, switchOid, was, ms)
    ensures KeptButPvids(old(npu.dev.store), npu.dev.store, old(npu.bpOids), was, Exposed(npu.portOids))
  {
    ghost var s := npu.dev.store;
    var topo, saved;
    topo, saved, was := Begin(npu, vrf, switchOid, ports, members);
    ghost var t := npu.dev.store;
    forall i | 0 <= i < |calls| ensures VrfsKnown(t, calls[i]) {
      StillKnown(s, t, npu.vlan, npu.bpOids, ports, members, was, calls[i]);
    }
    var built := topo.BuildAndTearDown(calls);
    ghost var u := topo.dev.store;
    ms := Finish(npu, vrf, switchOid, topo, saved, t);
    KeptThroughAll(s, t, u, npu.dev.store, old(npu.bpOids), was, topo.ports);
    NewSince(s, t, u, npu.dev.store);
  }

  /**
    The same for any builder calls, wherever one of them raises: VLAN ids of ports are all that may
    differ. With fewer than 24 ports nothing happens.
   */
  method BuildersAndTeardown(npu: Npu, vrf: Oid, switchOid: Oid, calls: seq<BuilderCall>, ghost ports: seq<Oid>, ghost members: seq<Oid>)
      returns (ran: bool, ghost was: seq<Oid>, ghost ms: seq<Oid>)
    requires npu.Valid() && npu.Home(ports, members) && Equipped(npu, vrf, switchOid)
    requires forall i | 0 <= i < |calls| :: CallKnown(npu.dev.store, calls[i])
    modifies npu
    ensures ran <==> |old(npu.portOids)| >= 24
    ensures ran ==> Restored(npu, vrf, switchOid, was, ms)
    ensures ran ==> KeptButPvids(old(npu.dev.store), npu.dev.store, old(npu.bpOids), was, Exposed(old(npu.portOids)))
    ensures !ran ==> npu.dev == old(npu.dev) && npu.bpOids == old(npu.bpOids) && npu.portOids == old(npu.portOids)
  {
    ran := |npu.portOids| >= 24;
    if !ran { return false, [], []; }
    was, ms := RunBuilders(npu, vrf, switchOid, calls, ports, members);
  }

  ghost predicate CallKnown(s: Store, call: BuilderCall) {
    call.RoutingInterfaces? ==> forall i | 0 <= i < |call.configs| && call.configs[i].vrf.Some? :: Standing(s, call.configs[i].vrf.value)
  }

  lemma StillKnown(s: Store, t: Store, vlan: Oid, bps: seq<Oid>, ports: seq<Oid>, members: seq<Oid>, was: seq<Oid>, call: BuilderCall)
    requires Linked(s, vlan, bps, ports, AllSome(members)) && Enumerates(s, vlan, was) && OnlyTheseWent(s, t, bps, was) && CallKnown(s, call)
    ensures VrfsKnown(t, call)
  {
    forall o | Standing(s, o) ensures OidH(o) in t { StaysPut(s, t, vlan, bps, ports, members, was, o); }
  }

  /** Everything is as before but for these objects, dynamic entries on the bridge ports, and VLAN ids of ports. */
  ghost predicate KeptButPvids(s: Store, u: Store, bps: seq<Oid>, was: seq<Oid>, ports: seq<Oid>) {
    forall h | h in s && !(h.OidH? && (h.oid in bps || h.oid in was)) && !DynamicOnOne(s, h, bps) ::
      h in u && SameButPvid(s[h], u[h]) && (u[h] != s[h] ==> h.OidH? && h.oid in ports)
  }

  lemma KeptThroughAll(s: Store, t: Store, t': Store, u: Store, bps: seq<Oid>, was: seq<Oid>, ports: seq<Oid>)
    requires Left(s, t) && OnlyTheseWent(s, t, bps, was) && SameButPvids(t, t', ports) && Extends(t', u)
    ensures KeptButPvids(s, u, bps, was, ports)
  {
    forall h | h in s && !(h.OidH? && (h.oid in bps || h.oid in was)) && !DynamicOnOne(s, h, bps)
      ensures h in u && SameButPvid(s[h], u[h]) && (u[h] != s[h] ==> h.OidH? && h.oid in ports)
    {
      assert h in t && h in t';
    }
  }

  // ---------- sessions ----------

  /** An object that rebuilding the ports does not take away. */
  ghost predicate Lasting(s: Store, o: Oid) {
    Standing(s, o) && (o.Vid? ==> o.ty != PORT && o.ty != PORT_SERDES)
  }

  /** The port of the SKU, with its attributes but perhaps another VLAN id. */
  ghost predicate SkuPort(s: Store, p: Oid, attrs: seq<Value>) {
    p.Vid? && p.ty == PORT && OidH(p) in s && SameButPvid(AttrMap(attrs), s[OidH(p)])
  }

  /** The ports of the SKU are there, in order. */
  ghost predicate SkuThere(s: Store, ports: seq<Oid>, sku: seq<seq<Value>>) {
    |ports| == |sku| && forall i | 0 <= i < |sku| :: SkuPort(s, ports[i], sku[i])
  }

  /**
    A session: the ports are rebuilt for an SKU, and then layouts come and go, any number of them
    in any order. No set-up raises exactly if each layout can be set up on the switch as it was at
    the start; then the switch is ready for the next run after each, and the ports of the SKU are
    there with their attributes, but for the VLAN id, and are the untagged ports of the default VLAN.
   */
  method Session(npu: Npu, vrf: Oid, switchOid: Oid, sku: seq<seq<Value>>, auto: set<nat>, layouts: seq<LayoutKind>)
      returns (ok: bool, ghost ports: seq<Oid>, ghost members: seq<Oid>)
    requires npu.Valid() && npu.Aligned() && npu.OwnMembers() && forall i | 0 <= i < |sku| :: NoRefs(sku[i])
    requires Lasting(npu.dev.store, vrf) && Lasting(npu.dev.store, switchOid) && forall ty | Rank(ty) < 6 :: Lone(npu.profile, ty)
    modifies npu
    ensures ok <==> forall n | 0 <= n < |layouts| :: CanSetUp(old(npu.dev.store), |sku|, switchOid, vrf, layouts[n])
    ensures ok ==> npu.Valid() && npu.Home(ports, members) && Equipped(npu, vrf, switchOid)
    ensures ok ==> SkuThere(npu.dev.store, npu.portOids, sku) && UntaggedVlan(npu.dev.store, npu.vlan, npu.portOids)
  {
    ghost var s := npu.dev.store;
    ports, members := StartSession(npu, vrf, switchOid, sku, auto);
    for n := 0 to |layouts|
      invariant npu.Valid() && npu.Home(ports, members) && Equipped(npu, vrf, switchOid)
      invariant SkuThere(npu.dev.store, npu.portOids, sku) && SameRoutes(s, npu.dev.store)
      invariant UntaggedVlan(npu.dev.store, npu.vlan, npu.portOids)
      invariant forall m | 0 <= m < n :: CanSetUp(s, |sku|, switchOid, vrf, layouts[m])
    {
      SameRoutesSameLayouts(s, npu.dev.store, switchOid, vrf, layouts[n]);
      ok, ports, members := NextLayout(npu, vrf, switchOid, layouts[n], sku, ports, members);
      assert ok <==> CanSetUp(s, |sku|, switchOid, vrf, layouts[n]);
      if !ok { return; }
    }
    ok := true;
  }

  /** The rebuild leaves everything as a topology needs it, and the routes as they were. */
  method StartSession(npu: Npu, vrf: Oid, switchOid: Oid, sku: seq<seq<Value>>, auto: set<nat>)
      returns (ghost ports: seq<Oid>, ghost members: seq<Oid>)
    requires npu.Valid() && npu.Aligned() && npu.OwnMembers() && forall i | 0 <= i < |sku| :: NoRefs(sku[i])
    requires Lasting(npu.dev.store, vrf) && Lasting(npu.dev.store, switchOid) && forall ty | Rank(ty) < 6 :: Lone(npu.profile, ty)
    modifies npu
    ensures npu.Valid() && npu.Home(ports, members) && Equipped(npu, vrf, switchOid)
    ensures SkuThere(npu.dev.store, npu.portOids, sku) && SameRoutes(old(npu.dev.store), npu.dev.store)
    ensures UntaggedVlan(npu.dev.store, npu.vlan, npu.portOids)
  {
    ghost var s, bps, olds := npu.dev.store, npu.bpOids, npu.portOids;
    members := npu.SetSkuMode(sku, auto);
    ports := npu.portOids;
    Outlasts(s, npu.dev.store, npu.vlan, bps, olds, vrf);
    Outlasts(s, npu.dev.store, npu.vlan, bps, olds, switchOid);
    RoutesOutlast(s, npu.dev.store, npu.vlan, bps, olds);
    TypesDiffer();
    forall i | 0 <= i < |sku| ensures Standing(npu.dev.store, npu.portOids[i]) { assert IsPort(npu.dev.store, npu.portOids[i], sku[i]); }
  }

  /** One more layout; the routes stay as they were. */
  method NextLayout(npu: Npu, vrf: Oid, switchOid: Oid, layout: LayoutKind, ghost sku: seq<seq<Value>>,
                    ghost ports: seq<Oid>, ghost members: seq<Oid>)
      returns (ok: bool, ghost ports': seq<Oid>, ghost members': seq<Oid>)
    requires npu.Valid() && npu.Home(ports, members) && Equipped(npu, vrf, switchOid) && SkuThere(npu.dev.store, npu.portOids, sku)
    modifies npu
    ensures ok <==> CanSetUp(old(npu.dev.store), |sku|, switchOid, vrf, layout)
    ensures ok ==> npu.Valid() && npu.Home(ports', members') && Equipped(npu, vrf, switchOid)
    ensures ok ==> SkuThere(npu.dev.store, npu.portOids, sku) && SameRoutes(old(npu.dev.store), npu.dev.store)
    ensures ok ==> npu.portOids == old(npu.portOids)
    ensures ok ==> forall rec :: InVlan(npu.dev.store, npu.vlan, rec) <==> InVlan(old(npu.dev.store), npu.vlan, rec)
  {
    ghost var t, bps := npu.dev.store, npu.bpOids;
    ghost var was;
    ok, was, members' := SetupAndTeardown(npu, vrf, switchOid, layout, ports, members);
    ports' := [];
    if !ok { return; }
    forall i | 0 <= i < |sku| ensures SkuPort(npu.dev.store, npu.portOids[i], sku[i]) {
      SkuPortStays(t, npu.dev.store, npu.vlan, bps, ports, members, was, npu.portOids, npu.portOids[i], sku[i]);
    }
    RoutesKept(t, npu.dev.store, npu.portOids, bps, was);
    forall rec ensures InVlan(npu.dev.store, npu.vlan, rec) <==> InVlan(t, npu.vlan, rec) {
      SameNotedSameVlan(t, npu.dev.store, npu.vlan, was, members', rec);
    }
    ports' := PortsOf(SavedOf(npu.dev.store, members'));
  }

  lemma RoutesKept(s: Store, u: Store, ports: seq<Oid>, bps: seq<Oid>, was: seq<Oid>)
    requires |ports| >= 24 && RestWasKept(PvidsCleared(s, ports), u, bps, was) && OnlyObjects(s, u)
    ensures SameRoutes(s, u)
  {
    NoFdbEntry();
    var s' := PvidsCleared(s, ports);
    forall h: Handle | h.EntryH? && h.ty == ROUTE_ENTRY ensures h in s <==> h in u {
      assert h in s' ==> !DynamicOnOne(s', h, bps);
    }
  }

  lemma RoutesOutlast(s: Store, t: Store, vlan: Oid, bps: seq<Oid>, ports: seq<Oid>)
    requires AllAccounted(s, t, vlan, bps, ports) && OnlyObjects(s, t)
    ensures SameRoutes(s, t)
  {
    NoFdbEntry();
    forall h: Handle | h.EntryH? && h.ty == ROUTE_ENTRY ensures h in s <==> h in t {
      forall i | 0 <= i < |bps| ensures !Doomed(s, vlan, bps[i], ports[i], h) {}
    }
  }

  lemma Outlasts(s: Store, t: Store, vlan: Oid, bps: seq<Oid>, ports: seq<Oid>, o: Oid)
    requires Lasting(s, o) && AllAccounted(s, t, vlan, bps, ports) && ChainsFrom(s, vlan, bps, ports, 0)
    ensures Lasting(t, o)
  {
    forall i | 0 <= i < |bps| ensures !Doomed(s, vlan, bps[i], ports[i], OidH(o)) {
      ChainTypes(s, vlan, bps[i], ports[i]);
      NotDoomed(s, vlan, bps[i], ports[i], o);
    }
    assert !Accounted(s, vlan, bps, ports, OidH(o));
  }

  lemma ChainTypes(s: Store, vlan: Oid, b: Oid, p: Oid)
    requires Chain(s, vlan, b, p)
    ensures b.Vid? && b.ty == BRIDGE_PORT && p.Vid? && p.ty == PORT
  {
  }

  lemma NotDoomed(s: Store, vlan: Oid, b: Oid, p: Oid, o: Oid)
    requires Lasting(s, o) && b.Vid? && b.ty == BRIDGE_PORT && p.Vid? && p.ty == PORT
    ensures !Doomed(s, vlan, b, p, OidH(o))
  {
  }

  lemma SkuPortStays(s: Store, u: Store, vlan: Oid, bps: seq<Oid>, ports: seq<Oid>, members: seq<Oid>, was: seq<Oid>, all: seq<Oid>,
                     p: Oid, attrs: seq<Value>)
    requires Linked(s, vlan, bps, ports, AllSome(members)) && Enumerates(s, vlan, was) && |all| >= 24
    requires RestWasKept(PvidsCleared(s, all), u, bps, was) && SkuPort(s, p, attrs)
    ensures SkuPort(u, p, attrs)
  {
    TypesDiffer();
    PortIsApart(s, vlan, bps, ports, AllSome(members), p);
    assert p in was ==> IsMember(s, vlan, p);
    var s' := PvidsCleared(s, all);
    assert OidH(p) in s' && SameButPvid(s[OidH(p)], s'[OidH(p)]);
    assert u[OidH(p)] == s'[OidH(p)];
  }

  /** A switch that has its default VLAN, virtual router and switch object, and no ports yet. */
  function BootStore(): Store {
    map[OidH(Vid(VLAN, 0)) := map[], OidH(BOOT_VRF) := map[], OidH(BOOT_SWITCH) := map[]]
  }

  const BOOT_VRF := Vid("VIRTUAL_ROUTER", 1)
  const BOOT_SWITCH := Vid("SWITCH", 2)

  /** From there the ports of any SKU are built, and everything is in place for a session. */
  method FreshSwitch(profile: Profile, sku: seq<seq<Value>>, auto: set<nat>) returns (npu: Npu, ghost members: seq<Oid>)
    requires Lone(profile, PORT) && (forall ty | Rank(ty) < 6 :: Lone(profile, ty)) && forall i | 0 <= i < |sku| :: NoRefs(sku[i])
    ensures fresh(npu) && npu.Valid() && npu.Aligned() && npu.OwnMembers() && |npu.portOids| == |npu.bpOids| == |sku|
    ensures npu.Home(npu.portOids, members) && npu.profile == profile
    ensures (forall i | 0 <= i < |sku| :: IsPort(npu.dev.store, npu.portOids[i], sku[i])) && UpOn(npu.dev.store, npu.bpOids, npu.portOids)
    ensures UntaggedVlan(npu.dev.store, npu.vlan, npu.portOids)
    ensures Lasting(npu.dev.store, BOOT_VRF) && Lasting(npu.dev.store, BOOT_SWITCH)
  {
    TypesDiffer();
    Ranks();
    BootTypes();
    npu := new Npu(profile, Vid(VLAN, 0), Dev(BootStore(), 3), [], []);
    members := npu.SetSkuMode(sku, auto);
    Outlasts(BootStore(), npu.dev.store, npu.vlan, [], [], BOOT_VRF);
    Outlasts(BootStore(), npu.dev.store, npu.vlan, [], [], BOOT_SWITCH);
  }

  lemma BootTypes()
    ensures Lasting(BootStore(), BOOT_VRF) && Lasting(BootStore(), BOOT_SWITCH)
  {
    assert "VIRTUAL_ROUTER"[1] == 'I' && "SWITCH"[0] == 'S';
    assert BRIDGE_PORT[0] == 'B' && VLAN_MEMBER[1] == 'L' && PORT[0] == 'P' && PORT_SERDES[0] == 'P';
  }
}
