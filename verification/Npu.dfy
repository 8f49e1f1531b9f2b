/** Ports of the switch: rebuilding them for an SKU, and their membership in the default VLAN. */
module Npu {
  import opened Wrappers
  import opened SaiStore
  import opened Integrity
  import opened BridgePorts
  import opened Attributes
  import opened DefaultVlan
  import opened PortLinks

  // ---------- the default VLAN as a list of ports and tagging modes ----------

  /** The members of the VLAN, each once. */
  ghost predicate Enumerates(s: Store, vlan: Oid, ms: seq<Oid>) {
    (forall m :: m in ms <==> IsMember(s, vlan, m)) && forall i, j | 0 <= i < j < |ms| :: ms[i] != ms[j]
  }

  datatype Saved = Saved(port: Oid, tagging: Value)

  /** The member has a bridge port, which is bound to a port, and a tagging mode. */
  ghost predicate MemberSavable(s: Store, m: Oid) {
    && OidH(m) in s && VM_BP in s[OidH(m)] && s[OidH(m)][VM_BP].Ref? && VM_TAG in s[OidH(m)] && s[OidH(m)][VM_TAG].Txt?
    && var b := s[OidH(m)][VM_BP].oid;
       && b.Vid? && b.ty == BRIDGE_PORT && OidH(b) in s && BP_PORT in s[OidH(b)] && s[OidH(b)][BP_PORT].Ref?
  }

  ghost function SavedAt(s: Store, m: Oid): Saved {
    if MemberSavable(s, m) then Saved(s[OidH(s[OidH(m)][VM_BP].oid)][BP_PORT].oid, s[OidH(m)][VM_TAG]) else Saved(Null, Txt(""))
  }

  /** The VLAN seen as ports with tagging modes. */
  ghost function SavedOf(s: Store, ms: seq<Oid>): (r: seq<Saved>)
    ensures |r| == |ms|
  {
    seq(|ms|, i requires 0 <= i < |ms| => SavedAt(s, ms[i]))
  }

  /** This port is in the VLAN with this tagging mode. */
  ghost predicate InVlan(s: Store, vlan: Oid, rec: Saved) {
    exists m :: IsMember(s, vlan, m) && SavedAt(s, m) == rec
  }

  /** The VLAN has exactly these ports, all untagged. */
  ghost predicate UntaggedVlan(s: Store, vlan: Oid, ports: seq<Oid>) {
    forall rec: Saved :: InVlan(s, vlan, rec) <==> rec.port in ports && rec.tagging == Txt("SAI_VLAN_TAGGING_MODE_UNTAGGED")
  }

  ghost predicate OnlyMembers(s: Store, vlan: Oid, b: Oid, h: Handle) {
    h in s && Refers(s, h, b) ==> IsDynamic(s, h) || (h.OidH? && IsMember(s, vlan, h.oid))
  }

  ghost function WithoutMembers(s: Store, vlan: Oid): Store {
    map h | h in s && !(h.OidH? && IsMember(s, vlan, h.oid)) :: s[h]
  }

  /** Nothing but dynamic entries refers to the bridge port. */
  ghost predicate Loose(s: Store, b: Oid) {
    b.Vid? && b.ty == BRIDGE_PORT && Ordinary(s, b) && Unpinned(s, b)
  }

  lemma LooseGoes(s: Store, b: Oid)
    requires Loose(s, b)
    ensures RemoveBridgePort(s, b).Some?
    ensures var t := RemoveBridgePort(s, b).value;
      && Left(s, t) && OidH(b) !in t
      && forall h | h in s && h !in t :: h == OidH(b) || DynamicOn(s, h, b)
  {
    RemovesUnpinned(s, b);
  }

  lemma LooseStays(s: Store, t: Store, b: Oid)
    requires Loose(s, b) && Left(s, t) && OidH(b) in t
    ensures Loose(t, b)
  {
    forall h ensures Plainly(t, h, b) { assert Plainly(s, h, b); }
    forall h ensures !Pins(t, h, b) { assert !Pins(s, h, b); }
  }

  ghost predicate LooseFrom(s: Store, bps: seq<Oid>, n: nat) {
    forall i | n <= i < |bps| :: Loose(s, bps[i])
  }

  lemma LooseNext(s: Store, t: Store, bps: seq<Oid>, n: nat)
    requires n < |bps| && LooseFrom(s, bps, n) && Left(s, t) && forall i, j | 0 <= i < j < |bps| :: bps[i] != bps[j]
    requires forall h | h in s && h !in t :: h == OidH(bps[n]) || DynamicOn(s, h, bps[n])
    ensures LooseFrom(t, bps, n + 1)
  {
    forall i | n + 1 <= i < |bps| ensures Loose(t, bps[i]) { LooseStays(s, t, bps[i]); }
  }

  lemma LooseWithoutMembers(s: Store, vlan: Oid, b: Oid)
    requires b.Vid? && b.ty == BRIDGE_PORT && Ordinary(s, b) && forall h :: OnlyMembers(s, vlan, b, h)
    ensures Loose(WithoutMembers(s, vlan), b)
  {
    TypesDiffer();
    var t := WithoutMembers(s, vlan);
    forall h ensures Plainly(t, h, b) { assert Plainly(s, h, b); }
    forall h ensures !Pins(t, h, b) { assert OnlyMembers(s, vlan, b, h); }
  }

  ghost predicate NoMembers(s: Store, vlan: Oid) {
    forall m :: !IsMember(s, vlan, m)
  }

  /** A dynamic entry on one of these bridge ports. */
  ghost predicate DynamicOnOne(s: Store, h: Handle, bps: seq<Oid>)
    requires h in s
  {
    exists i :: 0 <= i < |bps| && DynamicOn(s, h, bps[i])
  }

  /** Members of the VLAN that were there before, or are among these. */
  ghost predicate NoOthers(s: Store, t: Store, vlan: Oid, mem: seq<Option<Oid>>) {
    forall x | IsMember(t, vlan, x) :: IsMember(s, vlan, x) || Some(x) in mem
  }

  lemma OnlyMembersCount(s: Store, vlan: Oid, o: Oid, a: Attrs)
    requires o.Vid? && o.ty != VLAN_MEMBER
    ensures forall x | IsMember(s[OidH(o) := a], vlan, x) :: IsMember(s, vlan, x)
  {
  }

  lemma OneMemberMore(s: Store, t: Store, u: Store, vlan: Oid, mem: seq<Option<Oid>>, i: nat, m: Oid, a: Attrs)
    requires NoOthers(s, t, vlan, mem) && i < |mem| && mem[i].None? && u == t[OidH(m) := a]
    ensures NoOthers(s, u, vlan, mem[i := Some(m)])
  {
    var mem' := mem[i := Some(m)];
    assert mem'[i] == Some(m);
    forall x | IsMember(u, vlan, x) ensures IsMember(s, vlan, x) || Some(x) in mem' {
      if x != m {
        assert IsMember(t, vlan, x);
        if Some(x) in mem {
          var j :| 0 <= j < |mem| && mem[j] == Some(x);
          assert mem'[j] == Some(x);
        }
      }
    }
  }

  lemma SameMembersMore(s: Store, t: Store, u: Store, vlan: Oid, mem: seq<Option<Oid>>)
    requires NoOthers(s, t, vlan, mem) && forall x | IsMember(u, vlan, x) :: IsMember(t, vlan, x)
    ensures NoOthers(s, u, vlan, mem + [None])
  {
  }

  /** What is gone went with one of these ports. */
  ghost predicate AllAccounted(s: Store, t: Store, vlan: Oid, bps: seq<Oid>, ports: seq<Oid>) {
    |bps| == |ports| && forall h | h in s && h !in t :: Accounted(s, vlan, bps, ports, h)
  }

  ghost predicate Accounted(s: Store, vlan: Oid, bps: seq<Oid>, ports: seq<Oid>, h: Handle)
    requires |bps| == |ports|
  {
    exists i :: 0 <= i < |bps| && Doomed(s, vlan, bps[i], ports[i], h)
  }

  lemma AllAccountedNext(s: Store, t: Store, u: Store, vlan: Oid, bps: seq<Oid>, ports: seq<Oid>, n: nat)
    requires n < |bps| == |ports| && Left(s, t) && AllAccounted(s, t, vlan, bps[..n], ports[..n])
    requires forall h :: Survives(t, u, vlan, bps[n], ports[n], h)
    ensures AllAccounted(s, u, vlan, bps[..n + 1], ports[..n + 1])
  {
    var bps', ports' := bps[..n + 1], ports[..n + 1];
    forall h | h in s && h !in u ensures Accounted(s, vlan, bps', ports', h) {
      if h in t {
        assert Survives(t, u, vlan, bps[n], ports[n], h) && Doomed(s, vlan, bps'[n], ports'[n], h);
      } else {
        assert Accounted(s, vlan, bps[..n], ports[..n], h);
        var i :| 0 <= i < n && Doomed(s, vlan, bps[..n][i], ports[..n][i], h);
        assert Doomed(s, vlan, bps'[i], ports'[i], h);
      }
    }
  }

  lemma AllAccountedAfter(s: Store, t: Store, u: Store, vlan: Oid, bps: seq<Oid>, ports: seq<Oid>)
    requires AllAccounted(s, t, vlan, bps, ports) && Extends(t, u)
    ensures AllAccounted(s, u, vlan, bps, ports)
  {
  }

  ghost predicate GoneAt(s: Store, vlan: Oid, b: Oid, p: Oid) {
    OidH(b) !in s && OidH(p) !in s && MemberIs(s, vlan, b, None)
  }

  ghost predicate Gone(s: Store, vlan: Oid, bps: seq<Oid>, ports: seq<Oid>, n: nat) {
    n <= |bps| && n <= |ports| && forall i | 0 <= i < n :: GoneAt(s, vlan, bps[i], ports[i])
  }

  lemma GoneNext(s: Store, t: Store, vlan: Oid, bps: seq<Oid>, ports: seq<Oid>, n: nat)
    requires n < |bps| && n < |ports| && Gone(s, vlan, bps, ports, n) && Left(s, t) && GoneAt(t, vlan, bps[n], ports[n])
    ensures Gone(t, vlan, bps, ports, n + 1)
  {
    forall i | 0 <= i < n ensures GoneAt(t, vlan, bps[i], ports[i]) {
      assert GoneAt(s, vlan, bps[i], ports[i]);
      forall x ensures !MemberFor(t, vlan, bps[i], x) { assert !MemberFor(s, vlan, bps[i], x); }
    }
  }

  ghost predicate ChainsFrom(s: Store, vlan: Oid, bps: seq<Oid>, ports: seq<Oid>, n: nat) {
    |bps| == |ports| && forall i | n <= i < |bps| :: Chain(s, vlan, bps[i], ports[i])
  }

  lemma ChainsNext(s: Store, t: Store, vlan: Oid, bps: seq<Oid>, ports: seq<Oid>, n: nat)
    requires n < |bps| && ChainsFrom(s, vlan, bps, ports, n) && Left(s, t) && forall h :: Survives(s, t, vlan, bps[n], ports[n], h)
    requires forall i, j | 0 <= i < j < |bps| :: bps[i] != bps[j] && ports[i] != ports[j]
    ensures ChainsFrom(t, vlan, bps, ports, n + 1)
  {
    forall i | n + 1 <= i < |bps| ensures Chain(t, vlan, bps[i], ports[i]) {
      OthersSurvive(s, t, vlan, bps[n], ports[n], bps[i], ports[i]);
    }
  }

  /** The first ports have the attributes of the SKU. */
  ghost predicate PortsMade(s: Store, ports: seq<Oid>, sku: seq<seq<Value>>, n: nat) {
    n <= |ports| && n <= |sku| && forall j | 0 <= j < n :: IsPort(s, ports[j], sku[j])
  }

  lemma PortsCreated(s: Store, t: Store, ports: seq<Oid>, ports': seq<Oid>, sku: seq<seq<Value>>, n: nat)
    requires PortsMade(s, ports, sku, n) && Extends(s, t) && |ports| == n < |sku| && |ports'| == n + 1 && ports'[..n] == ports
    requires IsPort(t, ports'[n], sku[n])
    ensures PortsMade(t, ports', sku, n + 1)
  {
    forall j | 0 <= j < n ensures IsPort(t, ports'[j], sku[j]) { assert ports'[..n][j] == ports[j] && IsPort(s, ports[j], sku[j]); }
  }

  /** The bridge ports are up on their ports, and those in `auto` are untagged members of the VLAN already. */
  ghost predicate Begun(s: Store, bps: seq<Oid>, ports: seq<Oid>, mem: seq<Option<Oid>>, auto: set<nat>) {
    UpOn(s, bps, ports) && AllUntagged(s, mem) && forall i | 0 <= i < |mem| :: mem[i].Some? <==> i in auto
  }

  lemma BegunNext(s: Store, t: Store, bps: seq<Oid>, bps': seq<Oid>, ports: seq<Oid>, mem: seq<Option<Oid>>, m: Option<Oid>, auto: set<nat>)
    requires Begun(s, bps, ports, mem, auto) && Extends(s, t) && |bps'| == |bps| + 1 <= |ports| && bps'[..|bps|] == bps
    requires UpAt(t, bps'[|bps|], ports[|bps|]) && (m.Some? <==> |mem| in auto) && (m.Some? ==> IsUntagged(t, m.value))
    ensures Begun(t, bps', ports, mem + [m], auto)
  {
    UpNext(s, t, bps, bps', ports);
    UntaggedNext(s, t, mem, m);
  }

  class Npu {
    const profile: Profile
    const vlan: Oid
    var dev: Dev
    var portOids: seq<Oid>
    var bpOids: seq<Oid>

    constructor (profile: Profile, vlan: Oid, dev: Dev, ports: seq<Oid>, bps: seq<Oid>)
      ensures this.profile == profile && this.vlan == vlan && this.dev == dev && portOids == ports && bpOids == bps
    {
      this.profile, this.vlan, this.dev, portOids, bpOids := profile, vlan, dev, ports, bps;
    }

    /** The switch is in order: references and ids are below the counter, members are complete. */
    ghost predicate Valid()
      reads this
    {
      && vlan.Vid? && vlan.ty == VLAN && OidH(vlan) in dev.store
      && NewOnly(dev.store, dev.next) && OldOnly(dev.store, dev.next) && Complete(dev.store, vlan)
      && Lone(profile, PORT) && Lone(profile, BRIDGE_PORT) && Lone(profile, VLAN_MEMBER)
    }

    // ---------- reading ----------

    /** The member list of the default VLAN, in an order the switch chooses. */
    method ListMembers() returns (ms: seq<Oid>)
      requires Valid()
      ensures Enumerates(dev.store, vlan, ms)
    {
      ms := [];
      var left := dev.store.Keys;
      while left != {}
        invariant left <= dev.store.Keys
        invariant forall m :: m in ms <==> IsMember(dev.store, vlan, m) && OidH(m) !in left
        invariant forall i, j | 0 <= i < j < |ms| :: ms[i] != ms[j]
        decreases left
      {
        var h :| h in left;
        left := left - {h};
        if h.OidH? && IsMember(dev.store, vlan, h.oid) { ms := ms + [h.oid]; }
      }
    }

    /** The first member found for the bridge port. */
    method GetVlanMember(b: Oid) returns (m: Option<Oid>)
      requires Valid()
      ensures m.Some? ==> MemberFor(dev.store, vlan, b, m.value)
      ensures m.None? ==> MemberIs(dev.store, vlan, b, None)
    {
      var ms := ListMembers();
      var i := 0;
      while i < |ms|
        invariant 0 <= i <= |ms|
        invariant forall j | 0 <= j < i :: !MemberFor(dev.store, vlan, b, ms[j])
      {
        assert IsMember(dev.store, vlan, ms[i]);
        if dev.store[OidH(ms[i])][VM_BP].oid == b { return Some(ms[i]); }
        i := i + 1;
      }
      forall x ensures !MemberFor(dev.store, vlan, b, x) { assert MemberFor(dev.store, vlan, b, x) ==> x in ms; }
      return None;
    }

    method FindSerdes(p: Oid) returns (z: Option<Oid>)
      ensures z.Some? ==> IsSerdes(dev.store, p, z.value)
      ensures z.None? ==> SerdesIs(dev.store, p, None)
    {
      var left := dev.store.Keys;
      while left != {}
        invariant left <= dev.store.Keys
        invariant forall x | IsSerdes(dev.store, p, x) :: OidH(x) in left
        decreases left
      {
        var h :| h in left;
        if h.OidH? && IsSerdes(dev.store, p, h.oid) { return Some(h.oid); }
        left := left - {h};
      }
      return None;
    }

    // ---------- taking ports away ----------

    method Remove(h: Handle)
      requires RemoveObj(dev.store, h).0 == Success
      modifies this`dev
      ensures dev == old(dev).(store := old(dev.store) - {h})
    {
      dev := dev.(store := RemoveObj(dev.store, h).1);
    }

    /** The membership and the bridge port; both removals are accepted. */
    method RemoveFromVlan(b: Oid, p: Oid)
      requires Valid() && Chain(dev.store, vlan, b, p)
      modifies this`dev
      ensures Left(old(dev.store), dev.store) && dev.next == old(dev.next) && OidH(b) !in dev.store
      ensures MemberIs(dev.store, vlan, b, None)
      ensures forall h | h in old(dev.store) && h !in dev.store ::
        h == OidH(b) || (h.OidH? && MemberFor(old(dev.store), vlan, b, h.oid)) || DynamicOn(old(dev.store), h, b)
    {
      ghost var s := dev.store;
      var m := GetVlanMember(b);
      if m.Some? { FoundMember(s, vlan, b, p, m.value); }
      PortGoes(s, vlan, b, p, m);
      if m.Some? { Remove(OidH(m.value)); }
      dev := dev.(store := RemoveBridgePort(dev.store, b).value);
    }

    /** The serdes and the port; both removals are accepted once the bridge port is gone. */
    method RemoveRest(b: Oid, p: Oid, ghost s: Store)
      requires Chain(s, vlan, b, p) && Left(s, dev.store) && OidH(b) !in dev.store && OidH(p) in dev.store
      modifies this`dev
      ensures Left(old(dev.store), dev.store) && dev.next == old(dev.next) && OidH(p) !in dev.store
      ensures forall h | h in old(dev.store) && h !in dev.store :: h == OidH(p) || (h.OidH? && IsSerdes(s, p, h.oid))
    {
      ghost var t := dev.store;
      var z := FindSerdes(p);
      if z.Some? { FoundSerdes(s, t, vlan, b, p, z.value); }
      RestGoes(s, t, vlan, b, p, z);
      if z.Some? { Remove(OidH(z.value)); }
      Remove(OidH(p));
    }

    /** Every call is accepted, and nothing goes but the port, what hangs on it, and dynamic entries. */
    method RemovePort(b: Oid, p: Oid)
      requires Valid() && Chain(dev.store, vlan, b, p)
      modifies this`dev
      ensures Valid() && Left(old(dev.store), dev.store)
      ensures OidH(b) !in dev.store && OidH(p) !in dev.store && MemberIs(dev.store, vlan, b, None)
      ensures forall h :: Survives(old(dev.store), dev.store, vlan, b, p, h)
    {
      ghost var s := dev.store;
      TypesDiffer();
      RemoveFromVlan(b, p);
      ghost var t := dev.store;
      RemoveRest(b, p, s);
      StaysInOrder(s, dev.store, vlan, dev.next);
      forall h ensures Survives(s, dev.store, vlan, b, p, h) {}
    }

    /** One bridge port for each port, bound to it, and every port as the removal sequence needs it. */
    ghost predicate Aligned()
      reads this
    {
      && |portOids| == |bpOids|
      && ChainsFrom(dev.store, vlan, bpOids, portOids, 0)
      && (forall i, j | 0 <= i < j < |bpOids| :: bpOids[i] != bpOids[j] && portOids[i] != portOids[j])
    }

    /** From an aligned start no removal is refused, and no port or bridge port is left. */
    method RemoveAllPorts()
      requires Valid() && Aligned()
      modifies this
      ensures Valid() && portOids == [] && bpOids == [] && Left(old(dev.store), dev.store)
      ensures Gone(dev.store, vlan, old(bpOids), old(portOids), |old(bpOids)|)
      ensures AllAccounted(old(dev.store), dev.store, vlan, old(bpOids), old(portOids))
    {
      TypesDiffer();
      var idx := 0;
      while idx < |bpOids|
        invariant 0 <= idx <= |bpOids| && bpOids == old(bpOids) && portOids == old(portOids)
        invariant Valid() && Left(old(dev.store), dev.store)
        invariant ChainsFrom(dev.store, vlan, bpOids, portOids, idx)
        invariant Gone(dev.store, vlan, bpOids, portOids, idx)
        invariant AllAccounted(old(dev.store), dev.store, vlan, bpOids[..idx], portOids[..idx])
      {
        ghost var s := dev.store;
        RemovePort(bpOids[idx], portOids[idx]);
        ChainsNext(s, dev.store, vlan, bpOids, portOids, idx);
        AllAccountedNext(old(dev.store), s, dev.store, vlan, bpOids, portOids, idx);
        GoneNext(s, dev.store, vlan, bpOids, portOids, idx);
        idx := idx + 1;
      }
      assert bpOids[..idx] == bpOids && portOids[..idx] == portOids;
      portOids, bpOids := [], [];
    }

    // ---------- building them again ----------

    method Create(ty: ObjType, attrs: seq<Value>) returns (o: Oid)
      requires Valid() && Lone(profile, ty) && WellFormedAttrs(attrs) && LiveRefs(dev.store, attrs)
      modifies this`dev
      ensures o.Vid? && o.ty == ty && o.num == old(dev.next) && OidH(o) !in old(dev.store)
      ensures dev == Dev(old(dev.store)[OidH(o) := AttrMap(attrs)], old(dev.next) + 1)
      ensures NewOnly(dev.store, dev.next) && OldOnly(dev.store, dev.next)
    {
      o := Vid(ty, dev.next);
      assert OidH(o) !in dev.store;
      LiveRefsFlat(dev.store, attrs);
      LoneCreate(profile, dev, ty, attrs);
      CreatedBelow(dev.store, dev.next, ty, attrs);
      dev := DevCreate(profile, dev, ty, attrs).0;
    }

    /** Ports with the attributes the SKU gives them, in its order. */
    method CreatePorts(sku: seq<seq<Value>>)
      requires Valid() && portOids == [] && forall i | 0 <= i < |sku| :: NoRefs(sku[i])
      modifies this`dev, this`portOids
      ensures Valid() && |portOids| == |sku| && Enlarges(old(dev.store), dev.store)
      ensures forall i | 0 <= i < |sku| :: IsPort(dev.store, portOids[i], sku[i])
      ensures Bared(dev.store, [], portOids) && NoOthers(old(dev.store), dev.store, vlan, [])
    {
      for i := 0 to |sku|
        invariant Valid() && |portOids| == i && Enlarges(old(dev.store), dev.store)
        invariant PortsMade(dev.store, portOids, sku, i)
        invariant Bared(dev.store, [], portOids) && NoOthers(old(dev.store), dev.store, vlan, [])
      {
        ghost var s, ports := dev.store, portOids;
        CreatePort(sku[i], old(dev.store));
        PortsCreated(s, dev.store, ports, portOids, sku, i);
      }
    }

    method CreatePort(attrs: seq<Value>, ghost s0: Store)
      requires Valid() && NoRefs(attrs) && Bared(dev.store, [], portOids) && NoOthers(s0, dev.store, vlan, [])
      modifies this`dev, this`portOids
      ensures Valid() && Enlarges(old(dev.store), dev.store) && NoOthers(s0, dev.store, vlan, [])
      ensures |portOids| == |old(portOids)| + 1 && portOids[..|old(portOids)|] == old(portOids)
      ensures IsPort(dev.store, portOids[|old(portOids)|], attrs) && Bared(dev.store, [], portOids)
    {
      TypesDiffer();
      ghost var s, next := dev.store, dev.next;
      var o := Create(PORT, attrs);
      MoreUnused(s, next, portOids, o, attrs);
      OnlyMembersCount(s, vlan, o, AttrMap(attrs));
      portOids := portOids + [o];
    }

    /** Bridge ports for all ports; the switch adds those in `auto` to the default VLAN by itself. */
    method CreateBridgePorts(auto: set<nat>) returns (ghost mem: seq<Option<Oid>>)
      requires Valid() && bpOids == [] && Bared(dev.store, [], portOids)
      modifies this`dev, this`bpOids
      ensures Valid() && |bpOids| == |portOids| && Linked(dev.store, vlan, bpOids, portOids, mem) && Bared(dev.store, bpOids, portOids)
      ensures Enlarges(old(dev.store), dev.store) && NoOthers(old(dev.store), dev.store, vlan, mem)
      ensures Begun(dev.store, bpOids, portOids, mem, auto)
    {
      mem := [];
      for i := 0 to |portOids|
        invariant Valid() && |bpOids| == i && Enlarges(old(dev.store), dev.store)
        invariant Linked(dev.store, vlan, bpOids, portOids, mem) && Bared(dev.store, bpOids, portOids)
        invariant NoOthers(old(dev.store), dev.store, vlan, mem) && Begun(dev.store, bpOids, portOids, mem, auto)
      {
        ghost var s, bps := dev.store, bpOids;
        ghost var m;
        m := CreateBridgePort(i, i in auto, mem, old(dev.store));
        BegunNext(s, dev.store, bps, bpOids, portOids, mem, m, auto);
        mem := mem + [m];
      }
    }

    method CreateBridgePort(i: nat, auto: bool, ghost mem: seq<Option<Oid>>, ghost s0: Store) returns (ghost m: Option<Oid>)
      requires Valid() && i < |portOids| && |bpOids| == i && NoOthers(s0, dev.store, vlan, mem)
      requires Linked(dev.store, vlan, bpOids, portOids, mem) && Bared(dev.store, bpOids, portOids)
      modifies this`dev, this`bpOids
      ensures Valid() && |bpOids| == i + 1 && Enlarges(old(dev.store), dev.store) && NoOthers(s0, dev.store, vlan, mem + [m])
      ensures Linked(dev.store, vlan, bpOids, portOids, mem + [m]) && Bared(dev.store, bpOids, portOids)
      ensures (m.Some? <==> auto) && (m.Some? ==> IsUntagged(dev.store, m.value))
      ensures bpOids[..i] == old(bpOids) && UpAt(dev.store, bpOids[i], portOids[i])
    {
      ghost var s := dev.store;
      assert Unused(s, portOids[i]);
      NewBridgePort(portOids[i], portOids, mem);
      ghost var t := dev.store;
      SameMembersMore(s0, s, t, vlan, mem);
      m := None;
      if auto {
        ghost var o;
        o := AddMissingMember(i, mem + [None], s0);
        m := Some(o);
        assert (mem + [None])[i := m] == mem + [m];
      }
    }

    /** One more bridge port, for the next of the ports. */
    method NewBridgePort(p: Oid, ghost ports: seq<Oid>, ghost mem: seq<Option<Oid>>)
      requires Valid() && Linked(dev.store, vlan, bpOids, ports, mem) && |bpOids| < |ports| && p == ports[|bpOids|]
      requires OidH(p) in dev.store && Portlike(p)
      modifies this`dev, this`bpOids
      ensures Valid() && |bpOids| == |old(bpOids)| + 1 && bpOids[..|old(bpOids)|] == old(bpOids)
      ensures Linked(dev.store, vlan, bpOids, ports, mem + [None]) && Enlarges(old(dev.store), dev.store)
      ensures bpOids[|old(bpOids)|].Vid? && bpOids[|old(bpOids)|].num == old(dev.next) && dev.next == old(dev.next) + 1
      ensures Bared(old(dev.store), old(bpOids), ports) ==> Bared(dev.store, bpOids, ports)
      ensures UpAt(dev.store, bpOids[|old(bpOids)|], p)
      ensures forall x | IsMember(dev.store, vlan, x) :: IsMember(old(dev.store), vlan, x)
    {
      ghost var s, next := dev.store, dev.next;
      BpAttrMap(p);
      TypesDiffer();
      var bp := Create(BRIDGE_PORT, BpAttrs(p));
      LinkedWithPort(s, next, vlan, bpOids, ports, mem, bp);
      if Bared(s, bpOids, ports) { BareWithPort(s, bpOids, ports, bp); }
      OnlyMembersCount(s, vlan, bp, AttrMap(BpAttrs(p)));
      bpOids := bpOids + [bp];
    }

    method CreateMember(b: Oid, tag: Value) returns (m: Oid)
      requires Valid() && OidH(b) in dev.store && tag.Txt?
      modifies this`dev
      ensures Valid() && m.Vid? && m.ty == VLAN_MEMBER && m.num == old(dev.next) && OidH(m) !in old(dev.store) && dev.next == old(dev.next) + 1
      ensures dev.store == old(dev.store)[OidH(m) := AttrMap(VmAttrs(vlan, b, tag))] && Enlarges(old(dev.store), dev.store)
    {
      VmAttrMap(vlan, b, tag);
      ghost var s := dev.store;
      m := Create(VLAN_MEMBER, VmAttrs(vlan, b, tag));
      CompleteWith(s, dev.store, vlan, b, m, tag);
    }

    /** The i-th bridge port becomes a member of the default VLAN. */
    method AddMember(i: nat, tag: Value, ghost ports: seq<Oid>, ghost mem: seq<Option<Oid>>) returns (m: Oid)
      requires Valid() && Linked(dev.store, vlan, bpOids, ports, mem) && i < |bpOids| && mem[i].None? && tag.Txt?
      modifies this`dev
      ensures Valid() && Linked(dev.store, vlan, bpOids, ports, mem[i := Some(m)])
      ensures OidH(m) !in old(dev.store) && m.Vid? && m.ty == VLAN_MEMBER && dev.next == old(dev.next) + 1
      ensures dev.store == old(dev.store)[OidH(m) := AttrMap(VmAttrs(vlan, bpOids[i], tag))] && Enlarges(old(dev.store), dev.store)
      ensures Bared(old(dev.store), bpOids, ports) ==> Bared(dev.store, bpOids, ports)
    {
      ghost var s, next := dev.store, dev.next;
      assert LinkAt(s, vlan, bpOids[i], ports[i], mem[i]);
      m := CreateMember(bpOids[i], tag);
      LinkedWithMember(s, next, vlan, bpOids, ports, mem, i, m, tag);
      if Bared(s, bpOids, ports) { BareWithMember(s, bpOids, ports, vlan, bpOids[i], m, tag); }
    }

    /** The bridge ports that are members of the default VLAN now. */
    method DefaultVlanPorts() returns (bps: seq<Oid>)
      requires Valid()
      ensures forall b :: b in bps <==> exists m :: MemberFor(dev.store, vlan, b, m)
    {
      var ms := ListMembers();
      bps := [];
      for i := 0 to |ms|
        invariant forall b :: b in bps <==> exists j :: 0 <= j < i && MemberFor(dev.store, vlan, b, ms[j])
      {
        assert IsMember(dev.store, vlan, ms[i]);
        bps := bps + [dev.store[OidH(ms[i])][VM_BP].oid];
      }
      forall b, m | MemberFor(dev.store, vlan, b, m) ensures b in bps { assert m in ms; }
    }

    /** One more bridge port becomes an untagged member of the default VLAN. */
    method AddMissingMember(i: nat, ghost now: seq<Option<Oid>>, ghost s0: Store) returns (ghost m: Oid)
      requires Valid() && Linked(dev.store, vlan, bpOids, portOids, now) && Bared(dev.store, bpOids, portOids)
      requires i < |bpOids| && now[i].None? && NoOthers(s0, dev.store, vlan, now)
      modifies this`dev
      ensures Valid() && Linked(dev.store, vlan, bpOids, portOids, now[i := Some(m)]) && Bared(dev.store, bpOids, portOids)
      ensures Enlarges(old(dev.store), dev.store) && NoOthers(s0, dev.store, vlan, now[i := Some(m)]) && IsUntagged(dev.store, m)
    {
      var o := AddMember(i, UNTAGGED, portOids, now);
      OneMemberMore(s0, old(dev.store), dev.store, vlan, now, i, o, dev.store[OidH(o)]);
      UntaggedMember(vlan, bpOids[i], dev.store, o);
      m := o;
    }

    /** Bridge ports that the switch has not added by itself are added now. */
    method AddMissingMembers(ghost mem: seq<Option<Oid>>, ghost s0: Store) returns (ghost members: seq<Oid>)
      requires NoOthers(s0, dev.store, vlan, mem)
      requires Valid() && |bpOids| == |portOids| && Linked(dev.store, vlan, bpOids, portOids, mem) && Bared(dev.store, bpOids, portOids)
      modifies this`dev
      ensures Valid() && Linked(dev.store, vlan, bpOids, portOids, AllSome(members)) && Bared(dev.store, bpOids, portOids)
      ensures FilledUntagged(dev.store, mem, AllSome(members), |mem|)
      ensures Enlarges(old(dev.store), dev.store)
      ensures NoOthers(s0, dev.store, vlan, AllSome(members))
    {
      var present := DefaultVlanPorts();
      forall i | 0 <= i < |bpOids| ensures bpOids[i] in present <==> mem[i].Some? {
        assert LinkAt(dev.store, vlan, bpOids[i], portOids[i], mem[i]);
        PresentIffMember(dev.store, vlan, bpOids[i], mem[i]);
      }
      ghost var now := mem;
      for i := 0 to |bpOids|
        invariant Valid() && Linked(dev.store, vlan, bpOids, portOids, now) && Bared(dev.store, bpOids, portOids)
        invariant Enlarges(old(dev.store), dev.store)
        invariant FilledUntagged(dev.store, mem, now, i) && NoOthers(s0, dev.store, vlan, now)
      {
        ghost var t, was := dev.store, now;
        if bpOids[i] !in present {
          ghost var m;
          m := AddMissingMember(i, now, s0);
          now := now[i := Some(m)];
        }
        FilledNext(t, dev.store, mem, was, now, i);
      }
      members := Members(now);
    }

    /** The ports of the SKU, their bridge ports, and the memberships of those. */
    method BuildPorts(sku: seq<seq<Value>>, auto: set<nat>) returns (ghost members: seq<Oid>)
      requires Valid() && portOids == [] && bpOids == [] && forall i | 0 <= i < |sku| :: NoRefs(sku[i])
      modifies this
      ensures Valid() && |portOids| == |bpOids| == |sku| && Enlarges(old(dev.store), dev.store)
      ensures Linked(dev.store, vlan, bpOids, portOids, AllSome(members)) && Bared(dev.store, bpOids, portOids)
      ensures NoOthers(old(dev.store), dev.store, vlan, AllSome(members))
      ensures forall i | 0 <= i < |sku| :: IsPort(dev.store, portOids[i], sku[i])
      ensures UpOn(dev.store, bpOids, portOids) && AllUntagged(dev.store, AllSome(members))
    {
      ghost var s0 := dev.store;
      CreatePorts(sku);
      ghost var t := dev.store;
      ghost var mem;
      mem := CreateBridgePorts(auto);
      NoOthersThen(s0, t, dev.store, vlan, mem);
      ghost var u := dev.store;
      members := AddMissingMembers(mem, s0);
      UpStays(u, dev.store, bpOids, portOids);
      AllFilled(u, dev.store, mem, members);
    }

    lemma AllFilled(s: Store, t: Store, mem: seq<Option<Oid>>, members: seq<Oid>)
      requires AllUntagged(s, mem) && Extends(s, t) && FilledUntagged(t, mem, AllSome(members), |mem|)
      ensures AllUntagged(t, AllSome(members))
    {
      forall i | 0 <= i < |members| ensures IsUntagged(t, members[i]) {
        assert AllSome(members)[i] == Some(members[i]);
        if mem[i].Some? { assert mem[i] == Some(members[i]) && IsUntagged(s, members[i]); }
      }
    }

    /** Only the bridge ports of the switch are in the default VLAN. */
    ghost predicate OwnMembers()
      reads this
    {
      forall x | IsMember(dev.store, vlan, x) :: exists i :: 0 <= i < |bpOids| && MemberFor(dev.store, vlan, bpOids[i], x)
    }

    /**
      Every bridge port is bound to a live port and in the default VLAN once, nothing else is, and
      nothing else but dynamic entries refers to the bridge ports and their memberships.
     */
    ghost predicate Home(ports: seq<Oid>, members: seq<Oid>)
      reads this
    {
      && |ports| == |bpOids| == |portOids| && Linked(dev.store, vlan, bpOids, ports, AllSome(members))
      && (forall i | 0 <= i < |ports| :: OidH(ports[i]) in dev.store)
      && NoOthers(map[], dev.store, vlan, AllSome(members))
    }

    /**
      The rebuild: from an aligned start nothing that is referred to is removed, and afterwards
      there is one port for each port of the SKU, the i-th bridge port is bound to the i-th port,
      and each bridge port is in the default VLAN exactly once, whichever the switch added itself.
      The ports are aligned again, and what is gone belonged to one of the old ports.
     */
    method SetSkuMode(sku: seq<seq<Value>>, auto: set<nat>) returns (ghost members: seq<Oid>)
      requires Valid() && Aligned() && forall i | 0 <= i < |sku| :: NoRefs(sku[i])
      modifies this
      ensures Valid() && Aligned() && |portOids| == |bpOids| == |sku|
      ensures Linked(dev.store, vlan, bpOids, portOids, AllSome(members)) && Bared(dev.store, bpOids, portOids)
      ensures forall i | 0 <= i < |sku| :: IsPort(dev.store, portOids[i], sku[i])
      ensures AllAccounted(old(dev.store), dev.store, vlan, old(bpOids), old(portOids)) && OnlyObjects(old(dev.store), dev.store)
      ensures UpOn(dev.store, bpOids, portOids) && AllUntagged(dev.store, AllSome(members))
      ensures old(OwnMembers()) ==> OwnMembers() && Home(portOids, members) && UntaggedVlan(dev.store, vlan, portOids)
    {
      ghost var s, bps, ports, own := dev.store, bpOids, portOids, OwnMembers();
      RemoveAllPorts();
      ghost var t := dev.store;
      members := BuildPorts(sku, auto);
      AllAccountedAfter(s, t, dev.store, vlan, bps, ports);
      IsAligned(members);
      if own {
        NoneLeft(s, t, vlan, bps, ports);
        IsHome(members, t);
        HomeIsUntagged(dev.store, vlan, bpOids, portOids, members);
      }
    }

    lemma IsAligned(members: seq<Oid>)
      requires |portOids| == |bpOids|
      requires Linked(dev.store, vlan, bpOids, portOids, AllSome(members)) && Bared(dev.store, bpOids, portOids)
      ensures Aligned()
    {
      forall i | 0 <= i < |bpOids| ensures Chain(dev.store, vlan, bpOids[i], portOids[i]) {
        assert LinkAt(dev.store, vlan, bpOids[i], portOids[i], AllSome(members)[i]) && Bare(dev.store, bpOids[i], portOids[i]);
        LinkIsChain(dev.store, vlan, bpOids[i], portOids[i], AllSome(members)[i]);
      }
    }

    lemma IsHome(members: seq<Oid>, t: Store)
      requires |portOids| == |bpOids| && NoMembers(t, vlan) && NoOthers(t, dev.store, vlan, AllSome(members))
      requires Linked(dev.store, vlan, bpOids, portOids, AllSome(members)) && Bared(dev.store, bpOids, portOids)
      ensures OwnMembers() && Home(portOids, members)
    {
      forall x | IsMember(dev.store, vlan, x) ensures Some(x) in AllSome(members) { assert !IsMember(t, vlan, x); }
      HomeIsOwn(portOids, members) by {
        forall i | 0 <= i < |portOids| ensures OidH(portOids[i]) in dev.store { assert Bare(dev.store, bpOids[i], portOids[i]); }
      }
    }

    lemma HomeIsOwn(ports: seq<Oid>, members: seq<Oid>)
      requires Home(ports, members)
      ensures OwnMembers()
    {
      forall x | IsMember(dev.store, vlan, x) ensures exists i :: 0 <= i < |bpOids| && MemberFor(dev.store, vlan, bpOids[i], x) {
        var i :| 0 <= i < |members| && AllSome(members)[i] == Some(x);
        assert LinkAt(dev.store, vlan, bpOids[i], ports[i], Some(x));
        assert MemberFor(dev.store, vlan, bpOids[i], x);
      }
    }

    /** At switch start: every bridge port that is not in the default VLAN is added to it. */
    method EnsureMembers(ghost mem: seq<Option<Oid>>) returns (ghost members: seq<Oid>)
      requires Valid() && Memberships(dev.store, vlan, bpOids, mem) && forall i | 0 <= i < |bpOids| :: OidH(bpOids[i]) in dev.store
      modifies this`dev
      ensures Valid() && Memberships(dev.store, vlan, bpOids, AllSome(members)) && Enlarges(old(dev.store), dev.store)
      ensures forall i | 0 <= i < |mem| :: if mem[i].Some? then members[i] == mem[i].value else IsUntagged(dev.store, members[i])
    {
      ghost var now := mem;
      for i := 0 to |bpOids|
        invariant Valid() && Memberships(dev.store, vlan, bpOids, now) && Enlarges(old(dev.store), dev.store)
        invariant forall j | 0 <= j < i :: now[j].Some?
        invariant forall j | 0 <= j < |mem| ::
          if mem[j].Some? then now[j] == mem[j] else now[j].Some? ==> IsUntagged(dev.store, now[j].value)
      {
        now := EnsureMember(i, now);
      }
      members := Members(now);
    }

    method EnsureMember(i: nat, ghost mem: seq<Option<Oid>>) returns (ghost now: seq<Option<Oid>>)
      requires Valid() && i < |bpOids| && Memberships(dev.store, vlan, bpOids, mem) && OidH(bpOids[i]) in dev.store
      modifies this`dev
      ensures Valid() && Memberships(dev.store, vlan, bpOids, now) && Enlarges(old(dev.store), dev.store) && now[i].Some?
      ensures forall j | 0 <= j < |mem| ::
        if mem[j].Some? then now[j] == mem[j] else now[j].Some? ==> IsUntagged(dev.store, now[j].value)
    {
      now := mem;
      assert MemberIs(dev.store, vlan, bpOids[i], mem[i]);
      var found := GetVlanMember(bpOids[i]);
      if found.None? {
        PresentIffMember(dev.store, vlan, bpOids[i], mem[i]);
        PresentIffMember(dev.store, vlan, bpOids[i], None);
        ghost var s := dev.store;
        var m := CreateMember(bpOids[i], UNTAGGED);
        VmAttrMap(vlan, bpOids[i], UNTAGGED);
        AttrNamesDiffer();
        now := MembershipsWith(s, vlan, bpOids, mem, i, m);
      } else {
        assert MemberFor(dev.store, vlan, bpOids[i], found.value);
      }
    }

    // ---------- taking the default VLAN apart and putting it together again ----------

    /** Nothing refers to a member of the default VLAN, and only they and dynamic entries refer to the bridge ports. */
    ghost predicate Detachable()
      reads this
    {
      && (forall m | IsMember(dev.store, vlan, m) :: MemberSavable(dev.store, m))
      && (forall h, m | h in dev.store && IsMember(dev.store, vlan, m) :: !Refers(dev.store, h, m))
      && (forall i | 0 <= i < |bpOids| :: bpOids[i].Vid? && bpOids[i].ty == BRIDGE_PORT && Ordinary(dev.store, bpOids[i]))
      && (forall i, h | 0 <= i < |bpOids| :: OnlyMembers(dev.store, vlan, bpOids[i], h))
      && (forall i, j | 0 <= i < j < |bpOids| :: bpOids[i] != bpOids[j])
    }

    lemma HomeIsDetachable(ports: seq<Oid>, members: seq<Oid>)
      requires Home(ports, members)
      ensures Detachable()
    {
      var s := dev.store;
      forall m | IsMember(s, vlan, m) ensures MemberSavable(s, m) && Unreferred(s, m) {
        var _ := MemberOfHome(s, vlan, bpOids, ports, members, m);
      }
      forall i | 0 <= i < |bpOids| ensures bpOids[i].Vid? && bpOids[i].ty == BRIDGE_PORT && Ordinary(s, bpOids[i]) {
        assert LinkAt(s, vlan, bpOids[i], ports[i], AllSome(members)[i]);
      }
      forall i, h | 0 <= i < |bpOids| ensures OnlyMembers(s, vlan, bpOids[i], h) {
        OnlyItsMember(s, vlan, bpOids[i], ports[i], members[i], h) by { assert LinkAt(s, vlan, bpOids[i], ports[i], AllSome(members)[i]); }
      }
    }

    /** The port and the tagging mode of one member are noted, and the member removed. */
    method SaveMember(m: Oid, ghost s: Store) returns (rec: Saved)
      requires Left(s, dev.store) && MemberSavable(s, m) && Unreferred(s, m)
      requires OidH(m) in dev.store && OidH(s[OidH(m)][VM_BP].oid) in dev.store
      modifies this`dev
      ensures dev == old(dev).(store := old(dev.store) - {OidH(m)}) && rec == SavedAt(s, m)
    {
      var b := dev.store[OidH(m)][VM_BP].oid;
      rec := Saved(dev.store[OidH(b)][BP_PORT].oid, dev.store[OidH(m)][VM_TAG]);
      Remove(OidH(m));
    }

    /** The port and the tagging mode of each member are noted, and the members removed. */
    method SaveAndRemoveMembers() returns (saved: seq<Saved>, ghost ms: seq<Oid>)
      requires Valid() && Detachable()
      modifies this`dev
      ensures Valid() && Enumerates(old(dev.store), vlan, ms) && saved == SavedOf(old(dev.store), ms)
      ensures dev.store == WithoutMembers(old(dev.store), vlan) && dev.next == old(dev.next)
    {
      ghost var s := dev.store;
      var mbrs := ListMembers();
      ms, saved := mbrs, [];
      for i := 0 to |mbrs|
        invariant dev == Dev(dev.store, old(dev.next)) && WithoutThese(s, dev.store, mbrs[..i])
        invariant saved == SavedOf(s, mbrs[..i])
      {
        ghost var t := dev.store;
        StillThere(s, t, vlan, mbrs, i);
        var rec := SaveMember(mbrs[i], s);
        WithoutNext(s, t, vlan, mbrs, i);
        saved := saved + [rec];
      }
      assert mbrs[..|mbrs|] == mbrs;
      AllMembersGone(s, dev.store, vlan, mbrs);
      StaysInOrder(s, dev.store, vlan, dev.next);
    }

    method RemoveLoose(b: Oid)
      requires Valid() && Loose(dev.store, b)
      modifies this`dev
      ensures Valid() && Left(old(dev.store), dev.store) && OidH(b) !in dev.store && dev.next == old(dev.next)
      ensures forall h | h in old(dev.store) && h !in dev.store :: h == OidH(b) || DynamicOn(old(dev.store), h, b)
    {
      TypesDiffer();
      LooseGoes(dev.store, b);
      dev := dev.(store := RemoveBridgePort(dev.store, b).value);
      StaysInOrder(old(dev.store), dev.store, vlan, dev.next);
    }

    /** The default bridge ports go once they are in no VLAN; with them only dynamic entries on them may go. */
    method RemoveDefaultBridgePorts()
      requires Valid() && |portOids| == |bpOids| && LooseFrom(dev.store, bpOids, 0)
      requires forall i, j | 0 <= i < j < |bpOids| :: bpOids[i] != bpOids[j]
      modifies this`dev
      ensures Valid() && Left(old(dev.store), dev.store) && OnlyPortsWent(old(dev.store), dev.store, bpOids) && dev.next == old(dev.next)
      ensures forall i | 0 <= i < |bpOids| :: OidH(bpOids[i]) !in dev.store
    {
      TypesDiffer();
      for i := 0 to |portOids|
        invariant Valid() && Left(old(dev.store), dev.store) && dev.next == old(dev.next)
        invariant LooseFrom(dev.store, bpOids, i)
        invariant forall j | 0 <= j < i :: OidH(bpOids[j]) !in dev.store
        invariant OnlyPortsWent(old(dev.store), dev.store, bpOids)
      {
        ghost var t := dev.store;
        RemoveLoose(bpOids[i]);
        LooseNext(t, dev.store, bpOids, i);
        OnlyPortsWentNext(old(dev.store), t, dev.store, bpOids, i);
      }
    }

    /** The default VLAN and its bridge ports are taken apart. */
    method DetachDefaults() returns (saved: seq<Saved>, ghost was: seq<Oid>)
      requires Valid() && Detachable() && |portOids| == |bpOids|
      modifies this`dev
      ensures Valid() && NoMembers(dev.store, vlan) && Left(old(dev.store), dev.store) && dev.next == old(dev.next)
      ensures Enumerates(old(dev.store), vlan, was) && saved == SavedOf(old(dev.store), was)
      ensures OnlyTheseWent(old(dev.store), dev.store, bpOids, was)
    {
      ghost var s := dev.store;
      saved, was := SaveAndRemoveMembers();
      ghost var t := dev.store;
      forall i | 0 <= i < |bpOids| ensures Loose(t, bpOids[i]) { LooseWithoutMembers(s, vlan, bpOids[i]); }
      RemoveDefaultBridgePorts();
      MembersThenPorts(s, t, dev.store, vlan, bpOids, was);
    }

    /** A bridge port for each noted port, and then a member for each noted tagging mode. */
    method RestoreDefaults(saved: seq<Saved>) returns (ghost ms: seq<Oid>)
      requires Valid() && NoMembers(dev.store, vlan) && forall i | 0 <= i < |saved| :: Restorable(dev.store, saved[i])
      modifies this`dev, this`bpOids
      ensures Valid() && |bpOids| == |saved| && Enlarges(old(dev.store), dev.store)
      ensures Linked(dev.store, vlan, bpOids, PortsOf(saved), AllSome(ms)) && NoOthers(map[], dev.store, vlan, AllSome(ms))
      ensures Enumerates(dev.store, vlan, ms) && SavedOf(dev.store, ms) == saved && UpOn(dev.store, bpOids, PortsOf(saved))
      ensures dev.next >= old(dev.next) && forall i | 0 <= i < |bpOids| :: bpOids[i].Vid? && bpOids[i].num >= old(dev.next)
    {
      RestoreBridgePorts(saved);
      ghost var t := dev.store;
      ms := RestoreMembers(saved);
      UpStays(t, dev.store, bpOids, PortsOf(saved));
      RestoredMembers(dev.store, vlan, bpOids, saved, ms);
    }

    method RestoreBridgePorts(saved: seq<Saved>)
      requires Valid() && NoMembers(dev.store, vlan) && forall i | 0 <= i < |saved| :: Restorable(dev.store, saved[i])
      modifies this`dev, this`bpOids
      ensures Valid() && Enlarges(old(dev.store), dev.store) && NoMembers(dev.store, vlan) && |bpOids| == |saved|
      ensures Linked(dev.store, vlan, bpOids, PortsOf(saved), Nones(|saved|)) && UpOn(dev.store, bpOids, PortsOf(saved))
      ensures dev.next >= old(dev.next) && forall i | 0 <= i < |bpOids| :: bpOids[i].Vid? && bpOids[i].num >= old(dev.next)
    {
      bpOids := [];
      ghost var ports := PortsOf(saved);
      for i := 0 to |saved|
        invariant Valid() && Enlarges(old(dev.store), dev.store) && NoMembers(dev.store, vlan) && |bpOids| == i
        invariant Linked(dev.store, vlan, bpOids, ports, Nones(i)) && UpOn(dev.store, bpOids, ports)
        invariant dev.next >= old(dev.next) && forall j | 0 <= j < i :: bpOids[j].Vid? && bpOids[j].num >= old(dev.next)
      {
        assert Restorable(old(dev.store), saved[i]);
        ghost var t, bps := dev.store, bpOids;
        NewBridgePort(saved[i].port, ports, Nones(i));
        UpNext(t, dev.store, bps, bpOids, ports);
        assert Nones(i) + [None] == Nones(i + 1);
      }
    }

    method RestoreMembers(saved: seq<Saved>) returns (ghost ms: seq<Oid>)
      requires Valid() && NoMembers(dev.store, vlan) && |bpOids| == |saved| && Linked(dev.store, vlan, bpOids, PortsOf(saved), Nones(|saved|))
      requires forall i | 0 <= i < |saved| :: saved[i].tagging.Txt?
      modifies this`dev
      ensures Valid() && Enlarges(old(dev.store), dev.store) && |ms| == |saved| && dev.next >= old(dev.next)
      ensures Linked(dev.store, vlan, bpOids, PortsOf(saved), AllSome(ms)) && NoOthers(map[], dev.store, vlan, AllSome(ms))
      ensures forall i | 0 <= i < |ms| :: BoundTo(dev.store, ms[i], VM_TAG, saved[i].tagging)
    {
      ghost var mem := Nones(|saved|);
      ghost var ports := PortsOf(saved);
      for i := 0 to |saved|
        invariant Valid() && Enlarges(old(dev.store), dev.store) && |mem| == |saved| && Linked(dev.store, vlan, bpOids, ports, mem)
        invariant dev.next >= old(dev.next)
        invariant NoOthers(map[], dev.store, vlan, mem) && HalfRestored(dev.store, mem, saved, i)
      {
        ghost var t := dev.store;
        var m := AddMember(i, saved[i].tagging, ports, mem);
        OneMemberMore(map[], t, dev.store, vlan, mem, i, m, dev.store[OidH(m)]);
        HalfRestoredNext(t, vlan, bpOids[i], mem, saved, i, m);
        mem := mem[i := Some(m)];
      }
      ms := Members(mem);
      forall i | 0 <= i < |ms| ensures BoundTo(dev.store, ms[i], VM_TAG, saved[i].tagging) { assert AllSome(ms)[i] == mem[i]; }
    }

    /**
      Taking the default VLAN apart and restoring it: it has the same ports with the same tagging
      modes as before, on new bridge ports, nothing else has changed but dynamic entries on the
      old bridge ports, and everything is in place for doing it again.
     */
    method SaveAndRestore(ghost ports: seq<Oid>, ghost members: seq<Oid>) returns (ghost was: seq<Oid>, ghost ms: seq<Oid>)
      requires Valid() && Home(ports, members)
      modifies this
      ensures Valid() && Enumerates(old(dev.store), vlan, was) && Enumerates(dev.store, vlan, ms)
      ensures SavedOf(dev.store, ms) == SavedOf(old(dev.store), was)
      ensures portOids == old(portOids) && Home(PortsOf(SavedOf(dev.store, ms)), ms) && Detachable()
      ensures UpOn(dev.store, bpOids, PortsOf(SavedOf(dev.store, ms)))
      ensures forall i | 0 <= i < |bpOids| :: OidH(bpOids[i]) !in old(dev.store)
      ensures RestWasKept(old(dev.store), dev.store, old(bpOids), was)
    {
      ghost var s, bps := dev.store, bpOids;
      HomeIsDetachable(ports, members);
      var saved;
      saved, was := DetachDefaults();
      ghost var t := dev.store;
      SavedAtHome(s, vlan, bps, ports, members, was);
      SavedStay(s, t, vlan, bps, ports, members, was);
      ms := RestoreDefaults(saved);
      KeptThroughout(s, t, dev.store, bps, was);
      assert forall i | 0 <= i < |bpOids| :: OidH(bpOids[i]) !in s;
      HomeAgain(t, saved, ms);
    }

    lemma HomeAgain(t: Store, saved: seq<Saved>, ms: seq<Oid>)
      requires |saved| == |bpOids| == |portOids| && Extends(t, dev.store) && forall i | 0 <= i < |saved| :: Restorable(t, saved[i])
      requires Linked(dev.store, vlan, bpOids, PortsOf(saved), AllSome(ms)) && NoOthers(map[], dev.store, vlan, AllSome(ms))
      ensures Home(PortsOf(saved), ms) && Detachable()
    {
      forall i | 0 <= i < |saved| ensures OidH(PortsOf(saved)[i]) in dev.store { assert Restorable(t, saved[i]); }
      HomeIsDetachable(PortsOf(saved), ms);
    }
  }

  // ---------- lemmas about detaching and restoring ----------

  /** The bridge port and port of a member of the default VLAN. */
  lemma MemberOfHome(s: Store, vlan: Oid, bps: seq<Oid>, ports: seq<Oid>, members: seq<Oid>, m: Oid) returns (i: nat)
    requires Linked(s, vlan, bps, ports, AllSome(members)) && NoOthers(map[], s, vlan, AllSome(members)) && IsMember(s, vlan, m)
    ensures i < |bps| && i < |ports| && i < |members| && members[i] == m
    ensures MemberSavable(s, m) && Unreferred(s, m) && SavedAt(s, m) == Saved(ports[i], s[OidH(m)][VM_TAG]) && Portlike(ports[i])
    ensures s[OidH(m)][VM_BP] == Ref(bps[i])
  {
    i :| 0 <= i < |members| && AllSome(members)[i] == Some(m);
    assert LinkAt(s, vlan, bps[i], ports[i], Some(m)) && MemberFor(s, vlan, bps[i], m);
  }

  lemma HomeIsUntagged(s: Store, vlan: Oid, bps: seq<Oid>, ports: seq<Oid>, members: seq<Oid>)
    requires |ports| == |bps| && Linked(s, vlan, bps, ports, AllSome(members)) && NoOthers(map[], s, vlan, AllSome(members))
    requires AllUntagged(s, AllSome(members))
    ensures UntaggedVlan(s, vlan, ports)
  {
    forall rec: Saved ensures InVlan(s, vlan, rec) <==> rec.port in ports && rec.tagging == UNTAGGED {
      if InVlan(s, vlan, rec) {
        var m :| IsMember(s, vlan, m) && SavedAt(s, m) == rec;
        var i := MemberOfHome(s, vlan, bps, ports, members, m);
        assert AllSome(members)[i] == Some(m) && IsUntagged(s, m);
      }
      if rec.port in ports && rec.tagging == UNTAGGED {
        var i :| 0 <= i < |ports| && ports[i] == rec.port;
        assert LinkAt(s, vlan, bps[i], ports[i], AllSome(members)[i]) && MemberFor(s, vlan, bps[i], members[i]);
        assert AllSome(members)[i] == Some(members[i]) && IsUntagged(s, members[i]);
        assert IsMember(s, vlan, members[i]) && SavedAt(s, members[i]) == rec;
      }
    }
  }

  /** What is noted of the VLAN determines its ports and tagging modes. */
  lemma SameNotedSameVlan(s: Store, t: Store, vlan: Oid, was: seq<Oid>, ms: seq<Oid>, rec: Saved)
    requires Enumerates(s, vlan, was) && Enumerates(t, vlan, ms) && SavedOf(t, ms) == SavedOf(s, was)
    ensures InVlan(s, vlan, rec) <==> InVlan(t, vlan, rec)
  {
    InVlanIsNoted(s, vlan, was, rec);
    InVlanIsNoted(t, vlan, ms, rec);
  }

  lemma InVlanIsNoted(s: Store, vlan: Oid, ms: seq<Oid>, rec: Saved)
    requires Enumerates(s, vlan, ms)
    ensures InVlan(s, vlan, rec) <==> rec in SavedOf(s, ms)
  {
    if InVlan(s, vlan, rec) {
      var m :| IsMember(s, vlan, m) && SavedAt(s, m) == rec;
      assert m in ms;
      var i :| 0 <= i < |ms| && ms[i] == m;
      assert SavedOf(s, ms)[i] == rec;
    }
    if rec in SavedOf(s, ms) {
      var i :| 0 <= i < |ms| && SavedOf(s, ms)[i] == rec;
      assert ms[i] in ms && IsMember(s, vlan, ms[i]);
    }
  }

  lemma OnlyItsMember(s: Store, vlan: Oid, b: Oid, p: Oid, m: Oid, h: Handle)
    requires LinkAt(s, vlan, b, p, Some(m))
    ensures OnlyMembers(s, vlan, b, h)
  {
    assert OnlyFor(s, b, Some(m), h) && MemberFor(s, vlan, b, m);
  }

  /** `t` is `s` without these objects. */
  ghost predicate WithoutThese(s: Store, t: Store, os: seq<Oid>) {
    Left(s, t) && forall h | h in s :: h in t <==> !(h.OidH? && h.oid in os)
  }

  /** The next member is still there, and so is its bridge port. */
  lemma StillThere(s: Store, t: Store, vlan: Oid, ms: seq<Oid>, i: nat)
    requires Enumerates(s, vlan, ms) && i < |ms| && WithoutThese(s, t, ms[..i]) && MemberSavable(s, ms[i])
    ensures OidH(ms[i]) in t && OidH(s[OidH(ms[i])][VM_BP].oid) in t
  {
    TypesDiffer();
    assert ms[i] in ms && IsMember(s, vlan, ms[i]);
    var b := s[OidH(ms[i])][VM_BP].oid;
    assert !IsMember(s, vlan, b) && b !in ms;
  }

  lemma WithoutNext(s: Store, t: Store, vlan: Oid, ms: seq<Oid>, i: nat)
    requires Enumerates(s, vlan, ms) && i < |ms| && WithoutThese(s, t, ms[..i])
    ensures WithoutThese(s, t - {OidH(ms[i])}, ms[..i + 1]) && SavedOf(s, ms[..i + 1]) == SavedOf(s, ms[..i]) + [SavedAt(s, ms[i])]
  {
    assert ms[..i + 1] == ms[..i] + [ms[i]];
  }

  lemma AllMembersGone(s: Store, t: Store, vlan: Oid, ms: seq<Oid>)
    requires Enumerates(s, vlan, ms) && WithoutThese(s, t, ms)
    ensures t == WithoutMembers(s, vlan)
  {
    forall h | h in s ensures h in t <==> h in WithoutMembers(s, vlan) {
      if h.OidH? { assert h.oid in ms <==> IsMember(s, vlan, h.oid); }
    }
  }

  /** Only these bridge ports and dynamic entries on them are gone. */
  ghost predicate OnlyPortsWent(s: Store, t: Store, bps: seq<Oid>) {
    forall h | h in s && h !in t :: (h.OidH? && h.oid in bps) || DynamicOnOne(s, h, bps)
  }

  lemma OnlyPortsWentNext(s: Store, t: Store, u: Store, bps: seq<Oid>, i: nat)
    requires Left(s, t) && OnlyPortsWent(s, t, bps) && i < |bps|
    requires forall h | h in t && h !in u :: h == OidH(bps[i]) || DynamicOn(t, h, bps[i])
    ensures OnlyPortsWent(s, u, bps)
  {
    forall h | h in s && h !in u ensures (h.OidH? && h.oid in bps) || DynamicOnOne(s, h, bps) {
      if h in t && h != OidH(bps[i]) { assert DynamicOn(s, h, bps[i]); }
    }
  }

  ghost predicate OnlyTheseWent(s: Store, t: Store, bps: seq<Oid>, ms: seq<Oid>) {
    forall h | h in s && h !in t :: (h.OidH? && (h.oid in bps || h.oid in ms)) || DynamicOnOne(s, h, bps)
  }

  lemma MembersThenPorts(s: Store, t: Store, u: Store, vlan: Oid, bps: seq<Oid>, ms: seq<Oid>)
    requires Enumerates(s, vlan, ms) && t == WithoutMembers(s, vlan) && Left(t, u) && OnlyPortsWent(t, u, bps)
    ensures Left(s, u) && NoMembers(u, vlan) && OnlyTheseWent(s, u, bps, ms)
  {
    forall m ensures !IsMember(u, vlan, m) {
      assert IsMember(u, vlan, m) ==> IsMember(t, vlan, m);
      assert IsMember(t, vlan, m) ==> IsMember(s, vlan, m);
    }
    forall h | h in s && h !in u ensures (h.OidH? && (h.oid in bps || h.oid in ms)) || DynamicOnOne(s, h, bps) {
      if h in t {
        if DynamicOnOne(t, h, bps) {
          var i :| 0 <= i < |bps| && DynamicOn(t, h, bps[i]);
          assert DynamicOn(s, h, bps[i]);
        }
      }
    }
  }

  function PortsOf(saved: seq<Saved>): (r: seq<Oid>)
    ensures |r| == |saved|
  {
    seq(|saved|, i requires 0 <= i < |saved| => saved[i].port)
  }

  function Nones(n: nat): (r: seq<Option<Oid>>)
    ensures |r| == n
  {
    seq(n, i => None)
  }

  predicate Restorable(s: Store, rec: Saved) {
    OidH(rec.port) in s && Portlike(rec.port) && rec.tagging.Txt?
  }

  /** The first members are there with their tagging modes, the others not yet. */
  ghost predicate HalfRestored(s: Store, mem: seq<Option<Oid>>, saved: seq<Saved>, n: nat) {
    && |mem| == |saved|
    && (forall j | 0 <= j < n && j < |mem| :: mem[j].Some? && BoundTo(s, mem[j].value, VM_TAG, saved[j].tagging))
    && (forall j | n <= j < |mem| :: mem[j].None?)
  }

  lemma HalfRestoredNext(s: Store, vlan: Oid, b: Oid, mem: seq<Option<Oid>>, saved: seq<Saved>, n: nat, m: Oid)
    requires HalfRestored(s, mem, saved, n) && n < |mem| && OidH(m) !in s
    ensures HalfRestored(s[OidH(m) := AttrMap(VmAttrs(vlan, b, saved[n].tagging))], mem[n := Some(m)], saved, n + 1)
  {
    VmAttrMap(vlan, b, saved[n].tagging);
  }

  lemma RestoredMembers(s: Store, vlan: Oid, bps: seq<Oid>, saved: seq<Saved>, ms: seq<Oid>)
    requires |bps| == |saved| == |ms| && Linked(s, vlan, bps, PortsOf(saved), AllSome(ms)) && NoOthers(map[], s, vlan, AllSome(ms))
    requires forall i | 0 <= i < |ms| :: BoundTo(s, ms[i], VM_TAG, saved[i].tagging)
    ensures Enumerates(s, vlan, ms) && SavedOf(s, ms) == saved
  {
    forall i | 0 <= i < |ms| ensures MemberFor(s, vlan, bps[i], ms[i]) && SavedAt(s, ms[i]) == saved[i] {
      assert LinkAt(s, vlan, bps[i], PortsOf(saved)[i], AllSome(ms)[i]);
      assert MemberFor(s, vlan, bps[i], ms[i]);
    }
    forall x | IsMember(s, vlan, x) ensures x in ms {
      var i :| 0 <= i < |ms| && AllSome(ms)[i] == Some(x);
      assert ms[i] == x;
    }
    forall i, j | 0 <= i < j < |ms| ensures ms[i] != ms[j] {
      assert MemberFor(s, vlan, bps[i], ms[i]) && MemberFor(s, vlan, bps[j], ms[j]) && bps[i] != bps[j];
    }
  }

  /** The members of the default VLAN are as many as its bridge ports. */
  lemma SavedAtHome(s: Store, vlan: Oid, bps: seq<Oid>, ports: seq<Oid>, members: seq<Oid>, was: seq<Oid>)
    requires |ports| == |bps| && Linked(s, vlan, bps, ports, AllSome(members)) && NoOthers(map[], s, vlan, AllSome(members))
    requires Enumerates(s, vlan, was)
    ensures |was| == |members|
  {
    forall i | 0 <= i < |members| ensures IsMember(s, vlan, members[i]) {
      assert LinkAt(s, vlan, bps[i], ports[i], AllSome(members)[i]) && MemberFor(s, vlan, bps[i], members[i]);
    }
    forall i, j | 0 <= i < j < |members| ensures members[i] != members[j] {
      assert LinkAt(s, vlan, bps[i], ports[i], AllSome(members)[i]) && MemberFor(s, vlan, bps[i], members[i]);
      assert LinkAt(s, vlan, bps[j], ports[j], AllSome(members)[j]) && MemberFor(s, vlan, bps[j], members[j]);
    }
    forall x | x in was ensures x in members {
      var i := MemberOfHome(s, vlan, bps, ports, members, x);
    }
    SameCount(was, members);
  }

  /** Two lists of the same elements, each once, have the same length. */
  lemma SameCount(a: seq<Oid>, b: seq<Oid>)
    requires forall x :: x in a <==> x in b
    requires (forall i, j | 0 <= i < j < |a| :: a[i] != a[j]) && forall i, j | 0 <= i < j < |b| :: b[i] != b[j]
    ensures |a| == |b|
  {
    CountIsLength(a);
    CountIsLength(b);
    assert (set x | x in a) == (set x | x in b);
  }

  lemma CountIsLength(a: seq<Oid>)
    requires forall i, j | 0 <= i < j < |a| :: a[i] != a[j]
    ensures |set x | x in a| == |a|
  {
    if |a| > 0 {
      var pre, last := a[..|a| - 1], a[|a| - 1];
      CountIsLength(pre);
      assert (set x | x in a) == (set x | x in pre) + {last};
    }
  }

  lemma SavedStay(s: Store, t: Store, vlan: Oid, bps: seq<Oid>, ports: seq<Oid>, members: seq<Oid>, was: seq<Oid>)
    requires |ports| == |bps| && Linked(s, vlan, bps, ports, AllSome(members)) && NoOthers(map[], s, vlan, AllSome(members))
    requires Enumerates(s, vlan, was) && OnlyTheseWent(s, t, bps, was) && forall i | 0 <= i < |ports| :: OidH(ports[i]) in s
    ensures forall i | 0 <= i < |was| :: Restorable(t, SavedOf(s, was)[i])
  {
    forall i | 0 <= i < |was| ensures Restorable(t, SavedOf(s, was)[i]) {
      assert was[i] in was && IsMember(s, vlan, was[i]);
      var k := MemberOfHome(s, vlan, bps, ports, members, was[i]);
      PortIsApart(s, vlan, bps, ports, AllSome(members), ports[k]);
      assert !IsMember(s, vlan, ports[k]) && ports[k] !in was;
    }
  }

  /** Everything is as before but for these bridge ports and members, and dynamic entries on the bridge ports. */
  ghost predicate RestWasKept(s: Store, t: Store, bps: seq<Oid>, ms: seq<Oid>) {
    forall h | h in s && !(h.OidH? && (h.oid in bps || h.oid in ms)) && !DynamicOnOne(s, h, bps) :: h in t && t[h] == s[h]
  }

  lemma KeptThroughout(s: Store, t: Store, u: Store, bps: seq<Oid>, ms: seq<Oid>)
    requires Left(s, t) && OnlyTheseWent(s, t, bps, ms) && Extends(t, u)
    ensures RestWasKept(s, u, bps, ms)
  {
  }

  /** The bridge ports, which may be listed more than once, have these memberships. */
  ghost predicate Memberships(s: Store, vlan: Oid, bps: seq<Oid>, mem: seq<Option<Oid>>) {
    |mem| == |bps| && forall i | 0 <= i < |bps| :: MemberIs(s, vlan, bps[i], mem[i])
  }

  lemma MembershipsWith(s: Store, vlan: Oid, bps: seq<Oid>, mem: seq<Option<Oid>>, i: nat, m: Oid) returns (now: seq<Option<Oid>>)
    requires Memberships(s, vlan, bps, mem) && i < |bps| && mem[i].None? && OidH(m) !in s && m.Vid? && m.ty == VLAN_MEMBER
    ensures Memberships(s[OidH(m) := AttrMap(VmAttrs(vlan, bps[i], UNTAGGED))], vlan, bps, now) && now[i] == Some(m)
    ensures forall j | 0 <= j < |mem| :: (mem[j].Some? ==> now[j] == mem[j]) && (now[j] == mem[j] || now[j] == Some(m))
  {
    AttrNamesDiffer();
    VmAttrMap(vlan, bps[i], UNTAGGED);
    var a := AttrMap(VmAttrs(vlan, bps[i], UNTAGGED));
    now := seq(|mem|, j requires 0 <= j < |mem| => if bps[j] == bps[i] then Some(m) else mem[j]);
    forall j | 0 <= j < |bps| ensures MemberIs(s[OidH(m) := a], vlan, bps[j], now[j]) {
      assert MemberIs(s, vlan, bps[j], mem[j]) && MemberIs(s, vlan, bps[i], None);
      MembersWith(s, vlan, bps[j], mem[j], m, a);
      if bps[j] == bps[i] { OneMembership(s, vlan, bps[i], mem[i], mem[j]); }
    }
  }

  lemma OneMembership(s: Store, vlan: Oid, b: Oid, m: Option<Oid>, n: Option<Oid>)
    requires MemberIs(s, vlan, b, m) && MemberIs(s, vlan, b, n)
    ensures m == n
  {
    PresentIffMember(s, vlan, b, m);
    PresentIffMember(s, vlan, b, n);
    if m.Some? { assert MemberFor(s, vlan, b, m.value) && MemberFor(s, vlan, b, n.value); }
  }

  lemma NoOthersThen(s: Store, t: Store, u: Store, vlan: Oid, mem: seq<Option<Oid>>)
    requires NoOthers(s, t, vlan, []) && NoOthers(t, u, vlan, mem)
    ensures NoOthers(s, u, vlan, mem)
  {
    forall x | IsMember(u, vlan, x) ensures IsMember(s, vlan, x) || Some(x) in mem {
      if IsMember(t, vlan, x) { assert IsMember(s, vlan, x); }
    }
  }

  /** With the bridge ports their memberships are gone. */
  lemma NoneLeft(s: Store, t: Store, vlan: Oid, bps: seq<Oid>, ports: seq<Oid>)
    requires Left(s, t) && Gone(t, vlan, bps, ports, |bps|)
    requires forall x | IsMember(s, vlan, x) :: exists i :: 0 <= i < |bps| && MemberFor(s, vlan, bps[i], x)
    ensures NoMembers(t, vlan)
  {
    forall x ensures !IsMember(t, vlan, x) {
      if IsMember(t, vlan, x) {
        assert IsMember(s, vlan, x);
        var i :| 0 <= i < |bps| && MemberFor(s, vlan, bps[i], x);
        assert GoneAt(t, vlan, bps[i], ports[i]) && MemberFor(t, vlan, bps[i], x);
      }
    }
  }

  lemma OthersSurvive(s: Store, t: Store, vlan: Oid, b: Oid, p: Oid, b': Oid, p': Oid)
    requires Chain(s, vlan, b, p) && Chain(s, vlan, b', p') && b != b' && p != p' && Left(s, t)
    requires forall h :: Survives(s, t, vlan, b, p, h)
    ensures Chain(t, vlan, b', p')
  {
    TypesDiffer();
    assert Survives(s, t, vlan, b, p, OidH(b')) && Survives(s, t, vlan, b, p, OidH(p'));
    ChainStays(s, t, vlan, b', p');
  }
}
