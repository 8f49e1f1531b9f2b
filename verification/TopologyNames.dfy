/** What topology builders make, under which field names, and what of it later builder calls leave alone. */
module TopologyNames {
  import opened Numbers
  import opened Wrappers
  import opened SaiStore
  import opened Integrity
  import opened BridgePorts
  import opened TopologyLists
  import opened Attributes

  /** The fields that builders set: port{i}_bp, lag{i}, lag{i}_bp, and so on. */
  datatype Name =
    | PortBp(i: nat)
    | LagName(i: nat)
    | LagBp(i: nat)
    | LagMemberName(i: nat, j: nat)
    | VlanName(i: nat)
    | VlanMemberName(i: nat, j: nat)
    | VlanRif(i: nat)
    | LagRif(i: nat)
    | PortRif(i: nat)

  datatype RifKind = OnVlan | OnLag | OnPort | UnknownKind
  datatype RifConfig = RifConfig(kind: RifKind, index: nat, vrf: Option<Oid>)

  lemma Ranks()
    ensures Rank(RIF) == 0 && Rank(VLAN_MEMBER) == 1 && Rank(VLAN) == 2
    ensures Rank(BRIDGE_PORT) == 3 && Rank(LAG_MEMBER) == 4 && Rank(LAG) == 5
  {
    assert |VLAN_MEMBER| == |BRIDGE_PORT| && VLAN_MEMBER[0] != BRIDGE_PORT[0];
  }

  // ---------- the lists ----------

  function Append(l: Lists, rank: nat, o: Oid): Lists {
    match rank
    case 0 => l.(rifs := l.rifs + [o])
    case 1 => l.(vms := l.vms + [o])
    case 2 => l.(vlans := l.vlans + [o])
    case 3 => l.(bps := l.bps + [o])
    case 4 => l.(lms := l.lms + [o])
    case _ => l.(lags := l.lags + [o])
  }

  lemma AppendAdds(l: Lists, rank: nat, o: Oid)
    requires AllTidy(l) && rank <= 5 && o.Vid? && Rank(o.ty) == rank && !Listed(l, o)
    ensures AllTidy(Append(l, rank, o)) && OneMore(l, Append(l, rank, o), o)
  {
    match rank
    case 0 => TidyNext(l.rifs, rank, o);
    case 1 => TidyNext(l.vms, rank, o);
    case 2 => TidyNext(l.vlans, rank, o);
    case 3 => TidyNext(l.bps, rank, o);
    case 4 => TidyNext(l.lms, rank, o);
    case _ => TidyNext(l.lags, rank, o);
  }

  lemma TidyNext(os: seq<Oid>, rank: nat, o: Oid)
    requires Tidy(os, rank) && o.Vid? && Rank(o.ty) == rank && o !in os
    ensures Tidy(os + [o], rank) && forall x :: x in os + [o] <==> x in os || x == o
  {
  }

  /** A reference the switch accepts where an object of a later rank is expected. */
  ghost predicate Fits(base: Store, rank: nat, o: Oid) {
    OidH(o) in base || (o.Vid? && Rank(o.ty) > rank)
  }

  lemma VmPointsUp(base: Store, s: Store, vlan: Oid, bp: Oid, tag: Value)
    requires Fits(base, 1, vlan) && Fits(base, 1, bp) && tag.Txt?
    ensures PointsUp(base, s, 1, VmAttrs(vlan, bp, tag))
  {
  }

  lemma LmPointsUp(base: Store, s: Store, lag: Oid, port: Oid)
    requires Fits(base, 4, lag) && Fits(base, 4, port)
    ensures PointsUp(base, s, 4, LmAttrs(lag, port))
  {
  }

  lemma RifPointsUp(base: Store, s: Store, vrf: Oid, kind: string, attr: string, on: Oid)
    requires Fits(base, 0, vrf) && Fits(base, 0, on)
    ensures PointsUp(base, s, 0, RifAttrs(vrf, kind, attr, on))
  {
  }

  /** What a field can hold. */
  ghost predicate NameFits(n: Name, o: Oid) {
    match n
    case PortBp(_) => o.Vid? && Rank(o.ty) == 3
    case LagBp(_) => o.Vid? && Rank(o.ty) == 3
    case LagName(_) => o.Vid? && Rank(o.ty) == 5
    case VlanName(_) => o.Vid? && Rank(o.ty) == 2
    case _ => true
  }

  /** A bridge port of this port or LAG that is up. */
  predicate IsBridgePort(s: Store, o: Oid, p: Oid) {
    && BoundTo(s, o, BP_TYPE, Txt("SAI_BRIDGE_PORT_TYPE_PORT")) && BoundTo(s, o, BP_PORT, Ref(p))
    && BoundTo(s, o, ADMIN_STATE, Txt("true"))
  }

  /** These bridge ports are bound to the ports with these indices, one to one. */
  ghost predicate PortsBound(s: Store, ports: seq<Oid>, bps: seq<Oid>, indices: seq<nat>) {
    |bps| == |indices| && forall j | 0 <= j < |bps| :: indices[j] < |ports| && IsBridgePort(s, bps[j], ports[indices[j]])
  }

  /** Under each index a bridge port of that port is known. */
  ghost predicate PortsNamed(s: Store, ports: seq<Oid>, names: map<Name, Oid>, indices: seq<nat>) {
    forall j | 0 <= j < |indices| :: PortNamed(s, ports, names, indices[j])
  }

  ghost predicate PortNamed(s: Store, ports: seq<Oid>, names: map<Name, Oid>, i: nat) {
    i < |ports| && PortBp(i) in names && IsBridgePort(s, names[PortBp(i)], ports[i])
  }

  ghost predicate SameName(was: map<Name, Oid>, now: map<Name, Oid>, n: Name) {
    (n in was <==> n in now) && (n in was ==> now[n] == was[n])
  }

  lemma PortsNext(s: Store, t: Store, ports: seq<Oid>, bps: seq<Oid>, names: map<Name, Oid>, indices: seq<nat>, n: nat, bp: Oid)
    requires n < |indices| && indices[n] < |ports| && Extends(s, t) && IsBridgePort(t, bp, ports[indices[n]])
    requires PortsBound(s, ports, bps, indices[..n]) && PortsNamed(s, ports, names, indices[..n])
    ensures PortsBound(t, ports, bps + [bp], indices[..n + 1]) && PortsNamed(t, ports, names[PortBp(indices[n]) := bp], indices[..n + 1])
  {
    var now, done := names[PortBp(indices[n]) := bp], indices[..n + 1];
    forall j | 0 <= j < |done| ensures PortNamed(t, ports, now, done[j]) {
      if j < n { assert PortNamed(s, ports, names, indices[..n][j]); }
    }
    forall j | 0 <= j < n ensures IsBridgePort(t, bps[j], ports[indices[j]]) { assert indices[..n][j] == indices[j]; }
  }

  ghost predicate IsLagMember(s: Store, ports: seq<Oid>, lm: Oid, lag: Oid, index: nat) {
    index < |ports| && BoundTo(s, lm, LM_LAG, Ref(lag)) && BoundTo(s, lm, LM_PORT, Ref(ports[index]))
  }

  /** These are members of the LAG for the ports with these indices, one to one. */
  ghost predicate LagMembers(s: Store, ports: seq<Oid>, lms: seq<Oid>, lag: Oid, indices: seq<nat>) {
    |lms| == |indices| && forall j | 0 <= j < |lms| :: IsLagMember(s, ports, lms[j], lag, indices[j])
  }

  lemma LagMembersNext(s: Store, t: Store, ports: seq<Oid>, lms: seq<Oid>, lag: Oid, indices: seq<nat>, n: nat, lm: Oid)
    requires n < |indices| && LagMembers(s, ports, lms, lag, indices[..n]) && Extends(s, t) && IsLagMember(t, ports, lm, lag, indices[n])
    ensures LagMembers(t, ports, lms + [lm], lag, indices[..n + 1])
  {
    forall j | 0 <= j < n ensures IsLagMember(t, ports, lms[j], lag, indices[j]) {
      assert IsLagMember(s, ports, lms[j], lag, indices[..n][j]);
    }
  }

  function VrfOf(config: RifConfig, defaultVrf: Oid): Oid {
    if config.vrf.Some? then config.vrf.value else defaultVrf
  }

  /** The VLAN, LAG or port of a configuration, if there is one. */
  function RifOn(names: map<Name, Oid>, ports: seq<Oid>, config: RifConfig): Option<Oid> {
    match config.kind
    case OnVlan => if VlanName(config.index) in names then Some(names[VlanName(config.index)]) else None
    case OnLag => if LagName(config.index) in names then Some(names[LagName(config.index)]) else None
    case OnPort => if config.index < |ports| then Some(ports[config.index]) else None
    case UnknownKind => None
  }

  /** The router interface is on what its configuration says, in its virtual router or the default one. */
  ghost predicate IsRif(s: Store, ports: seq<Oid>, names: map<Name, Oid>, defaultVrf: Oid, rif: Oid, config: RifConfig) {
    && BoundTo(s, rif, RIF_VRF, Ref(if config.vrf.Some? then config.vrf.value else defaultVrf))
    && match config.kind
       case OnVlan =>
         && VlanName(config.index) in names && BoundTo(s, rif, RIF_TYPE, Txt(RIF_ON_VLAN))
         && BoundTo(s, rif, RIF_VLAN, Ref(names[VlanName(config.index)]))
       case OnLag =>
         && LagName(config.index) in names && BoundTo(s, rif, RIF_TYPE, Txt(RIF_ON_PORT))
         && BoundTo(s, rif, RIF_PORT, Ref(names[LagName(config.index)]))
       case OnPort =>
         && config.index < |ports| && BoundTo(s, rif, RIF_TYPE, Txt(RIF_ON_PORT))
         && BoundTo(s, rif, RIF_PORT, Ref(ports[config.index]))
       case UnknownKind => false
  }

  /** Under the name of each configuration its interface is known, or that of a later one with the same name. */
  ghost predicate RifsNamed(names: map<Name, Oid>, rifs: seq<Oid>, configs: seq<RifConfig>) {
    |rifs| == |configs| && forall j | 0 <= j < |configs| :: RifNamed(names, rifs, configs, j)
  }

  ghost predicate RifNamed(names: map<Name, Oid>, rifs: seq<Oid>, configs: seq<RifConfig>, j: nat)
    requires |rifs| == |configs| && j < |configs|
  {
    RifName(configs[j]) in names && exists k :: j <= k < |configs| && RifIs(names, rifs[k], configs[k], RifName(configs[j]))
  }

  predicate RifIs(names: map<Name, Oid>, rif: Oid, config: RifConfig, n: Name) {
    RifName(config) == n && n in names && names[n] == rif
  }

  lemma RifsNamedNext(names: map<Name, Oid>, rifs: seq<Oid>, configs: seq<RifConfig>, n: nat, rif: Oid)
    requires n < |configs| && RifsNamed(names, rifs, configs[..n])
    ensures RifsNamed(names[RifName(configs[n]) := rif], rifs + [rif], configs[..n + 1])
  {
    var now, rifs', done := names[RifName(configs[n]) := rif], rifs + [rif], configs[..n + 1];
    assert done[n] == configs[n] && RifIs(now, rifs'[n], done[n], RifName(configs[n]));
    forall j | 0 <= j < |done| ensures RifNamed(now, rifs', done, j) {
      if j < n {
        assert done[j] == configs[..n][j] && RifNamed(names, rifs, configs[..n], j);
        var k :| j <= k < n && RifIs(names, rifs[k], configs[..n][k], RifName(done[j]));
        assert done[k] == configs[..n][k];
        if RifName(done[j]) != RifName(configs[n]) { assert RifIs(now, rifs'[k], done[k], RifName(done[j])); }
      }
    }
  }

  ghost predicate Rifs(s: Store, ports: seq<Oid>, names: map<Name, Oid>, defaultVrf: Oid, rifs: seq<Oid>, configs: seq<RifConfig>) {
    |rifs| == |configs| && forall j | 0 <= j < |rifs| :: IsRif(s, ports, names, defaultVrf, rifs[j], configs[j])
  }

  lemma RifsNext(s: Store, t: Store, ports: seq<Oid>, names: map<Name, Oid>, defaultVrf: Oid, rifs: seq<Oid>, configs: seq<RifConfig>,
                 n: nat, rif: Oid)
    requires n < |configs| && Rifs(s, ports, names, defaultVrf, rifs, configs[..n]) && Extends(s, t)
    requires IsRif(t, ports, names, defaultVrf, rif, configs[n])
    ensures Rifs(t, ports, names, defaultVrf, rifs + [rif], configs[..n + 1])
  {
    forall j | 0 <= j < n ensures IsRif(t, ports, names, defaultVrf, rifs[j], configs[j]) {
      assert IsRif(s, ports, names, defaultVrf, rifs[j], configs[..n][j]);
    }
  }

  ghost predicate MembersNamed(s: Store, ports: seq<Oid>, names: map<Name, Oid>, index: nat, lag: Oid, indices: seq<nat>) {
    forall j | 0 <= j < |indices| :: MemberNamed(s, ports, names, index, lag, indices[j])
  }

  ghost predicate MemberNamed(s: Store, ports: seq<Oid>, names: map<Name, Oid>, index: nat, lag: Oid, i: nat) {
    LagMemberName(index, i) in names && IsLagMember(s, ports, names[LagMemberName(index, i)], lag, i)
  }

  lemma MembersNamedNext(s: Store, t: Store, ports: seq<Oid>, names: map<Name, Oid>, index: nat, lag: Oid, indices: seq<nat>, n: nat, lm: Oid)
    requires n < |indices| && MembersNamed(s, ports, names, index, lag, indices[..n]) && Extends(s, t)
    requires IsLagMember(t, ports, lm, lag, indices[n])
    ensures MembersNamed(t, ports, names[LagMemberName(index, indices[n]) := lm], index, lag, indices[..n + 1])
  {
    var now, done := names[LagMemberName(index, indices[n]) := lm], indices[..n + 1];
    forall j | 0 <= j < |done| ensures MemberNamed(t, ports, now, index, lag, done[j]) {
      if j < n { assert MemberNamed(s, ports, names, index, lag, indices[..n][j]); }
    }
  }

  lemma LagStep(s: Store, t: Store, ports: seq<Oid>, lms: seq<Oid>, names: map<Name, Oid>, index: nat, lag: Oid, indices: seq<nat>, n: nat, lm: Oid)
    requires n < |indices| && Extends(s, t) && IsLagMember(t, ports, lm, lag, indices[n])
    requires LagMembers(s, ports, lms, lag, indices[..n]) && MembersNamed(s, ports, names, index, lag, indices[..n])
    ensures LagMembers(t, ports, lms + [lm], lag, indices[..n + 1])
    ensures MembersNamed(t, ports, names[LagMemberName(index, indices[n]) := lm], index, lag, indices[..n + 1])
  {
    LagMembersNext(s, t, ports, lms, lag, indices, n, lm);
    MembersNamedNext(s, t, ports, names, index, lag, indices, n, lm);
  }

  ghost predicate IsVlanMember(s: Store, vm: Oid, vlan: Oid, m: (Oid, Tag)) {
    && BoundTo(s, vm, VM_VLAN, Ref(vlan)) && BoundTo(s, vm, VM_BP, Ref(m.0))
    && VM_TAG in s[OidH(vm)] && Means(m.1, s[OidH(vm)][VM_TAG])
  }

  /** These are members of the VLAN for these bridge ports with these tagging modes, one to one. */
  ghost predicate VlanMembers(s: Store, vms: seq<Oid>, vlan: Oid, members: seq<(Oid, Tag)>) {
    |vms| == |members| && forall j | 0 <= j < |vms| :: IsVlanMember(s, vms[j], vlan, members[j])
  }

  lemma VlanMembersNext(s: Store, t: Store, vms: seq<Oid>, vlan: Oid, members: seq<(Oid, Tag)>, n: nat, vm: Oid)
    requires n < |members| && VlanMembers(s, vms, vlan, members[..n]) && Extends(s, t) && IsVlanMember(t, vm, vlan, members[n])
    ensures VlanMembers(t, vms + [vm], vlan, members[..n + 1])
  {
    forall j | 0 <= j < n ensures IsVlanMember(t, vms[j], vlan, members[j]) {
      assert IsVlanMember(s, vms[j], vlan, members[..n][j]);
    }
  }

  /** The j-th member of the VLAN is known under its number. */
  ghost predicate Numbered(names: map<Name, Oid>, id: nat, vms: seq<Oid>) {
    forall j | 0 <= j < |vms| :: VlanMemberName(id, j) in names && names[VlanMemberName(id, j)] == vms[j]
  }

  lemma NumberedNext(names: map<Name, Oid>, id: nat, vms: seq<Oid>, vm: Oid)
    requires Numbered(names, id, vms)
    ensures Numbered(names[VlanMemberName(id, |vms|) := vm], id, vms + [vm])
  {
  }

  datatype BuilderCall =
    | BridgePorts(indices: seq<nat>)
    | LagWithMembers(index: nat, indices: seq<nat>)
    | VlanWithMembers(id: nat, members: seq<(Name, Tag)>)
    | RoutingInterfaces(configs: seq<RifConfig>)
    | PortVlan(index: nat, pvid: string)

  /** The virtual routers a caller names are not among the objects the builders make. */
  ghost predicate VrfsKnown(base: Store, call: BuilderCall) {
    call.RoutingInterfaces? ==>
      forall i | 0 <= i < |call.configs| && call.configs[i].vrf.Some? :: OidH(call.configs[i].vrf.value) in base
  }

  function RifName(config: RifConfig): Name {
    match config.kind
    case OnVlan => VlanRif(config.index)
    case OnLag => LagRif(config.index)
    case _ => PortRif(config.index)
  }

  /** The bridge ports behind the fields a caller passes; a field that was never set raises. */
  function Resolve(names: map<Name, Oid>, members: seq<(Name, Tag)>): (r: Option<seq<(Oid, Tag)>>)
    ensures r.Some? <==> forall i | 0 <= i < |members| :: IsSetPort(names, members[i].0)
    ensures r.Some? ==> |r.value| == |members| && forall i | 0 <= i < |members| :: r.value[i] == (names[members[i].0], members[i].1)
  {
    if |members| == 0 then Some([])
    else
      var n, (name, tag) := |members| - 1, members[|members| - 1];
      match Resolve(names, members[..n]) case None => None case Some(pre) =>
      if IsSetPort(names, name) then Some(pre + [(names[name], tag)]) else None
  }

  predicate IsSetPort(names: map<Name, Oid>, name: Name) {
    (name.PortBp? || name.LagBp?) && name in names
  }

  // ---------- what a call needs ----------

  /** Every index is that of a port. */
  ghost predicate InRange(indices: seq<nat>, count: nat) {
    forall i | 0 <= i < |indices| :: indices[i] < count
  }

  lemma InRangeNext(indices: seq<nat>, i: nat, count: nat)
    requires i < |indices|
    ensures InRange(indices[..i], count) ==> (InRange(indices[..i + 1], count) <==> indices[i] < count)
  {
    assert indices[..i + 1] == indices[..i] + [indices[i]] && indices[..i + 1][i] == indices[i];
  }

  lemma InRangePart(indices: seq<nat>, i: nat, count: nat)
    requires i <= |indices| && !InRange(indices[..i], count)
    ensures !InRange(indices, count)
  {
  }

  ghost predicate MemberPossible(s: Store, names: map<Name, Oid>, m: (Name, Tag)) {
    IsSetPort(names, m.0) && LiveV(s, Ref(names[m.0])) && IsTag(m.1)
  }

  ghost predicate RifPossible(s: Store, names: map<Name, Oid>, ports: seq<Oid>, config: RifConfig) {
    match config.kind
    case OnVlan => VlanName(config.index) in names && LiveV(s, Ref(names[VlanName(config.index)]))
    case OnLag => LagName(config.index) in names && LiveV(s, Ref(names[LagName(config.index)]))
    case OnPort => config.index < |ports| && LiveV(s, Ref(ports[config.index]))
    case UnknownKind => false
  }

  lemma {:induction false} RifPossibleOn(s: Store, names: map<Name, Oid>, ports: seq<Oid>, config: RifConfig)
    ensures RifPossible(s, names, ports, config) <==>
      RifOn(names, ports, config).Some? && LiveV(s, Ref(RifOn(names, ports, config).value))
  {
  }

  /** Ports are given by indices that exist, VLAN members by set fields of live bridge ports, interfaces by what is live. */
  ghost predicate Possible(s: Store, names: map<Name, Oid>, ports: seq<Oid>, call: BuilderCall) {
    match call
    case BridgePorts(indices) => InRange(indices, |ports|)
    case LagWithMembers(_, indices) => InRange(indices, |ports|)
    case VlanWithMembers(_, members) => forall i | 0 <= i < |members| :: MemberPossible(s, names, members[i])
    case RoutingInterfaces(configs) => forall i | 0 <= i < |configs| :: RifPossible(s, names, ports, configs[i])
    case PortVlan(index, _) => index < |ports|
  }

  /** What an interface is on is in the base or of a later rank. */
  lemma RifOnFitsIn(base: Store, names: map<Name, Oid>, ports: seq<Oid>, config: RifConfig)
    requires RifOn(names, ports, config).Some? && (forall n | n in names :: NameFits(n, names[n]))
    requires forall i | 0 <= i < |ports| :: OidH(ports[i]) in base
    ensures Fits(base, 0, RifOn(names, ports, config).value)
  {
  }

  /** A member that gets into the VLAN: its bridge port is live, and the tagging mode is one. */
  ghost predicate Joins(s: Store, m: (Oid, Tag)) {
    LiveV(s, Ref(m.0)) && IsTag(m.1)
  }

  ghost predicate AllJoin(s: Store, members: seq<(Oid, Tag)>) {
    forall i | 0 <= i < |members| :: Joins(s, members[i])
  }

  lemma AllJoinNext(s: Store, t: Store, members: seq<(Oid, Tag)>, i: nat)
    requires i < |members| && Extends(s, t)
    ensures AllJoin(s, members[..i]) ==> (AllJoin(t, members[..i + 1]) <==> Joins(t, members[i]))
  {
    var pre, next := members[..i], members[..i + 1];
    assert next == pre + [members[i]] && next[i] == members[i];
    if AllJoin(s, pre) {
      forall j | 0 <= j < i ensures Joins(t, next[j]) { assert Joins(s, pre[j]); }
    }
  }

  lemma AllJoinPart(s: Store, members: seq<(Oid, Tag)>, i: nat)
    requires i <= |members| && !AllJoin(s, members[..i])
    ensures !AllJoin(s, members)
  {
  }

  /** The configuration names something that is live. */
  ghost predicate RifGoes(s: Store, ports: seq<Oid>, defaultVrf: Oid, names: map<Name, Oid>, config: RifConfig) {
    RifPossible(s, names, ports, config) && LiveV(s, Ref(if config.vrf.Some? then config.vrf.value else defaultVrf))
  }

  ghost predicate AllGo(s: Store, ports: seq<Oid>, defaultVrf: Oid, names: map<Name, Oid>, configs: seq<RifConfig>) {
    forall i | 0 <= i < |configs| :: RifGoes(s, ports, defaultVrf, names, configs[i])
  }

  lemma {:induction false} GoesIfPossible(s: Store, t: Store, ports: seq<Oid>, defaultVrf: Oid, names: map<Name, Oid>, config: RifConfig)
    requires LiveV(t, Ref(if config.vrf.Some? then config.vrf.value else defaultVrf))
    requires RifOn(names, ports, config).Some? ==>
      (LiveV(t, Ref(RifOn(names, ports, config).value)) <==> LiveV(s, Ref(RifOn(names, ports, config).value)))
    ensures RifGoes(t, ports, defaultVrf, names, config) <==> RifPossible(s, names, ports, config)
  {
    RifPossibleOn(s, names, ports, config);
    RifPossibleOn(t, names, ports, config);
  }

  lemma AllGoNext(s: Store, t: Store, ports: seq<Oid>, vrf: Oid, names: map<Name, Oid>, configs: seq<RifConfig>, i: nat)
    requires i < |configs| && Extends(s, t)
    ensures AllGo(s, ports, vrf, names, configs[..i]) ==>
      (AllGo(t, ports, vrf, names, configs[..i + 1]) <==> RifGoes(t, ports, vrf, names, configs[i]))
  {
    var pre, next := configs[..i], configs[..i + 1];
    assert next == pre + [configs[i]] && next[i] == configs[i];
    if AllGo(s, ports, vrf, names, pre) {
      forall j | 0 <= j < i ensures RifGoes(t, ports, vrf, names, next[j]) { assert RifGoes(s, ports, vrf, names, pre[j]); }
    }
  }

  lemma AllGoPart(s: Store, ports: seq<Oid>, vrf: Oid, names: map<Name, Oid>, configs: seq<RifConfig>, i: nat)
    requires i <= |configs| && !AllGo(s, ports, vrf, names, configs[..i])
    ensures !AllGo(s, ports, vrf, names, configs)
  {
  }

  /** An object of a later rank is live now only if it was before objects of earlier ranks were made. */
  lemma {:induction false} LiveBefore(base: Store, s: Store, t: Store, l: Lists, m: Lists, rank: nat, o: Oid)
    requires Built(base, s, l) && Built(base, t, m) && Fits(base, rank, o)
    requires forall x: Oid | Listed(m, x) && !Listed(l, x) && x.Vid? :: Rank(x.ty) <= rank
    requires Extends(s, t)
    ensures LiveV(t, Ref(o)) <==> LiveV(s, Ref(o))
  {
    assert Present(base, s, l, OidH(o)) && Present(base, t, m, OidH(o));
  }

  lemma NewVms(l: Lists, m: Lists)
    requires AllTidy(m) && m == l.(vlans := m.vlans, vms := m.vms)
    ensures forall x: Oid | Listed(m, x) && !Listed(l, x) && x.Vid? :: Rank(x.ty) <= 2
  {
  }

  lemma NewRifs(l: Lists, m: Lists)
    requires AllTidy(m) && m == l.(rifs := m.rifs)
    ensures forall x: Oid | Listed(m, x) && !Listed(l, x) && x.Vid? :: Rank(x.ty) <= 0
  {
  }

  // ---------- what a call has made ----------

  ghost predicate LagIs(s: Store, ports: seq<Oid>, names: map<Name, Oid>, index: nat, indices: seq<nat>) {
    && LagName(index) in names && LagBp(index) in names && OidH(names[LagName(index)]) in s
    && IsBridgePort(s, names[LagBp(index)], names[LagName(index)])
    && MembersNamed(s, ports, names, index, names[LagName(index)], indices)
  }

  /** The member of the VLAN with this number is that for the bridge port of this name. */
  ghost predicate VlanHas(s: Store, names: map<Name, Oid>, id: nat, j: nat, m: (Name, Tag)) {
    && VlanName(id) in names && VlanMemberName(id, j) in names && m.0 in names
    && IsVlanMember(s, names[VlanMemberName(id, j)], names[VlanName(id)], (names[m.0], m.1))
  }

  ghost predicate VlanIs(s: Store, names: map<Name, Oid>, id: nat, members: seq<(Name, Tag)>) {
    && VlanName(id) in names && BoundTo(s, names[VlanName(id)], VLAN_ID, Txt(Decimal(id)))
    && forall j | 0 <= j < |members| :: VlanHas(s, names, id, j, members[j])
  }

  /** Under the name of the configuration is an interface for it, or for one of the same name. */
  ghost predicate RifKnown(s: Store, ports: seq<Oid>, vrf: Oid, names: map<Name, Oid>, configs: seq<RifConfig>, config: RifConfig) {
    && RifName(config) in names
    && exists k :: 0 <= k < |configs| && RifName(configs[k]) == RifName(config) && IsRif(s, ports, names, vrf, names[RifName(config)], configs[k])
  }

  /** What the call makes is there, under its names. */
  ghost predicate MadeIn(s: Store, ports: seq<Oid>, vrf: Oid, names: map<Name, Oid>, call: BuilderCall) {
    match call
    case BridgePorts(indices) => PortsNamed(s, ports, names, indices)
    case LagWithMembers(index, indices) => LagIs(s, ports, names, index, indices)
    case VlanWithMembers(id, members) => VlanIs(s, names, id, members)
    case RoutingInterfaces(configs) => forall j | 0 <= j < |configs| :: RifKnown(s, ports, vrf, names, configs, configs[j])
    case PortVlan(_, _) => true
  }

  /** The call sets this field. */
  predicate Defines(call: BuilderCall, n: Name) {
    match call
    case BridgePorts(indices) => n.PortBp? && n.i in indices
    case LagWithMembers(index, indices) => ((n.LagName? || n.LagBp?) && n.i == index) || LagMemberField(n, index, indices)
    case VlanWithMembers(id, members) => (n.VlanName? && n.i == id) || VlanMemberField(n, id, |members|)
    case RoutingInterfaces(configs) => exists k :: 0 <= k < |configs| && RifName(configs[k]) == n
    case PortVlan(_, _) => false
  }

  predicate LagMemberField(n: Name, index: nat, indices: seq<nat>) {
    n.LagMemberName? && n.i == index && n.j in indices
  }

  predicate VlanMemberField(n: Name, id: nat, count: nat) {
    n.VlanMemberName? && n.i == id && n.j < count
  }

  ghost predicate SameBut(was: map<Name, Oid>, now: map<Name, Oid>, call: BuilderCall) {
    forall n | !Defines(call, n) :: SameName(was, now, n)
  }

  lemma SameButThen(a: map<Name, Oid>, b: map<Name, Oid>, c: map<Name, Oid>, call: BuilderCall)
    requires SameBut(a, b, call) && SameBut(b, c, call)
    ensures SameBut(a, c, call)
  {
    forall n | !Defines(call, n) ensures SameName(a, c, n) { assert SameName(a, b, n) && SameName(b, c, n); }
  }

  ghost predicate SameButMembers(was: map<Name, Oid>, now: map<Name, Oid>, index: nat, indices: seq<nat>) {
    forall n | !LagMemberField(n, index, indices) :: SameName(was, now, n)
  }

  lemma SameMembersThen(a: map<Name, Oid>, b: map<Name, Oid>, c: map<Name, Oid>, index: nat, indices: seq<nat>)
    requires SameButMembers(a, b, index, indices) && SameButMembers(b, c, index, indices)
    ensures SameButMembers(a, c, index, indices)
  {
    forall n | !LagMemberField(n, index, indices) ensures SameName(a, c, n) { assert SameName(a, b, n) && SameName(b, c, n); }
  }

  lemma LagFieldsOnly(a: map<Name, Oid>, b: map<Name, Oid>, c: map<Name, Oid>, index: nat, indices: seq<nat>, lag: Oid, bp: Oid)
    requires b == a[LagName(index) := lag][LagBp(index) := bp] && SameButMembers(b, c, index, indices)
    ensures SameBut(a, c, LagWithMembers(index, indices))
    ensures LagName(index) in c && c[LagName(index)] == lag && LagBp(index) in c && c[LagBp(index)] == bp
  {
    forall n | !Defines(LagWithMembers(index, indices), n) ensures SameName(a, c, n) { assert SameName(b, c, n); }
    assert SameName(b, c, LagName(index)) && SameName(b, c, LagBp(index));
  }

  ghost predicate SameButVlanMembers(was: map<Name, Oid>, now: map<Name, Oid>, id: nat, count: nat) {
    forall n | !VlanMemberField(n, id, count) :: SameName(was, now, n)
  }

  lemma SameVlanMembersThen(a: map<Name, Oid>, b: map<Name, Oid>, c: map<Name, Oid>, id: nat, count: nat)
    requires SameButVlanMembers(a, b, id, count) && SameButVlanMembers(b, c, id, count)
    ensures SameButVlanMembers(a, c, id, count)
  {
    forall n | !VlanMemberField(n, id, count) ensures SameName(a, c, n) { assert SameName(a, b, n) && SameName(b, c, n); }
  }

  lemma RifFieldsOnly(a: map<Name, Oid>, b: map<Name, Oid>, c: map<Name, Oid>, configs: seq<RifConfig>, i: nat, rif: Oid)
    requires i < |configs| && SameBut(a, b, RoutingInterfaces(configs)) && (c == b || c == b[RifName(configs[i]) := rif])
    ensures SameBut(a, c, RoutingInterfaces(configs))
  {
    forall n | !Defines(RoutingInterfaces(configs), n) ensures SameName(a, c, n) { assert SameName(a, b, n); }
  }

  /** Every field that was set still has its value. */
  ghost predicate SubNames(was: map<Name, Oid>, now: map<Name, Oid>) {
    forall n | n in was :: n in now && now[n] == was[n]
  }

  lemma FreshFields(was: map<Name, Oid>, now: map<Name, Oid>, call: BuilderCall)
    requires SameBut(was, now, call) && forall n | n in was :: !Defines(call, n)
    ensures SubNames(was, now)
  {
    forall n | n in was ensures n in now && now[n] == was[n] { assert SameName(was, now, n); }
  }

  /** The LAG of the call, if there is one, is tracked. */
  ghost predicate LagListed(names: map<Name, Oid>, l: Lists, call: BuilderCall) {
    call.LagWithMembers? ==> LagName(call.index) in names && names[LagName(call.index)] in l.lags
  }

  ghost predicate AllListed(names: map<Name, Oid>, l: Lists, calls: seq<BuilderCall>) {
    forall i | 0 <= i < |calls| :: LagListed(names, l, calls[i])
  }

  lemma AllListedNext(was: map<Name, Oid>, now: map<Name, Oid>, l: Lists, m: Lists, calls: seq<BuilderCall>, n: nat)
    requires n < |calls| && AllListed(was, l, calls[..n]) && SubNames(was, now) && l.lags <= m.lags && LagListed(now, m, calls[n])
    ensures AllListed(now, m, calls[..n + 1])
  {
    assert calls[..n + 1] == calls[..n] + [calls[n]];
    forall i | 0 <= i < n ensures LagListed(now, m, calls[..n][i]) { assert LagListed(was, l, calls[..n][i]); }
  }

  predicate IsPvid(attr: string) {
    attr == PORT_PVID || attr == LAG_PVID
  }

  /** Every object is still there, with all its attributes but perhaps VLAN ids. */
  ghost predicate Carries(s: Store, t: Store) {
    forall h | h in s :: h in t && forall k | k in s[h] && !IsPvid(k) :: k in t[h] && t[h][k] == s[h][k]
  }

  lemma BoundCarried(s: Store, t: Store, o: Oid, attr: string, v: Value)
    requires Carries(s, t) && BoundTo(s, o, attr, v) && !IsPvid(attr)
    ensures BoundTo(t, o, attr, v)
  {
  }

  lemma PortCarried(s: Store, t: Store, o: Oid, p: Oid)
    requires Carries(s, t) && IsBridgePort(s, o, p)
    ensures IsBridgePort(t, o, p)
  {
    NoPvids();
    BoundCarried(s, t, o, BP_TYPE, Txt("SAI_BRIDGE_PORT_TYPE_PORT"));
    BoundCarried(s, t, o, BP_PORT, Ref(p));
    BoundCarried(s, t, o, ADMIN_STATE, Txt("true"));
  }

  lemma NoPvids()
    ensures !IsPvid(BP_TYPE) && !IsPvid(ADMIN_STATE) && !IsPvid(BP_PORT) && !IsPvid(LM_LAG) && !IsPvid(LM_PORT) && !IsPvid(VM_VLAN) && !IsPvid(VM_BP) && !IsPvid(VM_TAG)
    ensures !IsPvid(VLAN_ID) && !IsPvid(RIF_VRF) && !IsPvid(RIF_TYPE) && !IsPvid(RIF_VLAN) && !IsPvid(RIF_PORT)
  {
    assert PORT_PVID[4] == 'P' && LAG_PVID[4] == 'L' && PORT_PVID[5] == 'O' && LAG_PVID[7] == '_' && |LAG_PVID| == 25;
    assert BP_TYPE[4] == 'B' && ADMIN_STATE[4] == 'B' && BP_PORT[4] == 'B' && VM_VLAN[4] == 'V' && VM_BP[4] == 'V' && VM_TAG[4] == 'V' && VLAN_ID[4] == 'V';
    assert RIF_VRF[4] == 'R' && RIF_TYPE[4] == 'R' && RIF_VLAN[4] == 'R' && RIF_PORT[4] == 'R';
    assert LM_LAG[8] == 'M' && LM_PORT[8] == 'M' && LAG_PVID[8] == 'A';
    assert LM_LAG[4] == 'L' && LM_PORT[4] == 'L';
  }

  lemma PortsStay(s: Store, t: Store, ports: seq<Oid>, was: map<Name, Oid>, now: map<Name, Oid>, indices: seq<nat>)
    requires Carries(s, t) && SubNames(was, now) && PortsNamed(s, ports, was, indices)
    ensures PortsNamed(t, ports, now, indices)
  {
    NoPvids();
    forall j | 0 <= j < |indices| ensures PortNamed(t, ports, now, indices[j]) {
      assert PortNamed(s, ports, was, indices[j]);
      PortCarried(s, t, was[PortBp(indices[j])], ports[indices[j]]);
    }
  }

  lemma LagStays(s: Store, t: Store, ports: seq<Oid>, was: map<Name, Oid>, now: map<Name, Oid>, index: nat, indices: seq<nat>)
    requires Carries(s, t) && SubNames(was, now) && LagIs(s, ports, was, index, indices)
    ensures LagIs(t, ports, now, index, indices)
  {
    NoPvids();
    var lag := was[LagName(index)];
    PortCarried(s, t, was[LagBp(index)], lag);
    forall j | 0 <= j < |indices| ensures MemberNamed(t, ports, now, index, lag, indices[j]) {
      assert MemberNamed(s, ports, was, index, lag, indices[j]);
      var lm := was[LagMemberName(index, indices[j])];
      BoundCarried(s, t, lm, LM_LAG, Ref(lag));
      BoundCarried(s, t, lm, LM_PORT, Ref(ports[indices[j]]));
    }
  }

  lemma VlanHasStays(s: Store, t: Store, was: map<Name, Oid>, now: map<Name, Oid>, id: nat, j: nat, m: (Name, Tag))
    requires Carries(s, t) && SubNames(was, now) && VlanHas(s, was, id, j, m)
    ensures VlanHas(t, now, id, j, m)
  {
    NoPvids();
    var vm, vlan := was[VlanMemberName(id, j)], was[VlanName(id)];
    BoundCarried(s, t, vm, VM_VLAN, Ref(vlan));
    BoundCarried(s, t, vm, VM_BP, Ref(was[m.0]));
    BoundCarried(s, t, vm, VM_TAG, s[OidH(vm)][VM_TAG]);
  }

  lemma VlanStays(s: Store, t: Store, was: map<Name, Oid>, now: map<Name, Oid>, id: nat, members: seq<(Name, Tag)>)
    requires Carries(s, t) && SubNames(was, now) && VlanIs(s, was, id, members)
    ensures VlanIs(t, now, id, members)
  {
    NoPvids();
    BoundCarried(s, t, was[VlanName(id)], VLAN_ID, Txt(Decimal(id)));
    forall j | 0 <= j < |members| ensures VlanHas(t, now, id, j, members[j]) { VlanHasStays(s, t, was, now, id, j, members[j]); }
  }

  lemma RifStays(s: Store, t: Store, ports: seq<Oid>, vrf: Oid, was: map<Name, Oid>, now: map<Name, Oid>, configs: seq<RifConfig>, config: RifConfig)
    requires Carries(s, t) && SubNames(was, now) && RifKnown(s, ports, vrf, was, configs, config)
    ensures RifKnown(t, ports, vrf, now, configs, config)
  {
    NoPvids();
    var rif := was[RifName(config)];
    var k :| 0 <= k < |configs| && RifName(configs[k]) == RifName(config) && IsRif(s, ports, was, vrf, rif, configs[k]);
    IsRifStays(s, t, ports, vrf, was, now, rif, configs[k]);
  }

  lemma IsRifStays(s: Store, t: Store, ports: seq<Oid>, vrf: Oid, was: map<Name, Oid>, now: map<Name, Oid>, rif: Oid, config: RifConfig)
    requires Carries(s, t) && SubNames(was, now) && IsRif(s, ports, was, vrf, rif, config)
    ensures IsRif(t, ports, now, vrf, rif, config)
  {
    NoPvids();
    BoundCarried(s, t, rif, RIF_VRF, s[OidH(rif)][RIF_VRF]);
    BoundCarried(s, t, rif, RIF_TYPE, s[OidH(rif)][RIF_TYPE]);
    var on := if config.kind.OnVlan? then RIF_VLAN else RIF_PORT;
    BoundCarried(s, t, rif, on, s[OidH(rif)][on]);
  }

  /** Later calls that set other fields leave alone what a call has made. */
  lemma MadeStays(s: Store, t: Store, ports: seq<Oid>, vrf: Oid, was: map<Name, Oid>, now: map<Name, Oid>, call: BuilderCall)
    requires Carries(s, t) && SubNames(was, now) && MadeIn(s, ports, vrf, was, call)
    ensures MadeIn(t, ports, vrf, now, call)
  {
    match call
    case BridgePorts(indices) => PortsStay(s, t, ports, was, now, indices);
    case LagWithMembers(index, indices) => LagStays(s, t, ports, was, now, index, indices);
    case VlanWithMembers(id, members) => VlanStays(s, t, was, now, id, members);
    case RoutingInterfaces(configs) =>
      forall j | 0 <= j < |configs| ensures RifKnown(t, ports, vrf, now, configs, configs[j]) {
        RifStays(s, t, ports, vrf, was, now, configs, configs[j]);
      }
    case PortVlan(_, _) =>
  }

  lemma {:induction false} VlanMade(s: Store, names: map<Name, Oid>, id: nat, vms: seq<Oid>, members: seq<(Name, Tag)>, resolved: seq<(Oid, Tag)>)
    requires VlanName(id) in names && BoundTo(s, names[VlanName(id)], VLAN_ID, Txt(Decimal(id)))
    requires |resolved| == |members| && VlanMembers(s, vms, names[VlanName(id)], resolved) && Numbered(names, id, vms)
    requires forall i | 0 <= i < |members| :: members[i].0 in names && resolved[i] == (names[members[i].0], members[i].1)
    ensures VlanIs(s, names, id, members)
  {
    forall j | 0 <= j < |members| ensures VlanHas(s, names, id, j, members[j]) { assert IsVlanMember(s, vms[j], names[VlanName(id)], resolved[j]); }
  }

  lemma RifsMade(s: Store, ports: seq<Oid>, vrf: Oid, was: map<Name, Oid>, now: map<Name, Oid>, rifs: seq<Oid>, configs: seq<RifConfig>)
    requires Rifs(s, ports, was, vrf, rifs, configs) && RifsNamed(now, rifs, configs) && SameBut(was, now, RoutingInterfaces(configs))
    ensures MadeIn(s, ports, vrf, now, RoutingInterfaces(configs))
  {
    forall j | 0 <= j < |configs| ensures RifKnown(s, ports, vrf, now, configs, configs[j]) {
      assert RifNamed(now, rifs, configs, j);
      var k :| j <= k < |configs| && RifIs(now, rifs[k], configs[k], RifName(configs[j]));
      assert IsRif(s, ports, was, vrf, rifs[k], configs[k]);
      SameRif(s, ports, vrf, was, now, rifs[k], configs[k], RoutingInterfaces(configs));
    }
  }

  lemma SameRif(s: Store, ports: seq<Oid>, vrf: Oid, was: map<Name, Oid>, now: map<Name, Oid>, rif: Oid, config: RifConfig, call: BuilderCall)
    requires IsRif(s, ports, was, vrf, rif, config) && call.RoutingInterfaces? && SameBut(was, now, call)
    ensures IsRif(s, ports, now, vrf, rif, config)
  {
    forall k | 0 <= k < |call.configs| ensures RifName(call.configs[k]) != VlanName(config.index) && RifName(call.configs[k]) != LagName(config.index) {}
    assert SameName(was, now, VlanName(config.index)) && SameName(was, now, LagName(config.index));
  }
}
