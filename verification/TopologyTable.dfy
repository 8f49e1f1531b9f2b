/** The table of the fixed layouts, row by row: what is there once a layout has been set up. */
module TopologyTable {
  import opened Wrappers
  import opened Numbers
  import opened SaiStore
  import opened Integrity
  import opened Attributes
  import opened TopologyNames
  import opened TopologyLayouts

  // ---------- rows ----------

  /** The j-th member of the VLAN is this bridge port, with this tagging mode. */
  ghost predicate MemberRow(s: Store, names: map<Name, Oid>, id: nat, j: nat, bp: Oid, mode: string) {
    && VlanName(id) in names && VlanMemberName(id, j) in names
    && var vm := names[VlanMemberName(id, j)];
       BoundTo(s, vm, VM_VLAN, Ref(names[VlanName(id)])) && BoundTo(s, vm, VM_BP, Ref(bp)) && BoundTo(s, vm, VM_TAG, Txt(mode))
  }

  /** The port has a bridge port, which is the j-th member of the VLAN. */
  ghost predicate PortRow(s: Store, ports: seq<Oid>, names: map<Name, Oid>, i: nat, id: nat, j: nat, mode: string) {
    && i < |ports| && PortBp(i) in names && IsBridgePort(s, names[PortBp(i)], ports[i])
    && MemberRow(s, names, id, j, names[PortBp(i)], mode)
  }

  ghost predicate VlanRow(s: Store, names: map<Name, Oid>, id: nat, text: string) {
    VlanName(id) in names && BoundTo(s, names[VlanName(id)], VLAN_ID, Txt(text))
  }

  /** The LAG has a bridge port. */
  ghost predicate LagRow(s: Store, names: map<Name, Oid>, l: nat) {
    LagName(l) in names && LagBp(l) in names && IsBridgePort(s, names[LagBp(l)], names[LagName(l)])
  }

  /** The port is a member of the LAG. */
  ghost predicate LagPort(s: Store, ports: seq<Oid>, names: map<Name, Oid>, l: nat, i: nat) {
    && i < |ports| && LagName(l) in names && LagMemberName(l, i) in names
    && BoundTo(s, names[LagMemberName(l, i)], LM_LAG, Ref(names[LagName(l)])) && BoundTo(s, names[LagMemberName(l, i)], LM_PORT, Ref(ports[i]))
  }

  ghost predicate RifRow(s: Store, names: map<Name, Oid>, vrf: Oid, n: Name, kind: string, attr: string, on: Oid) {
    && n in names && BoundTo(s, names[n], RIF_VRF, Ref(vrf)) && BoundTo(s, names[n], RIF_TYPE, Txt(kind))
    && BoundTo(s, names[n], attr, Ref(on))
  }

  ghost predicate PortRif(s: Store, ports: seq<Oid>, names: map<Name, Oid>, vrf: Oid, i: nat) {
    i < |ports| && RifRow(s, names, vrf, Name.PortRif(i), "SAI_ROUTER_INTERFACE_TYPE_PORT", "SAI_ROUTER_INTERFACE_ATTR_PORT_ID", ports[i])
  }

  // ---------- the table ----------

  ghost predicate PortTable(s: Store, ports: seq<Oid>, names: map<Name, Oid>) {
    && VlanRow(s, names, 10, "10") && VlanRow(s, names, 20, "20")
    && PortRow(s, ports, names, 0, 10, 0, "SAI_VLAN_TAGGING_MODE_UNTAGGED")
    && PortRow(s, ports, names, 1, 10, 1, "SAI_VLAN_TAGGING_MODE_TAGGED")
    && PortRow(s, ports, names, 2, 20, 0, "SAI_VLAN_TAGGING_MODE_UNTAGGED")
    && PortRow(s, ports, names, 3, 20, 1, "SAI_VLAN_TAGGING_MODE_TAGGED")
  }

  ghost predicate LagTable(s: Store, ports: seq<Oid>, names: map<Name, Oid>) {
    && LagRow(s, names, 1) && LagPort(s, ports, names, 1, 4) && LagPort(s, ports, names, 1, 5) && LagPort(s, ports, names, 1, 6)
    && LagRow(s, names, 2) && LagPort(s, ports, names, 2, 7) && LagPort(s, ports, names, 2, 8) && LagPort(s, ports, names, 2, 9)
    && MemberRow(s, names, 10, 2, names[LagBp(1)], "SAI_VLAN_TAGGING_MODE_UNTAGGED")
    && MemberRow(s, names, 20, 2, names[LagBp(2)], "SAI_VLAN_TAGGING_MODE_UNTAGGED")
    && BoundTo(s, names[LagName(1)], "SAI_LAG_ATTR_PORT_VLAN_ID", Txt("10"))
  }

  ghost predicate RifTable(s: Store, ports: seq<Oid>, names: map<Name, Oid>, vrf: Oid) {
    && PortRif(s, ports, names, vrf, 10) && PortRif(s, ports, names, vrf, 11)
    && PortRif(s, ports, names, vrf, 12) && PortRif(s, ports, names, vrf, 13)
  }

  ghost predicate MoreTable(s: Store, ports: seq<Oid>, names: map<Name, Oid>, vrf: Oid) {
    && VlanRow(s, names, 30, "30")
    && PortRow(s, ports, names, 20, 30, 0, "SAI_VLAN_TAGGING_MODE_UNTAGGED")
    && PortRow(s, ports, names, 21, 30, 1, "SAI_VLAN_TAGGING_MODE_TAGGED")
    && LagRow(s, names, 3) && LagPort(s, ports, names, 3, 14) && LagPort(s, ports, names, 3, 15) && LagPort(s, ports, names, 3, 16)
    && LagRow(s, names, 4) && LagPort(s, ports, names, 4, 17) && LagPort(s, ports, names, 4, 18) && LagPort(s, ports, names, 4, 19)
    && LagRow(s, names, 5) && LagPort(s, ports, names, 5, 22) && LagPort(s, ports, names, 5, 23)
    && MemberRow(s, names, 30, 2, names[LagBp(5)], "SAI_VLAN_TAGGING_MODE_UNTAGGED")
    && RifRow(s, names, vrf, VlanRif(30), "SAI_ROUTER_INTERFACE_TYPE_VLAN", "SAI_ROUTER_INTERFACE_ATTR_VLAN_ID", names[VlanName(30)])
    && RifRow(s, names, vrf, LagRif(3), "SAI_ROUTER_INTERFACE_TYPE_PORT", "SAI_ROUTER_INTERFACE_ATTR_PORT_ID", names[LagName(3)])
    && RifRow(s, names, vrf, LagRif(4), "SAI_ROUTER_INTERFACE_TYPE_PORT", "SAI_ROUTER_INTERFACE_ATTR_PORT_ID", names[LagName(4)])
  }

  ghost predicate Table(s: Store, ports: seq<Oid>, vrf: Oid, names: map<Name, Oid>, layout: LayoutKind) {
    && PortTable(s, ports, names)
    && (!layout.L2Basic? ==> LagTable(s, ports, names))
    && (layout.L3Basic? || layout.L3Advanced? ==> RifTable(s, ports, names, vrf))
    && (layout.L3Advanced? ==> MoreTable(s, ports, names, vrf))
  }

  /** A route of the default virtual router that drops what it matches. */
  ghost predicate RouteRow(s: Store, dest: string, switchOid: Oid, vrf: Oid) {
    var h := EntryH("ROUTE_ENTRY", Field("dest", Txt(dest), Field("switch_id", Ref(switchOid), Field("vr", Ref(vrf), NoFields))));
    h in s && s[h] == map["SAI_ROUTE_ENTRY_ATTR_PACKET_ACTION" := Txt("SAI_PACKET_ACTION_DROP")]
  }

  ghost predicate RouteTable(s: Store, switchOid: Oid, vrf: Oid, layout: LayoutKind) {
    layout.L3Basic? || layout.L3Advanced? ==> RouteRow(s, "0.0.0.0/0", switchOid, vrf) && RouteRow(s, "::/0", switchOid, vrf)
  }

  lemma RoutesAreRows(s: Store, b0: Store, switchOid: Oid, vrf: Oid, layout: LayoutKind)
    requires Extends(WithRoutes(b0, switchOid, vrf, layout), s)
    ensures RouteTable(s, switchOid, vrf, layout)
  {
    if layout.L3Basic? || layout.L3Advanced? {
      RoutesDiffer(switchOid, vrf);
      AttrMapNext([], ROUTE_ACTION, Txt("SAI_PACKET_ACTION_DROP"));
      assert [] + DropAttrs() == DropAttrs();
      var t := WithRoutes(b0, switchOid, vrf, layout);
      assert Route("0.0.0.0/0", switchOid, vrf) in t && Route("::/0", switchOid, vrf) in t;
    }
  }

  // ---------- the layouts have it ----------

  lemma ModeOf(tag: Tag, mode: Value)
    requires Means(tag, mode)
    ensures tag == "untagged" ==> mode == Txt("SAI_VLAN_TAGGING_MODE_UNTAGGED")
    ensures tag == "tagged" ==> mode == Txt("SAI_VLAN_TAGGING_MODE_TAGGED")
  {
  }

  lemma MemberIsRow(s: Store, names: map<Name, Oid>, id: nat, j: nat, m: (Name, Tag))
    requires VlanHas(s, names, id, j, m)
    ensures m.1 == "untagged" ==> MemberRow(s, names, id, j, names[m.0], "SAI_VLAN_TAGGING_MODE_UNTAGGED")
    ensures m.1 == "tagged" ==> MemberRow(s, names, id, j, names[m.0], "SAI_VLAN_TAGGING_MODE_TAGGED")
  {
    ModeOf(m.1, s[OidH(names[VlanMemberName(id, j)])][VM_TAG]);
  }

  lemma VlanIsRows(s: Store, names: map<Name, Oid>, id: nat, members: seq<(Name, Tag)>, j: nat)
    requires VlanIs(s, names, id, members) && j < |members|
    ensures members[j].1 == "untagged" ==> MemberRow(s, names, id, j, names[members[j].0], "SAI_VLAN_TAGGING_MODE_UNTAGGED")
    ensures members[j].1 == "tagged" ==> MemberRow(s, names, id, j, names[members[j].0], "SAI_VLAN_TAGGING_MODE_TAGGED")
  {
    MemberIsRow(s, names, id, j, members[j]);
  }

  lemma PortIsRow(s: Store, ports: seq<Oid>, names: map<Name, Oid>, indices: seq<nat>, j: nat)
    requires PortsNamed(s, ports, names, indices) && j < |indices|
    ensures PortNamed(s, ports, names, indices[j])
  {
  }

  lemma LagIsRows(s: Store, ports: seq<Oid>, names: map<Name, Oid>, l: nat, indices: seq<nat>, j: nat)
    requires LagIs(s, ports, names, l, indices) && j < |indices|
    ensures LagRow(s, names, l) && LagPort(s, ports, names, l, indices[j])
  {
    assert MemberNamed(s, ports, names, l, names[LagName(l)], indices[j]);
  }

  lemma VlanTexts()
    ensures Decimal(10) == "10" && Decimal(20) == "20" && Decimal(30) == "30"
  {
  }

  lemma MadeAt(s: Store, ports: seq<Oid>, vrf: Oid, names: map<Name, Oid>, calls: seq<BuilderCall>, i: nat)
    requires AllMade(s, ports, vrf, names, calls) && i < |calls|
    ensures MadeIn(s, ports, vrf, names, calls[i])
  {
  }

  lemma HasPortTable(s: Store, ports: seq<Oid>, vrf: Oid, names: map<Name, Oid>)
    requires MadeIn(s, ports, vrf, names, PORTS_0_TO_3) && MadeIn(s, ports, vrf, names, VLAN_10) && MadeIn(s, ports, vrf, names, VLAN_20)
    ensures PortTable(s, ports, names)
  {
    VlanTexts();
    PortIsRow(s, ports, names, [0, 1, 2, 3], 0);
    PortIsRow(s, ports, names, [0, 1, 2, 3], 1);
    PortIsRow(s, ports, names, [0, 1, 2, 3], 2);
    PortIsRow(s, ports, names, [0, 1, 2, 3], 3);
    VlanIsRows(s, names, 10, VLAN_10.members, 0);
    VlanIsRows(s, names, 10, VLAN_10.members, 1);
    VlanIsRows(s, names, 20, VLAN_20.members, 0);
    VlanIsRows(s, names, 20, VLAN_20.members, 1);
  }

  lemma LagOfThree(s: Store, ports: seq<Oid>, vrf: Oid, names: map<Name, Oid>, l: nat, i: nat, j: nat, k: nat)
    requires MadeIn(s, ports, vrf, names, LagWithMembers(l, [i, j, k]))
    ensures LagRow(s, names, l) && LagPort(s, ports, names, l, i) && LagPort(s, ports, names, l, j) && LagPort(s, ports, names, l, k)
  {
    LagIsRows(s, ports, names, l, [i, j, k], 0);
    LagIsRows(s, ports, names, l, [i, j, k], 1);
    LagIsRows(s, ports, names, l, [i, j, k], 2);
  }

  lemma HasLagTable(s: Store, ports: seq<Oid>, vrf: Oid, names: map<Name, Oid>)
    requires MadeIn(s, ports, vrf, names, LAG_1) && MadeIn(s, ports, vrf, names, LAG_2)
    requires LagsJoined(s, names) && LagVlan(s, names, "10")
    ensures LagTable(s, ports, names)
  {
    LagOfThree(s, ports, vrf, names, 1, 4, 5, 6);
    LagOfThree(s, ports, vrf, names, 2, 7, 8, 9);
    MemberIsRow(s, names, 10, 2, (LagBp(1), "untagged"));
    MemberIsRow(s, names, 20, 2, (LagBp(2), "untagged"));
  }

  /** Interfaces of known kinds in the default virtual router: no two of them have the same name. */
  predicate Plain(configs: seq<RifConfig>) {
    forall j | 0 <= j < |configs| :: configs[j].vrf.None? && !configs[j].kind.UnknownKind?
  }

  lemma RifIsRow(s: Store, ports: seq<Oid>, vrf: Oid, names: map<Name, Oid>, configs: seq<RifConfig>, j: nat)
    requires MadeIn(s, ports, vrf, names, RoutingInterfaces(configs)) && Plain(configs) && j < |configs|
    ensures RifName(configs[j]) in names && IsRif(s, ports, names, vrf, names[RifName(configs[j])], configs[j])
  {
    assert RifKnown(s, ports, vrf, names, configs, configs[j]);
    var k :| 0 <= k < |configs| && RifName(configs[k]) == RifName(configs[j]) && IsRif(s, ports, names, vrf, names[RifName(configs[j])], configs[k]);
    assert configs[k] == configs[j];
  }

  lemma PlainRifs()
    ensures Plain(PORT_RIFS.configs) && Plain(OTHER_RIFS.configs)
  {
  }

  lemma PortRifIsRow(s: Store, ports: seq<Oid>, vrf: Oid, names: map<Name, Oid>, configs: seq<RifConfig>, j: nat, i: nat)
    requires MadeIn(s, ports, vrf, names, RoutingInterfaces(configs)) && Plain(configs) && j < |configs| && configs[j] == RifConfig(OnPort, i, None)
    ensures PortRif(s, ports, names, vrf, i)
  {
    RifIsRow(s, ports, vrf, names, configs, j);
  }

  lemma HasRifTable(s: Store, ports: seq<Oid>, vrf: Oid, names: map<Name, Oid>)
    requires MadeIn(s, ports, vrf, names, PORT_RIFS)
    ensures RifTable(s, ports, names, vrf)
  {
    var configs := PORT_RIFS.configs;
    PlainRifs();
    PortRifIsRow(s, ports, vrf, names, configs, 0, 10);
    PortRifIsRow(s, ports, vrf, names, configs, 1, 11);
    PortRifIsRow(s, ports, vrf, names, configs, 2, 12);
    PortRifIsRow(s, ports, vrf, names, configs, 3, 13);
  }

  lemma OtherRifRows(s: Store, ports: seq<Oid>, vrf: Oid, names: map<Name, Oid>)
    requires MadeIn(s, ports, vrf, names, OTHER_RIFS)
    ensures VlanRif(30) in names && IsRif(s, ports, names, vrf, names[VlanRif(30)], RifConfig(OnVlan, 30, None))
    ensures LagRif(3) in names && IsRif(s, ports, names, vrf, names[LagRif(3)], RifConfig(OnLag, 3, None))
    ensures LagRif(4) in names && IsRif(s, ports, names, vrf, names[LagRif(4)], RifConfig(OnLag, 4, None))
  {
    PlainRifs();
    RifIsRow(s, ports, vrf, names, OTHER_RIFS.configs, 0);
    RifIsRow(s, ports, vrf, names, OTHER_RIFS.configs, 1);
    RifIsRow(s, ports, vrf, names, OTHER_RIFS.configs, 2);
  }

  lemma HasMoreLags(s: Store, ports: seq<Oid>, vrf: Oid, names: map<Name, Oid>)
    requires MadeIn(s, ports, vrf, names, LAG_3) && MadeIn(s, ports, vrf, names, LAG_4) && MadeIn(s, ports, vrf, names, LAG_5)
    ensures LagRow(s, names, 3) && LagPort(s, ports, names, 3, 14) && LagPort(s, ports, names, 3, 15) && LagPort(s, ports, names, 3, 16)
    ensures LagRow(s, names, 4) && LagPort(s, ports, names, 4, 17) && LagPort(s, ports, names, 4, 18) && LagPort(s, ports, names, 4, 19)
    ensures LagRow(s, names, 5) && LagPort(s, ports, names, 5, 22) && LagPort(s, ports, names, 5, 23)
  {
    LagOfThree(s, ports, vrf, names, 3, 14, 15, 16);
    LagOfThree(s, ports, vrf, names, 4, 17, 18, 19);
    LagIsRows(s, ports, names, 5, [22, 23], 0);
    LagIsRows(s, ports, names, 5, [22, 23], 1);
  }

  lemma HasMoreTable(s: Store, ports: seq<Oid>, vrf: Oid, names: map<Name, Oid>)
    requires AllMade(s, ports, vrf, names, MORE_CALLS)
    ensures MoreTable(s, ports, names, vrf)
  {
    VlanTexts();
    forall i | 0 <= i < 6 ensures MadeIn(s, ports, vrf, names, MORE_CALLS[i]) {}
    assert MadeIn(s, ports, vrf, names, MORE_CALLS[0]) && MadeIn(s, ports, vrf, names, MORE_CALLS[1]) && MadeIn(s, ports, vrf, names, MORE_CALLS[2]);
    assert MadeIn(s, ports, vrf, names, MORE_CALLS[3]) && MadeIn(s, ports, vrf, names, MORE_CALLS[4]) && MadeIn(s, ports, vrf, names, MORE_CALLS[5]);
    HasMoreLags(s, ports, vrf, names);
    PortIsRow(s, ports, names, [20, 21], 0);
    PortIsRow(s, ports, names, [20, 21], 1);
    VlanIsRows(s, names, 30, VLAN_30.members, 0);
    VlanIsRows(s, names, 30, VLAN_30.members, 1);
    VlanIsRows(s, names, 30, VLAN_30.members, 2);
    OtherRifRows(s, ports, vrf, names);
  }

  lemma PortsAndVlans(s: Store, ports: seq<Oid>, vrf: Oid, names: map<Name, Oid>, layout: LayoutKind)
    requires AllMade(s, ports, vrf, names, CallsOf(layout))
    ensures PortTable(s, ports, names)
  {
    var calls := CallsOf(layout);
    assert calls[..3] == PORT_CALLS;
    assert calls[0] == PORT_CALLS[0] && calls[1] == PORT_CALLS[1] && calls[2] == PORT_CALLS[2];
    MadeAt(s, ports, vrf, names, calls, 0);
    MadeAt(s, ports, vrf, names, calls, 1);
    MadeAt(s, ports, vrf, names, calls, 2);
    HasPortTable(s, ports, vrf, names);
  }

  lemma Lags(s: Store, ports: seq<Oid>, vrf: Oid, names: map<Name, Oid>, layout: LayoutKind)
    requires Holds(s, ports, vrf, names, layout) && !layout.L2Basic?
    ensures LagTable(s, ports, names)
  {
    var calls := CallsOf(layout);
    assert calls[..5] == PORT_CALLS + LAG_CALLS;
    assert calls[3] == (PORT_CALLS + LAG_CALLS)[3] == LAG_1 && calls[4] == (PORT_CALLS + LAG_CALLS)[4] == LAG_2;
    MadeAt(s, ports, vrf, names, calls, 3);
    MadeAt(s, ports, vrf, names, calls, 4);
    HasLagTable(s, ports, vrf, names);
  }

  lemma Interfaces(s: Store, ports: seq<Oid>, vrf: Oid, names: map<Name, Oid>, layout: LayoutKind)
    requires AllMade(s, ports, vrf, names, CallsOf(layout)) && (layout.L3Basic? || layout.L3Advanced?)
    ensures RifTable(s, ports, names, vrf)
  {
    var calls := CallsOf(layout);
    assert calls[..6] == PORT_CALLS + LAG_CALLS + RIF_CALLS;
    assert calls[5] == (PORT_CALLS + LAG_CALLS + RIF_CALLS)[5] == PORT_RIFS;
    MadeAt(s, ports, vrf, names, calls, 5);
    HasRifTable(s, ports, vrf, names);
  }

  lemma More(s: Store, ports: seq<Oid>, vrf: Oid, names: map<Name, Oid>)
    requires AllMade(s, ports, vrf, names, CallsOf(L3Advanced))
    ensures MoreTable(s, ports, names, vrf)
  {
    var before := PORT_CALLS + LAG_CALLS + RIF_CALLS;
    var calls := before + MORE_CALLS;
    forall i | 0 <= i < |MORE_CALLS| ensures MadeIn(s, ports, vrf, names, MORE_CALLS[i]) {
      assert calls[|before| + i] == MORE_CALLS[i];
      MadeAt(s, ports, vrf, names, calls, |before| + i);
    }
    HasMoreTable(s, ports, vrf, names);
  }

  /** A layout that has been set up is the table. */
  lemma LayoutIsTable(s: Store, ports: seq<Oid>, vrf: Oid, names: map<Name, Oid>, layout: LayoutKind)
    requires Holds(s, ports, vrf, names, layout)
    ensures Table(s, ports, vrf, names, layout)
  {
    PortsAndVlans(s, ports, vrf, names, layout);
    if !layout.L2Basic? { Lags(s, ports, vrf, names, layout); }
    if layout.L3Basic? || layout.L3Advanced? { Interfaces(s, ports, vrf, names, layout); }
    if layout.L3Advanced? { More(s, ports, vrf, names); }
  }
}
