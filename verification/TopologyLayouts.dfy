/** The four fixed layouts: what they consist of, their default routes, and the VLAN ids of ports. */
module TopologyLayouts {
  import opened Numbers
  import opened Wrappers
  import opened SaiStore
  import opened Integrity
  import opened BridgePorts
  import opened TopologyLists
  import opened Attributes
  import opened TopologyNames

  datatype LayoutKind = L2Basic | L2Advanced | L3Basic | L3Advanced

  // ---------- what the layouts consist of ----------

  const PORTS_0_TO_3 := BridgePorts([0, 1, 2, 3])
  const VLAN_10 := VlanWithMembers(10, [(PortBp(0), "untagged"), (PortBp(1), "tagged")])
  const VLAN_20 := VlanWithMembers(20, [(PortBp(2), "untagged"), (PortBp(3), "tagged")])
  const LAG_1 := LagWithMembers(1, [4, 5, 6])
  const LAG_2 := LagWithMembers(2, [7, 8, 9])
  const PORT_RIFS := RoutingInterfaces([RifConfig(OnPort, 10, None), RifConfig(OnPort, 11, None), RifConfig(OnPort, 12, None), RifConfig(OnPort, 13, None)])
  const PORTS_20_21 := BridgePorts([20, 21])
  const LAG_3 := LagWithMembers(3, [14, 15, 16])
  const LAG_4 := LagWithMembers(4, [17, 18, 19])
  const LAG_5 := LagWithMembers(5, [22, 23])
  const VLAN_30 := VlanWithMembers(30, [(PortBp(20), "untagged"), (PortBp(21), "tagged"), (LagBp(5), "untagged")])
  const OTHER_RIFS := RoutingInterfaces([RifConfig(OnVlan, 30, None), RifConfig(OnLag, 3, None), RifConfig(OnLag, 4, None)])

  const PORT_CALLS := [PORTS_0_TO_3, VLAN_10, VLAN_20]
  const LAG_CALLS := [LAG_1, LAG_2]
  const RIF_CALLS := [PORT_RIFS]
  const MORE_CALLS := [PORTS_20_21, LAG_3, LAG_4, LAG_5, VLAN_30, OTHER_RIFS]

  /** What each of the calls makes is there. */
  ghost predicate AllMade(s: Store, ports: seq<Oid>, vrf: Oid, names: map<Name, Oid>, calls: seq<BuilderCall>) {
    forall i | 0 <= i < |calls| :: MadeIn(s, ports, vrf, names, calls[i])
  }

  /** LAG 1 is in VLAN 10 and LAG 2 in VLAN 20, both untagged. */
  ghost predicate LagsJoined(s: Store, names: map<Name, Oid>) {
    VlanHas(s, names, 10, 2, (LagBp(1), "untagged")) && VlanHas(s, names, 20, 2, (LagBp(2), "untagged"))
  }

  /** LAG 1 has this VLAN id. */
  ghost predicate LagVlan(s: Store, names: map<Name, Oid>, id: string) {
    LagName(1) in names && BoundTo(s, names[LagName(1)], LAG_PVID, Txt(id))
  }

  function CallsOf(layout: LayoutKind): seq<BuilderCall> {
    match layout
    case L2Basic => PORT_CALLS
    case L2Advanced => PORT_CALLS + LAG_CALLS
    case L3Basic => PORT_CALLS + LAG_CALLS + RIF_CALLS
    case L3Advanced => PORT_CALLS + LAG_CALLS + RIF_CALLS + MORE_CALLS
  }

  /** The objects of the layout are there, under their names. */
  ghost predicate Holds(s: Store, ports: seq<Oid>, vrf: Oid, names: map<Name, Oid>, layout: LayoutKind) {
    && AllMade(s, ports, vrf, names, CallsOf(layout))
    && (!layout.L2Basic? ==> LagsJoined(s, names) && LagVlan(s, names, "10"))
  }

  lemma AllMadeStays(s: Store, t: Store, ports: seq<Oid>, vrf: Oid, was: map<Name, Oid>, now: map<Name, Oid>, calls: seq<BuilderCall>)
    requires Carries(s, t) && SubNames(was, now) && AllMade(s, ports, vrf, was, calls)
    ensures AllMade(t, ports, vrf, now, calls)
  {
    forall i | 0 <= i < |calls| ensures MadeIn(t, ports, vrf, now, calls[i]) { MadeStays(s, t, ports, vrf, was, now, calls[i]); }
  }

  lemma AllMadeNext(s: Store, t: Store, ports: seq<Oid>, vrf: Oid, was: map<Name, Oid>, now: map<Name, Oid>, kept: seq<BuilderCall>,
                    calls: seq<BuilderCall>, i: nat)
    requires i < |calls| && Extends(s, t) && SubNames(was, now) && AllMade(s, ports, vrf, was, kept + calls[..i])
    requires MadeIn(t, ports, vrf, now, calls[i])
    ensures AllMade(t, ports, vrf, now, kept + calls[..i + 1])
  {
    ExtendsCarries(s, t);
    AllMadeStays(s, t, ports, vrf, was, now, kept + calls[..i]);
    assert kept + calls[..i + 1] == (kept + calls[..i]) + [calls[i]];
  }

  lemma LagsJoinedStay(s: Store, t: Store, was: map<Name, Oid>, now: map<Name, Oid>)
    requires Carries(s, t) && SubNames(was, now) && LagsJoined(s, was)
    ensures LagsJoined(t, now)
  {
    VlanHasStays(s, t, was, now, 10, 2, (LagBp(1), "untagged"));
    VlanHasStays(s, t, was, now, 20, 2, (LagBp(2), "untagged"));
  }

  lemma ExtendsCarries(s: Store, t: Store)
    requires Extends(s, t)
    ensures Carries(s, t)
  {
  }

  lemma TextCarries(s: Store, h: Handle, attr: string, text: string)
    requires IsPvid(attr)
    ensures Carries(s, WithText(s, h, attr, text))
  {
  }

  lemma HoldsStays(s: Store, t: Store, ports: seq<Oid>, vrf: Oid, was: map<Name, Oid>, now: map<Name, Oid>, layout: LayoutKind)
    requires Extends(s, t) && SubNames(was, now) && Holds(s, ports, vrf, was, layout)
    ensures Holds(t, ports, vrf, now, layout)
  {
    ExtendsCarries(s, t);
    AllMadeStays(s, t, ports, vrf, was, now, CallsOf(layout));
    if !layout.L2Basic? { LagsJoinedStay(s, t, was, now); }
  }

  /** The place of a field in the order in which the layouts set them. */
  function Stage(n: Name): nat {
    match n
    case PortBp(i) => if i < 4 then 1 else 8
    case VlanName(i) => if i == 10 then 2 else if i == 20 then 3 else 12
    case VlanMemberName(i, j) => if i == 30 then 12 else if j >= 2 then 6 else if i == 10 then 2 else 3
    case LagName(i) => LagStage(i)
    case LagBp(i) => LagStage(i)
    case LagMemberName(i, _) => LagStage(i)
    case PortRif(_) => 7
    case VlanRif(_) => 13
    case LagRif(_) => 13
  }

  function LagStage(i: nat): nat {
    if i <= 1 then 4 else if i == 2 then 5 else 6 + i
  }

  /** The call is the one at this place. */
  ghost predicate At(call: BuilderCall, k: nat) {
    forall n | Defines(call, n) :: Stage(n) == k
  }

  /** Only fields of earlier places are set. */
  ghost predicate Before(names: map<Name, Oid>, k: nat) {
    forall n | n in names :: Stage(n) < k
  }

  /** The calls are at consecutive places. */
  ghost predicate AllAt(calls: seq<BuilderCall>, k: nat) {
    forall i | 0 <= i < |calls| :: At(calls[i], k + i)
  }

  lemma PortPlaces()
    ensures AllAt(PORT_CALLS, 1)
  {
    assert At(PORTS_0_TO_3, 1) && At(VLAN_10, 2) && At(VLAN_20, 3);
  }

  lemma LagPlaces()
    ensures AllAt(LAG_CALLS, 4)
  {
    assert At(LAG_1, 4) && At(LAG_2, 5);
  }

  lemma RifPlaces()
    ensures AllAt(RIF_CALLS, 7)
  {
    assert At(PORT_RIFS, 7);
  }

  lemma MorePlaces()
    ensures AllAt(MORE_CALLS, 8)
  {
    MoreLagPlaces();
    assert At(PORTS_20_21, 8) && At(VLAN_30, 12);
    assert At(OTHER_RIFS, 13);
  }

  lemma MoreLagPlaces()
    ensures At(LAG_3, 9) && At(LAG_4, 10) && At(LAG_5, 11)
  {
  }

  lemma BeforeNext(was: map<Name, Oid>, now: map<Name, Oid>, call: BuilderCall, k: nat)
    requires Before(was, k) && At(call, k) && SameBut(was, now, call)
    ensures SubNames(was, now) && Before(now, k + 1)
  {
    FreshFields(was, now, call);
    forall n | n in now ensures Stage(n) < k + 1 {
      if !Defines(call, n) { assert SameName(was, now, n); }
    }
  }

  lemma MembersAreNew(was: map<Name, Oid>, now: map<Name, Oid>)
    requires Before(was, 6) && forall n | n != VlanMemberName(10, 2) && n != VlanMemberName(20, 2) :: SameName(was, now, n)
    ensures SubNames(was, now) && Before(now, 7)
  {
    forall n | n in was ensures n in now && now[n] == was[n] { assert SameName(was, now, n); }
    forall n | n in now ensures Stage(n) < 7 {
      if n != VlanMemberName(10, 2) && n != VlanMemberName(20, 2) { assert SameName(was, now, n); }
    }
  }

  // ---------- what the calls of the layouts need ----------

  predicate GivesPort(call: BuilderCall, n: Name) {
    (call.BridgePorts? && n.PortBp? && n.i in call.indices) || (call.LagWithMembers? && n.LagBp? && n.i == call.index)
  }

  predicate GivesVlan(call: BuilderCall, id: nat) {
    call.VlanWithMembers? && call.id == id
  }

  predicate GivesLag(call: BuilderCall, index: nat) {
    call.LagWithMembers? && call.index == index
  }

  ghost predicate RifProvided(before: seq<BuilderCall>, config: RifConfig) {
    config.vrf.None? &&
    match config.kind
    case OnPort => config.index < 24
    case OnVlan => exists i :: 0 <= i < |before| && GivesVlan(before[i], config.index)
    case OnLag => exists i :: 0 <= i < |before| && GivesLag(before[i], config.index)
    case UnknownKind => false
  }

  ghost predicate PortProvided(before: seq<BuilderCall>, n: Name) {
    exists i :: 0 <= i < |before| && GivesPort(before[i], n)
  }

  /** What the call needs is among the first 24 ports, or made by the calls before it. */
  ghost predicate Provided(before: seq<BuilderCall>, call: BuilderCall) {
    match call
    case BridgePorts(indices) => forall j | 0 <= j < |indices| :: indices[j] < 24
    case LagWithMembers(_, indices) => forall j | 0 <= j < |indices| :: indices[j] < 24
    case VlanWithMembers(_, members) => forall j | 0 <= j < |members| :: PortProvided(before, members[j].0) && IsTag(members[j].1)
    case RoutingInterfaces(configs) => forall j | 0 <= j < |configs| :: RifProvided(before, configs[j])
    case PortVlan(_, _) => false
  }

  ghost predicate AllProvided(calls: seq<BuilderCall>) {
    forall i | 0 <= i < |calls| :: Provided(calls[..i], calls[i])
  }

  lemma {:induction false} PortIsLive(s: Store, ports: seq<Oid>, vrf: Oid, names: map<Name, Oid>, call: BuilderCall, n: Name)
    requires MadeIn(s, ports, vrf, names, call) && GivesPort(call, n)
    ensures IsSetPort(names, n) && LiveV(s, Ref(names[n]))
  {
    if call.BridgePorts? {
      var j :| 0 <= j < |call.indices| && call.indices[j] == n.i;
      assert PortNamed(s, ports, names, call.indices[j]);
    }
  }

  lemma RifCanBe(s: Store, ports: seq<Oid>, vrf: Oid, names: map<Name, Oid>, before: seq<BuilderCall>, config: RifConfig)
    requires |ports| >= 24 && (forall i | 0 <= i < |ports| :: OidH(ports[i]) in s) && AllMade(s, ports, vrf, names, before)
    requires RifProvided(before, config)
    ensures RifPossible(s, names, ports, config)
  {
    match config.kind
    case OnPort =>
    case OnVlan =>
      var i :| 0 <= i < |before| && GivesVlan(before[i], config.index);
      assert MadeIn(s, ports, vrf, names, before[i]);
    case OnLag =>
      var i :| 0 <= i < |before| && GivesLag(before[i], config.index);
      assert MadeIn(s, ports, vrf, names, before[i]);
  }

  /** A call whose needs are provided for does not raise. */
  lemma ProvidedIsPossible(s: Store, ports: seq<Oid>, vrf: Oid, names: map<Name, Oid>, before: seq<BuilderCall>, call: BuilderCall)
    requires |ports| >= 24 && (forall i | 0 <= i < |ports| :: OidH(ports[i]) in s) && AllMade(s, ports, vrf, names, before)
    requires Provided(before, call)
    ensures Possible(s, names, ports, call)
  {
    match call
    case VlanWithMembers(_, members) =>
      forall j | 0 <= j < |members| ensures MemberPossible(s, names, members[j]) {
        assert PortProvided(before, members[j].0);
        var i :| 0 <= i < |before| && GivesPort(before[i], members[j].0);
        PortIsLive(s, ports, vrf, names, before[i], members[j].0);
      }
    case RoutingInterfaces(configs) =>
      forall j | 0 <= j < |configs| ensures RifPossible(s, names, ports, configs[j]) { RifCanBe(s, ports, vrf, names, before, configs[j]); }
    case _ =>
  }

  /** The fields of the two VLANs and the first two LAGs are live. */
  lemma {:induction false} LagsCanJoin(s: Store, ports: seq<Oid>, vrf: Oid, names: map<Name, Oid>)
    requires AllMade(s, ports, vrf, names, PORT_CALLS + LAG_CALLS)
    ensures VlanName(10) in names && LiveV(s, Ref(names[VlanName(10)])) && MemberPossible(s, names, (LagBp(1), "untagged"))
    ensures VlanName(20) in names && LiveV(s, Ref(names[VlanName(20)])) && MemberPossible(s, names, (LagBp(2), "untagged"))
  {
    UntaggedIsATag();
    var calls := PORT_CALLS + LAG_CALLS;
    assert calls[1] == VLAN_10 && calls[2] == VLAN_20 && calls[3] == LAG_1 && calls[4] == LAG_2;
    assert MadeIn(s, ports, vrf, names, calls[1]) && MadeIn(s, ports, vrf, names, calls[2]);
    PortIsLive(s, ports, vrf, names, calls[3], LagBp(1));
    PortIsLive(s, ports, vrf, names, calls[4], LagBp(2));
  }

  lemma PortsProvided()
    ensures AllProvided(PORT_CALLS)
  {
    UntaggedIsATag();
    var calls := PORT_CALLS;
    assert calls[..1][0] == PORTS_0_TO_3 && calls[..2][0] == PORTS_0_TO_3;
    assert forall n: Name | n == PortBp(0) || n == PortBp(1) || n == PortBp(2) || n == PortBp(3) :: GivesPort(PORTS_0_TO_3, n);
    assert Provided(calls[..1], VLAN_10) && Provided(calls[..2], VLAN_20);
  }

  lemma LagsProvided()
    ensures AllProvided(LAG_CALLS) && AllProvided(RIF_CALLS)
  {
  }

  lemma MoreProvided()
    ensures AllProvided(MORE_CALLS)
  {
    UntaggedIsATag();
    var calls := MORE_CALLS;
    assert calls[..4][0] == PORTS_20_21 && calls[..4][3] == LAG_5;
    assert GivesPort(PORTS_20_21, PortBp(20)) && GivesPort(PORTS_20_21, PortBp(21)) && GivesPort(LAG_5, LagBp(5));
    assert Provided(calls[..4], VLAN_30);
    assert calls[..5][4] == VLAN_30 && calls[..5][1] == LAG_3 && calls[..5][2] == LAG_4;
    assert GivesVlan(VLAN_30, 30) && GivesLag(LAG_3, 3) && GivesLag(LAG_4, 4);
    assert Provided(calls[..5], OTHER_RIFS);
  }

  // ---------- default routes ----------

  const ROUTE_ENTRY := "ROUTE_ENTRY"
  const ROUTE_ACTION := "SAI_ROUTE_ENTRY_ATTR_PACKET_ACTION"

  function RouteKey(dest: string, switchOid: Oid, vrf: Oid): Fields {
    Field("dest", Txt(dest), Field("switch_id", Ref(switchOid), Field("vr", Ref(vrf), NoFields)))
  }

  function DropAttrs(): seq<Value> {
    [Txt(ROUTE_ACTION), Txt("SAI_PACKET_ACTION_DROP")]
  }

  lemma {:induction false} RouteRefers(dest: string, switchOid: Oid, vrf: Oid, o: Oid)
    requires MentionsF(RouteKey(dest, switchOid, vrf), o) || MentionsA(AttrMap(DropAttrs()), o)
    ensures o == switchOid || o == vrf
  {
    AttrMapNext([], ROUTE_ACTION, Txt("SAI_PACKET_ACTION_DROP"));
    assert [] + DropAttrs() == DropAttrs();
    assert !MentionsF(NoFields, o);
    MentionsField("vr", Ref(vrf), NoFields, o);
    MentionsField("switch_id", Ref(switchOid), Field("vr", Ref(vrf), NoFields), o);
    MentionsField("dest", Txt(dest), Field("switch_id", Ref(switchOid), Field("vr", Ref(vrf), NoFields)), o);
  }

  lemma {:induction false} MentionsField(n: string, v: Value, rest: Fields, o: Oid)
    requires v.Ref? || v.Txt?
    ensures MentionsF(Field(n, v, rest), o) <==> v == Ref(o) || MentionsF(rest, o)
  {
    assert MentionsV(v, o) <==> v == Ref(o);
  }

  function Route(dest: string, switchOid: Oid, vrf: Oid): Handle {
    EntryH(ROUTE_ENTRY, RouteKey(dest, switchOid, vrf))
  }

  predicate HasRoutes(s: Store, switchOid: Oid, vrf: Oid, layout: LayoutKind) {
    (layout.L3Basic? || layout.L3Advanced?) && (Route("0.0.0.0/0", switchOid, vrf) in s || Route("::/0", switchOid, vrf) in s)
  }

  function WithRoutes(s: Store, switchOid: Oid, vrf: Oid, layout: LayoutKind): Store {
    if layout.L3Basic? || layout.L3Advanced?
    then s[Route("0.0.0.0/0", switchOid, vrf) := AttrMap(DropAttrs())][Route("::/0", switchOid, vrf) := AttrMap(DropAttrs())]
    else s
  }

  lemma TextBesideEntry(s: Store, h: Handle, a: Attrs, p: Handle, text: string)
    requires h.EntryH? && p.OidH?
    ensures WithText(s[h := a], p, PORT_PVID, text) == WithText(s, p, PORT_PVID, text)[h := a]
  {
  }

  /** Texts of ports and routes do not interfere. */
  lemma RoutesAndText(s: Store, switchOid: Oid, vrf: Oid, layout: LayoutKind, p: Handle, text: string)
    requires p.OidH?
    ensures WithText(WithRoutes(s, switchOid, vrf, layout), p, PORT_PVID, text) == WithRoutes(WithText(s, p, PORT_PVID, text), switchOid, vrf, layout)
    ensures HasRoutes(WithText(s, p, PORT_PVID, text), switchOid, vrf, layout) <==> HasRoutes(s, switchOid, vrf, layout)
  {
    var h, g := Route("0.0.0.0/0", switchOid, vrf), Route("::/0", switchOid, vrf);
    TextBesideEntry(s, h, AttrMap(DropAttrs()), p, text);
    TextBesideEntry(s[h := AttrMap(DropAttrs())], g, AttrMap(DropAttrs()), p, text);
  }

  lemma {:induction false} LiveField(s: Store, n: string, v: Value, rest: Fields)
    ensures LiveF(s, Field(n, v, rest)) <==> LiveV(s, v) && LiveF(s, rest)
  {
  }

  lemma {:induction false} DropAttrsLive(s: Store)
    ensures WellFormedAttrs(DropAttrs()) && LiveFlat(s, DropAttrs())
  {
    AttrMapNext([], ROUTE_ACTION, Txt("SAI_PACKET_ACTION_DROP"));
    LiveNext(s, [], ROUTE_ACTION, Txt("SAI_PACKET_ACTION_DROP"));
    assert [] + DropAttrs() == DropAttrs();
  }

  lemma {:induction false} RouteKeyLive(s: Store, dest: string, switchOid: Oid, vrf: Oid)
    requires OidH(switchOid) in s && OidH(vrf) in s
    ensures LiveF(s, RouteKey(dest, switchOid, vrf))
  {
    LiveField(s, "vr", Ref(vrf), NoFields);
    LiveField(s, "switch_id", Ref(switchOid), Field("vr", Ref(vrf), NoFields));
    LiveField(s, "dest", Txt(dest), Field("switch_id", Ref(switchOid), Field("vr", Ref(vrf), NoFields)));
  }

  /** A default route is accepted exactly if it is not there. */
  lemma RouteStatus(s: Store, dest: string, switchOid: Oid, vrf: Oid)
    requires OidH(switchOid) in s && OidH(vrf) in s
    ensures CreateStatus(s, Route(dest, switchOid, vrf), DropAttrs()) == if Route(dest, switchOid, vrf) in s then AlreadyExists else Success
  {
    DropAttrsLive(s);
    RouteKeyLive(s, dest, switchOid, vrf);
  }

  lemma RoutesDiffer(switchOid: Oid, vrf: Oid)
    ensures Route("0.0.0.0/0", switchOid, vrf) != Route("::/0", switchOid, vrf)
  {
    assert "0.0.0.0/0"[0] != "::/0"[0];
    assert RouteKey("0.0.0.0/0", switchOid, vrf).val.text != RouteKey("::/0", switchOid, vrf).val.text;
  }

  lemma RoutesGo(s: Store, switchOid: Oid, vrf: Oid)
    requires !HasRoutes(s, switchOid, vrf, L3Basic)
    ensures Route("0.0.0.0/0", switchOid, vrf) != Route("::/0", switchOid, vrf)
    ensures WithRoutes(s, switchOid, vrf, L3Basic) - {Route("0.0.0.0/0", switchOid, vrf)} - {Route("::/0", switchOid, vrf)} == s
  {
    RoutesDiffer(switchOid, vrf);
  }

  lemma NewEntryInOrder(s: Store, next: nat, h: Handle, a: Attrs, x: Oid, y: Oid)
    requires OldOnly(s, next) && (x.Vid? ==> x.num < next) && (y.Vid? ==> y.num < next) && h.EntryH?
    requires forall o | MentionsF(h.key, o) || MentionsA(a, o) :: o == x || o == y
    ensures OldOnly(s[h := a], next)
  {
    var t := s[h := a];
    forall g, o: Oid | g in t && o.Vid? && o.num >= next ensures !Refers(t, g, o) {
      if g != h { assert !Refers(s, g, o); }
    }
  }

  lemma SetTextAccepted(s: Store, h: Handle, attr: string, text: string)
    requires h in s
    ensures SetAttr(s, h, [Txt(attr), Txt(text)]) == (Success, WithText(s, h, attr, text))
  {
    var pair := [Txt(attr), Txt(text)];
    assert pair[..0] == [] && WellFormedAttrs([]) && WellFormedAttrs(pair);
  }

  // ---------- port VLAN ids ----------

  ghost predicate SameButPvid(a: Attrs, b: Attrs) {
    forall k | k != PORT_PVID :: (k in a <==> k in b) && (k in a ==> b[k] == a[k])
  }

  /** The stores differ in VLAN ids of these ports only. */
  ghost predicate SameButPvids(s: Store, t: Store, ports: seq<Oid>) {
    && s.Keys == t.Keys
    && forall h | h in s :: SameButPvid(s[h], t[h]) && (t[h] != s[h] ==> h.OidH? && h.oid in ports)
  }

  lemma SamePvids(s: Store, ports: seq<Oid>)
    ensures SameButPvids(s, s, ports)
  {
  }

  lemma PvidChanges(s: Store, ports: seq<Oid>, i: nat, id: string)
    requires i < |ports|
    ensures SameButPvids(s, WithText(s, OidH(ports[i]), PORT_PVID, id), ports)
  {
  }

  lemma PvidsThen(s: Store, t: Store, u: Store, ports: seq<Oid>)
    requires SameButPvids(s, t, ports) && SameButPvids(t, u, ports)
    ensures SameButPvids(s, u, ports)
  {
    forall h | h in s ensures SameButPvid(s[h], u[h]) && (u[h] != s[h] ==> h.OidH? && h.oid in ports) {
      assert SameButPvid(s[h], t[h]) && SameButPvid(t[h], u[h]);
    }
  }

  lemma SameKnown(s: Store, t: Store, ports: seq<Oid>, call: BuilderCall)
    requires VrfsKnown(s, call) && SameButPvids(s, t, ports)
    ensures VrfsKnown(t, call)
  {
  }
}
