/**
  Ports with their bridge ports, and the bridge ports with their memberships in the default
  VLAN: what may refer to what, and how new objects keep it.
 */
module PortLinks {
  import opened Wrappers
  import opened SaiStore
  import opened Integrity
  import opened BridgePorts
  import opened Attributes
  import opened DefaultVlan

  const UNTAGGED := Txt("SAI_VLAN_TAGGING_MODE_UNTAGGED")

  /** An attribute list without references. */
  predicate NoRefs(attrs: seq<Value>) {
    WellFormedAttrs(attrs) && forall i | 0 <= i < |attrs| :: attrs[i].Txt?
  }

  ghost predicate LiveRefs(s: Store, attrs: seq<Value>) {
    forall i | 0 <= i < |attrs| :: LiveV(s, attrs[i])
  }

  lemma {:induction false} LiveRefsFlat(s: Store, attrs: seq<Value>)
    requires LiveRefs(s, attrs)
    ensures LiveFlat(s, attrs)
  {
    if |attrs| > 0 { LiveRefsFlat(s, attrs[..|attrs| - 1]); }
  }

  /** New objects keep ids and references below the counter. */
  lemma {:induction false} CreatedBelow(s: Store, next: nat, ty: ObjType, attrs: seq<Value>)
    requires NewOnly(s, next) && OldOnly(s, next) && CreateStatus(s, OidH(Vid(ty, next)), attrs) == Success
    ensures var t := s[OidH(Vid(ty, next)) := AttrMap(attrs)];
      NewOnly(t, next + 1) && OldOnly(t, next + 1)
  {
    var h := OidH(Vid(ty, next));
    var t := s[h := AttrMap(attrs)];
    forall g, o: Oid | g in t && o.Vid? && o.num >= next + 1 ensures !Refers(t, g, o) {
      if g == h {
        if Refers(t, h, o) { NewRefersBack(s, h, attrs, o); }
      } else {
        assert !Refers(s, g, o);
      }
    }
  }

  lemma MembersRefer(s: Store, vlan: Oid, b: Oid)
    ensures forall x | MemberFor(s, vlan, b, x) :: Refers(s, OidH(x), b)
  {
    forall x | MemberFor(s, vlan, b, x) ensures Refers(s, OidH(x), b) { assert MentionsV(s[OidH(x)][VM_BP], b); }
  }

  /** Removals keep the switch in order. */
  lemma StaysInOrder(s: Store, t: Store, vlan: Oid, next: nat)
    requires Left(s, t) && NewOnly(s, next) && OldOnly(s, next) && Complete(s, vlan)
    ensures NewOnly(t, next) && OldOnly(t, next) && Complete(t, vlan)
  {
    forall h, o: Oid | h in t && o.Vid? && o.num >= next ensures !Refers(t, h, o) { assert !Refers(s, h, o); }
    forall m | IsMember(t, vlan, m) ensures VM_BP in t[OidH(m)] && t[OidH(m)][VM_BP].Ref? { assert IsMember(s, vlan, m); }
  }

  /** One more object changes memberships only if it is one. */
  lemma MembersWith(s: Store, vlan: Oid, b: Oid, m: Option<Oid>, o: Oid, a: Attrs)
    requires MemberIs(s, vlan, b, m) && OidH(o) !in s
    ensures var t := s[OidH(o) := a];
      if MemberFor(t, vlan, b, o) then m.None? ==> MemberIs(t, vlan, b, Some(o)) else MemberIs(t, vlan, b, m)
  {
    var t := s[OidH(o) := a];
    forall x | x != o ensures MemberFor(t, vlan, b, x) <==> MemberFor(s, vlan, b, x) {}
    assert !MemberFor(s, vlan, b, o);
  }

  lemma CompleteWith(s: Store, t: Store, vlan: Oid, b: Oid, o: Oid, tag: Value)
    requires Complete(s, vlan) && t == s[OidH(o) := map[VM_VLAN := Ref(vlan), VM_BP := Ref(b), VM_TAG := tag]]
    ensures Complete(t, vlan)
  {
    AttrNamesDiffer();
    forall m | IsMember(t, vlan, m) ensures VM_BP in t[OidH(m)] && t[OidH(m)][VM_BP].Ref? {
      if m != o { assert IsMember(s, vlan, m); }
    }
  }

  predicate IsPort(s: Store, o: Oid, attrs: seq<Value>) {
    o.Vid? && o.ty == PORT && OidH(o) in s && s[OidH(o)] == AttrMap(attrs)
  }

  // ---------- one bridge port ----------

  /** Something a bridge port can be bound to: a port or a LAG. */
  predicate Portlike(p: Oid) {
    p.Vid? ==> p.ty != BRIDGE_PORT && p.ty != VLAN_MEMBER
  }

  /** Besides dynamic entries only its membership refers to the bridge port. */
  ghost predicate OnlyFor(s: Store, b: Oid, m: Option<Oid>, h: Handle) {
    h in s && Refers(s, h, b) ==> IsDynamic(s, h) || (m.Some? && h == OidH(m.value))
  }

  ghost predicate Unreferred(s: Store, o: Oid) {
    forall h | h in s :: !Refers(s, h, o)
  }

  predicate PlainTag(s: Store, m: Oid) {
    OidH(m) in s && VM_TAG in s[OidH(m)] && s[OidH(m)][VM_TAG].Txt?
  }

  /** `b` is a bridge port of `p` whose only use is its membership `m` in the VLAN, if it has one. */
  ghost predicate LinkAt(s: Store, vlan: Oid, b: Oid, p: Oid, m: Option<Oid>) {
    && b.Vid? && b.ty == BRIDGE_PORT && Portlike(p) && BoundTo(s, b, BP_PORT, Ref(p))
    && MemberIs(s, vlan, b, m) && Ordinary(s, b) && (forall h :: OnlyFor(s, b, m, h))
    && (m.Some? ==> PlainTag(s, m.value) && Unreferred(s, m.value))
  }

  /** The i-th bridge port is bound to the i-th port, and its memberships in the VLAN are exactly mem[i]. */
  ghost predicate Linked(s: Store, vlan: Oid, bps: seq<Oid>, ports: seq<Oid>, mem: seq<Option<Oid>>) {
    && |mem| == |bps| <= |ports|
    && (forall i | 0 <= i < |bps| :: LinkAt(s, vlan, bps[i], ports[i], mem[i]))
    && (forall i, j | 0 <= i < j < |bps| :: bps[i] != bps[j])
  }

  /** The bridge port has this port and is up, and has no other attributes. */
  predicate UpAt(s: Store, b: Oid, p: Oid) {
    && OidH(b) in s
    && s[OidH(b)] == map["SAI_BRIDGE_PORT_ATTR_TYPE" := Txt("SAI_BRIDGE_PORT_TYPE_PORT"), "SAI_BRIDGE_PORT_ATTR_PORT_ID" := Ref(p),
                         "SAI_BRIDGE_PORT_ATTR_ADMIN_STATE" := Txt("true")]
  }

  ghost predicate UpOn(s: Store, bps: seq<Oid>, ports: seq<Oid>) {
    |bps| <= |ports| && forall i | 0 <= i < |bps| :: UpAt(s, bps[i], ports[i])
  }

  /** The memberships there are have the tagging mode of a default VLAN. */
  ghost predicate AllUntagged(s: Store, mem: seq<Option<Oid>>) {
    forall i | 0 <= i < |mem| && mem[i].Some? :: IsUntagged(s, mem[i].value)
  }

  predicate IsUntagged(s: Store, m: Oid) {
    BoundTo(s, m, VM_TAG, Txt("SAI_VLAN_TAGGING_MODE_UNTAGGED"))
  }

  lemma UpNext(s: Store, t: Store, bps: seq<Oid>, bps': seq<Oid>, ports: seq<Oid>)
    requires UpOn(s, bps, ports) && Extends(s, t) && |bps'| == |bps| + 1 <= |ports| && bps'[..|bps|] == bps
    requires UpAt(t, bps'[|bps|], ports[|bps|])
    ensures UpOn(t, bps', ports)
  {
    forall i | 0 <= i < |bps'| ensures UpAt(t, bps'[i], ports[i]) {
      if i < |bps| { assert bps'[..|bps|][i] == bps[i] && UpAt(s, bps[i], ports[i]); }
    }
  }

  lemma UpStays(s: Store, t: Store, bps: seq<Oid>, ports: seq<Oid>)
    requires UpOn(s, bps, ports) && Extends(s, t)
    ensures UpOn(t, bps, ports)
  {
    forall i | 0 <= i < |bps| ensures UpAt(t, bps[i], ports[i]) { assert UpAt(s, bps[i], ports[i]); }
  }

  lemma UntaggedNext(s: Store, t: Store, mem: seq<Option<Oid>>, m: Option<Oid>)
    requires AllUntagged(s, mem) && Extends(s, t) && (m.Some? ==> IsUntagged(t, m.value))
    ensures AllUntagged(t, mem + [m])
  {
    forall i | 0 <= i < |mem| && mem[i].Some? ensures IsUntagged(t, mem[i].value) { assert IsUntagged(s, mem[i].value); }
  }

  lemma UntaggedMember(vlan: Oid, b: Oid, s: Store, m: Oid)
    requires OidH(m) in s && s[OidH(m)] == AttrMap(VmAttrs(vlan, b, UNTAGGED))
    ensures IsUntagged(s, m)
  {
    VmAttrMap(vlan, b, UNTAGGED);
  }

  /** Where a membership was missing there is an untagged one now; the others are what they were. */
  ghost predicate FilledUntagged(s: Store, mem: seq<Option<Oid>>, now: seq<Option<Oid>>, n: nat) {
    && |now| == |mem|
    && forall j | 0 <= j < |mem| ::
         if mem[j].Some? || n <= j then now[j] == mem[j] else now[j].Some? && IsUntagged(s, now[j].value)
  }

  lemma FilledNext(s: Store, t: Store, mem: seq<Option<Oid>>, now: seq<Option<Oid>>, now': seq<Option<Oid>>, n: nat)
    requires FilledUntagged(s, mem, now, n) && n < |mem| && Extends(s, t)
    requires if mem[n].Some? then now' == now else exists m :: now' == now[n := Some(m)] && IsUntagged(t, m)
    ensures FilledUntagged(t, mem, now', n + 1)
  {
    forall j | 0 <= j < n && mem[j].None? ensures IsUntagged(t, now[j].value) { assert IsUntagged(s, now[j].value); }
  }

  ghost function AllSome(os: seq<Oid>): seq<Option<Oid>> {
    seq(|os|, i requires 0 <= i < |os| => Some(os[i]))
  }

  ghost function Members(mem: seq<Option<Oid>>): (r: seq<Oid>)
    requires forall i | 0 <= i < |mem| :: mem[i].Some?
    ensures AllSome(r) == mem
  {
    seq(|mem|, i requires 0 <= i < |mem| => mem[i].value)
  }

  lemma PresentIffMember(s: Store, vlan: Oid, b: Oid, m: Option<Oid>)
    requires MemberIs(s, vlan, b, m)
    ensures (exists x :: MemberFor(s, vlan, b, x)) <==> m.Some?
  {
    if m.Some? { assert MemberFor(s, vlan, b, m.value); }
  }

  lemma MemberMentions(s: Store, vlan: Oid, b: Oid, o: Oid)
    requires MemberFor(s, vlan, b, o)
    ensures MentionsA(s[OidH(o)], b)
  {
    assert MentionsV(s[OidH(o)][VM_BP], b);
  }

  /** A new object is nothing to a link that it does not mention. */
  lemma LinkStays(s: Store, vlan: Oid, b: Oid, p: Oid, m: Option<Oid>, o: Oid, a: Attrs)
    requires LinkAt(s, vlan, b, p, m) && OidH(o) !in s && !MentionsA(a, b) && (m.Some? ==> !MentionsA(a, m.value))
    ensures LinkAt(s[OidH(o) := a], vlan, b, p, m)
  {
    var t := s[OidH(o) := a];
    MembersWith(s, vlan, b, m, o, a);
    if MemberFor(t, vlan, b, o) { MemberMentions(t, vlan, b, o); }
    forall h ensures OnlyFor(t, b, m, h) && Plainly(t, h, b) { assert OnlyFor(s, b, m, h) && Plainly(s, h, b); }
    if m.Some? {
      forall h | h in t ensures !Refers(t, h, m.value) {
        if h != OidH(o) { assert !Refers(s, h, m.value); }
      }
    }
  }

  /** A new bridge port. */
  lemma LinkBegins(s: Store, next: nat, vlan: Oid, b: Oid, p: Oid)
    requires OldOnly(s, next) && b.Vid? && b.num >= next && b.ty == BRIDGE_PORT && Portlike(p) && OidH(b) !in s
    ensures LinkAt(s[OidH(b) := AttrMap(BpAttrs(p))], vlan, b, p, None)
  {
    TypesDiffer();
    BpAttrMap(p);
    var t := s[OidH(b) := AttrMap(BpAttrs(p))];
    forall h | h in t ensures !Refers(t, h, b) {
      if h == OidH(b) { BpMentions(p, b); } else { assert !Refers(s, h, b); }
    }
    MembersRefer(t, vlan, b);
    forall h ensures OnlyFor(t, b, None, h) && Plainly(t, h, b) {}
  }

  lemma BpMentions(p: Oid, o: Oid)
    ensures MentionsA(AttrMap(BpAttrs(p)), o) ==> o == p
  {
    BpAttrMap(p);
  }

  lemma VmMentions(vlan: Oid, b: Oid, tag: Value, o: Oid)
    requires tag.Txt?
    ensures MentionsA(AttrMap(VmAttrs(vlan, b, tag)), o) ==> o == vlan || o == b
  {
    VmAttrMap(vlan, b, tag);
  }

  /** A new member. */
  lemma LinkCompletes(s: Store, next: nat, vlan: Oid, b: Oid, p: Oid, m: Oid, tag: Value)
    requires LinkAt(s, vlan, b, p, None) && OldOnly(s, next) && m.Vid? && m.num >= next && m.ty == VLAN_MEMBER && OidH(m) !in s
    requires tag.Txt? && vlan != m && vlan != b
    ensures LinkAt(s[OidH(m) := AttrMap(VmAttrs(vlan, b, tag))], vlan, b, p, Some(m))
  {
    TypesDiffer();
    AttrNamesDiffer();
    VmAttrMap(vlan, b, tag);
    var t := s[OidH(m) := AttrMap(VmAttrs(vlan, b, tag))];
    MembersWith(s, vlan, b, None, m, AttrMap(VmAttrs(vlan, b, tag)));
    forall h | h in t ensures !Refers(t, h, m) {
      if h == OidH(m) { VmMentions(vlan, b, tag, m); } else { assert !Refers(s, h, m); }
    }
    forall h ensures OnlyFor(t, b, Some(m), h) && Plainly(t, h, b) { assert OnlyFor(s, b, None, h) && Plainly(s, h, b); }
  }

  // ---------- all of them ----------

  /** Nothing on the way to the first bps mentions these. */
  ghost predicate Apart(bps: seq<Oid>, mem: seq<Option<Oid>>, p: Oid) {
    p !in bps && forall i | 0 <= i < |mem| && mem[i].Some? :: mem[i].value != p
  }

  lemma PortIsApart(s: Store, vlan: Oid, bps: seq<Oid>, ports: seq<Oid>, mem: seq<Option<Oid>>, p: Oid)
    requires Linked(s, vlan, bps, ports, mem) && Portlike(p)
    ensures Apart(bps, mem, p)
  {
    forall i | 0 <= i < |bps| ensures bps[i] != p && (mem[i].Some? ==> mem[i].value != p) {
      assert LinkAt(s, vlan, bps[i], ports[i], mem[i]);
      if mem[i].Some? { assert MemberFor(s, vlan, bps[i], mem[i].value); }
    }
  }

  lemma LinkedWithPort(s: Store, next: nat, vlan: Oid, bps: seq<Oid>, ports: seq<Oid>, mem: seq<Option<Oid>>, bp: Oid)
    requires Linked(s, vlan, bps, ports, mem) && |bps| < |ports| && OldOnly(s, next) && OidH(bp) !in s
    requires bp.Vid? && bp.num >= next && bp.ty == BRIDGE_PORT && Portlike(ports[|bps|])
    ensures Linked(s[OidH(bp) := AttrMap(BpAttrs(ports[|bps|]))], vlan, bps + [bp], ports, mem + [None])
  {
    var p := ports[|bps|];
    var a := AttrMap(BpAttrs(p));
    var t, bps', mem' := s[OidH(bp) := a], bps + [bp], mem + [None];
    LinkBegins(s, next, vlan, bp, p);
    PortIsApart(s, vlan, bps, ports, mem, p);
    forall i | 0 <= i < |bps| ensures LinkAt(t, vlan, bps[i], ports[i], mem[i]) && bps[i] != bp {
      assert LinkAt(s, vlan, bps[i], ports[i], mem[i]);
      BpMentions(p, bps[i]);
      if mem[i].Some? { BpMentions(p, mem[i].value); }
      LinkStays(s, vlan, bps[i], ports[i], mem[i], bp, a);
    }
    forall i | 0 <= i < |bps'| ensures LinkAt(t, vlan, bps'[i], ports[i], mem'[i]) {
      if i < |bps| { assert LinkAt(t, vlan, bps[i], ports[i], mem[i]); }
    }
  }

  lemma LinkedWithMember(s: Store, next: nat, vlan: Oid, bps: seq<Oid>, ports: seq<Oid>, mem: seq<Option<Oid>>, i: nat, m: Oid, tag: Value)
    requires Linked(s, vlan, bps, ports, mem) && i < |bps| && mem[i].None? && OldOnly(s, next) && OidH(m) !in s
    requires m.Vid? && m.num >= next && m.ty == VLAN_MEMBER && tag.Txt? && vlan.Vid? && vlan.ty == VLAN
    ensures Linked(s[OidH(m) := AttrMap(VmAttrs(vlan, bps[i], tag))], vlan, bps, ports, mem[i := Some(m)])
  {
    TypesDiffer();
    var a := AttrMap(VmAttrs(vlan, bps[i], tag));
    var t := s[OidH(m) := a];
    assert LinkAt(s, vlan, bps[i], ports[i], mem[i]);
    LinkCompletes(s, next, vlan, bps[i], ports[i], m, tag);
    forall j | 0 <= j < |bps| ensures LinkAt(t, vlan, bps[j], ports[j], mem[i := Some(m)][j]) {
      assert LinkAt(s, vlan, bps[j], ports[j], mem[j]);
      if j != i { OtherLinkStays(s, vlan, bps[j], ports[j], mem[j], m, bps[i], tag); }
    }
  }

  lemma OtherLinkStays(s: Store, vlan: Oid, b: Oid, p: Oid, m: Option<Oid>, o: Oid, b': Oid, tag: Value)
    requires LinkAt(s, vlan, b, p, m) && OidH(o) !in s && b != b' && tag.Txt? && vlan.Vid? && vlan.ty == VLAN
    requires b'.Vid? && b'.ty == BRIDGE_PORT
    ensures LinkAt(s[OidH(o) := AttrMap(VmAttrs(vlan, b', tag))], vlan, b, p, m)
  {
    TypesDiffer();
    VmMentions(vlan, b', tag, b);
    if m.Some? {
      assert MemberFor(s, vlan, b, m.value);
      VmMentions(vlan, b', tag, m.value);
    }
    LinkStays(s, vlan, b, p, m, o, AttrMap(VmAttrs(vlan, b', tag)));
  }

  // ---------- ports that nothing else uses ----------

  /** Only its bridge port refers to the port. */
  ghost predicate Bare(s: Store, b: Oid, p: Oid) {
    p.Vid? && p.ty == PORT && OidH(p) in s && forall h | h in s && Refers(s, h, p) :: h == OidH(b)
  }

  /** The first ports have their bridge ports, the others nothing at all. */
  ghost predicate Bared(s: Store, bps: seq<Oid>, ports: seq<Oid>) {
    && |bps| <= |ports|
    && (forall i | 0 <= i < |bps| :: Bare(s, bps[i], ports[i]))
    && (forall i | |bps| <= i < |ports| :: Unused(s, ports[i]))
    && (forall i, j | 0 <= i < j < |ports| :: ports[i] != ports[j])
  }

  ghost predicate Unused(s: Store, p: Oid) {
    p.Vid? && p.ty == PORT && OidH(p) in s && Unreferred(s, p)
  }

  lemma BareWithPort(s: Store, bps: seq<Oid>, ports: seq<Oid>, bp: Oid)
    requires Bared(s, bps, ports) && |bps| < |ports| && OidH(bp) !in s
    ensures Bared(s[OidH(bp) := AttrMap(BpAttrs(ports[|bps|]))], bps + [bp], ports)
  {
    var p := ports[|bps|];
    var t, bps' := s[OidH(bp) := AttrMap(BpAttrs(p))], bps + [bp];
    forall i | 0 <= i < |bps'| ensures Bare(t, bps'[i], ports[i]) {
      if i < |bps| { assert Bare(s, bps[i], ports[i]); } else { assert Unused(s, p); }
      BpMentions(p, ports[i]);
    }
    forall i | |bps'| <= i < |ports| ensures Unused(t, ports[i]) {
      assert Unused(s, ports[i]);
      BpMentions(p, ports[i]);
    }
  }

  lemma BareWithMember(s: Store, bps: seq<Oid>, ports: seq<Oid>, vlan: Oid, b: Oid, m: Oid, tag: Value)
    requires Bared(s, bps, ports) && OidH(m) !in s && tag.Txt? && vlan.Vid? && vlan.ty == VLAN && b.Vid? && b.ty == BRIDGE_PORT
    ensures Bared(s[OidH(m) := AttrMap(VmAttrs(vlan, b, tag))], bps, ports)
  {
    TypesDiffer();
    var t := s[OidH(m) := AttrMap(VmAttrs(vlan, b, tag))];
    forall i | 0 <= i < |bps| ensures Bare(t, bps[i], ports[i]) {
      assert Bare(s, bps[i], ports[i]);
      VmMentions(vlan, b, tag, ports[i]);
    }
    forall i | |bps| <= i < |ports| ensures Unused(t, ports[i]) {
      assert Unused(s, ports[i]);
      VmMentions(vlan, b, tag, ports[i]);
    }
  }

  lemma {:induction false} MoreUnused(s: Store, next: nat, ports: seq<Oid>, o: Oid, attrs: seq<Value>)
    requires Bared(s, [], ports) && OldOnly(s, next) && NewOnly(s, next) && o.Vid? && o.num >= next && o.ty == PORT && NoRefs(attrs)
    ensures Bared(s[OidH(o) := AttrMap(attrs)], [], ports + [o])
  {
    var t, ports' := s[OidH(o) := AttrMap(attrs)], ports + [o];
    forall x ensures !MentionsA(AttrMap(attrs), x) { PlainAttrs(attrs, x); }
    forall i | 0 <= i < |ports'| ensures Unused(t, ports'[i]) && (i < |ports| ==> ports'[i] != o) {
      if i < |ports| { assert Unused(s, ports[i]); }
    }
  }

  lemma {:induction false} PlainAttrs(attrs: seq<Value>, x: Oid)
    requires NoRefs(attrs)
    ensures !MentionsA(AttrMap(attrs), x)
  {
    if MentionsA(AttrMap(attrs), x) { MentionedInList(attrs, x); }
  }

  // ---------- what follows for taking ports away ----------

  /** A linked bridge port of a bare port is as the removal sequence needs it. */
  lemma LinkIsChain(s: Store, vlan: Oid, b: Oid, p: Oid, m: Option<Oid>)
    requires LinkAt(s, vlan, b, p, m) && Bare(s, b, p)
    ensures Chain(s, vlan, b, p)
  {
    TypesDiffer();
    forall x ensures !IsSerdes(s, p, x) {
      if IsSerdes(s, p, x) {
        assert MentionsV(s[OidH(x)][SERDES_PORT], p);
        assert Refers(s, OidH(x), p);
      }
    }
    forall h ensures OnlyMember(s, vlan, b, h) && OnlyPort(s, b, p, h) {
      assert OnlyFor(s, b, m, h);
      if m.Some? { assert MemberFor(s, vlan, b, m.value); }
    }
    forall h, x ensures Leaf(s, vlan, b, p, h, x) {}
    forall x, y ensures Single(s, vlan, b, p, x, y) {}
  }
}
