/** Which objects make a bridge port a member of the default VLAN, and what may refer to a port. */
module DefaultVlan {
  import opened Wrappers
  import opened SaiStore
  import opened Integrity
  import opened BridgePorts
  import opened Attributes

  const PORT := "PORT"
  const PORT_SERDES := "PORT_SERDES"
  const SERDES_PORT := "SAI_PORT_SERDES_ATTR_PORT_ID"

  predicate IsMember(s: Store, vlan: Oid, m: Oid) {
    m.Vid? && m.ty == VLAN_MEMBER && BoundTo(s, m, VM_VLAN, Ref(vlan))
  }

  /** `m` makes `b` a member of the VLAN. */
  predicate MemberFor(s: Store, vlan: Oid, b: Oid, m: Oid) {
    IsMember(s, vlan, m) && BoundTo(s, m, VM_BP, Ref(b))
  }

  /** The memberships of `b` are exactly this one, or none. */
  ghost predicate MemberIs(s: Store, vlan: Oid, b: Oid, m: Option<Oid>) {
    forall x :: MemberFor(s, vlan, b, x) <==> m == Some(x)
  }

  /** Every member of the VLAN names a bridge port. */
  ghost predicate Complete(s: Store, vlan: Oid) {
    forall m | IsMember(s, vlan, m) :: VM_BP in s[OidH(m)] && s[OidH(m)][VM_BP].Ref?
  }

  predicate IsSerdes(s: Store, p: Oid, z: Oid) {
    z.Vid? && z.ty == PORT_SERDES && BoundTo(s, z, SERDES_PORT, Ref(p))
  }

  ghost predicate SerdesIs(s: Store, p: Oid, z: Option<Oid>) {
    forall x :: IsSerdes(s, p, x) <==> z == Some(x)
  }

  // ---------- a port that can be taken away ----------

  /** Besides dynamic entries only its membership refers to the bridge port. */
  ghost predicate OnlyMember(s: Store, vlan: Oid, b: Oid, h: Handle) {
    h in s && Refers(s, h, b) ==> IsDynamic(s, h) || (h.OidH? && MemberFor(s, vlan, b, h.oid))
  }

  /** Only its bridge port and its serdes refer to the port. */
  ghost predicate OnlyPort(s: Store, b: Oid, p: Oid, h: Handle) {
    h in s && Refers(s, h, p) ==> h == OidH(b) || (h.OidH? && IsSerdes(s, p, h.oid))
  }

  /** Nothing refers to memberships of the bridge port, or to the serdes of the port. */
  ghost predicate Leaf(s: Store, vlan: Oid, b: Oid, p: Oid, h: Handle, x: Oid) {
    h in s && (MemberFor(s, vlan, b, x) || IsSerdes(s, p, x)) ==> !Refers(s, h, x)
  }

  ghost predicate Single(s: Store, vlan: Oid, b: Oid, p: Oid, x: Oid, y: Oid) {
    && (MemberFor(s, vlan, b, x) && MemberFor(s, vlan, b, y) ==> x == y)
    && (IsSerdes(s, p, x) && IsSerdes(s, p, y) ==> x == y)
  }

  /** A port and its bridge port, at most once in the default VLAN and otherwise unused. */
  ghost predicate Chain(s: Store, vlan: Oid, b: Oid, p: Oid) {
    && b.Vid? && b.ty == BRIDGE_PORT && p.Vid? && p.ty == PORT
    && OidH(p) in s && Ordinary(s, b)
    && (forall h :: OnlyMember(s, vlan, b, h) && OnlyPort(s, b, p, h))
    && (forall h, x :: Leaf(s, vlan, b, p, h, x))
    && (forall x, y :: Single(s, vlan, b, p, x, y))
  }

  /** `t` is what is left of `s` after removals. */
  ghost predicate Left(s: Store, t: Store) {
    forall h | h in t :: h in s && t[h] == s[h]
  }

  lemma TypesDiffer()
    ensures BRIDGE_PORT != PORT && BRIDGE_PORT != VLAN_MEMBER && BRIDGE_PORT != PORT_SERDES && BRIDGE_PORT != VLAN
    ensures PORT != VLAN_MEMBER && PORT != PORT_SERDES && PORT != VLAN
    ensures VLAN_MEMBER != PORT_SERDES && VLAN_MEMBER != VLAN && PORT_SERDES != VLAN
  {
    assert BRIDGE_PORT[0] != PORT[0] && BRIDGE_PORT[0] != VLAN_MEMBER[0] && BRIDGE_PORT[0] != PORT_SERDES[0] && BRIDGE_PORT[0] != VLAN[0];
    assert PORT[0] != VLAN_MEMBER[0] && |PORT| != |PORT_SERDES| && PORT[0] != VLAN[0];
    assert VLAN_MEMBER[0] != PORT_SERDES[0] && |VLAN_MEMBER| != |VLAN| && PORT_SERDES[0] != VLAN[0];
  }

  /** Removing other things leaves a chain a chain. */
  lemma ChainStays(s: Store, t: Store, vlan: Oid, b: Oid, p: Oid)
    requires Chain(s, vlan, b, p) && Left(s, t) && OidH(b) in t && OidH(p) in t
    ensures Chain(t, vlan, b, p)
  {
    forall h ensures OnlyMember(t, vlan, b, h) && OnlyPort(t, b, p, h) && Plainly(t, h, b) {
      assert OnlyMember(s, vlan, b, h) && OnlyPort(s, b, p, h) && Plainly(s, h, b);
    }
    forall h, x ensures Leaf(t, vlan, b, p, h, x) { assert Leaf(s, vlan, b, p, h, x); }
    forall x, y ensures Single(t, vlan, b, p, x, y) { assert Single(s, vlan, b, p, x, y); }
  }

  /** The first membership found is the only one. */
  lemma FoundMember(s: Store, vlan: Oid, b: Oid, p: Oid, m: Oid)
    requires Chain(s, vlan, b, p) && MemberFor(s, vlan, b, m)
    ensures MemberIs(s, vlan, b, Some(m))
  {
    forall x ensures MemberFor(s, vlan, b, x) <==> Some(m) == Some(x) { assert Single(s, vlan, b, p, x, m); }
  }

  lemma FoundSerdes(s: Store, t: Store, vlan: Oid, b: Oid, p: Oid, z: Oid)
    requires Chain(s, vlan, b, p) && Left(s, t) && IsSerdes(t, p, z)
    ensures SerdesIs(t, p, Some(z))
  {
    forall x ensures IsSerdes(t, p, x) <==> Some(z) == Some(x) { assert Single(s, vlan, b, p, x, z); }
  }

  /** The membership, then the bridge port: both removals are accepted. */
  lemma PortGoes(s: Store, vlan: Oid, b: Oid, p: Oid, m: Option<Oid>)
    requires Chain(s, vlan, b, p) && MemberIs(s, vlan, b, m)
    ensures m.Some? ==> RemoveObj(s, OidH(m.value)) == (Success, s - {OidH(m.value)})
    ensures var s1 := if m.Some? then s - {OidH(m.value)} else s;
      && RemoveBridgePort(s1, b) == Some(Flush(s1, b) - {OidH(b)})
      && Left(s, Flush(s1, b) - {OidH(b)})
      && forall h | h in s && h !in Flush(s1, b) - {OidH(b)} ::
           h == OidH(b) || (h.OidH? && MemberFor(s, vlan, b, h.oid)) || DynamicOn(s, h, b)
  {
    TypesDiffer();
    var s1 := if m.Some? then s - {OidH(m.value)} else s;
    if m.Some? {
      assert MemberFor(s, vlan, b, m.value);
      forall h | h in s ensures !Refers(s, h, m.value) { assert Leaf(s, vlan, b, p, h, m.value); }
    }
    forall h ensures Plainly(s1, h, b) { assert Plainly(s, h, b); }
    forall h ensures !Pins(s1, h, b) { assert OnlyMember(s, vlan, b, h); }
    RemovesUnpinned(s1, b);
  }

  /** The serdes, then the port: both removals are accepted once the bridge port is gone. */
  lemma RestGoes(s: Store, t: Store, vlan: Oid, b: Oid, p: Oid, z: Option<Oid>)
    requires Chain(s, vlan, b, p) && Left(s, t) && OidH(b) !in t && OidH(p) in t && SerdesIs(t, p, z)
    ensures z.Some? ==> RemoveObj(t, OidH(z.value)) == (Success, t - {OidH(z.value)})
    ensures var t1 := if z.Some? then t - {OidH(z.value)} else t;
      RemoveObj(t1, OidH(p)) == (Success, t1 - {OidH(p)})
  {
    TypesDiffer();
    var t1 := if z.Some? then t - {OidH(z.value)} else t;
    if z.Some? {
      assert IsSerdes(t, p, z.value) && IsSerdes(s, p, z.value);
      forall h | h in t ensures !Refers(t, h, z.value) { assert Leaf(s, vlan, b, p, h, z.value); }
    }
    forall h | h in t1 ensures !Refers(t1, h, p) {
      assert OnlyPort(s, b, p, h);
      if h.OidH? && IsSerdes(s, p, h.oid) { assert IsSerdes(t, p, h.oid); }
    }
  }

  /** What taking the port away may remove. */
  ghost predicate Doomed(s: Store, vlan: Oid, b: Oid, p: Oid, h: Handle) {
    h in s && (
      || h == OidH(b) || h == OidH(p)
      || (h.OidH? && (MemberFor(s, vlan, b, h.oid) || IsSerdes(s, p, h.oid)))
      || DynamicOn(s, h, b))
  }

  ghost predicate Survives(s: Store, t: Store, vlan: Oid, b: Oid, p: Oid, h: Handle) {
    h in s && !Doomed(s, vlan, b, p, h) ==> h in t
  }
}
