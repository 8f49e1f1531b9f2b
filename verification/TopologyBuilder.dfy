/** The builder and teardown methods, and any history of builder calls followed by teardown. */
module TopologyBuilder {
  import opened Numbers
  import opened Wrappers
  import opened SaiStore
  import opened Integrity
  import opened BridgePorts
  import opened TopologyLists
  import opened Attributes
  import opened TopologyNames
  import opened TopologyLayouts
  import opened TopologyTable

  class Topology {
    const profile: Profile
    const ports: seq<Oid>
    const defaultVrf: Oid
    const switchOid: Oid
    /** What is there beside the listed objects; builders change nothing in it but port VLAN ids and default routes. */
    ghost var base: Store
    /** The objects removed by the teardown so far, in order. */
    ghost var gone: seq<Oid>
    /** Ids from here on are the topology's own. */
    ghost const start: nat
    var dev: Dev
    var names: map<Name, Oid>
    var def: Lists

    constructor (profile: Profile, dev: Dev, ports: seq<Oid>, defaultVrf: Oid, switchOid: Oid)
      requires OldOnly(dev.store, dev.next) && NewOnly(dev.store, dev.next) && OidH(switchOid) in dev.store
      requires forall ty | Rank(ty) < 6 :: Lone(profile, ty)
      requires OidH(defaultVrf) in dev.store && forall i | 0 <= i < |ports| :: OidH(ports[i]) in dev.store
      ensures Valid() && base == dev.store && this.dev == dev && def == NO_OBJECTS && names == map[] && this.ports == ports
      ensures start == dev.next && this.defaultVrf == defaultVrf && this.switchOid == switchOid
    {
      this.profile, this.dev, this.ports, this.defaultVrf, this.base := profile, dev, ports, defaultVrf, dev.store;
      this.switchOid, this.start := switchOid, dev.next;
      def, names, gone := NO_OBJECTS, map[], [];
      new;
      forall h ensures Present(base, dev.store, NO_OBJECTS, h) {}
      forall g, o ensures Upward(base, dev.store, NO_OBJECTS, g, o) {}
    }

    ghost predicate Valid()
      reads this
    {
      && Built(base, dev.store, def)
      && OldOnly(base, dev.next) && NewOnly(dev.store, dev.next) && start <= dev.next
      && OidH(defaultVrf) in base && OidH(switchOid) in base && (forall i | 0 <= i < |ports| :: OidH(ports[i]) in base)
      && (forall ty | Rank(ty) < 6 :: Lone(profile, ty))
      && (forall n | n in names :: NameFits(n, names[n]))
    }

    /** Creates an object and appends it to the list of its type; it is refused, and that raises, if what it names is not live. */
    method Create(ty: ObjType, attrs: seq<Value>) returns (o: Oid, ok: bool)
      requires Valid() && Rank(ty) < 6 && PointsUp(base, dev.store, Rank(ty), attrs)
      requires ADMIN_STATE in AttrMap(attrs) ==> AttrMap(attrs)[ADMIN_STATE].Txt?
      modifies this`dev, this`def
      ensures Valid() && o.Vid? && o.ty == ty && OidH(o) !in old(dev.store) && !Listed(old(def), o)
      ensures def == if ok then Append(old(def), Rank(ty), o) else old(def)
      ensures dev.store == if ok then old(dev.store)[OidH(o) := AttrMap(attrs)] else old(dev.store)
      ensures ok <==> WellFormedAttrs(attrs) && LiveFlat(old(dev.store), attrs)
    {
      LoneCreate(profile, dev, ty, attrs);
      var (d, status, vid) := DevCreate(profile, dev, ty, attrs);
      o, ok := vid, status == Success;
      assert Present(base, dev.store, def, OidH(o));
      if ok {
        AppendAdds(def, Rank(ty), o);
        Adds(base, dev.store, def, Append(def, Rank(ty), o), o, attrs);
        def := Append(def, Rank(ty), o);
      }
      dev := d;
    }

    method SetName(n: Name, o: Oid)
      requires Valid() && NameFits(n, o)
      modifies this`names
      ensures Valid() && names == old(names)[n := o]
    {
      names := names[n := o];
    }

    method CreateBridgePort(port: Oid) returns (o: Oid, ok: bool)
      requires Valid() && Fits(base, 3, port)
      modifies this`dev, this`def
      ensures Valid() && o.Vid? && Rank(o.ty) == 3 && OidH(o) !in old(dev.store)
      ensures def == if ok then old(def).(bps := old(def).bps + [o]) else old(def)
      ensures Extends(old(dev.store), dev.store)
      ensures ok ==> IsBridgePort(dev.store, o, port)
      ensures ok <==> LiveV(old(dev.store), Ref(port))
    {
      Ranks();
      BpAttrMap(port);
      AttrNamesDiffer();
      BpAttrsLive(dev.store, port);
      o, ok := Create(BRIDGE_PORT, BpAttrs(port));
    }

    method CreateLagMember(lag: Oid, port: Oid) returns (o: Oid, ok: bool)
      requires Valid() && Fits(base, 4, lag) && Fits(base, 4, port)
      modifies this`dev, this`def
      ensures Valid() && def == (if ok then old(def).(lms := old(def).lms + [o]) else old(def))
      ensures Extends(old(dev.store), dev.store)
      ensures ok ==> BoundTo(dev.store, o, LM_LAG, Ref(lag)) && BoundTo(dev.store, o, LM_PORT, Ref(port))
      ensures ok <==> LiveV(old(dev.store), Ref(lag)) && LiveV(old(dev.store), Ref(port))
    {
      Ranks();
      LmAttrsLive(dev.store, lag, port);
      LmAttrMap(lag, port);
      AttrNamesDiffer();
      LmPointsUp(base, dev.store, lag, port);
      o, ok := Create(LAG_MEMBER, LmAttrs(lag, port));
    }

    method CreateVlanMember(vlan: Oid, bp: Oid, tag: Value) returns (o: Oid, ok: bool)
      requires Valid() && Fits(base, 1, vlan) && Fits(base, 1, bp) && tag.Txt?
      modifies this`dev, this`def
      ensures Valid() && def == (if ok then old(def).(vms := old(def).vms + [o]) else old(def))
      ensures Extends(old(dev.store), dev.store)
      ensures ok ==> BoundTo(dev.store, o, VM_VLAN, Ref(vlan)) && BoundTo(dev.store, o, VM_BP, Ref(bp)) && BoundTo(dev.store, o, VM_TAG, tag)
      ensures ok <==> LiveV(old(dev.store), Ref(vlan)) && LiveV(old(dev.store), Ref(bp))
      ensures !ok ==> dev.store == old(dev.store)
    {
      Ranks();
      VmAttrsLive(dev.store, vlan, bp, tag);
      VmAttrMap(vlan, bp, tag);
      AttrNamesDiffer();
      VmPointsUp(base, dev.store, vlan, bp, tag);
      o, ok := Create(VLAN_MEMBER, VmAttrs(vlan, bp, tag));
    }

    method CreateRif(vrf: Oid, kind: string, attr: string, on: Oid) returns (o: Oid, ok: bool)
      requires Valid() && Fits(base, 0, vrf) && Fits(base, 0, on) && (attr == RIF_VLAN || attr == RIF_PORT)
      modifies this`dev, this`def
      ensures Valid() && def == (if ok then old(def).(rifs := old(def).rifs + [o]) else old(def))
      ensures Extends(old(dev.store), dev.store)
      ensures ok ==> BoundTo(dev.store, o, RIF_VRF, Ref(vrf)) && BoundTo(dev.store, o, RIF_TYPE, Txt(kind)) && BoundTo(dev.store, o, attr, Ref(on))
      ensures ok <==> LiveV(old(dev.store), Ref(vrf)) && LiveV(old(dev.store), Ref(on))
      ensures !ok ==> dev.store == old(dev.store)
    {
      Ranks();
      RifAttrsLive(dev.store, vrf, kind, attr, on);
      RifAttrMap(vrf, kind, attr, on);
      RifPointsUp(base, dev.store, vrf, kind, attr, on);
      o, ok := Create(RIF, RifAttrs(vrf, kind, attr, on));
    }

    /** Bridge ports for the given port indices, in order; each is known by its port's index. It raises at an index without a port. */
    method CreateBridgePorts(indices: seq<nat>) returns (ok: bool)
      requires Valid()
      modifies this`dev, this`def, this`names
      ensures Valid() && Extends(old(dev.store), dev.store)
      ensures old(def).bps <= def.bps && def == old(def).(bps := def.bps)
      ensures ok <==> InRange(indices, |ports|)
      ensures ok ==> PortsBound(dev.store, ports, def.bps[|old(def).bps|..], indices) && PortsNamed(dev.store, ports, names, indices)
      ensures SameBut(old(names), names, BridgePorts(indices))
    {
      ok := true;
      var i := 0;
      ghost var new_ := def.bps[|def.bps|..];
      while i < |indices| && ok
        invariant 0 <= i <= |indices| && Valid() && Extends(old(dev.store), dev.store)
        invariant def == old(def).(bps := old(def).bps + new_)
        invariant ok <==> InRange(indices[..i], |ports|)
        invariant ok ==> PortsBound(dev.store, ports, new_, indices[..i]) && PortsNamed(dev.store, ports, names, indices[..i])
        invariant SameBut(old(names), names, BridgePorts(indices))
      {
        var bp;
        bp, ok := AddBridgePort(indices, i, old(names), new_);
        if ok {
          new_ := new_ + [bp];
          assert old(def).bps + new_ == def.bps;
        }
        i := i + 1;
      }
      if !ok { InRangePart(indices, i, |ports|); }
      assert ok ==> indices[..i] == indices && def.bps[|old(def).bps|..] == new_;
    }

    method AddBridgePort(indices: seq<nat>, i: nat, ghost names0: map<Name, Oid>, ghost done: seq<Oid>) returns (bp: Oid, ok: bool)
      requires Valid() && i < |indices| && SameBut(names0, names, BridgePorts(indices))
      modifies this`dev, this`def, this`names
      ensures Valid() && Extends(old(dev.store), dev.store)
      ensures InRange(indices[..i], |ports|) ==> (ok <==> InRange(indices[..i + 1], |ports|))
      ensures def == if ok then old(def).(bps := old(def).bps + [bp]) else old(def)
      ensures SameBut(names0, names, BridgePorts(indices))
      ensures ok && old(PortsBound(dev.store, ports, done, indices[..i]) && PortsNamed(dev.store, ports, names, indices[..i])) ==>
        PortsBound(dev.store, ports, done + [bp], indices[..i + 1]) && PortsNamed(dev.store, ports, names, indices[..i + 1])
    {
      bp := Null;
      InRangeNext(indices, i, |ports|);
      if indices[i] >= |ports| { return bp, false; }
      PortsAreLive();
      ghost var s, was := dev.store, names;
      bp, ok := CreateBridgePort(ports[indices[i]]);
      if ok {
        SetName(PortBp(indices[i]), bp);
        SameButThen(names0, was, names, BridgePorts(indices));
        if PortsBound(s, ports, done, indices[..i]) && PortsNamed(s, ports, was, indices[..i]) {
          PortsNext(s, dev.store, ports, done, was, indices, i, bp);
        }
      }
    }

    /** A LAG, its bridge port, and its member ports; it raises at an index without a port. */
    method CreateLagWithMembers(index: nat, indices: seq<nat>) returns (ok: bool)
      requires Valid()
      modifies this`dev, this`def, this`names
      ensures Valid() && Extends(old(dev.store), dev.store)
      ensures old(def).lags <= def.lags && old(def).bps <= def.bps && old(def).lms <= def.lms
      ensures def == old(def).(lags := def.lags, bps := def.bps, lms := def.lms)
      ensures ok <==> InRange(indices, |ports|)
      ensures ok ==> LagIs(dev.store, ports, names, index, indices)
      ensures ok ==> def.lags == old(def).lags + [names[LagName(index)]] && def.bps == old(def).bps + [names[LagBp(index)]]
      ensures ok ==> LagMembers(dev.store, ports, def.lms[|old(def).lms|..], names[LagName(index)], indices)
      ensures SameBut(old(names), names, LagWithMembers(index, indices))
    {
      var lag, bp := CreateLag(index);
      ghost var was := names;
      ok := AddLagMembers(index, lag, indices);
      LagFieldsOnly(old(names), was, names, index, indices, lag, bp);
    }

    method CreateLag(index: nat) returns (lag: Oid, bp: Oid)
      requires Valid()
      modifies this`dev, this`def, this`names
      ensures Valid() && Extends(old(dev.store), dev.store) && lag.Vid? && Rank(lag.ty) == 5 && OidH(lag) in dev.store
      ensures def == old(def).(lags := old(def).lags + [lag], bps := old(def).bps + [bp])
      ensures names == old(names)[LagName(index) := lag][LagBp(index) := bp]
      ensures IsBridgePort(dev.store, bp, lag)
    {
      lag := CreateLagObject(index);
      bp := CreateLagPort(index, lag);
    }

    method CreateLagObject(index: nat) returns (lag: Oid)
      requires Valid()
      modifies this`dev, this`def, this`names
      ensures Valid() && Extends(old(dev.store), dev.store) && lag.Vid? && Rank(lag.ty) == 5 && OidH(lag) in dev.store
      ensures def == old(def).(lags := old(def).lags + [lag]) && names == old(names)[LagName(index) := lag]
    {
      Ranks();
      var made;
      lag, made := Create(LAG, []);
      SetName(LagName(index), lag);
    }

    method CreateLagPort(index: nat, lag: Oid) returns (bp: Oid)
      requires Valid() && lag.Vid? && Rank(lag.ty) == 5 && OidH(lag) in dev.store
      modifies this`dev, this`def, this`names
      ensures Valid() && Extends(old(dev.store), dev.store) && IsBridgePort(dev.store, bp, lag)
      ensures def == old(def).(bps := old(def).bps + [bp]) && names == old(names)[LagBp(index) := bp]
    {
      var made;
      bp, made := CreateBridgePort(lag);
      SetName(LagBp(index), bp);
    }

    method AddLagMembers(index: nat, lag: Oid, indices: seq<nat>) returns (ok: bool)
      requires Valid() && lag.Vid? && Rank(lag.ty) == 5 && OidH(lag) in dev.store
      modifies this`dev, this`def, this`names
      ensures Valid() && Extends(old(dev.store), dev.store)
      ensures old(def).lms <= def.lms && def == old(def).(lms := def.lms)
      ensures ok <==> InRange(indices, |ports|)
      ensures ok ==> LagMembers(dev.store, ports, def.lms[|old(def).lms|..], lag, indices)
      ensures ok ==> MembersNamed(dev.store, ports, names, index, lag, indices)
      ensures SameButMembers(old(names), names, index, indices)
    {
      ok := true;
      var i := 0;
      ghost var new_ := def.lms[|def.lms|..];
      while i < |indices| && ok
        invariant 0 <= i <= |indices| && Valid() && Extends(old(dev.store), dev.store)
        invariant def == old(def).(lms := old(def).lms + new_)
        invariant ok <==> InRange(indices[..i], |ports|)
        invariant ok ==> LagMembers(dev.store, ports, new_, lag, indices[..i]) && MembersNamed(dev.store, ports, names, index, lag, indices[..i])
        invariant SameButMembers(old(names), names, index, indices)
      {
        var lm;
        lm, ok := AddLagMember(index, lag, indices, i, old(names), new_);
        if ok {
          new_ := new_ + [lm];
          assert old(def).lms + new_ == def.lms;
        }
        i := i + 1;
      }
      if !ok { InRangePart(indices, i, |ports|); }
      assert ok ==> indices[..i] == indices && def.lms[|old(def).lms|..] == new_;
    }

    method AddLagMember(index: nat, lag: Oid, indices: seq<nat>, i: nat, ghost names0: map<Name, Oid>, ghost done: seq<Oid>)
        returns (lm: Oid, ok: bool)
      requires Valid() && lag.Vid? && Rank(lag.ty) == 5 && OidH(lag) in dev.store && i < |indices| && SameButMembers(names0, names, index, indices)
      modifies this`dev, this`def, this`names
      ensures Valid() && Extends(old(dev.store), dev.store)
      ensures InRange(indices[..i], |ports|) ==> (ok <==> InRange(indices[..i + 1], |ports|))
      ensures def == if ok then old(def).(lms := old(def).lms + [lm]) else old(def)
      ensures SameButMembers(names0, names, index, indices)
      ensures ok && old(LagMembers(dev.store, ports, done, lag, indices[..i]) && MembersNamed(dev.store, ports, names, index, lag, indices[..i])) ==>
        && LagMembers(dev.store, ports, done + [lm], lag, indices[..i + 1])
        && MembersNamed(dev.store, ports, names, index, lag, indices[..i + 1])
    {
      lm := Null;
      InRangeNext(indices, i, |ports|);
      if indices[i] >= |ports| { return lm, false; }
      PortsAreLive();
      ghost var s, was := dev.store, names;
      lm, ok := CreateLagMember(lag, ports[indices[i]]);
      if ok {
        SetName(LagMemberName(index, indices[i]), lm);
        SameMembersThen(names0, was, names, index, indices);
        if LagMembers(s, ports, done, lag, indices[..i]) && MembersNamed(s, ports, was, index, lag, indices[..i]) {
          LagStep(s, dev.store, ports, done, was, index, lag, indices, i, lm);
        }
      }
    }

    /** A VLAN with the given bridge ports as members; a bad tagging mode raises before its member is created. */
    method CreateVlanWithMembers(id: nat, members: seq<(Oid, Tag)>) returns (ok: bool)
      requires Valid() && forall i | 0 <= i < |members| :: Fits(base, 1, members[i].0)
      modifies this`dev, this`def, this`names
      ensures Valid() && Extends(old(dev.store), dev.store)
      ensures old(def).vlans <= def.vlans && old(def).vms <= def.vms && def == old(def).(vlans := def.vlans, vms := def.vms)
      ensures ok <==> AllJoin(dev.store, members)
      ensures VlanName(id) in names && def.vlans == old(def).vlans + [names[VlanName(id)]]
      ensures BoundTo(dev.store, names[VlanName(id)], VLAN_ID, Txt(Decimal(id)))
      ensures ok ==> VlanMembers(dev.store, def.vms[|old(def).vms|..], names[VlanName(id)], members)
      ensures ok ==> Numbered(names, id, def.vms[|old(def).vms|..])
      ensures forall n | n != VlanName(id) && !VlanMemberField(n, id, |members|) :: SameName(old(names), names, n)
    {
      var vlan := CreateVlan(id);
      ghost var was := names;
      ok := AddVlanMembers(id, vlan, members);
      assert SameName(was, names, VlanName(id));
      forall n | n != VlanName(id) && !VlanMemberField(n, id, |members|) ensures SameName(old(names), names, n) { assert SameName(was, names, n); }
    }

    method CreateVlan(id: nat) returns (vlan: Oid)
      requires Valid()
      modifies this`dev, this`def, this`names
      ensures Valid() && Extends(old(dev.store), dev.store) && vlan.Vid? && Rank(vlan.ty) == 2
      ensures def == old(def).(vlans := old(def).vlans + [vlan])
      ensures names == old(names)[VlanName(id) := vlan] && BoundTo(dev.store, vlan, VLAN_ID, Txt(Decimal(id)))
    {
      Ranks();
      VlanAttrMap(id);
      VlanAttrsLive(dev.store, id);
      var made;
      vlan, made := Create(VLAN, VlanAttrs(id));
      SetName(VlanName(id), vlan);
    }

    method AddVlanMembers(id: nat, vlan: Oid, members: seq<(Oid, Tag)>) returns (ok: bool)
      requires Valid() && vlan.Vid? && Rank(vlan.ty) == 2 && OidH(vlan) in dev.store
      requires forall i | 0 <= i < |members| :: Fits(base, 1, members[i].0)
      modifies this`dev, this`def, this`names
      ensures Valid() && Extends(old(dev.store), dev.store)
      ensures old(def).vms <= def.vms && def == old(def).(vms := def.vms)
      ensures ok <==> AllJoin(dev.store, members)
      ensures ok ==> VlanMembers(dev.store, def.vms[|old(def).vms|..], vlan, members)
      ensures ok ==> Numbered(names, id, def.vms[|old(def).vms|..])
      ensures SameButVlanMembers(old(names), names, id, |members|)
    {
      ok := true;
      var i := 0;
      ghost var new_ := def.vms[|def.vms|..];
      while i < |members| && ok
        invariant 0 <= i <= |members| && Valid() && Extends(old(dev.store), dev.store)
        invariant def == old(def).(vms := old(def).vms + new_)
        invariant ok <==> AllJoin(dev.store, members[..i])
        invariant ok ==> VlanMembers(dev.store, new_, vlan, members[..i]) && Numbered(names, id, new_)
        invariant SameButVlanMembers(old(names), names, id, |members|)
      {
        var vm;
        vm, ok := AddVlanMember(id, vlan, members, i, old(names), new_);
        if ok {
          new_ := new_ + [vm];
          assert old(def).vms + new_ == def.vms;
        }
        i := i + 1;
      }
      if !ok { AllJoinPart(dev.store, members, i); }
      assert ok ==> members[..i] == members && def.vms[|old(def).vms|..] == new_;
    }

    method AddVlanMember(id: nat, vlan: Oid, members: seq<(Oid, Tag)>, i: nat, ghost names0: map<Name, Oid>, ghost done: seq<Oid>)
        returns (vm: Oid, ok: bool)
      requires Valid() && vlan.Vid? && Rank(vlan.ty) == 2 && OidH(vlan) in dev.store && i < |members| && Fits(base, 1, members[i].0)
      requires SameButVlanMembers(names0, names, id, |members|)
      modifies this`dev, this`def, this`names
      ensures Valid() && Extends(old(dev.store), dev.store)
      ensures old(AllJoin(dev.store, members[..i])) ==> (ok <==> AllJoin(dev.store, members[..i + 1]))
      ensures def == if ok then old(def).(vms := old(def).vms + [vm]) else old(def)
      ensures SameButVlanMembers(names0, names, id, |members|)
      ensures ok && old(VlanMembers(dev.store, done, vlan, members[..i]) && Numbered(names, id, done)) ==>
        VlanMembers(dev.store, done + [vm], vlan, members[..i + 1]) && Numbered(names, id, done + [vm])
    {
      vm := Null;
      var tag := TaggingMode(members[i].1);
      TaggingModeIsMeant(members[i].1, if tag.Some? then tag.value else Txt(""));
      ghost var s, was := dev.store, names;
      if tag.None? {
        AllJoinNext(s, s, members, i);
        return vm, false;
      }
      vm, ok := CreateVlanMember(vlan, members[i].0, tag.value);
      AllJoinNext(s, dev.store, members, i);
      if ok {
        SetName(VlanMemberName(id, i), vm);
        SameVlanMembersThen(names0, was, names, id, |members|);
        if VlanMembers(s, done, vlan, members[..i]) && Numbered(was, id, done) {
          VlanMembersNext(s, dev.store, done, vlan, members, i, vm);
          NumberedNext(was, id, done, vm);
        }
      }
    }

    /** Router interfaces on VLANs, LAGs or ports; an unknown kind, an unset field, or something that is not live raises. */
    method CreateRoutingInterfaces(configs: seq<RifConfig>) returns (ok: bool)
      requires Valid() && forall i | 0 <= i < |configs| && configs[i].vrf.Some? :: Fits(base, 0, configs[i].vrf.value)
      modifies this`dev, this`def, this`names
      ensures Valid() && Extends(old(dev.store), dev.store)
      ensures old(def).rifs <= def.rifs && def == old(def).(rifs := def.rifs)
      ensures ok <==> AllGo(dev.store, ports, defaultVrf, old(names), configs)
      ensures ok ==> Rifs(dev.store, ports, old(names), defaultVrf, def.rifs[|old(def).rifs|..], configs)
      ensures ok ==> RifsNamed(names, def.rifs[|old(def).rifs|..], configs)
      ensures SameBut(old(names), names, RoutingInterfaces(configs))
    {
      ok := true;
      var i := 0;
      ghost var new_ := def.rifs[|def.rifs|..];
      while i < |configs| && ok
        invariant 0 <= i <= |configs| && Valid() && Extends(old(dev.store), dev.store)
        invariant def == old(def).(rifs := old(def).rifs + new_)
        invariant ok <==> AllGo(dev.store, ports, defaultVrf, old(names), configs[..i])
        invariant ok ==> Rifs(dev.store, ports, old(names), defaultVrf, new_, configs[..i]) && RifsNamed(names, new_, configs[..i])
        invariant SameBut(old(names), names, RoutingInterfaces(configs))
      {
        var rif;
        rif, ok := AddRif(configs, i, old(names), new_);
        if ok {
          new_ := new_ + [rif];
          assert old(def).rifs + new_ == def.rifs;
        }
        i := i + 1;
      }
      if !ok { AllGoPart(dev.store, ports, defaultVrf, old(names), configs, i); }
      assert ok ==> configs[..i] == configs && def.rifs[|old(def).rifs|..] == new_;
    }

    method AddRif(configs: seq<RifConfig>, i: nat, ghost names0: map<Name, Oid>, ghost done: seq<Oid>) returns (rif: Oid, ok: bool)
      requires Valid() && i < |configs| && (configs[i].vrf.Some? ==> Fits(base, 0, configs[i].vrf.value))
      requires SameBut(names0, names, RoutingInterfaces(configs))
      modifies this`dev, this`def, this`names
      ensures Valid() && Extends(old(dev.store), dev.store)
      ensures old(AllGo(dev.store, ports, defaultVrf, names0, configs[..i])) ==>
        (ok <==> AllGo(dev.store, ports, defaultVrf, names0, configs[..i + 1]))
      ensures def == if ok then old(def).(rifs := old(def).rifs + [rif]) else old(def)
      ensures SameBut(names0, names, RoutingInterfaces(configs))
      ensures ok && old(Rifs(dev.store, ports, names0, defaultVrf, done, configs[..i]) && RifsNamed(names, done, configs[..i])) ==>
        Rifs(dev.store, ports, names0, defaultVrf, done + [rif], configs[..i + 1]) && RifsNamed(names, done + [rif], configs[..i + 1])
    {
      ghost var s, was := dev.store, names;
      SameOn(names0, was, configs, configs[i]);
      rif, ok := CreateRoutingInterface(configs[i]);
      RifFieldsOnly(names0, was, names, configs, i, rif);
      AllGoNext(s, dev.store, ports, defaultVrf, names0, configs, i);
      if ok && Rifs(s, ports, names0, defaultVrf, done, configs[..i]) && RifsNamed(was, done, configs[..i]) {
        RifsNext(s, dev.store, ports, names0, defaultVrf, done, configs, i, rif);
        RifsNamedNext(was, done, configs, i, rif);
      }
    }

    /** Fields of interfaces do not matter for what an interface is on. */
    lemma SameOn(was: map<Name, Oid>, now: map<Name, Oid>, configs: seq<RifConfig>, config: RifConfig)
      requires SameBut(was, now, RoutingInterfaces(configs))
      ensures RifOn(now, ports, config) == RifOn(was, ports, config)
    {
      assert forall k | 0 <= k < |configs| :: RifName(configs[k]) != VlanName(config.index) && RifName(configs[k]) != LagName(config.index);
      assert SameName(was, now, VlanName(config.index)) && SameName(was, now, LagName(config.index));
    }

    method CreateRoutingInterface(config: RifConfig) returns (rif: Oid, ok: bool)
      requires Valid() && (config.vrf.Some? ==> Fits(base, 0, config.vrf.value))
      modifies this`dev, this`def, this`names
      ensures Valid() && Extends(old(dev.store), dev.store)
      ensures ok <==> RifGoes(dev.store, ports, defaultVrf, old(names), config)
      ensures def == if ok then old(def).(rifs := old(def).rifs + [rif]) else old(def)
      ensures ok ==> IsRif(dev.store, ports, old(names), defaultVrf, rif, config)
      ensures names == if ok then old(names)[RifName(config) := rif] else old(names)
    {
      rif := Null;
      var on := RifOn(names, ports, config);
      if on.None? { return rif, false; }
      RifOnFits(config);
      var kind, attr := RIF_ON_PORT, RIF_PORT;
      if config.kind.OnVlan? { kind, attr := RIF_ON_VLAN, RIF_VLAN; }
      rif, ok := CreateRif(VrfOf(config, defaultVrf), kind, attr, on.value);
      if ok { SetName(RifName(config), rif); }
    }

    lemma RifOnFits(config: RifConfig)
      requires Valid() && RifOn(names, ports, config).Some?
      ensures Fits(base, 0, RifOn(names, ports, config).value)
    {
      RifOnFitsIn(base, names, ports, config);
    }

    // ---------- teardown ----------

    /** Removes one object that no other refers to; `left` are the lists without it. */
    method Remove(o: Oid, ghost l: Lists, ghost left: Lists)
      requires Built(base, dev.store, l) && Listed(l, o) && o.Vid? && RankFrom(l, Rank(o.ty))
      requires AllTidy(left) && OneLess(l, left, o) && (forall x | x in left.bps :: x in l.bps)
      modifies this`dev, this`gone
      ensures gone == old(gone) + [o]
      ensures RemoveObj(old(dev.store), OidH(o)).0 == Success
      ensures dev == old(dev).(store := old(dev.store) - {OidH(o)}) && Built(base, dev.store, left)
    {
      Removes(base, dev.store, l, left, o);
      dev := dev.(store := RemoveObj(dev.store, OidH(o)).1);
      gone := gone + [o];
    }

    /** Router interfaces, last created first. */
    method DestroyRoutingInterfaces()
      requires Valid()
      modifies this`dev, this`def, this`gone
      ensures Valid() && def == old(def).(rifs := []) && gone == old(gone) + Reversed(old(def).rifs)
    {
      var n := |def.rifs|;
      assert def.rifs[..n] == def.rifs;
      while n > 0
        invariant n <= |def.rifs| && def == old(def) && gone + Reversed(def.rifs[..n]) == old(gone) + Reversed(def.rifs)
        invariant Built(base, dev.store, def.(rifs := def.rifs[..n])) && dev == old(dev).(store := dev.store)
        invariant dev.store.Keys <= old(dev.store).Keys
      {
        n := n - 1;
        ghost var l := def.(rifs := def.rifs[..n + 1]);
        WithoutLastRif(l, n);
        assert l.rifs[..n] == def.rifs[..n];
        ReversedNext(gone, def.rifs, n);
        Remove(def.rifs[n], l, def.(rifs := def.rifs[..n]));
      }
      def := def.(rifs := []);
    }

    /** VLAN members, first created first. */
    method DestroyVlanMembers()
      requires Valid() && def.rifs == []
      modifies this`dev, this`def, this`gone
      ensures Valid() && def == old(def).(vms := []) && gone == old(gone) + old(def).vms
    {
      var i := 0;
      assert def.vms[0..] == def.vms;
      while i < |def.vms|
        invariant i <= |def.vms| && def == old(def) && gone == old(gone) + def.vms[..i]
        invariant Built(base, dev.store, def.(vms := def.vms[i..])) && dev == old(dev).(store := dev.store)
        invariant dev.store.Keys <= old(dev.store).Keys
      {
        ghost var l := def.(vms := def.vms[i..]);
        WithoutFirstVm(l);
        assert l.vms[1..] == def.vms[i + 1..];
        Remove(def.vms[i], l, def.(vms := def.vms[i + 1..]));
        i := i + 1;
      }
      assert def.vms[i..] == [] && def.vms[..i] == def.vms;
      def := def.(vms := []);
    }

    /** VLANs, once they have no members. */
    method DestroyVlans()
      requires Valid() && def.rifs == [] && def.vms == []
      modifies this`dev, this`def, this`gone
      ensures Valid() && def == old(def).(vlans := []) && gone == old(gone) + old(def).vlans
    {
      var i := 0;
      assert def.vlans[0..] == def.vlans;
      while i < |def.vlans|
        invariant i <= |def.vlans| && def == old(def) && gone == old(gone) + def.vlans[..i]
        invariant Built(base, dev.store, def.(vlans := def.vlans[i..])) && dev == old(dev).(store := dev.store)
        invariant dev.store.Keys <= old(dev.store).Keys
      {
        ghost var l := def.(vlans := def.vlans[i..]);
        WithoutFirstVlan(l);
        assert l.vlans[1..] == def.vlans[i + 1..];
        Remove(def.vlans[i], l, def.(vlans := def.vlans[i + 1..]));
        i := i + 1;
      }
      assert def.vlans[i..] == [] && def.vlans[..i] == def.vlans;
      def := def.(vlans := []);
    }

    /** Bridge ports, last created first, each disabled and flushed before it is removed. */
    method DestroyBridgePorts()
      requires Valid() && def.rifs == [] && def.vms == [] && def.vlans == []
      modifies this`dev, this`def, this`gone
      ensures Valid() && def == old(def).(bps := []) && gone == old(gone) + Reversed(old(def).bps)
    {
      var n := |def.bps|;
      assert def.bps[..n] == def.bps;
      while n > 0
        invariant n <= |def.bps| && def == old(def) && gone + Reversed(def.bps[..n]) == old(gone) + Reversed(def.bps)
        invariant Built(base, dev.store, def.(bps := def.bps[..n])) && dev == old(dev).(store := dev.store)
        invariant dev.store.Keys <= old(dev.store).Keys
      {
        n := n - 1;
        ghost var l := def.(bps := def.bps[..n + 1]);
        WithoutLastPort(l, n);
        assert l.bps[..n] == def.bps[..n];
        ReversedNext(gone, def.bps, n);
        RemoveWholePort(def.bps[n], l, def.(bps := def.bps[..n]));
      }
      def := def.(bps := []);
    }

    method RemoveWholePort(o: Oid, ghost l: Lists, ghost left: Lists)
      requires Built(base, dev.store, l) && o in l.bps && o.Vid? && RankFrom(l, Rank(o.ty))
      requires AllTidy(left) && OneLess(l, left, o) && (forall x | x in left.bps :: x in l.bps)
      modifies this`dev, this`gone
      ensures gone == old(gone) + [o]
      ensures RemoveBridgePort(old(dev.store), o).Some?
      ensures dev == old(dev).(store := old(dev.store) - {OidH(o)}) && Built(base, dev.store, left)
    {
      RemovesPort(base, dev.store, l, o);
      Removes(base, dev.store, l, left, o);
      dev := dev.(store := RemoveBridgePort(dev.store, o).value);
      gone := gone + [o];
    }

    /** LAG members, first created first. */
    method DestroyLagMembers()
      requires Valid() && def.rifs == [] && def.vms == [] && def.vlans == [] && def.bps == []
      modifies this`dev, this`def, this`gone
      ensures Valid() && def == old(def).(lms := []) && gone == old(gone) + old(def).lms
    {
      var i := 0;
      assert def.lms[0..] == def.lms;
      while i < |def.lms|
        invariant i <= |def.lms| && def == old(def) && gone == old(gone) + def.lms[..i]
        invariant Built(base, dev.store, def.(lms := def.lms[i..])) && dev == old(dev).(store := dev.store)
        invariant dev.store.Keys <= old(dev.store).Keys
      {
        ghost var l := def.(lms := def.lms[i..]);
        WithoutFirstLm(l);
        assert l.lms[1..] == def.lms[i + 1..];
        Remove(def.lms[i], l, def.(lms := def.lms[i + 1..]));
        i := i + 1;
      }
      assert def.lms[i..] == [] && def.lms[..i] == def.lms;
      def := def.(lms := []);
    }

    /** LAGs, once they have no members. */
    method DestroyLags()
      requires Valid() && def.rifs == [] && def.vms == [] && def.vlans == [] && def.bps == [] && def.lms == []
      modifies this`dev, this`def, this`gone
      ensures Valid() && def == old(def).(lags := []) && gone == old(gone) + old(def).lags
    {
      var i := 0;
      assert def.lags[0..] == def.lags;
      while i < |def.lags|
        invariant i <= |def.lags| && def == old(def) && gone == old(gone) + def.lags[..i]
        invariant Built(base, dev.store, def.(lags := def.lags[i..])) && dev == old(dev).(store := dev.store)
        invariant dev.store.Keys <= old(dev.store).Keys
      {
        ghost var l := def.(lags := def.lags[i..]);
        WithoutFirstLag(l);
        assert l.lags[1..] == def.lags[i + 1..];
        Remove(def.lags[i], l, def.(lags := def.lags[i + 1..]));
        i := i + 1;
      }
      assert def.lags[i..] == [] && def.lags[..i] == def.lags;
      def := def.(lags := []);
    }

    /** Every tracked object is removed, none while it is in use, and the store is what it was. */
    method Teardown()
      requires Valid()
      modifies this`dev, this`def, this`gone
      ensures Valid() && def == NO_OBJECTS && dev.store == base && gone == old(gone) + Order(old(def))
    {
      DestroyRoutingInterfaces();
      DestroyVlanMembers();
      DestroyVlans();
      DestroyBridgePorts();
      DestroyLagMembers();
      DestroyLags();
      NothingListed(base, dev.store);
      OrderInSteps(old(gone), old(def));
    }

    // ---------- histories ----------

    /** The VLAN id of a port, which is not tracked. */
    method SetPortVlan(p: Oid, id: string)
      requires Valid() && OidH(p) in base
      modifies this`dev, this`base
      ensures Valid() && base == WithText(old(base), OidH(p), PORT_PVID, id) && dev.next == old(dev.next)
      ensures dev.store == WithText(old(dev.store), OidH(p), PORT_PVID, id)
    {
      assert Present(base, dev.store, def, OidH(p));
      SetTextAccepted(dev.store, OidH(p), PORT_PVID, id);
      BaseText(base, dev.store, def, OidH(p), PORT_PVID, id);
      TextInOrder(base, OidH(p), PORT_PVID, id, dev.next);
      dev := dev.(store := SetAttr(dev.store, OidH(p), [Txt(PORT_PVID), Txt(id)]).1);
      base := WithText(base, OidH(p), PORT_PVID, id);
    }

    /** A builder call; it raises exactly if what it is given does not exist. */
    method Apply(call: BuilderCall) returns (ok: bool)
      requires Valid() && VrfsKnown(base, call)
      modifies this`dev, this`def, this`names, this`base
      ensures Valid() && base.Keys == old(base).Keys
      ensures SameButPvids(old(base), base, ports) && (!call.PortVlan? ==> base == old(base) && Extends(old(dev.store), dev.store))
      ensures old(def).lags <= def.lags
      ensures ok <==> Possible(old(dev.store), old(names), ports, call)
      ensures ok ==> MadeIn(dev.store, ports, defaultVrf, names, call)
      ensures ok ==> LagListed(names, def, call)
      ensures SameBut(old(names), names, call)
    {
      SamePvids(base, ports);
      match call
      case BridgePorts(indices) => ok := CreateBridgePorts(indices);
      case LagWithMembers(index, indices) => ok := CreateLagWithMembers(index, indices);
      case VlanWithMembers(id, members) => ok := ApplyVlan(id, members);
      case RoutingInterfaces(configs) => ok := ApplyRifs(configs);
      case PortVlan(index, pvid) =>
        if index >= |ports| { return false; }
        PvidChanges(base, ports, index, pvid);
        SetPortVlan(ports[index], pvid);
        ok := true;
    }

    method ApplyVlan(id: nat, members: seq<(Name, Tag)>) returns (ok: bool)
      requires Valid()
      modifies this`dev, this`def, this`names
      ensures Valid() && Extends(old(dev.store), dev.store) && def == old(def).(vlans := def.vlans, vms := def.vms)
      ensures ok <==> Possible(old(dev.store), old(names), ports, VlanWithMembers(id, members))
      ensures ok ==> VlanIs(dev.store, names, id, members)
      ensures SameBut(old(names), names, VlanWithMembers(id, members))
    {
      var resolved := Resolve(names, members);
      if resolved.None? { return false; }
      forall i | 0 <= i < |members| ensures Fits(base, 2, resolved.value[i].0) { ResolvedFits(members, i); }
      ok := CreateVlanWithMembers(id, resolved.value);
      NewVms(old(def), def);
      forall i | 0 <= i < |members| ensures Joins(dev.store, resolved.value[i]) <==> MemberPossible(old(dev.store), old(names), members[i]) {
        LiveBefore(base, old(dev.store), dev.store, old(def), def, 2, resolved.value[i].0);
      }
      if ok {
        SamePorts(old(names), names, id, members, resolved.value);
        VlanMade(dev.store, names, id, def.vms[|old(def).vms|..], members, resolved.value);
      }
    }

    lemma SamePorts(was: map<Name, Oid>, now: map<Name, Oid>, id: nat, members: seq<(Name, Tag)>, resolved: seq<(Oid, Tag)>)
      requires forall n | n != VlanName(id) && !VlanMemberField(n, id, |members|) :: SameName(was, now, n)
      requires |resolved| == |members|
      requires forall i | 0 <= i < |members| :: IsSetPort(was, members[i].0) && resolved[i] == (was[members[i].0], members[i].1)
      ensures forall i | 0 <= i < |members| :: members[i].0 in now && resolved[i] == (now[members[i].0], members[i].1)
    {
      forall i | 0 <= i < |members| ensures members[i].0 in now && resolved[i] == (now[members[i].0], members[i].1) {
        assert SameName(was, now, members[i].0);
      }
    }

    method ApplyRifs(configs: seq<RifConfig>) returns (ok: bool)
      requires Valid() && VrfsKnown(base, RoutingInterfaces(configs))
      modifies this`dev, this`def, this`names
      ensures Valid() && Extends(old(dev.store), dev.store) && def == old(def).(rifs := def.rifs)
      ensures ok <==> Possible(old(dev.store), old(names), ports, RoutingInterfaces(configs))
      ensures ok ==> MadeIn(dev.store, ports, defaultVrf, names, RoutingInterfaces(configs))
      ensures SameBut(old(names), names, RoutingInterfaces(configs))
    {
      ok := CreateRoutingInterfaces(configs);
      NewRifs(old(def), def);
      forall i | 0 <= i < |configs| ensures RifGoes(dev.store, ports, defaultVrf, old(names), configs[i]) <==> RifPossible(old(dev.store), old(names), ports, configs[i]) {
        RifWentBefore(old(dev.store), old(def), old(names), configs[i]);
      }
      if ok { RifsMade(dev.store, ports, defaultVrf, old(names), names, def.rifs[|old(def).rifs|..], configs); }
    }

    lemma RifWentBefore(s: Store, l: Lists, was: map<Name, Oid>, config: RifConfig)
      requires Valid() && Built(base, s, l) && Extends(s, dev.store) && (config.vrf.Some? ==> OidH(config.vrf.value) in base)
      requires forall x: Oid | Listed(def, x) && !Listed(l, x) && x.Vid? :: Rank(x.ty) <= 0
      requires forall n | n in was :: NameFits(n, was[n])
      ensures RifGoes(dev.store, ports, defaultVrf, was, config) <==> RifPossible(s, was, ports, config)
    {
      assert Present(base, dev.store, def, OidH(if config.vrf.Some? then config.vrf.value else defaultVrf));
      if RifOn(was, ports, config).Some? {
        RifOnFitsIn(base, was, ports, config);
        LiveBefore(base, s, dev.store, l, def, 0, RifOn(was, ports, config).value);
      }
      GoesIfPossible(s, dev.store, ports, defaultVrf, was, config);
    }

    /** What a set field of a bridge port holds fits where a VLAN member needs one. */
    lemma ResolvedFits(members: seq<(Name, Tag)>, i: nat)
      requires Valid() && i < |members| && IsSetPort(names, members[i].0)
      ensures Fits(base, 2, names[members[i].0])
    {
      assert NameFits(members[i].0, names[members[i].0]);
    }

    /**
      Whatever builders are called, in whatever order, and wherever one of them raises: teardown
      then brings the store back to what it was before the first of them, but for the VLAN ids of
      ports that were set on the way.
     */
    method BuildAndTearDown(calls: seq<BuilderCall>) returns (built: bool)
      requires Valid() && forall i | 0 <= i < |calls| :: VrfsKnown(base, calls[i])
      modifies this`dev, this`def, this`names, this`base, this`gone
      ensures Valid() && def == NO_OBJECTS && dev.store == base && SameButPvids(old(base), dev.store, ports)
    {
      built := true;
      var i := 0;
      SamePvids(base, ports);
      while i < |calls| && built
        invariant 0 <= i <= |calls| && Valid() && SameButPvids(old(base), base, ports)
      {
        ghost var b := base;
        SameKnown(old(base), base, ports, calls[i]);
        built := Apply(calls[i]);
        PvidsThen(old(base), b, base, ports);
        i := i + 1;
      }
      Teardown();
    }

    // ---------- the fixed layouts ----------

    ghost predicate LagReady()
      reads this
    {
      LagName(1) in names && names[LagName(1)] in def.lags
    }

    /** The route is added if it was not there; otherwise that raises. */
    method CreateRoute(dest: string) returns (ok: bool)
      requires Valid()
      modifies this`dev, this`base
      ensures Valid() && Extends(old(dev.store), dev.store)
      ensures var h := Route(dest, switchOid, defaultVrf);
        && (ok <==> h !in old(base))
        && base == if ok then old(base)[h := AttrMap(DropAttrs())] else old(base)
    {
      ghost var h := Route(dest, switchOid, defaultVrf);
      var (status, s) := CreateEntry(dev.store, ROUTE_ENTRY, RouteKey(dest, switchOid, defaultVrf), DropAttrs());
      ok := status == Success;
      assert Present(base, dev.store, def, h);
      assert Present(base, dev.store, def, OidH(switchOid)) && Present(base, dev.store, def, OidH(defaultVrf));
      RouteStatus(dev.store, dest, switchOid, defaultVrf);
      if ok {
        forall o | MentionsF(h.key, o) || MentionsA(AttrMap(DropAttrs()), o) ensures o == switchOid || o == defaultVrf {
          RouteRefers(dest, switchOid, defaultVrf, o);
        }
        BaseEntry(base, dev.store, def, h, AttrMap(DropAttrs()));
        NewEntryInOrder(base, dev.next, h, AttrMap(DropAttrs()), switchOid, defaultVrf);
        base := base[h := AttrMap(DropAttrs())];
      }
      dev := dev.(store := s);
    }

    method RemoveRoute(dest: string)
      requires Valid() && EntryH(ROUTE_ENTRY, RouteKey(dest, switchOid, defaultVrf)) in base
      modifies this`dev, this`base
      ensures Valid() && base == old(base) - {EntryH(ROUTE_ENTRY, RouteKey(dest, switchOid, defaultVrf))}
    {
      ghost var h := EntryH(ROUTE_ENTRY, RouteKey(dest, switchOid, defaultVrf));
      assert Present(base, dev.store, def, h);
      BaseEntryGone(base, dev.store, def, h);
      dev := dev.(store := RemoveObj(dev.store, EntryH(ROUTE_ENTRY, RouteKey(dest, switchOid, defaultVrf))).1);
      base := base - {h};
    }

    /** The VLAN id of LAG 1. */
    method SetLagVlan(id: string)
      requires Valid() && LagReady()
      modifies this`dev
      ensures Valid() && dev.store == WithText(old(dev.store), OidH(names[LagName(1)]), LAG_PVID, id) && LagVlan(dev.store, names, id)
    {
      var lag := names[LagName(1)];
      assert Present(base, dev.store, def, OidH(lag));
      SetTextAccepted(dev.store, OidH(lag), LAG_PVID, id);
      ListedText(base, dev.store, def, lag, LAG_PVID, id);
      dev := dev.(store := SetAttr(dev.store, OidH(lag), [Txt(LAG_PVID), Txt(id)]).1);
    }

    /** VLAN and bridge port are known and live. */
    ghost predicate CanJoin(v: nat, b: Name)
      reads this
    {
      VlanName(v) in names && LiveV(dev.store, Ref(names[VlanName(v)])) && MemberPossible(dev.store, names, (b, "untagged"))
    }

    /** A member by the names of its VLAN and bridge port. */
    method MemberOn(v: nat, b: Name) returns (ok: bool)
      requires Valid()
      modifies this`dev, this`def, this`names
      ensures Valid() && Extends(old(dev.store), dev.store) && def == old(def).(vms := def.vms)
      ensures ok <==> old(CanJoin(v, b))
      ensures ok ==> VlanHas(dev.store, names, v, 2, (b, "untagged"))
      ensures forall n | n != VlanMemberName(v, 2) :: SameName(old(names), names, n)
    {
      if VlanName(v) !in names || !IsSetPort(names, b) { return false; }
      assert NameFits(b, names[b]) && NameFits(VlanName(v), names[VlanName(v)]);
      UntaggedIsATag();
      TaggingModeIsMeant("untagged", Txt("SAI_VLAN_TAGGING_MODE_UNTAGGED"));
      var vm;
      vm, ok := CreateVlanMember(names[VlanName(v)], names[b], TaggingMode("untagged").value);
      if ok { SetName(VlanMemberName(v, 2), vm); }
    }

    /** One more member of a VLAN and of another; they are tracked only once both are made. */
    method AddTwoMembers(v: nat, b: Name, v': nat, b': Name) returns (ok: bool)
      requires Valid() && v != v'
      modifies this`dev, this`def, this`names
      ensures old(CanJoin(v, b) && CanJoin(v', b')) ==> ok
      ensures ok ==> Valid() && Extends(old(dev.store), dev.store) && def == old(def).(vms := def.vms)
      ensures ok ==> VlanHas(dev.store, names, v, 2, (b, "untagged")) && VlanHas(dev.store, names, v', 2, (b', "untagged"))
      ensures forall n | n != VlanMemberName(v, 2) && n != VlanMemberName(v', 2) :: SameName(old(names), names, n)
    {
      var before := def;
      ok := MemberOn(v, b);
      if !ok { return; }
      ghost var s, was := dev.store, names;
      if old(CanJoin(v', b')) { OtherStillJoins(old(dev.store), s, old(names), was, v, v', b'); }
      ok := MemberOn(v', b');
      if ok { FirstMemberStays(s, dev.store, was, names, v, b, v'); } else { def := before; }
      TwoFieldsOnly(old(names), was, names, v, v');
    }

    lemma {:induction false} OtherStillJoins(s: Store, t: Store, was: map<Name, Oid>, now: map<Name, Oid>, v: nat, v': nat, b': Name)
      requires Extends(s, t) && forall n | n != VlanMemberName(v, 2) :: SameName(was, now, n)
      requires VlanName(v') in was && LiveV(s, Ref(was[VlanName(v')])) && MemberPossible(s, was, (b', "untagged"))
      ensures VlanName(v') in now && LiveV(t, Ref(now[VlanName(v')])) && MemberPossible(t, now, (b', "untagged"))
    {
      assert SameName(was, now, VlanName(v')) && SameName(was, now, b');
    }

    lemma TwoFieldsOnly(a: map<Name, Oid>, b: map<Name, Oid>, c: map<Name, Oid>, v: nat, v': nat)
      requires forall n | n != VlanMemberName(v, 2) :: SameName(a, b, n)
      requires forall n | n != VlanMemberName(v', 2) :: SameName(b, c, n)
      ensures forall n | n != VlanMemberName(v, 2) && n != VlanMemberName(v', 2) :: SameName(a, c, n)
    {
      forall n | n != VlanMemberName(v, 2) && n != VlanMemberName(v', 2) ensures SameName(a, c, n) {
        assert SameName(a, b, n) && SameName(b, c, n);
      }
    }

    lemma FirstMemberStays(s: Store, t: Store, was: map<Name, Oid>, now: map<Name, Oid>, v: nat, b: Name, v': nat)
      requires v != v' && (b.PortBp? || b.LagBp?) && VlanHas(s, was, v, 2, (b, "untagged")) && Extends(s, t)
      requires forall n | n != VlanMemberName(v', 2) :: SameName(was, now, n)
      ensures VlanHas(t, now, v, 2, (b, "untagged"))
    {
      assert SameName(was, now, VlanName(v)) && SameName(was, now, VlanMemberName(v, 2)) && SameName(was, now, b);
    }

    /** The default routes of the layout are there, or there are none. */
    ghost predicate RoutesIn(b0: Store, layout: LayoutKind)
      reads this
    {
      base == WithRoutes(b0, switchOid, defaultVrf, layout) && !HasRoutes(b0, switchOid, defaultVrf, layout)
    }

    /** The objects of the layout are there, under their names. */
    ghost predicate Has(layout: LayoutKind)
      reads this
    {
      Holds(dev.store, ports, defaultVrf, names, layout)
    }

    /** A builder call that needs no more than there is, and sets fields of its own. */
    method Place(call: BuilderCall, ghost k: nat)
      requires Valid() && !call.PortVlan? && VrfsKnown(base, call) && Possible(dev.store, names, ports, call)
      requires Before(names, k) && At(call, k)
      modifies this`dev, this`def, this`names, this`base
      ensures Valid() && base == old(base) && Extends(old(dev.store), dev.store) && old(def).lags <= def.lags
      ensures SubNames(old(names), names) && Before(names, k + 1) && MadeIn(dev.store, ports, defaultVrf, names, call)
      ensures LagListed(names, def, call)
    {
      var ok := Apply(call);
      BeforeNext(old(names), names, call, k);
    }

    /** A list of builder calls that provide for one another, each at its place: none of them raises. */
    method PlaceAll(calls: seq<BuilderCall>, ghost k: nat)
      requires Valid() && |ports| >= 24 && Before(names, k) && AllAt(calls, k) && AllProvided(calls)
      modifies this`dev, this`def, this`names, this`base
      ensures Valid() && base == old(base) && Extends(old(dev.store), dev.store) && old(def).lags <= def.lags
      ensures SubNames(old(names), names) && Before(names, k + |calls|) && AllMade(dev.store, ports, defaultVrf, names, calls)
      ensures AllListed(names, def, calls)
    {
      for n := 0 to |calls|
        invariant Valid() && base == old(base) && Extends(old(dev.store), dev.store) && old(def).lags <= def.lags
        invariant SubNames(old(names), names) && Before(names, k + n) && AllMade(dev.store, ports, defaultVrf, names, calls[..n])
        invariant AllListed(names, def, calls[..n])
      {
        ghost var was, l := names, def;
        PlaceNext(calls, n, k);
        AllListedNext(was, names, l, def, calls, n);
      }
      assert calls[..|calls|] == calls;
    }

    method PlaceNext(calls: seq<BuilderCall>, n: nat, ghost k: nat)
      requires Valid() && |ports| >= 24 && n < |calls| && Before(names, k + n) && AllAt(calls, k) && AllProvided(calls)
      requires AllMade(dev.store, ports, defaultVrf, names, calls[..n])
      modifies this`dev, this`def, this`names, this`base
      ensures Valid() && base == old(base) && Extends(old(dev.store), dev.store) && old(def).lags <= def.lags
      ensures SubNames(old(names), names) && Before(names, k + n + 1) && AllMade(dev.store, ports, defaultVrf, names, calls[..n + 1])
      ensures LagListed(names, def, calls[n])
    {
      ghost var s, was := dev.store, names;
      PortsAreLive();
      ProvidedIsPossible(s, ports, defaultVrf, was, calls[..n], calls[n]);
      OwnRouters(calls, n);
      Place(calls[n], k + n);
      assert [] + calls[..n] == calls[..n] && [] + calls[..n + 1] == calls[..n + 1];
      AllMadeNext(s, dev.store, ports, defaultVrf, was, names, [], calls, n);
    }

    lemma PortsAreLive()
      requires Valid()
      ensures forall i | 0 <= i < |ports| :: OidH(ports[i]) in dev.store
    {
      forall i | 0 <= i < |ports| ensures OidH(ports[i]) in dev.store { assert Present(base, dev.store, def, OidH(ports[i])); }
    }

    lemma OwnRouters(calls: seq<BuilderCall>, n: nat)
      requires n < |calls| && AllProvided(calls)
      ensures VrfsKnown(base, calls[n]) && !calls[n].PortVlan?
    {
      assert Provided(calls[..n], calls[n]);
      if calls[n].RoutingInterfaces? {
        forall i | 0 <= i < |calls[n].configs| ensures calls[n].configs[i].vrf.None? { assert RifProvided(calls[..n], calls[n].configs[i]); }
      }
    }

    /** The builder calls of a layout, in order. */
    method BuildUp(layout: LayoutKind) returns (ok: bool)
      requires Valid() && def == NO_OBJECTS && names == map[] && |ports| >= 24
      modifies this`dev, this`def, this`names, this`base
      ensures ok <==> !HasRoutes(old(base), switchOid, defaultVrf, layout)
      ensures ok ==> Valid() && (!layout.L2Basic? ==> LagReady()) && Has(layout)
      ensures ok ==> RoutesIn(WithText(WithText(old(base), OidH(ports[0]), PORT_PVID, "10"), OidH(ports[2]), PORT_PVID, "20"), layout)
    {
      ok := true;
      SetupPorts();
      TextsKeepRoutes(old(base), ports, layout);
      if layout.L2Basic? { return; }
      SetupLags();
      if layout.L2Advanced? { return; }
      ok := SetupRouting();
      if !ok || layout.L3Basic? { return; }
      SetupMore();
    }

    /**
      The builder calls of a layout. It raises exactly if a default route it needs is there already;
      otherwise the objects of the table are there under their names, and all that is new beside
      them are VLAN ids of two ports and the routes.
     */
    method Setup(layout: LayoutKind) returns (ok: bool)
      requires Valid() && def == NO_OBJECTS && names == map[] && |ports| >= 24
      modifies this`dev, this`def, this`names, this`base
      ensures ok <==> !HasRoutes(old(base), switchOid, defaultVrf, layout)
      ensures ok ==> Valid() && (!layout.L2Basic? ==> LagReady())
      ensures ok ==> Table(dev.store, ports, defaultVrf, names, layout) && RouteTable(dev.store, switchOid, defaultVrf, layout)
      ensures ok ==> RoutesIn(WithText(WithText(old(base), OidH(ports[0]), PORT_PVID, "10"), OidH(ports[2]), PORT_PVID, "20"), layout)
    {
      ok := BuildUp(layout);
      if ok {
        LayoutIsTable(dev.store, ports, defaultVrf, names, layout);
        ghost var b0 := WithText(WithText(old(base), OidH(ports[0]), PORT_PVID, "10"), OidH(ports[2]), PORT_PVID, "20");
        BaseIsThere();
        RoutesAreRows(dev.store, b0, switchOid, defaultVrf, layout);
      }
    }

    lemma BaseIsThere()
      requires Valid()
      ensures Extends(base, dev.store)
    {
      forall h | h in base ensures h in dev.store && dev.store[h] == base[h] { assert Present(base, dev.store, def, h); }
    }

    lemma TextsKeepRoutes(s: Store, ports: seq<Oid>, layout: LayoutKind)
      requires |ports| >= 24
      ensures var t := WithText(WithText(s, OidH(ports[0]), PORT_PVID, "10"), OidH(ports[2]), PORT_PVID, "20");
        HasRoutes(t, switchOid, defaultVrf, layout) <==> HasRoutes(s, switchOid, defaultVrf, layout)
    {
    }

    method SetupPorts()
      requires Valid() && names == map[] && |ports| >= 24
      modifies this`dev, this`def, this`names, this`base
      ensures Valid() && Has(L2Basic) && Before(names, 4)
      ensures base == WithText(WithText(old(base), OidH(ports[0]), PORT_PVID, "10"), OidH(ports[2]), PORT_PVID, "20")
    {
      PortPlaces();
      PortsProvided();
      PlaceAll(PORT_CALLS, 1);
      SetVlanOf(0, "10");
      SetVlanOf(2, "20");
    }

    method SetVlanOf(i: nat, id: string)
      requires Valid() && i < |ports| && Has(L2Basic)
      modifies this`dev, this`base
      ensures Valid() && base == WithText(old(base), OidH(ports[i]), PORT_PVID, id) && Has(L2Basic)
    {
      TextCarries(dev.store, OidH(ports[i]), PORT_PVID, id);
      SetPortVlan(ports[i], id);
      AllMadeStays(old(dev.store), dev.store, ports, defaultVrf, names, names, PORT_CALLS);
    }

    method SetupLags()
      requires Valid() && |ports| >= 24 && Has(L2Basic) && Before(names, 4)
      modifies this`dev, this`def, this`names, this`base
      ensures Valid() && base == old(base) && LagReady() && Has(L2Advanced) && Before(names, 7)
    {
      PlaceLags();
      JoinLags();
      LabelLag();
    }

    method PlaceLags()
      requires Valid() && |ports| >= 24 && Has(L2Basic) && Before(names, 4)
      modifies this`dev, this`def, this`names, this`base
      ensures Valid() && base == old(base) && LagReady() && Before(names, 6)
      ensures AllMade(dev.store, ports, defaultVrf, names, PORT_CALLS + LAG_CALLS)
    {
      LagPlaces();
      LagsProvided();
      PlaceAll(LAG_CALLS, 4);
      ExtendsCarries(old(dev.store), dev.store);
      AllMadeStays(old(dev.store), dev.store, ports, defaultVrf, old(names), names, PORT_CALLS);
      assert LAG_CALLS[0] == LAG_1;
      assert MadeIn(dev.store, ports, defaultVrf, names, LAG_CALLS[0]);
    }

    method JoinLags()
      requires Valid() && LagReady() && Before(names, 6) && AllMade(dev.store, ports, defaultVrf, names, PORT_CALLS + LAG_CALLS)
      modifies this`dev, this`def, this`names
      ensures Valid() && LagReady() && Before(names, 7)
      ensures AllMade(dev.store, ports, defaultVrf, names, PORT_CALLS + LAG_CALLS) && LagsJoined(dev.store, names)
    {
      LagsCanJoin(dev.store, ports, defaultVrf, names);
      var ok := AddTwoMembers(10, LagBp(1), 20, LagBp(2));
      MembersAreNew(old(names), names);
      ExtendsCarries(old(dev.store), dev.store);
      AllMadeStays(old(dev.store), dev.store, ports, defaultVrf, old(names), names, PORT_CALLS + LAG_CALLS);
    }

    method LabelLag()
      requires Valid() && LagReady()
      requires AllMade(dev.store, ports, defaultVrf, names, PORT_CALLS + LAG_CALLS) && LagsJoined(dev.store, names)
      modifies this`dev
      ensures Valid() && LagReady() && Has(L2Advanced)
    {
      TextCarries(dev.store, OidH(names[LagName(1)]), LAG_PVID, "10");
      assert Present(base, dev.store, def, OidH(names[LagName(1)]));
      SetLagVlan("10");
      AllMadeStays(old(dev.store), dev.store, ports, defaultVrf, names, names, PORT_CALLS + LAG_CALLS);
      LagsJoinedStay(old(dev.store), dev.store, names, names);
    }

    /** It raises exactly if one of the default routes is there already. */
    method SetupRouting() returns (ok: bool)
      requires Valid() && |ports| >= 24 && LagReady() && Has(L2Advanced) && Before(names, 7)
      modifies this`dev, this`def, this`names, this`base
      ensures Valid() && LagReady() && Before(names, 8) && Has(L3Basic)
      ensures ok <==> !HasRoutes(old(base), switchOid, defaultVrf, L3Basic)
      ensures ok ==> RoutesIn(old(base), L3Basic)
    {
      RifPlaces();
      LagsProvided();
      PlaceAll(RIF_CALLS, 7);
      HasMore(old(dev.store), old(names), L2Advanced, RIF_CALLS, L3Basic);
      ghost var s := dev.store;
      ok := CreateDefaultRoutes();
      HoldsStays(s, dev.store, ports, defaultVrf, names, names, L3Basic);
    }

    lemma HasMore(s: Store, was: map<Name, Oid>, layout: LayoutKind, calls: seq<BuilderCall>, layout': LayoutKind)
      requires !layout.L2Basic? && !layout'.L2Basic? && CallsOf(layout') == CallsOf(layout) + calls
      requires Extends(s, dev.store) && SubNames(was, names) && Holds(s, ports, defaultVrf, was, layout)
      requires AllMade(dev.store, ports, defaultVrf, names, calls)
      ensures Has(layout')
    {
      HoldsStays(s, dev.store, ports, defaultVrf, was, names, layout);
    }

    method CreateDefaultRoutes() returns (ok: bool)
      requires Valid()
      modifies this`dev, this`base
      ensures Valid() && Extends(old(dev.store), dev.store)
      ensures ok <==> !HasRoutes(old(base), switchOid, defaultVrf, L3Basic)
      ensures ok ==> RoutesIn(old(base), L3Basic)
    {
      RoutesDiffer(switchOid, defaultVrf);
      ok := CreateRoute("0.0.0.0/0");
      if ok { ok := CreateRoute("::/0"); }
    }

    method DestroyDefaultRoutes(ghost b0: Store)
      requires Valid() && RoutesIn(b0, L3Basic)
      modifies this`dev, this`base
      ensures Valid() && base == b0
    {
      RoutesGo(b0, switchOid, defaultVrf);
      RemoveRoute("0.0.0.0/0");
      RemoveRoute("::/0");
    }

    method SetupMore()
      requires Valid() && |ports| >= 24 && LagReady() && Has(L3Basic) && Before(names, 8)
      modifies this`dev, this`def, this`names, this`base
      ensures Valid() && base == old(base) && LagReady() && Has(L3Advanced)
    {
      MorePlaces();
      MoreProvided();
      PlaceAll(MORE_CALLS, 8);
      HasAll(old(dev.store), old(names));
    }

    lemma HasAll(s: Store, was: map<Name, Oid>)
      requires Extends(s, dev.store) && SubNames(was, names) && Holds(s, ports, defaultVrf, was, L3Basic)
      requires AllMade(dev.store, ports, defaultVrf, names, MORE_CALLS)
      ensures Has(L3Advanced)
    {
      HasMore(s, was, L3Basic, MORE_CALLS, L3Advanced);
    }

    method ClearPortVlan(i: nat, layout: LayoutKind, ghost b0: Store)
      requires Valid() && i < |ports| && RoutesIn(b0, layout)
      modifies this`dev, this`base
      ensures Valid() && RoutesIn(WithText(b0, OidH(ports[i]), PORT_PVID, "0"), layout)
    {
      SetPortVlan(ports[i], "0");
      RoutesAndText(b0, switchOid, defaultVrf, layout, OidH(ports[i]), "0");
    }

    /** The VLAN ids that the layout set go back to 0. */
    method ClearVlans(layout: LayoutKind, ghost b0: Store)
      requires Valid() && |ports| >= 24 && (!layout.L2Basic? ==> LagReady()) && RoutesIn(b0, layout)
      modifies this`dev, this`base
      ensures Valid() && RoutesIn(WithText(WithText(b0, OidH(ports[2]), PORT_PVID, "0"), OidH(ports[0]), PORT_PVID, "0"), layout)
      ensures !layout.L2Basic? ==> LagVlan(dev.store, names, "0")
    {
      ClearPortVlan(2, layout, b0);
      ClearPortVlan(0, layout, WithText(b0, OidH(ports[2]), PORT_PVID, "0"));
      if !layout.L2Basic? { SetLagVlan("0"); }
    }

    /**
      The teardown of a layout that was set up: every call is accepted, all tracked objects are
      gone, and the rest is what it was before the routes, but the VLAN ids of two ports are 0.
     */
    method TeardownLayout(layout: LayoutKind, ghost b0: Store)
      requires Valid() && |ports| >= 24 && (!layout.L2Basic? ==> LagReady()) && RoutesIn(b0, layout)
      modifies this`dev, this`def, this`base, this`gone
      ensures Valid() && def == NO_OBJECTS && dev.store == base && gone == old(gone) + Order(old(def))
      ensures dev.store == WithText(WithText(b0, OidH(ports[2]), PORT_PVID, "0"), OidH(ports[0]), PORT_PVID, "0")
    {
      ClearVlans(layout, b0);
      ghost var b2 := WithText(WithText(b0, OidH(ports[2]), PORT_PVID, "0"), OidH(ports[0]), PORT_PVID, "0");
      if layout.L3Basic? || layout.L3Advanced? { DestroyDefaultRoutes(b2); }
      Teardown();
    }
  }
}
