/**
  What a command means: what it acts on, what stands in the place of its references, and when its
  call is accepted.
 */
module CommandsMeaning {
  import opened Wrappers
  import opened SaiStore
  import opened StoreMeaning
  import opened Commands
  import opened CommandsNames

  // ---------- references ----------

  /** The value by which other objects refer to this one: its OID, or the key of an entry. */
  predicate StandsFor(h: Handle, v: Value) {
    match h
    case OidH(o) => v == Ref(o)
    case EntryH(_, k) => v == Dict(k)
  }

  /** The same fields, with the object in the place of every reference to the name. */
  predicate FieldsStand(name: string, h: Handle, k: Fields, r: Fields) {
    match k
    case NoFields => r.NoFields?
    case Field(n, v, rest) =>
      r.Field? && r.name == n && (v == Sym(name) ==> StandsFor(h, r.val)) && FieldsStand(name, h, rest, r.rest)
  }

  function AttrsOf(call: Call): seq<Value> {
    match call
    case DoCreate(_, attrs) => attrs
    case DoSet(_, attr) => attr
    case DoGet(_, names) => names
    case DoRemove(_) => []
  }

  lemma {:induction false} FieldsOfResolved(g: Registry, name: string, h: Handle, k: Fields, r: Fields)
    requires name in g && g[name] == EntryOf(h) && ResolvedFields(g, k, r)
    ensures FieldsStand(name, h, k, r)
  {
    match k
    case NoFields =>
    case Field(_, _, rest) => FieldsOfResolved(g, name, h, rest, r.rest);
  }

  /** The name is registered for what the create made, until another command of that name. */
  lemma {:induction false} StillRegistered(p: Profile, st: CState, cmds: seq<Command>, j: nat, h: Handle)
    requires j < |cmds| && Run(p, st, cmds).ok && (forall k | j < k < |cmds| :: cmds[k].name != cmds[j].name)
    requires Process(p, Run(p, st, cmds[..j]).st, cmds[j]).1 == Some(Created(h))
    ensures var g := Run(p, st, cmds).st.reg; cmds[j].name in g && g[cmds[j].name] == EntryOf(h)
  {
    var n := |cmds| - 1;
    if j < n {
      assert cmds[..n][..j] == cmds[..j];
      StillRegistered(p, st, cmds[..n], j, h);
    } else {
      assert cmds[..j] == cmds[..n];
    }
  }

  /**
    After any successful run, a later command that refers to a name by which the run has made an
    object has that object in the place of the reference: in its attributes, and in the fields of its key.
   */
  lemma {:induction false} ReferenceIsWhatWasMade(p: Profile, st: CState, cmds: seq<Command>, j: nat, h: Handle, c: Command, call: Call)
    requires j < |cmds| && Run(p, st, cmds).ok && (forall k | j < k < |cmds| :: cmds[k].name != cmds[j].name)
    requires Process(p, Run(p, st, cmds[..j]).st, cmds[j]).1 == Some(Created(h))
    requires CallOf(Run(p, st, cmds).st.reg, c) == Some(call)
    ensures !c.op.RemoveOp? ==>
      && |AttrsOf(call)| == |c.attrs|
      && forall i | 0 <= i < |c.attrs| && c.attrs[i] == Sym(cmds[j].name) :: StandsFor(h, AttrsOf(call)[i])
    ensures c.key.Given? && c.key.v.Some? && c.key.v.value.Dict? ==>
      call.target.Keyed? && call.target.h.EntryH? && FieldsStand(cmds[j].name, h, c.key.v.value.fields, call.target.h.key)
  {
    var g := Run(p, st, cmds).st.reg;
    StillRegistered(p, st, cmds, j, h);
    if c.key.Given? && c.key.v.Some? && c.key.v.value.Dict? {
      ResolvedInOnePass(g, c.key.v.value.fields, []);
      FieldsOfResolved(g, cmds[j].name, h, c.key.v.value.fields, SubstFields(g, c.key.v.value.fields));
    }
    ResolvedInOnePass(g, NoFields, c.attrs);
  }

  // ---------- targets ----------

  /** The type of a command is its own or, if it has no entry for one, that of its name. */
  predicate HasType(g: Registry, c: Command, ty: ObjType) {
    ty != "" && (c.ty == Given(Some(ty)) || (c.ty.Absent? && c.name in g && g[c.name].ty == Some(ty)))
  }

  /** The command's key is null, or it has none and its name has none either. */
  predicate NoKey(g: Registry, c: Command) {
    c.key == Given(None) || (c.key.Absent? && (c.name in g ==> g[c.name].key.None?))
  }

  predicate NoOid(g: Registry, c: Command) {
    c.oid == Given(None) || (c.oid.Absent? && (c.name in g ==> g[c.name].oid.None?))
  }

  /** The value acts as a key: fields whose references are replaced, or an OID. */
  predicate Points(g: Registry, ty: ObjType, v: Value, t: Option<Target>) {
    match v
    case Dict(k) => t.Some? && t.value.Keyed? && t.value.h.EntryH? && t.value.h.ty == ty && ResolvedFields(g, k, t.value.h.key)
    case Ref(o) => t == Some(Keyed(OidH(o)))
    case _ => t.None?
  }

  /** A command acts on what its own key says, else its name's key, else its own OID, else its name's OID, else on the type. */
  lemma TargetIsMeant(g: Registry, c: Command, ty: ObjType)
    requires HasType(g, c, ty)
    ensures c.key.Given? && c.key.v.Some? ==> Points(g, ty, c.key.v.value, TargetOf(g, c))
    ensures c.key.Absent? && !NoKey(g, c) ==> Points(g, ty, Dict(g[c.name].key.value), TargetOf(g, c))
    ensures NoKey(g, c) && c.oid.Given? && c.oid.v.Some? ==> Points(g, ty, c.oid.v.value, TargetOf(g, c))
    ensures NoKey(g, c) && c.oid.Absent? && !NoOid(g, c) ==> TargetOf(g, c) == Some(Keyed(OidH(g[c.name].oid.value)))
    ensures NoKey(g, c) && NoOid(g, c) ==> TargetOf(g, c) == Some(Bare(ty))
  {
    if c.key.Given? && c.key.v.Some? && c.key.v.value.Dict? { ResolvedInOnePass(g, c.key.v.value.fields, []); }
    if c.key.Absent? && !NoKey(g, c) { ResolvedInOnePass(g, g[c.name].key.value, []); }
    if c.oid.Given? && c.oid.v.Some? && c.oid.v.value.Dict? { ResolvedInOnePass(g, c.oid.v.value.fields, []); }
  }

  /** A command that gives no more than a registered name acts on the object registered under it. */
  lemma NameAlone(g: Registry, c: Command, h: Handle)
    requires c.ty.Absent? && c.key.Absent? && c.oid.Absent? && c.name in g && g[c.name] == EntryOf(h)
    requires if h.OidH? then h.oid.Vid? && h.oid.ty != "" else h.ty != "" && NoSyms(h.key)
    ensures TargetOf(g, c) == Some(Keyed(h))
  {
    if h.EntryH? { NoSymsUnchanged(g, h.key); }
  }

  /** The call of a command, and exactly when it is rejected before any call. */
  lemma CallIsMeant(g: Registry, c: Command)
    ensures CallOf(g, c).Some? <==>
      c.name != "" && !c.op.OtherOp? && (c.op.CreateOp? || c.name in g) && TargetOf(g, c).Some?
    ensures TargetOf(g, c).Some? ==> exists ty :: HasType(g, c, ty)
    ensures CallOf(g, c).Some? ==>
      var call := CallOf(g, c).value;
      && Some(call.target) == TargetOf(g, c)
      && (call.DoCreate? <==> c.op.CreateOp?) && (call.DoSet? <==> c.op.SetOp?)
      && (call.DoGet? <==> c.op.GetOp?) && (call.DoRemove? <==> c.op.RemoveOp?)
      && (!call.DoRemove? ==> |AttrsOf(call)| == |c.attrs| && forall i | 0 <= i < |c.attrs| :: ReplacedBy(g, c.attrs[i], AttrsOf(call)[i]))
  {
    ResolvedInOnePass(g, NoFields, c.attrs);
    if TargetOf(g, c).Some? { assert HasType(g, c, TypeArg(g, c).value); }
  }

  // ---------- when a call is accepted ----------

  ghost predicate Accepted(d: Dev, call: Call) {
    match call
    case DoCreate(Bare(ty), attrs) => OidH(Vid(ty, d.next)) !in d.store && GoodList(d.store, attrs)
    case DoCreate(Keyed(EntryH(ty, k)), attrs) => EntryH(ty, k) !in d.store && LiveF(d.store, k) && GoodList(d.store, attrs)
    case DoCreate(Keyed(OidH(_)), _) => false
    case DoRemove(Keyed(h)) => h in d.store && (h.OidH? ==> forall g | g in d.store :: !Refers(d.store, g, h.oid))
    case DoSet(Keyed(h), attr) => h in d.store && |attr| == 2 && GoodList(d.store, attr)
    case DoGet(Keyed(OidH(o)), names) =>
      names == [] || (OidH(o) in d.store && forall i | 0 <= i < |names| :: names[i].Txt? && names[i].text in d.store[OidH(o)])
    case _ => false
  }

  lemma {:induction false} ReadsExactly(a: Attrs, names: seq<Value>)
    ensures ReadNames(a, names).Some? <==> forall i | 0 <= i < |names| :: names[i].Txt? && names[i].text in a
  {
    if |names| > 0 {
      var n := |names| - 1;
      ReadsExactly(a, names[..n]);
      assert forall i | 0 <= i < n :: names[i] == names[..n][i];
    }
  }

  /** A call succeeds exactly if it is accepted; a call that raises leaves the store as it was. */
  lemma SucceedsExactly(p: Profile, d: Dev, call: Call)
    ensures Exec(p, d, call).1.Some? <==> Accepted(d, call)
    ensures Exec(p, d, call).1.None? ==> Exec(p, d, call).0.store == d.store
  {
    match call
    case DoCreate(_, attrs) => GoodListIs(d.store, attrs);
    case DoSet(Keyed(h), attr) =>
      GoodListIs(d.store, attr);
      if |attr| == 2 { assert attr[..0] == [] && WellFormedAttrs([]); }
    case DoGet(Keyed(OidH(o)), names) => if OidH(o) in d.store { ReadsExactly(d.store[OidH(o)], names); }
    case _ =>
  }

  /** A command succeeds exactly if it stands for a call that is accepted; a removal forgets its name in any case. */
  lemma CommandSucceedsExactly(p: Profile, st: CState, c: Command)
    ensures Process(p, st, c).1.Some? <==> CallOf(st.reg, c).Some? && Accepted(st.dev, CallOf(st.reg, c).value)
    ensures Process(p, st, c).1.None? ==> Process(p, st, c).0.dev.store == st.dev.store
    ensures Process(p, st, c).1.None? ==>
      Process(p, st, c).0.reg == if CallOf(st.reg, c).Some? && c.op.RemoveOp? then st.reg - {c.name} else st.reg
  {
    if CallOf(st.reg, c).Some? { SucceedsExactly(p, st.dev, CallOf(st.reg, c).value); }
  }

  // ---------- the calls of a run ----------

  /** The switch after these calls, whatever they answer. */
  function AfterCalls(p: Profile, d: Dev, calls: seq<Call>): Dev {
    if |calls| == 0 then d else Exec(p, AfterCalls(p, d, calls[..|calls| - 1]), calls[|calls| - 1]).0
  }

  /** What a run does to the switch is what its calls do, in order, one for each command of a run that raises nothing. */
  lemma {:induction false} CallsMakeTheRun(p: Profile, st: CState, cmds: seq<Command>)
    ensures AfterCalls(p, st.dev, CallsOf(p, st, cmds)) == Run(p, st, cmds).st.dev
    ensures Run(p, st, cmds).ok ==> |CallsOf(p, st, cmds)| == |cmds|
  {
    if |cmds| > 0 {
      var n := |cmds| - 1;
      CallsMakeTheRun(p, st, cmds[..n]);
      var calls, r := CallsOf(p, st, cmds[..n]), Run(p, st, cmds[..n]);
      if r.ok && CallOf(r.st.reg, cmds[n]).Some? {
        var all := calls + [CallOf(r.st.reg, cmds[n]).value];
        assert all[..|calls|] == calls && CallsOf(p, st, cmds) == all;
      } else {
        assert calls + [] == calls;
      }
    }
  }
}
