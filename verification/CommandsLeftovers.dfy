/**
  References to names that are not registered: they are passed on as they stand. So renaming all
  names and references of a command list renames what is left of the references, in the calls, the
  results, the store and the registry, and changes nothing else.
 */
module CommandsLeftovers {
  import opened Wrappers
  import opened SaiStore
  import opened Commands
  import opened CommandsNames

  // ---------- renaming everywhere, also within objects ----------

  function DeepV(f: string -> string, v: Value): Value {
    match v
    case Sym(n) => Sym(f(n))
    case Dict(k) => Dict(DeepF(f, k))
    case _ => v
  }

  function DeepF(f: string -> string, k: Fields): Fields {
    match k
    case NoFields => NoFields
    case Field(n, v, rest) => Field(n, DeepV(f, v), DeepF(f, rest))
  }

  function DeepH(f: string -> string, h: Handle): Handle {
    match h
    case OidH(_) => h
    case EntryH(ty, k) => EntryH(ty, DeepF(f, k))
  }

  function DeepA(f: string -> string, a: Attrs): Attrs {
    map k | k in a :: DeepV(f, a[k])
  }

  function DeepFlat(f: string -> string, vs: seq<Value>): (r: seq<Value>)
    ensures |r| == |vs|
  {
    seq(|vs|, i requires 0 <= i < |vs| => DeepV(f, vs[i]))
  }

  function DeepTarget(f: string -> string, t: Target): Target {
    match t
    case Bare(_) => t
    case Keyed(h) => Keyed(DeepH(f, h))
  }

  function DeepCall(f: string -> string, c: Call): Call {
    match c
    case DoCreate(t, attrs) => DoCreate(DeepTarget(f, t), DeepFlat(f, attrs))
    case DoSet(t, attr) => DoSet(DeepTarget(f, t), DeepFlat(f, attr))
    case DoGet(t, names) => DoGet(DeepTarget(f, t), DeepFlat(f, names))
    case DoRemove(t) => DoRemove(DeepTarget(f, t))
  }

  function DeepOut(f: string -> string, o: Out): Out {
    match o
    case Created(h) => Created(DeepH(f, h))
    case Values(vals) => Values(DeepFlat(f, vals))
    case Done => Done
  }

  function DeepArg(f: string -> string, a: Arg<Value>): Arg<Value> {
    match a
    case Given(Some(v)) => Given(Some(DeepV(f, v)))
    case _ => a
  }

  function DeepCommand(f: string -> string, c: Command): Command {
    Command(f(c.name), c.op, c.ty, DeepArg(f, c.key), DeepArg(f, c.oid), DeepFlat(f, c.attrs))
  }

  function DeepCommands(f: string -> string, cmds: seq<Command>): (r: seq<Command>)
    ensures |r| == |cmds|
  {
    seq(|cmds|, i requires 0 <= i < |cmds| => DeepCommand(f, cmds[i]))
  }

  function DeepCalls(f: string -> string, calls: seq<Call>): (r: seq<Call>)
    ensures |r| == |calls|
  {
    seq(|calls|, i requires 0 <= i < |calls| => DeepCall(f, calls[i]))
  }

  function DeepOuts(f: string -> string, outs: seq<Out>): (r: seq<Out>)
    ensures |r| == |outs|
  {
    seq(|outs|, i requires 0 <= i < |outs| => DeepOut(f, outs[i]))
  }

  function DeepEntry(f: string -> string, e: RegEntry): RegEntry {
    RegEntry(e.ty, e.oid, if e.key.Some? then Some(DeepF(f, e.key.value)) else None)
  }

  // ---------- what is alike ----------

  ghost predicate EntryAt(f: string -> string, g: Registry, g': Registry, n: string) {
    (n in g <==> f(n) in g') && (n in g ==> g'[f(n)] == DeepEntry(f, g[n]))
  }

  /** `g'` knows under the new names what `g` knows under the old ones, with what is left renamed. */
  ghost predicate RegAlike(f: string -> string, g: Registry, g': Registry) {
    forall n :: EntryAt(f, g, g', n)
  }

  ghost predicate At(f: string -> string, s: Store, t: Store, h: Handle) {
    (h in s <==> DeepH(f, h) in t) && (h in s ==> t[DeepH(f, h)] == DeepA(f, s[h]))
  }

  ghost predicate From(f: string -> string, s: Store, t: Store, g: Handle) {
    g in t ==> exists h :: h in s && g == DeepH(f, h)
  }

  ghost predicate Alike(f: string -> string, s: Store, t: Store) {
    (forall h :: At(f, s, t, h)) && forall g :: From(f, s, t, g)
  }

  lemma {:induction false} DeepVDistinct(f: string -> string, v: Value, w: Value)
    requires Injective(f) && DeepV(f, v) == DeepV(f, w)
    ensures v == w
  {
    match v
    case Dict(k) => DeepFDistinct(f, k, w.fields);
    case _ =>
  }

  lemma {:induction false} DeepFDistinct(f: string -> string, k: Fields, m: Fields)
    requires Injective(f) && DeepF(f, k) == DeepF(f, m)
    ensures k == m
  {
    match k
    case NoFields =>
    case Field(_, v, rest) =>
      DeepVDistinct(f, v, m.val);
      DeepFDistinct(f, rest, m.rest);
  }

  lemma DeepHDistinct(f: string -> string, h: Handle, g: Handle)
    requires Injective(f) && DeepH(f, h) == DeepH(f, g)
    ensures h == g
  {
    if h.EntryH? { DeepFDistinct(f, h.key, g.key); }
  }

  lemma {:induction false} MentionsSame(f: string -> string, v: Value, o: Oid)
    ensures MentionsV(DeepV(f, v), o) <==> MentionsV(v, o)
  {
    match v
    case Dict(k) => MentionsSameF(f, k, o);
    case _ =>
  }

  lemma {:induction false} MentionsSameF(f: string -> string, k: Fields, o: Oid)
    ensures MentionsF(DeepF(f, k), o) <==> MentionsF(k, o)
  {
    match k
    case NoFields =>
    case Field(_, v, rest) =>
      MentionsSame(f, v, o);
      MentionsSameF(f, rest, o);
  }

  lemma {:induction false} LiveSame(f: string -> string, s: Store, t: Store, v: Value)
    requires Alike(f, s, t)
    ensures LiveV(t, DeepV(f, v)) <==> LiveV(s, v)
  {
    match v
    case Dict(k) => LiveSameF(f, s, t, k);
    case Ref(o) => assert At(f, s, t, OidH(o));
    case RefList(os) => forall i | 0 <= i < |os| ensures OidH(os[i]) in s <==> OidH(os[i]) in t { assert At(f, s, t, OidH(os[i])); }
    case Txt(_) =>
    case Sym(_) =>
  }

  lemma {:induction false} LiveSameF(f: string -> string, s: Store, t: Store, k: Fields)
    requires Alike(f, s, t)
    ensures LiveF(t, DeepF(f, k)) <==> LiveF(s, k)
  {
    match k
    case NoFields =>
    case Field(_, v, rest) =>
      LiveSame(f, s, t, v);
      LiveSameF(f, s, t, rest);
  }

  lemma DeepFlatTake(f: string -> string, vs: seq<Value>, n: nat)
    requires n <= |vs|
    ensures DeepFlat(f, vs)[..n] == DeepFlat(f, vs[..n])
  {
  }

  lemma {:induction false} LiveSameFlat(f: string -> string, s: Store, t: Store, vs: seq<Value>)
    requires Alike(f, s, t)
    ensures LiveFlat(t, DeepFlat(f, vs)) <==> LiveFlat(s, vs)
  {
    if |vs| > 0 {
      var n := |vs| - 1;
      DeepFlatTake(f, vs, n);
      LiveSameFlat(f, s, t, vs[..n]);
      LiveSame(f, s, t, vs[n]);
    }
  }

  lemma {:induction false} WellFormedSame(f: string -> string, vs: seq<Value>)
    ensures WellFormedAttrs(DeepFlat(f, vs)) <==> WellFormedAttrs(vs)
    ensures WellFormedAttrs(vs) ==> AttrMap(DeepFlat(f, vs)) == DeepA(f, AttrMap(vs))
  {
    if |vs| >= 2 {
      var n := |vs| - 2;
      DeepFlatTake(f, vs, n);
      WellFormedSame(f, vs[..n]);
    }
  }

  lemma AlikeWith(f: string -> string, s: Store, t: Store, h: Handle, a: Attrs)
    requires Injective(f) && Alike(f, s, t)
    ensures Alike(f, s[h := a], t[DeepH(f, h) := DeepA(f, a)])
  {
    var s', t' := s[h := a], t[DeepH(f, h) := DeepA(f, a)];
    forall g ensures At(f, s', t', g) {
      assert At(f, s, t, g);
      if DeepH(f, g) == DeepH(f, h) { DeepHDistinct(f, g, h); }
    }
    forall g ensures From(f, s', t', g) {
      assert From(f, s, t, g);
      if g in t' && g != DeepH(f, h) {
        var k :| k in s && g == DeepH(f, k);
        assert k in s';
      }
    }
  }

  lemma AlikeWithout(f: string -> string, s: Store, t: Store, h: Handle)
    requires Injective(f) && Alike(f, s, t)
    ensures Alike(f, s - {h}, t - {DeepH(f, h)})
  {
    var s', t' := s - {h}, t - {DeepH(f, h)};
    forall g ensures At(f, s', t', g) {
      assert At(f, s, t, g);
      if DeepH(f, g) == DeepH(f, h) { DeepHDistinct(f, g, h); }
    }
    forall g ensures From(f, s', t', g) {
      assert From(f, s, t, g);
      if g in t' {
        var k :| k in s && g == DeepH(f, k);
        assert k in s';
      }
    }
  }

  // ---------- the operations ----------

  lemma CreateStatusSame(f: string -> string, s: Store, t: Store, h: Handle, attrs: seq<Value>)
    requires Alike(f, s, t)
    ensures CreateStatus(t, DeepH(f, h), DeepFlat(f, attrs)) == CreateStatus(s, h, attrs)
  {
    assert At(f, s, t, h);
    WellFormedSame(f, attrs);
    LiveSameFlat(f, s, t, attrs);
    if h.EntryH? { LiveSameF(f, s, t, h.key); }
  }

  lemma FilledSame(f: string -> string, ids: seq<Oid>, m: map<string, Slot>)
    ensures DeepA(f, FillAll(ids, m)) == FillAll(ids, m)
  {
  }

  lemma {:induction false} NewObjectAlike(f: string -> string, s: Store, t: Store, ids: seq<Oid>, c: Companions, attrs: seq<Value>, n: nat)
    requires Injective(f) && Alike(f, s, t) && WellFormedAttrs(attrs) && n <= |c.extras| && |ids| == 1 + |c.extras|
    ensures Alike(f, NewObject(s, ids, c, attrs, n), NewObject(t, ids, c, DeepFlat(f, attrs), n))
  {
    if n == 0 {
      WellFormedSame(f, attrs);
      FilledSame(f, ids, c.self);
      var a := AttrMap(attrs) + FillAll(ids, c.self);
      assert DeepA(f, a) == DeepA(f, AttrMap(attrs)) + FillAll(ids, c.self);
      AlikeWith(f, s, t, OidH(ids[0]), a);
    } else {
      NewObjectAlike(f, s, t, ids, c, attrs, n - 1);
      FilledSame(f, ids, c.extras[n - 1].attrs);
      AlikeWith(f, NewObject(s, ids, c, attrs, n - 1), NewObject(t, ids, c, DeepFlat(f, attrs), n - 1),
        OidH(ids[n]), FillAll(ids, c.extras[n - 1].attrs));
    }
  }

  lemma InUseSame(f: string -> string, s: Store, t: Store, o: Oid)
    requires Alike(f, s, t)
    ensures InUse(t, o) <==> InUse(s, o)
  {
    forall h | h in s ensures DeepH(f, h) in t && (Refers(t, DeepH(f, h), o) <==> Refers(s, h, o)) {
      assert At(f, s, t, h);
      RefersSame(f, s, t, h, o);
    }
    if InUse(t, o) {
      var g :| g in t && Refers(t, g, o);
      assert From(f, s, t, g);
    }
    if InUse(s, o) {
      var h :| h in s && Refers(s, h, o);
      assert At(f, s, t, h);
    }
  }

  lemma RefersSame(f: string -> string, s: Store, t: Store, h: Handle, o: Oid)
    requires h in s && At(f, s, t, h)
    ensures Refers(t, DeepH(f, h), o) <==> Refers(s, h, o)
  {
    forall k | k in s[h] ensures MentionsV(DeepV(f, s[h][k]), o) <==> MentionsV(s[h][k], o) { MentionsSame(f, s[h][k], o); }
    var a, b := s[h], t[DeepH(f, h)];
    assert MentionsA(b, o) <==> MentionsA(a, o) by {
      if MentionsA(a, o) {
        var k :| k in a && MentionsV(a[k], o);
        assert MentionsV(b[k], o);
      }
    }
    if h.EntryH? { MentionsSameF(f, h.key, o); }
  }

  lemma RemoveAlike(f: string -> string, s: Store, t: Store, h: Handle)
    requires Injective(f) && Alike(f, s, t)
    ensures RemoveObj(t, DeepH(f, h)).0 == RemoveObj(s, h).0
    ensures Alike(f, RemoveObj(s, h).1, RemoveObj(t, DeepH(f, h)).1)
  {
    assert At(f, s, t, h);
    if h.OidH? { InUseSame(f, s, t, h.oid); }
    AlikeWithout(f, s, t, h);
  }

  lemma SetAlike(f: string -> string, s: Store, t: Store, h: Handle, attr: seq<Value>)
    requires Injective(f) && Alike(f, s, t) && |attr| == 2
    ensures SaiStore.SetAttr(t, DeepH(f, h), DeepFlat(f, attr)).0 == SaiStore.SetAttr(s, h, attr).0
    ensures Alike(f, SaiStore.SetAttr(s, h, attr).1, SaiStore.SetAttr(t, DeepH(f, h), DeepFlat(f, attr)).1)
  {
    assert At(f, s, t, h);
    WellFormedSame(f, attr);
    LiveSame(f, s, t, attr[1]);
    if h in s && WellFormedAttrs(attr) {
      var a := s[h][attr[0].text := attr[1]];
      assert DeepA(f, a) == DeepA(f, s[h])[attr[0].text := DeepV(f, attr[1])];
      AlikeWith(f, s, t, h, a);
    }
  }

  lemma {:induction false} ReadsSame(f: string -> string, a: Attrs, names: seq<Value>)
    ensures ReadNames(DeepA(f, a), DeepFlat(f, names)) ==
      match ReadNames(a, names) case None => None case Some(vals) => Some(DeepFlat(f, vals))
  {
    if |names| > 0 {
      var n := |names| - 1;
      DeepFlatTake(f, names, n);
      ReadsSame(f, a, names[..n]);
      if ReadNames(a, names).Some? {
        var pre := ReadNames(a, names[..n]).value;
        assert DeepFlat(f, pre + [a[names[n].text]]) == DeepFlat(f, pre) + [DeepV(f, a[names[n].text])];
      }
    }
  }

  function DeepSome(f: string -> string, o: Option<Out>): Option<Out> {
    if o.Some? then Some(DeepOut(f, o.value)) else None
  }

  /** The renamed call has the renamed result, and leaves the renamed store. */
  lemma ExecAlike(p: Profile, f: string -> string, d: Dev, d': Dev, call: Call)
    requires Injective(f) && Alike(f, d.store, d'.store) && d'.next == d.next
    ensures var (e, out), (e', out') := Exec(p, d, call), Exec(p, d', DeepCall(f, call));
      Alike(f, e.store, e'.store) && e'.next == e.next && out' == DeepSome(f, out)
  {
    match call
    case DoCreate(Bare(ty), attrs) => CreateObjectAlike(p, f, d, d', ty, attrs);
    case DoCreate(Keyed(h), attrs) =>
      if h.EntryH? {
        CreateStatusSame(f, d.store, d'.store, h, attrs);
        WellFormedSame(f, attrs);
        AlikeWith(f, d.store, d'.store, h, AttrMap(attrs));
      }
    case DoRemove(Keyed(h)) => RemoveAlike(f, d.store, d'.store, h);
    case DoSet(Keyed(h), attr) => if |attr| == 2 { SetAlike(f, d.store, d'.store, h, attr); }
    case DoGet(Keyed(h), names) =>
      assert At(f, d.store, d'.store, h);
      if h in d.store { ReadsSame(f, d.store[h], names); }
    case _ =>
  }

  lemma CreateObjectAlike(p: Profile, f: string -> string, d: Dev, d': Dev, ty: ObjType, attrs: seq<Value>)
    requires Injective(f) && Alike(f, d.store, d'.store) && d'.next == d.next
    ensures var (e, status, o), (e', status', o') := DevCreate(p, d, ty, attrs), DevCreate(p, d', ty, DeepFlat(f, attrs));
      Alike(f, e.store, e'.store) && e'.next == e.next && status' == status && o' == o
  {
    var own := Vid(ty, d.next);
    CreateStatusSame(f, d.store, d'.store, OidH(own), attrs);
    if CreateStatus(d.store, OidH(own), attrs) == Success {
      var c := CompanionsOf(p, ty);
      var ids := IdsAt(p, Dev(d.store, d.next + 1), own);
      assert IdsAt(p, Dev(d'.store, d'.next + 1), own) == ids;
      NewObjectAlike(f, d.store, d'.store, ids, c, attrs, |c.extras|);
    }
  }

  // ---------- resolving ----------

  lemma {:induction false} SubstAlike(f: string -> string, g: Registry, g': Registry, v: Value)
    requires RegAlike(f, g, g')
    ensures Subst(g', DeepV(f, v)) == DeepV(f, Subst(g, v))
  {
    if v.Sym? { assert EntryAt(f, g, g', v.name); }
  }

  lemma {:induction false} SubstFieldsAlike(f: string -> string, g: Registry, g': Registry, k: Fields)
    requires RegAlike(f, g, g')
    ensures SubstFields(g', DeepF(f, k)) == DeepF(f, SubstFields(g, k))
  {
    match k
    case NoFields =>
    case Field(_, v, rest) =>
      SubstAlike(f, g, g', v);
      SubstFieldsAlike(f, g, g', rest);
  }

  lemma SubstAttrsAlike(f: string -> string, g: Registry, g': Registry, attrs: seq<Value>)
    requires RegAlike(f, g, g')
    ensures SubstAttrs(g', DeepFlat(f, attrs)) == DeepFlat(f, SubstAttrs(g, attrs))
  {
    forall i | 0 <= i < |attrs| ensures Subst(g', DeepV(f, attrs[i])) == DeepV(f, Subst(g, attrs[i])) { SubstAlike(f, g, g', attrs[i]); }
  }

  lemma ArgsAlike(f: string -> string, g: Registry, g': Registry, c: Command)
    requires RegAlike(f, g, g')
    ensures TypeArg(g', DeepCommand(f, c)) == TypeArg(g, c)
    ensures KeyArg(g', DeepCommand(f, c)) == match KeyArg(g, c) case None => None case Some(v) => Some(DeepV(f, v))
    ensures OidArg(g', DeepCommand(f, c)) == match OidArg(g, c) case None => None case Some(v) => Some(DeepV(f, v))
  {
    assert EntryAt(f, g, g', c.name);
  }

  lemma TargetAlike(f: string -> string, g: Registry, g': Registry, c: Command)
    requires RegAlike(f, g, g')
    ensures TargetOf(g', DeepCommand(f, c)) == match TargetOf(g, c) case None => None case Some(t) => Some(DeepTarget(f, t))
  {
    ArgsAlike(f, g, g', c);
    var v := if KeyArg(g, c).Some? then KeyArg(g, c) else OidArg(g, c);
    if v.Some? && v.value.Dict? { SubstFieldsAlike(f, g, g', v.value.fields); }
  }

  /** The renamed command makes the renamed call. */
  lemma CallAlike(f: string -> string, g: Registry, g': Registry, c: Command)
    requires Injective(f) && RegAlike(f, g, g')
    ensures CallOf(g', DeepCommand(f, c)) == match CallOf(g, c) case None => None case Some(call) => Some(DeepCall(f, call))
  {
    assert EntryAt(f, g, g', c.name);
    assert f(c.name) == "" <==> c.name == "" by { assert f("") == ""; }
    TargetAlike(f, g, g', c);
    SubstAttrsAlike(f, g, g', c.attrs);
  }

  lemma RegisterAlike(f: string -> string, g: Registry, g': Registry, c: Command, out: Option<Out>)
    requires Injective(f) && RegAlike(f, g, g')
    ensures RegAlike(f, Register(g, c, out), Register(g', DeepCommand(f, c), DeepSome(f, out)))
  {
    var r, r' := Register(g, c, out), Register(g', DeepCommand(f, c), DeepSome(f, out));
    forall n ensures EntryAt(f, r, r', n) {
      assert EntryAt(f, g, g', n);
      if f(n) == f(c.name) { assert n == c.name; }
    }
  }

  // ---------- runs ----------

  ghost predicate StateAlike(f: string -> string, st: CState, st': CState) {
    Alike(f, st.dev.store, st'.dev.store) && st'.dev.next == st.dev.next && RegAlike(f, st.reg, st'.reg)
  }

  ghost predicate ResultAlike(f: string -> string, r: Result, r': Result) {
    StateAlike(f, r.st, r'.st) && r'.outs == DeepOuts(f, r.outs) && r'.ok == r.ok
  }

  lemma ProcessAlike(p: Profile, f: string -> string, st: CState, st': CState, c: Command)
    requires Injective(f) && StateAlike(f, st, st')
    ensures var (n, out), (n', out') := Process(p, st, c), Process(p, st', DeepCommand(f, c));
      StateAlike(f, n, n') && out' == DeepSome(f, out)
  {
    CallAlike(f, st.reg, st'.reg, c);
    match CallOf(st.reg, c)
    case None =>
    case Some(call) =>
      ExecAlike(p, f, st.dev, st'.dev, call);
      RegisterAlike(f, st.reg, st'.reg, c, Exec(p, st.dev, call).1);
  }

  lemma NextAlike(p: Profile, f: string -> string, r: Result, r': Result, c: Command)
    requires Injective(f) && ResultAlike(f, r, r')
    ensures ResultAlike(f, Next(p, r, c), Next(p, r', DeepCommand(f, c)))
  {
    if r.ok {
      ProcessAlike(p, f, r.st, r'.st, c);
      var out := Process(p, r.st, c).1;
      if out.Some? { assert DeepOuts(f, r.outs + [out.value]) == DeepOuts(f, r.outs) + [DeepOut(f, out.value)]; }
    }
  }

  /**
    For any command list at all, references to unregistered names included: under an injective
    renaming of names and references it makes the same calls, has the same results, fails at the
    same place and leaves the same switch and registry, but for the renaming of what is left of
    its references.
   */
  lemma {:induction false} LeftoversAreRenamed(p: Profile, f: string -> string, st: CState, st': CState, cmds: seq<Command>)
    requires Injective(f) && StateAlike(f, st, st')
    ensures ResultAlike(f, Run(p, st, cmds), Run(p, st', DeepCommands(f, cmds)))
    ensures CallsOf(p, st', DeepCommands(f, cmds)) == DeepCalls(f, CallsOf(p, st, cmds))
  {
    if |cmds| > 0 {
      var n := |cmds| - 1;
      var pre, c := cmds[..n], cmds[n];
      LeftoversAreRenamed(p, f, st, st', pre);
      assert DeepCommands(f, cmds)[..n] == DeepCommands(f, pre);
      var r, r' := Run(p, st, pre), Run(p, st', DeepCommands(f, pre));
      NextAlike(p, f, r, r', c);
      MadeAlike(f, r, r', c);
      DeepCallsConcat(f, CallsOf(p, st, pre), CallsMade(r, c));
    }
  }

  lemma MadeAlike(f: string -> string, r: Result, r': Result, c: Command)
    requires Injective(f) && ResultAlike(f, r, r')
    ensures CallsMade(r', DeepCommand(f, c)) == DeepCalls(f, CallsMade(r, c))
  {
    CallAlike(f, r.st.reg, r'.st.reg, c);
  }

  lemma DeepCallsConcat(f: string -> string, a: seq<Call>, b: seq<Call>)
    ensures DeepCalls(f, a + b) == DeepCalls(f, a) + DeepCalls(f, b)
  {
  }
}
