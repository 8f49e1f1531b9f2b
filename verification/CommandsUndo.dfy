/**
  Cleanup undoes setup: after a script of creates, sets and reads has run, its cleanup succeeds
  exactly when the objects made are layered, that is, when none is referred to by itself or by
  one made before it; and then both the store and the registry are back where they started.
 */
module CommandsUndo {
  import opened Wrappers
  import opened SaiStore
  import opened Integrity
  import opened Commands

  // ---------- what a script leaves behind ----------

  /** The registry after the creates `cs` have made the objects `hs`. */
  ghost function RegOf(g0: Registry, cs: seq<Command>, hs: seq<Handle>): Registry
    requires |cs| == |hs|
  {
    if |cs| == 0 then g0
    else RegOf(g0, cs[..|cs| - 1], hs[..|cs| - 1])[cs[|cs| - 1].name := EntryOf(hs[|cs| - 1])]
  }

  ghost predicate FreshNames(g0: Registry, cs: seq<Command>) {
    |cs| > 0 ==> FreshNames(g0, cs[..|cs| - 1]) && NewName(g0, cs[..|cs| - 1], cs[|cs| - 1].name)
  }

  ghost predicate NewName(g0: Registry, cs: seq<Command>, name: string) {
    name !in g0 && forall i | 0 <= i < |cs| :: cs[i].name != name
  }

  /** When its turn comes, the undo of each create resolves to the object it made. */
  ghost predicate Undoable(g0: Registry, cs: seq<Command>, hs: seq<Handle>)
    requires |cs| == |hs|
  {
    |cs| > 0 ==>
      var n := |cs| - 1;
      Undoable(g0, cs[..n], hs[..n]) && CallOf(RegOf(g0, cs, hs), Undo(cs[n])) == Some(DoRemove(Keyed(hs[n])))
  }

  ghost predicate Distinct(hs: seq<Handle>) {
    forall i, j | 0 <= i < j < |hs| :: hs[i] != hs[j]
  }

  /** The store `s` is `s0` and the objects `hs`, which `s0` does not know of. */
  ghost predicate Holds(s0: Store, s: Store, hs: seq<Handle>) {
    && (forall h :: h in s <==> h in s0 || h in hs)
    && (forall h | h in s0 :: s[h] == s0[h])
    && (forall i | 0 <= i < |hs| :: hs[i] !in s0 && Unmentioned(s0, hs[i]))
    && Distinct(hs)
  }

  /** `g` does not refer to `h`. */
  ghost predicate Clear(s: Store, g: Handle, h: Handle) {
    g in s && h.OidH? ==> !Refers(s, g, h.oid)
  }

  /** No object is referred to by itself or by one made before it. */
  ghost predicate Layered(s: Store, hs: seq<Handle>) {
    forall j, k | 0 <= j <= k < |hs| :: Clear(s, hs[j], hs[k])
  }

  /** The last object is referred to by none of them. */
  ghost predicate OnTop(s: Store, hs: seq<Handle>)
    requires |hs| > 0
  {
    forall j | 0 <= j < |hs| :: Clear(s, hs[j], hs[|hs| - 1])
  }

  lemma LayeredSnoc(s: Store, hs: seq<Handle>, n: nat)
    requires |hs| == n + 1
    ensures Layered(s, hs) <==> Layered(s, hs[..n]) && OnTop(s, hs)
  {
    var pre := hs[..n];
    if Layered(s, pre) && OnTop(s, hs) {
      forall j, k | 0 <= j <= k < |hs| ensures Clear(s, hs[j], hs[k]) {
        if k < n { assert Clear(s, pre[j], pre[k]); }
      }
    }
    if Layered(s, hs) {
      forall j, k | 0 <= j <= k < n ensures Clear(s, pre[j], pre[k]) { assert Clear(s, hs[j], hs[k]); }
    }
  }

  lemma LayeredWithout(s: Store, h: Handle, hs: seq<Handle>)
    requires h !in hs
    ensures Layered(s - {h}, hs) <==> Layered(s, hs)
  {
    forall j, k | 0 <= j <= k < |hs| ensures Clear(s - {h}, hs[j], hs[k]) <==> Clear(s, hs[j], hs[k]) {}
  }

  // ---------- undoing ----------

  ghost function UndoList(cs: seq<Command>): seq<Command> {
    if |cs| == 0 then [] else [Undo(cs[|cs| - 1])] + UndoList(cs[..|cs| - 1])
  }

  lemma {:induction false} CleanupUndoesCreates(cmds: seq<Command>)
    ensures CleanupOf(cmds) == UndoList(CreatesOf(cmds))
  {
    if |cmds| > 0 {
      CleanupUndoesCreates(cmds[..|cmds| - 1]);
      var c := cmds[|cmds| - 1];
      if c.op.CreateOp? {
        var cs := CreatesOf(cmds);
        assert cs[..|cs| - 1] == CreatesOf(cmds[..|cmds| - 1]) && cs[|cs| - 1] == c;
      } else {
        assert CreatesOf(cmds) == CreatesOf(cmds[..|cmds| - 1]);
      }
    }
  }

  lemma {:induction false} NotYetRegistered(g0: Registry, cs: seq<Command>, hs: seq<Handle>, name: string)
    requires |cs| == |hs| && NewName(g0, cs, name)
    ensures name !in RegOf(g0, cs, hs)
  {
    if |cs| > 0 { NotYetRegistered(g0, cs[..|cs| - 1], hs[..|cs| - 1], name); }
  }

  lemma HoldsWithout(s0: Store, s: Store, hs: seq<Handle>, n: nat)
    requires Holds(s0, s, hs) && |hs| == n + 1
    ensures Holds(s0, s - {hs[n]}, hs[..n]) && hs[n] !in hs[..n]
  {
    forall h ensures h in s - {hs[n]} <==> h in s0 || h in hs[..n] {
      assert h in hs <==> h in hs[..n] || h == hs[n];
    }
  }

  lemma InUseIsOnTop(s0: Store, s: Store, hs: seq<Handle>, n: nat)
    requires Holds(s0, s, hs) && |hs| == n + 1 && hs[n].OidH?
    ensures InUse(s, hs[n].oid) <==> !OnTop(s, hs)
  {
    var o := hs[n].oid;
    assert Unmentioned(s0, hs[n]);
    forall g | g in s && g !in hs ensures !Refers(s, g, o) {
      assert g in s0 && !Refers(s0, g, o);
    }
    forall j | 0 <= j < |hs| ensures Clear(s, hs[j], hs[n]) <==> !Refers(s, hs[j], o) { assert hs[j] in hs; }
  }

  lemma RemoveIsOnTop(s0: Store, s: Store, hs: seq<Handle>, n: nat)
    requires Holds(s0, s, hs) && |hs| == n + 1
    ensures RemoveObj(s, hs[n]).0 == Success <==> OnTop(s, hs)
    ensures OnTop(s, hs) ==> RemoveObj(s, hs[n]).1 == s - {hs[n]}
  {
    assert hs[n] in s by { assert hs[n] in hs; }
    if hs[n].OidH? { InUseIsOnTop(s0, s, hs, n); }
  }

  lemma {:induction false} RegWithout(g0: Registry, cs: seq<Command>, hs: seq<Handle>, n: nat)
    requires |cs| == |hs| == n + 1 && FreshNames(g0, cs)
    ensures RegOf(g0, cs, hs) - {cs[n].name} == RegOf(g0, cs[..n], hs[..n])
  {
    NotYetRegistered(g0, cs[..n], hs[..n], cs[n].name);
  }

  lemma ProcessRemove(p: Profile, d: Dev, g: Registry, c: Command, h: Handle)
    requires c.op.RemoveOp? && CallOf(g, c) == Some(DoRemove(Keyed(h)))
    ensures var (st, s) := RemoveObj(d.store, h);
      Process(p, CState(d, g), c) == (CState(d.(store := s), g - {c.name}), if st == Success then Some(Done) else None)
  {
  }

  /** One undo: the last object made is removed unless it is still referred to. */
  lemma {:induction false} UndoOne(p: Profile, d: Dev, g0: Registry, s0: Store, cs: seq<Command>, hs: seq<Handle>, n: nat)
    requires |cs| == |hs| == n + 1 && Holds(s0, d.store, hs) && FreshNames(g0, cs) && Undoable(g0, cs, hs)
    ensures Process(p, CState(d, RegOf(g0, cs, hs)), Undo(cs[n])).1.Some? <==> OnTop(d.store, hs)
    ensures OnTop(d.store, hs) ==>
      Process(p, CState(d, RegOf(g0, cs, hs)), Undo(cs[n])) ==
        (CState(d.(store := d.store - {hs[n]}), RegOf(g0, cs[..n], hs[..n])), Some(Done))
  {
    RegWithout(g0, cs, hs, n);
    RemoveIsOnTop(s0, d.store, hs, n);
    ProcessRemove(p, d, RegOf(g0, cs, hs), Undo(cs[n]), hs[n]);
  }

  lemma {:induction false} UndoAll(p: Profile, r: Result, g0: Registry, s0: Store, cs: seq<Command>, hs: seq<Handle>)
    requires |cs| == |hs| && Holds(s0, r.st.dev.store, hs) && FreshNames(g0, cs) && Undoable(g0, cs, hs)
    requires r.ok && r.st.reg == RegOf(g0, cs, hs)
    ensures var r' := RunFrom(p, r, UndoList(cs));
      && (r'.ok <==> Layered(r.st.dev.store, hs))
      && (r'.ok ==> r'.st == CState(r.st.dev.(store := s0), g0))
    decreases |cs|
  {
    if |cs| == 0 {
      assert r.st.dev.store == s0;
    } else {
      var n := |cs| - 1;
      var s := r.st.dev.store;
      UndoOne(p, r.st.dev, g0, s0, cs, hs, n);
      RunCons(p, r, Undo(cs[n]), UndoList(cs[..n]));
      HoldsWithout(s0, s, hs, n);
      LayeredWithout(s, hs[n], hs[..n]);
      LayeredSnoc(s, hs, n);
      var r1 := Next(p, r, Undo(cs[n]));
      if OnTop(s, hs) {
        UndoAll(p, r1, g0, s0, cs[..n], hs[..n]);
      } else {
        RunStopped(p, r1, UndoList(cs[..n]));
      }
    }
  }

  // ---------- setting up ----------

  predicate MentionsName(f: Fields, name: string) {
    match f
    case NoFields => false
    case Field(_, v, rest) => v == Sym(name) || MentionsName(rest, name)
  }

  /** A create whose key is not its own name and not given as its OID, and for whose type the switch makes nothing else. */
  ghost predicate GoodCreate(p: Profile, c: Command) {
    && (c.oid.Given? && c.oid.v.Some? && c.oid.v.value.Dict? ==> c.key.Given? && c.key.v.Some?)
    && (c.key.Given? && c.key.v.Some? && c.key.v.value.Dict? ==> !MentionsName(c.key.v.value.fields, c.name))
    && (c.ty.Given? && c.ty.v.Some? ==> Lone(p, c.ty.v.value))
  }

  /** Creates, reads, and sets that touch only objects this script has made. */
  ghost predicate Script(p: Profile, st: CState, cmds: seq<Command>) {
    |cmds| > 0 ==>
      var pre, c := cmds[..|cmds| - 1], cmds[|cmds| - 1];
      && Script(p, st, pre)
      && (c.op.CreateOp? ==> GoodCreate(p, c))
      && (c.op.CreateOp? || c.op.GetOp? || (c.op.SetOp? && SetsOneOf(MadeBy(Run(p, st, pre).outs), Run(p, st, pre).st.reg, c)))
  }

  ghost predicate SetsOneOf(hs: seq<Handle>, g: Registry, c: Command) {
    match CallOf(g, c)
    case Some(DoSet(Keyed(h), _)) => h in hs
    case _ => true
  }

  lemma SubstWithout(g: Registry, f: Fields, name: string, e: RegEntry)
    requires !MentionsName(f, name)
    ensures SubstFields(g[name := e], f) == SubstFields(g, f)
  {
    match f
    case NoFields =>
    case Field(_, v, rest) => SubstWithout(g, rest, name, e);
  }

  /** The undo of a create finds what the create made. */
  lemma UndoResolves(p: Profile, g: Registry, d: Dev, c: Command, h: Handle)
    requires c.op.CreateOp? && c.name !in g && GoodCreate(p, c)
    requires Process(p, CState(d, g), c).1 == Some(Created(h))
    ensures CallOf(g[c.name := EntryOf(h)], Undo(c)) == Some(DoRemove(Keyed(h)))
    ensures CallOf(g, c) == Some(DoCreate(if h.OidH? then Bare(h.oid.ty) else Keyed(h), SubstAttrs(g, c.attrs)))
    ensures h.OidH? ==> h.oid == Vid(c.ty.v.value, d.next) && Lone(p, h.oid.ty)
  {
    if c.key.Given? && c.key.v.Some? && c.key.v.value.Dict? {
      SubstWithout(g, c.key.v.value.fields, c.name, EntryOf(h));
    }
  }

  /** A create adds one object and changes no other. */
  lemma CreateAddsOne(p: Profile, g: Registry, d: Dev, c: Command, h: Handle)
    requires c.op.CreateOp? && c.name !in g && GoodCreate(p, c)
    requires Process(p, CState(d, g), c).1 == Some(Created(h))
    ensures var st := Process(p, CState(d, g), c).0;
      && h !in d.store
      && st.dev.store == d.store[h := AttrMap(SubstAttrs(g, c.attrs))]
      && st.dev.next >= d.next && st.reg == g[c.name := EntryOf(h)]
      && CreateStatus(d.store, h, SubstAttrs(g, c.attrs)) == Success
  {
    UndoResolves(p, g, d, c, h);
    if h.OidH? { LoneCreate(p, d, h.oid.ty, SubstAttrs(g, c.attrs)); }
  }

  lemma HoldsWith(s0: Store, s: Store, hs: seq<Handle>, h: Handle, a: Attrs)
    requires Holds(s0, s, hs) && h !in s && Unmentioned(s0, h)
    ensures Holds(s0, s[h := a], hs + [h])
  {
    var hs' := hs + [h];
    forall g ensures g in hs' <==> g in hs || g == h {}
    forall i | 0 <= i < |hs'| ensures hs'[i] !in s0 && Unmentioned(s0, hs'[i]) {}
  }

  lemma {:induction false} MadeBySnoc(outs: seq<Out>, out: Out)
    ensures MadeBy(outs + [out]) == if out.Created? then MadeBy(outs) + [out.h] else MadeBy(outs)
  {
    assert (outs + [out])[..|outs|] == outs;
  }

  /** What holds after a successful script, whatever it was. */
  ghost predicate Built(st0: CState, cs: seq<Command>, hs: seq<Handle>, st: CState) {
    && |cs| == |hs| && Undoable(st0.reg, cs, hs)
    && st.reg == RegOf(st0.reg, cs, hs)
    && Holds(st0.dev.store, st.dev.store, hs)
    && st.dev.next >= st0.dev.next
  }

  lemma {:induction false} UndoableNext(g0: Registry, cs: seq<Command>, hs: seq<Handle>, c: Command, h: Handle)
    requires |cs| == |hs| && Undoable(g0, cs, hs)
    requires CallOf(RegOf(g0, cs, hs)[c.name := EntryOf(h)], Undo(c)) == Some(DoRemove(Keyed(h)))
    ensures Undoable(g0, cs + [c], hs + [h]) && RegOf(g0, cs + [c], hs + [h]) == RegOf(g0, cs, hs)[c.name := EntryOf(h)]
  {
    assert (cs + [c])[..|cs|] == cs && (hs + [h])[..|hs|] == hs;
  }

  lemma BuiltCreate(p: Profile, st0: CState, cs: seq<Command>, hs: seq<Handle>, st: CState, c: Command, h: Handle)
    requires Built(st0, cs, hs, st) && NewName(st0.reg, cs, c.name) && OldOnly(st0.dev.store, st0.dev.next)
    requires c.op.CreateOp? && GoodCreate(p, c) && Process(p, st, c).1 == Some(Created(h))
    ensures Built(st0, cs + [c], hs + [h], Process(p, st, c).0)
  {
    NotYetRegistered(st0.reg, cs, hs, c.name);
    UndoResolves(p, st.reg, st.dev, c, h);
    UndoableNext(st0.reg, cs, hs, c, h);
    CreateAddsOne(p, st.reg, st.dev, c, h);
    assert Unmentioned(st0.dev.store, h);
    HoldsWith(st0.dev.store, st.dev.store, hs, h, AttrMap(SubstAttrs(st.reg, c.attrs)));
  }

  /** A successful set changes one object that is there and nothing else. */
  lemma SetChangesOne(p: Profile, st: CState, c: Command) returns (h: Handle, attr: seq<Value>)
    requires c.op.SetOp? && Process(p, st, c).1.Some?
    ensures CallOf(st.reg, c) == Some(DoSet(Keyed(h), attr)) && h in st.dev.store && |attr| == 2 && attr[0].Txt?
    ensures LiveV(st.dev.store, attr[1])
    ensures Process(p, st, c) == (CState(st.dev.(store := st.dev.store[h := st.dev.store[h][attr[0].text := attr[1]]]), st.reg), Some(Done))
  {
    var call := CallOf(st.reg, c).value;
    h, attr := call.target.h, call.attr;
  }

  lemma HoldsSet(s0: Store, s: Store, hs: seq<Handle>, h: Handle, a: Attrs)
    requires Holds(s0, s, hs) && h in hs
    ensures Holds(s0, s[h := a], hs)
  {
  }

  lemma {:induction false} ReadsAll(a: Attrs, names: seq<Value>)
    requires ReadNames(a, names).Some?
    ensures var vals := ReadNames(a, names).value;
      |vals| == |names| && forall i | 0 <= i < |names| :: names[i].Txt? && names[i].text in a && vals[i] == a[names[i].text]
  {
    if |names| > 0 { ReadsAll(a, names[..|names| - 1]); }
  }

  predicate Holding(s: Store, h: Handle, attr: string, v: Value) {
    h in s && attr in s[h] && s[h][attr] == v
  }

  /** A successful get changes nothing and answers each name, in order, with the value the object has. */
  lemma ReadsWhatIsThere(p: Profile, st: CState, c: Command) returns (t: Target, names: seq<Value>)
    requires c.op.GetOp? && Process(p, st, c).1.Some?
    ensures CallOf(st.reg, c) == Some(DoGet(t, names)) && t.Keyed? && t.h.OidH?
    ensures Process(p, st, c).0 == st && Process(p, st, c).1.value.Values?
    ensures |Process(p, st, c).1.value.vals| == |names|
    ensures forall i | 0 <= i < |names| :: names[i].Txt? && Holding(st.dev.store, t.h, names[i].text, Process(p, st, c).1.value.vals[i])
  {
    var call := CallOf(st.reg, c).value;
    t, names := call.target, call.names;
    if |names| > 0 { ReadsAll(st.dev.store[t.h], names); }
  }

  /** One more command of a script. */
  lemma BuiltNext(p: Profile, st0: CState, cs: seq<Command>, hs: seq<Handle>, st: CState, c: Command, st': CState, out: Out)
    requires Built(st0, cs, hs, st) && OldOnly(st0.dev.store, st0.dev.next) && Process(p, st, c) == (st', Some(out))
    requires c.op.CreateOp? ==> GoodCreate(p, c) && NewName(st0.reg, cs, c.name)
    requires c.op.CreateOp? || c.op.GetOp? || (c.op.SetOp? && SetsOneOf(hs, st.reg, c))
    ensures c.op.CreateOp? <==> out.Created?
    ensures if c.op.CreateOp? then Built(st0, cs + [c], hs + [out.h], st') else Built(st0, cs, hs, st')
  {
    match c.op
    case CreateOp =>
      BuiltCreate(p, st0, cs, hs, st, c, out.h);
    case SetOp =>
      var h, attr := SetChangesOne(p, st, c);
      HoldsSet(st0.dev.store, st.dev.store, hs, h, st.dev.store[h][attr[0].text := attr[1]]);
    case GetOp =>
      var _, _ := ReadsWhatIsThere(p, st, c);
  }

  lemma RunLast(p: Profile, st: CState, cmds: seq<Command>, n: nat) returns (r: Result, st': CState, out: Out)
    requires |cmds| == n + 1 && Run(p, st, cmds).ok
    ensures r == Run(p, st, cmds[..n]) && r.ok && Process(p, r.st, cmds[n]) == (st', Some(out))
    ensures Run(p, st, cmds) == Result(st', r.outs + [out], true)
    ensures MadeBy(r.outs + [out]) == if out.Created? then MadeBy(r.outs) + [out.h] else MadeBy(r.outs)
  {
    r := Run(p, st, cmds[..n]);
    st', out := Process(p, r.st, cmds[n]).0, Process(p, r.st, cmds[n]).1.value;
    MadeBySnoc(r.outs, out);
  }

  lemma {:induction false} CreatesLast(g0: Registry, cmds: seq<Command>, n: nat)
    requires |cmds| == n + 1 && FreshNames(g0, CreatesOf(cmds))
    ensures CreatesOf(cmds) == if cmds[n].op.CreateOp? then CreatesOf(cmds[..n]) + [cmds[n]] else CreatesOf(cmds[..n])
    ensures FreshNames(g0, CreatesOf(cmds[..n]))
    ensures cmds[n].op.CreateOp? ==> NewName(g0, CreatesOf(cmds[..n]), cmds[n].name)
  {
    var cs := CreatesOf(cmds[..n]);
    assert (cs + [cmds[n]])[..|cs|] == cs;
  }

  lemma {:induction false} SetupBuilds(p: Profile, st0: CState, cmds: seq<Command>)
    requires Script(p, st0, cmds) && FreshNames(st0.reg, CreatesOf(cmds)) && OldOnly(st0.dev.store, st0.dev.next)
    requires Run(p, st0, cmds).ok
    ensures Built(st0, CreatesOf(cmds), MadeBy(Run(p, st0, cmds).outs), Run(p, st0, cmds).st)
  {
    if |cmds| > 0 {
      var n := |cmds| - 1;
      var r, st, out := RunLast(p, st0, cmds, n);
      CreatesLast(st0.reg, cmds, n);
      SetupBuilds(p, st0, cmds[..n]);
      BuiltNext(p, st0, CreatesOf(cmds[..n]), MadeBy(r.outs), r.st, cmds[n], st, out);
    }
  }

  // ---------- main theorem ----------

  /**
    After a script that names its objects afresh and sets attributes of its own objects only,
    cleanup succeeds exactly when the objects made are layered; the store and the registry are
    then what they were before the script.
   */
  lemma {:induction false} CleanupUndoesSetup(p: Profile, st0: CState, cmds: seq<Command>)
    requires Script(p, st0, cmds) && FreshNames(st0.reg, CreatesOf(cmds)) && OldOnly(st0.dev.store, st0.dev.next)
    requires Run(p, st0, cmds).ok
    ensures var r := Run(p, st0, cmds);
      var undone := Run(p, r.st, CleanupOf(cmds));
      && (undone.ok <==> Layered(r.st.dev.store, MadeBy(r.outs)))
      && (undone.ok ==> undone.st.dev.store == st0.dev.store && undone.st.reg == st0.reg)
  {
    var r := Run(p, st0, cmds);
    SetupBuilds(p, st0, cmds);
    CleanupUndoesCreates(cmds);
    UndoAll(p, Result(r.st, [], true), st0.reg, st0.dev.store, CreatesOf(cmds), MadeBy(r.outs));
  }

  // ---------- consequences ----------

  lemma {:induction false} CreateKeepsOrder(s: Store, hs: seq<Handle>, h: Handle, attrs: seq<Value>)
    requires Closed(s) && Layered(s, hs) && h !in hs && (h.OidH? ==> h.oid.Vid?)
    requires CreateStatus(s, h, attrs) == Success
    ensures Closed(s[h := AttrMap(attrs)]) && Layered(s[h := AttrMap(attrs)], hs + [h])
  {
    var s', hs' := s[h := AttrMap(attrs)], hs + [h];
    forall g, o: Oid | g in s' && Refers(s', g, o) ensures o.Null? || Live(s, o) {
      if g == h { NewRefersBack(s, h, attrs, o); } else { assert Refers(s, g, o); }
    }
    forall j, k | 0 <= j <= k < |hs'| ensures Clear(s', hs'[j], hs'[k]) {
      if k < |hs| { assert Clear(s, hs[j], hs[k]); }
    }
  }

  /** A value set on `h` names no object made after `h`, nor `h` itself. */
  ghost predicate Older(hs: seq<Handle>, h: Handle, v: Value) {
    forall j, k | 0 <= j <= k < |hs| && hs[j] == h && hs[k].OidH? :: !MentionsV(v, hs[k].oid)
  }

  lemma SetKeepsOrder(s: Store, hs: seq<Handle>, h: Handle, name: string, v: Value)
    requires Closed(s) && Layered(s, hs) && h in s && LiveV(s, v) && Older(hs, h, v)
    ensures Closed(s[h := s[h][name := v]]) && Layered(s[h := s[h][name := v]], hs)
  {
    var s' := s[h := s[h][name := v]];
    forall g, o: Oid | g in s' && Refers(s', g, o) ensures o.Null? || Live(s, o) {
      if !Refers(s, g, o) { LiveMentions(s, v, o); }
    }
    forall j, k | 0 <= j <= k < |hs| ensures Clear(s', hs[j], hs[k]) { assert Clear(s, hs[j], hs[k]); }
  }

  /** Every set of the script names only objects older than the one it changes. */
  ghost predicate LooksBack(p: Profile, st: CState, cmds: seq<Command>) {
    |cmds| > 0 ==>
      var r := Run(p, st, cmds[..|cmds| - 1]);
      && LooksBack(p, st, cmds[..|cmds| - 1])
      && match CallOf(r.st.reg, cmds[|cmds| - 1])
         case Some(DoSet(Keyed(h), attr)) => |attr| == 2 ==> Older(MadeBy(r.outs), h, attr[1])
         case _ => true
  }

  lemma OrderNext(p: Profile, st: CState, hs: seq<Handle>, c: Command, st': CState, out: Out)
    requires Process(p, st, c) == (st', Some(out)) && Closed(st.dev.store) && Layered(st.dev.store, hs)
    requires forall h | h in hs :: h in st.dev.store
    requires c.op.CreateOp? ==> GoodCreate(p, c) && c.name !in st.reg
    requires c.op.CreateOp? || c.op.GetOp? || c.op.SetOp?
    requires match CallOf(st.reg, c) case Some(DoSet(Keyed(h), attr)) => |attr| == 2 ==> Older(hs, h, attr[1]) case _ => true
    ensures Closed(st'.dev.store) && Layered(st'.dev.store, if out.Created? then hs + [out.h] else hs)
  {
    match c.op
    case CreateOp =>
      CreateAddsOne(p, st.reg, st.dev, c, out.h);
      UndoResolves(p, st.reg, st.dev, c, out.h);
      CreateKeepsOrder(st.dev.store, hs, out.h, SubstAttrs(st.reg, c.attrs));
    case SetOp =>
      var h, attr := SetChangesOne(p, st, c);
      SetKeepsOrder(st.dev.store, hs, h, attr[0].text, attr[1]);
    case GetOp =>
      var _, _ := ReadsWhatIsThere(p, st, c);
  }

  lemma {:induction false} LookingBackIsLayered(p: Profile, st0: CState, cmds: seq<Command>)
    requires Script(p, st0, cmds) && FreshNames(st0.reg, CreatesOf(cmds)) && OldOnly(st0.dev.store, st0.dev.next)
    requires Run(p, st0, cmds).ok && Closed(st0.dev.store) && LooksBack(p, st0, cmds)
    ensures var r := Run(p, st0, cmds);
      Closed(r.st.dev.store) && Layered(r.st.dev.store, MadeBy(r.outs))
  {
    if |cmds| > 0 {
      var n := |cmds| - 1;
      var r, st, out := RunLast(p, st0, cmds, n);
      CreatesLast(st0.reg, cmds, n);
      LookingBackIsLayered(p, st0, cmds[..n]);
      SetupBuilds(p, st0, cmds[..n]);
      if cmds[n].op.CreateOp? { NotYetRegistered(st0.reg, CreatesOf(cmds[..n]), MadeBy(r.outs), cmds[n].name); }
      OrderNext(p, r.st, MadeBy(r.outs), cmds[n], st, out);
    }
  }

  /** If sets only name objects older than the one they change, cleanup always undoes the script. */
  lemma {:induction false} BackwardScriptsCleanUp(p: Profile, st0: CState, cmds: seq<Command>)
    requires Script(p, st0, cmds) && FreshNames(st0.reg, CreatesOf(cmds)) && OldOnly(st0.dev.store, st0.dev.next)
    requires Run(p, st0, cmds).ok && Closed(st0.dev.store) && LooksBack(p, st0, cmds)
    ensures var undone := Run(p, Run(p, st0, cmds).st, CleanupOf(cmds));
      undone.ok && undone.st.dev.store == st0.dev.store && undone.st.reg == st0.reg
  {
    LookingBackIsLayered(p, st0, cmds);
    CleanupUndoesSetup(p, st0, cmds);
  }

  /** Cleanup raises if a name made by the script is no longer registered, say because the script removed it. */
  lemma {:induction false} GoneNameStopsCleanup(p: Profile, r: Result, cs: seq<Command>, i: nat)
    requires i < |cs| && cs[i].name !in r.st.reg
    ensures !RunFrom(p, r, UndoList(cs)).ok
    decreases |cs|
  {
    var n := |cs| - 1;
    var r1 := Next(p, r, Undo(cs[n]));
    RunCons(p, r, Undo(cs[n]), UndoList(cs[..n]));
    if i == n || !r1.ok {
      RunStopped(p, r1, UndoList(cs[..n]));
    } else {
      GoneNameStopsCleanup(p, r1, cs[..n], i);
    }
  }

  lemma {:induction false} RunOfThree(p: Profile, r: Result, x: Command, y: Command, z: Command)
    ensures RunFrom(p, r, [x, y, z]) == Next(p, Next(p, Next(p, r, x), y), z)
  {
    assert [x, y, z] == [x] + ([y] + ([z] + []));
    RunCons(p, r, x, [y] + ([z] + []));
    RunCons(p, Next(p, r, x), y, [z] + []);
    RunCons(p, Next(p, Next(p, r, x), y), z, []);
  }

  ghost const MAKE_A := Command("A", CreateOp, Given(Some("LAG")), Absent, Absent, [])
  ghost const MAKE_B := Command("B", CreateOp, Given(Some("PORT")), Absent, Absent, [])
  ghost const SET_A_TO_B := Command("A", SetOp, Absent, Absent, Absent, [Txt("X"), Sym("B")])

  lemma CreatesOfThree()
    ensures CreatesOf([MAKE_A, MAKE_B, SET_A_TO_B]) == [MAKE_A, MAKE_B]
  {
    var cmds := [MAKE_A, MAKE_B, SET_A_TO_B];
    assert cmds[..2] == [MAKE_A, MAKE_B] && [MAKE_A, MAKE_B][..1] == [MAKE_A] && [MAKE_A][..0] == [];
    assert CreatesOf([]) == [];
    assert CreatesOf([MAKE_A]) == [MAKE_A];
    assert CreatesOf([MAKE_A, MAKE_B]) == [MAKE_A, MAKE_B];
  }

  ghost const A := Vid("LAG", 0)
  ghost const B := Vid("PORT", 1)
  ghost const REG_A: Registry := map["A" := EntryOf(OidH(A))]
  ghost const REG_AB: Registry := REG_A["B" := EntryOf(OidH(B))]
  ghost const MADE_A := CState(Dev(map[OidH(A) := map[]], 1), REG_A)
  ghost const MADE_B := CState(Dev(map[OidH(A) := map[], OidH(B) := map[]], 2), REG_AB)
  ghost const SET_A := CState(Dev(map[OidH(A) := map["X" := Ref(B)], OidH(B) := map[]], 2), REG_AB)

  lemma CreateSteps()
    ensures Process(map[], CState(Dev(map[], 0), map[]), MAKE_A) == (MADE_A, Some(Created(OidH(A))))
    ensures Process(map[], MADE_A, MAKE_B) == (MADE_B, Some(Created(OidH(B))))
  {
  }

  lemma LinkStep()
    ensures Process(map[], MADE_B, SET_A_TO_B) == (SET_A, Some(Done))
  {
    var attr := [Txt("X"), Ref(B)];
    assert SubstAttrs(REG_AB, SET_A_TO_B.attrs) == attr;
    assert attr[..0] == [] && WellFormedAttrs([]) && WellFormedAttrs(attr);
    assert A != B && Live(MADE_B.dev.store, B) && MADE_B.dev.store[OidH(A)]["X" := Ref(B)] == map["X" := Ref(B)];
    assert MADE_B.dev.store[OidH(A) := map["X" := Ref(B)]] == SET_A.dev.store;
    assert SaiStore.SetAttr(MADE_B.dev.store, OidH(A), attr) == (Success, SET_A.dev.store);
    assert CallOf(REG_AB, SET_A_TO_B) == Some(DoSet(Keyed(OidH(A)), attr));
  }

  lemma BIsInUse()
    ensures Process(map[], SET_A, Undo(MAKE_B)).1 == None
  {
    assert "X" in SET_A.dev.store[OidH(A)] && MentionsA(SET_A.dev.store[OidH(A)], B);
    assert Refers(SET_A.dev.store, OidH(A), B);
    assert CallOf(REG_AB, Undo(MAKE_B)) == Some(DoRemove(Keyed(OidH(B))));
  }

  /**
    References to earlier commands are not enough: after creating A, then B, and then setting an
    attribute of A to B, cleanup tries to remove B first and raises.
   */
  lemma EarlierNamesAreNotEnough()
    ensures var cmds := [MAKE_A, MAKE_B, SET_A_TO_B];
      var r := Run(map[], CState(Dev(map[], 0), map[]), cmds);
      r.ok && !Run(map[], r.st, CleanupOf(cmds)).ok
  {
    var r0, r1 := Result(CState(Dev(map[], 0), map[]), [], true), Result(SET_A, [], true);
    CreateSteps();
    LinkStep();
    RunOfThree(map[], r0, MAKE_A, MAKE_B, SET_A_TO_B);
    CreatesOfThree();
    CleanupUndoesCreates([MAKE_A, MAKE_B, SET_A_TO_B]);
    assert [MAKE_A, MAKE_B][..1] == [MAKE_A];
    BIsInUse();
    RunCons(map[], r1, Undo(MAKE_B), UndoList([MAKE_A]));
    RunStopped(map[], Next(map[], r1, Undo(MAKE_B)), UndoList([MAKE_A]));
  }
}
