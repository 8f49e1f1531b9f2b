/**
  Names of objects: they do not matter, and the registry knows exactly the objects the commands
  have made and not removed.
 */
module CommandsNames {
  import opened Wrappers
  import opened SaiStore
  import opened Commands

  // ---------- names do not matter ----------

  function RenName(f: string -> string, v: Value): Value {
    if v.Sym? then Sym(f(v.name)) else v
  }

  function RenNames(f: string -> string, k: Fields): Fields {
    match k
    case NoFields => NoFields
    case Field(n, v, rest) => Field(n, RenName(f, v), RenNames(f, rest))
  }

  function RenArg(f: string -> string, a: Arg<Value>): Arg<Value> {
    match a
    case Given(Some(Dict(k))) => Given(Some(Dict(RenNames(f, k))))
    case _ => a
  }

  /** The command with its own name and all its `$` references renamed. */
  function RenCommand(f: string -> string, c: Command): Command {
    Command(f(c.name), c.op, c.ty, RenArg(f, c.key), RenArg(f, c.oid),
      seq(|c.attrs|, i requires 0 <= i < |c.attrs| => RenName(f, c.attrs[i])))
  }

  function RenCommands(f: string -> string, cmds: seq<Command>): (r: seq<Command>)
    ensures |r| == |cmds|
  {
    seq(|cmds|, i requires 0 <= i < |cmds| => RenCommand(f, cmds[i]))
  }

  ghost predicate Injective(f: string -> string) {
    (forall x, y :: f(x) == f(y) ==> x == y) && f("") == ""
  }

  ghost predicate SameEntry(f: string -> string, g: Registry, g': Registry, n: string) {
    (n in g <==> f(n) in g') && (n in g ==> g'[f(n)] == g[n])
  }

  /** `g'` knows under the new names what `g` knows under the old ones. */
  ghost predicate RenamedReg(f: string -> string, g: Registry, g': Registry) {
    forall n :: SameEntry(f, g, g', n)
  }

  predicate BoundV(g: Registry, v: Value) {
    v.Sym? ==> v.name in g
  }

  predicate BoundF(g: Registry, k: Fields) {
    match k
    case NoFields => true
    case Field(_, v, rest) => BoundV(g, v) && BoundF(g, rest)
  }

  predicate BoundArg(g: Registry, a: Arg<Value>) {
    a.Given? && a.v.Some? && a.v.value.Dict? ==> BoundF(g, a.v.value.fields)
  }

  /** Every `$` reference of the command is to a registered name. */
  predicate Bound(g: Registry, c: Command) {
    BoundArg(g, c.key) && BoundArg(g, c.oid) && forall i | 0 <= i < |c.attrs| :: BoundV(g, c.attrs[i])
  }

  predicate NoSyms(k: Fields) {
    match k
    case NoFields => true
    case Field(_, v, rest) => !v.Sym? && NoSyms(rest)
  }

  /** No key in the registry holds a reference itself. */
  ghost predicate Resolved(g: Registry) {
    forall n | n in g && g[n].key.Some? :: NoSyms(g[n].key.value)
  }

  lemma SubstRenames(f: string -> string, g: Registry, g': Registry, v: Value)
    requires RenamedReg(f, g, g') && BoundV(g, v)
    ensures Subst(g', RenName(f, v)) == Subst(g, v) && !Subst(g, v).Sym?
  {
    if v.Sym? { assert SameEntry(f, g, g', v.name); }
  }

  lemma {:induction false} SubstFieldsRenames(f: string -> string, g: Registry, g': Registry, k: Fields)
    requires RenamedReg(f, g, g') && BoundF(g, k)
    ensures SubstFields(g', RenNames(f, k)) == SubstFields(g, k) && NoSyms(SubstFields(g, k))
  {
    match k
    case NoFields =>
    case Field(_, v, rest) =>
      SubstRenames(f, g, g', v);
      SubstFieldsRenames(f, g, g', rest);
  }

  lemma {:induction false} NoSymsUnchanged(g: Registry, k: Fields)
    requires NoSyms(k)
    ensures SubstFields(g, k) == k
  {
    match k
    case NoFields =>
    case Field(_, _, rest) => NoSymsUnchanged(g, rest);
  }

  /** A reference to a registered name is replaced by its OID or, without one, by its key; anything else stays. */
  predicate ReplacedBy(g: Registry, v: Value, r: Value) {
    if v.Sym? && v.name in g then
      match g[v.name].oid
      case Some(o) => r == Ref(o)
      case None => r == (if g[v.name].key.Some? then Dict(g[v.name].key.value) else Txt("null"))
    else r == v
  }

  /** The same fields in the same order, with every reference at the top replaced. */
  predicate ResolvedFields(g: Registry, k: Fields, r: Fields) {
    match k
    case NoFields => r.NoFields?
    case Field(n, v, rest) => r.Field? && r.name == n && ReplacedBy(g, v, r.val) && ResolvedFields(g, rest, r.rest)
  }

  /** One pass resolves every reference to a registered name, and nothing else is touched; a second changes nothing. */
  lemma {:induction false} ResolvedInOnePass(g: Registry, k: Fields, attrs: seq<Value>)
    ensures ResolvedFields(g, k, SubstFields(g, k)) && SubstFields(g, SubstFields(g, k)) == SubstFields(g, k)
    ensures |SubstAttrs(g, attrs)| == |attrs| && forall i | 0 <= i < |attrs| :: ReplacedBy(g, attrs[i], SubstAttrs(g, attrs)[i])
    ensures SubstAttrs(g, SubstAttrs(g, attrs)) == SubstAttrs(g, attrs)
  {
    match k
    case NoFields =>
    case Field(_, _, rest) => ResolvedInOnePass(g, rest, attrs);
  }

  lemma TargetRenames(f: string -> string, g: Registry, g': Registry, c: Command)
    requires RenamedReg(f, g, g') && Bound(g, c) && Resolved(g)
    ensures TargetOf(g', RenCommand(f, c)) == TargetOf(g, c)
    ensures match TargetOf(g, c) case Some(Keyed(EntryH(_, k))) => NoSyms(k) case _ => true
  {
    assert SameEntry(f, g, g', c.name);
    var key, oid := KeyArg(g, c), OidArg(g, c);
    if c.key.Given? && key.Some? && key.value.Dict? { SubstFieldsRenames(f, g, g', key.value.fields); }
    if c.key.Absent? && key.Some? {
      NoSymsUnchanged(g, key.value.fields);
      NoSymsUnchanged(g', key.value.fields);
    }
    if c.oid.Given? && oid.Some? && oid.value.Dict? { SubstFieldsRenames(f, g, g', oid.value.fields); }
  }

  /** The renamed command makes the same call. */
  lemma CallRenames(f: string -> string, g: Registry, g': Registry, c: Command)
    requires Injective(f) && RenamedReg(f, g, g') && Bound(g, c) && Resolved(g)
    ensures CallOf(g', RenCommand(f, c)) == CallOf(g, c)
  {
    assert SameEntry(f, g, g', c.name);
    assert f(c.name) == "" <==> c.name == "" by { assert f("") == ""; }
    TargetRenames(f, g, g', c);
    forall i | 0 <= i < |c.attrs| ensures Subst(g', RenName(f, c.attrs[i])) == Subst(g, c.attrs[i]) {
      SubstRenames(f, g, g', c.attrs[i]);
    }
    assert SubstAttrs(g', RenCommand(f, c).attrs) == SubstAttrs(g, c.attrs);
  }

  lemma RegisterRenames(f: string -> string, g: Registry, g': Registry, c: Command, out: Option<Out>)
    requires Injective(f) && RenamedReg(f, g, g')
    ensures RenamedReg(f, Register(g, c, out), Register(g', RenCommand(f, c), out))
  {
    var h, h' := Register(g, c, out), Register(g', RenCommand(f, c), out);
    forall n ensures SameEntry(f, h, h', n) {
      assert SameEntry(f, g, g', n);
      if f(n) == f(c.name) { assert n == c.name; }
    }
  }

  /** What a create makes was its own target. */
  lemma MadeKeyIsTarget(p: Profile, d: Dev, call: Call, ty: ObjType, k: Fields)
    requires Exec(p, d, call).1 == Some(Created(EntryH(ty, k)))
    ensures call.DoCreate? && call.target == Keyed(EntryH(ty, k))
  {
  }

  lemma ResolvedNext(p: Profile, d: Dev, g: Registry, c: Command, call: Call)
    requires Resolved(g) && CallOf(g, c) == Some(call)
    requires match call.target case Keyed(EntryH(_, k)) => NoSyms(k) case _ => true
    ensures Resolved(Register(g, c, Exec(p, d, call).1))
  {
    match Exec(p, d, call).1
    case Some(Created(EntryH(ty, k))) => MadeKeyIsTarget(p, d, call, ty, k);
    case _ =>
  }

  lemma CallTarget(g: Registry, c: Command)
    requires CallOf(g, c).Some?
    ensures TargetOf(g, c) == Some(CallOf(g, c).value.target)
  {
  }

  lemma ProcessRenames(p: Profile, f: string -> string, d: Dev, g: Registry, g': Registry, c: Command)
    requires Injective(f) && RenamedReg(f, g, g') && Bound(g, c) && Resolved(g)
    ensures var (st, out), (st', out') := Process(p, CState(d, g), c), Process(p, CState(d, g'), RenCommand(f, c));
      out' == out && st'.dev == st.dev && RenamedReg(f, st.reg, st'.reg) && Resolved(st.reg)
  {
    CallRenames(f, g, g', c);
    match CallOf(g, c)
    case None =>
    case Some(call) =>
      RegisterRenames(f, g, g', c, Exec(p, d, call).1);
      TargetRenames(f, g, g', c);
      CallTarget(g, c);
      ResolvedNext(p, d, g, c, call);
  }

  /** Every `$` reference is bound when its command is run. */
  ghost predicate AllBound(p: Profile, st: CState, cmds: seq<Command>) {
    |cmds| > 0 ==>
      var r := Run(p, st, cmds[..|cmds| - 1]);
      AllBound(p, st, cmds[..|cmds| - 1]) && (r.ok ==> Bound(r.st.reg, cmds[|cmds| - 1]))
  }

  lemma {:induction false} LastRenames(p: Profile, f: string -> string, st: CState, st': CState, cmds: seq<Command>, n: nat)
    requires |cmds| == n + 1 && Injective(f) && AllBound(p, st, cmds)
    requires CallsOf(p, st', RenCommands(f, cmds[..n])) == CallsOf(p, st, cmds[..n])
    requires var r, r' := Run(p, st, cmds[..n]), Run(p, st', RenCommands(f, cmds[..n]));
      && r'.ok == r.ok && r'.outs == r.outs && r'.st.dev == r.st.dev
      && RenamedReg(f, r.st.reg, r'.st.reg) && Resolved(r.st.reg)
    ensures CallsOf(p, st', RenCommands(f, cmds)) == CallsOf(p, st, cmds)
    ensures var r, r' := Run(p, st, cmds), Run(p, st', RenCommands(f, cmds));
      && r'.ok == r.ok && r'.outs == r.outs && r'.st.dev == r.st.dev
      && RenamedReg(f, r.st.reg, r'.st.reg) && Resolved(r.st.reg)
  {
    assert RenCommands(f, cmds)[..n] == RenCommands(f, cmds[..n]);
    var r, r' := Run(p, st, cmds[..n]), Run(p, st', RenCommands(f, cmds[..n]));
    if r.ok {
      ProcessRenames(p, f, r.st.dev, r.st.reg, r'.st.reg, cmds[n]);
      CallRenames(f, r.st.reg, r'.st.reg, cmds[n]);
    }
  }

  /**
    Under any injective renaming of registered names and references, a command list makes the
    same calls with the same results, fails at the same place, and leaves the same switch and
    the same registry under the new names.
   */
  lemma {:induction false} NamesDoNotMatter(p: Profile, f: string -> string, st: CState, st': CState, cmds: seq<Command>)
    requires Injective(f) && st.dev == st'.dev && RenamedReg(f, st.reg, st'.reg) && Resolved(st.reg) && AllBound(p, st, cmds)
    ensures CallsOf(p, st', RenCommands(f, cmds)) == CallsOf(p, st, cmds)
    ensures var r, r' := Run(p, st, cmds), Run(p, st', RenCommands(f, cmds));
      && r'.ok == r.ok && r'.outs == r.outs && r'.st.dev == r.st.dev
      && RenamedReg(f, r.st.reg, r'.st.reg) && Resolved(r.st.reg)
  {
    if |cmds| > 0 {
      var n := |cmds| - 1;
      NamesDoNotMatter(p, f, st, st', cmds[..n]);
      LastRenames(p, f, st, st', cmds, n);
    }
  }

  // ---------- the registry agrees with the store ----------

  /** Objects made by commands and not removed, by the name they were made under. */
  type Made = map<string, Handle>

  ghost function MadeNext(m: Made, g: Registry, c: Command, out: Option<Out>): Made {
    match out
    case Some(Created(h)) => m[c.name := h]
    case Some(Done) => (match CallOf(g, c) case Some(DoRemove(Keyed(h))) => Without(m, h) case _ => m)
    case _ => m
  }

  ghost function Without(m: Made, h: Handle): Made {
    map n | n in m && m[n] != h :: m[n]
  }

  ghost function MadeOf(p: Profile, st: CState, cmds: seq<Command>): Made {
    if |cmds| == 0 then map[]
    else
      var r := Run(p, st, cmds[..|cmds| - 1]);
      var c := cmds[|cmds| - 1];
      if !r.ok then MadeOf(p, st, cmds[..|cmds| - 1])
      else MadeNext(MadeOf(p, st, cmds[..|cmds| - 1]), r.st.reg, c, Process(p, r.st, c).1)
  }

  /** A name is registered by the commands exactly if it stands for an object they made and did not remove. */
  ghost predicate AgreesAt(g0: Registry, g: Registry, m: Made, n: string) {
    && (n in g && n !in g0 <==> n in m)
    && (n in m ==> n in g && g[n] == EntryOf(m[n]))
  }

  ghost predicate OneName(m: Made) {
    forall n, k | n in m && k in m && m[n] == m[k] :: n == k
  }

  ghost predicate Agreement(g0: Registry, g: Registry, m: Made) {
    (forall n :: AgreesAt(g0, g, m, n)) && OneName(m)
  }

  ghost predicate Sound(st: CState, g0: Registry, m: Made) {
    && Agreement(g0, st.reg, m)
    && (forall n | n in m :: m[n] in st.dev.store && (m[n].OidH? ==> m[n].oid.Vid?))
  }

  /** The registry entry of an object tells it from all others, and holds its type and an OID or a key but not both. */
  lemma EntryTellsObject(h: Handle, h': Handle)
    requires (h.OidH? ==> h.oid.Vid?) && (h'.OidH? ==> h'.oid.Vid?)
    ensures EntryOf(h) == EntryOf(h') <==> h == h'
    ensures EntryOf(h).oid.Some? <==> EntryOf(h).key.None?
    ensures EntryOf(h).ty == Some(if h.OidH? then h.oid.ty else h.ty)
  {
  }

  lemma {:induction false} NewObjectKeeps(s: Store, ids: seq<Oid>, c: Companions, attrs: seq<Value>, n: nat)
    requires n <= |c.extras| && |ids| == 1 + |c.extras|
    ensures forall h | h in s :: h in NewObject(s, ids, c, attrs, n)
    ensures OidH(ids[0]) in NewObject(s, ids, c, attrs, n)
  {
    if n > 0 { NewObjectKeeps(s, ids, c, attrs, n - 1); }
  }

  lemma CreateKeeps(p: Profile, st: CState, c: Command, h: Handle)
    requires Process(p, st, c).1 == Some(Created(h))
    ensures var st' := Process(p, st, c).0;
      && h !in st.dev.store && h in st'.dev.store && (h.OidH? ==> h.oid.Vid?)
      && st'.reg == st.reg[c.name := EntryOf(h)]
      && forall g | g in st.dev.store :: g in st'.dev.store
  {
    if h.OidH? {
      var d := Dev(st.dev.store, st.dev.next + 1);
      var ids := IdsAt(p, d, h.oid);
      var co := CompanionsOf(p, h.oid.ty);
      NewObjectKeeps(st.dev.store, ids, co, CallOf(st.reg, c).value.attrs, |co.extras|);
    }
  }

  lemma AgreementWith(g0: Registry, g: Registry, m: Made, n: string, h: Handle)
    requires Agreement(g0, g, m) && n !in g0 && n !in g && forall k | k in m :: m[k] != h
    ensures Agreement(g0, g[n := EntryOf(h)], m[n := h])
  {
    var g', m' := g[n := EntryOf(h)], m[n := h];
    forall k ensures AgreesAt(g0, g', m', k) { assert AgreesAt(g0, g, m, k); }
  }

  /**
    A removal under a name removes that name's object or, under an older name, none of the objects
    the commands have made.
   */
  ghost predicate OwnRemoval(g0: Registry, m: Made, n: string, h: Handle) {
    if n in g0 then forall k | k in m :: m[k] != h else n in m && m[n] == h
  }

  lemma RemovalKeepsAgreement(g0: Registry, g: Registry, m: Made, n: string, h: Handle)
    requires Agreement(g0, g, m) && n in g
    ensures Agreement(g0, g - {n}, Without(m, h)) <==> OwnRemoval(g0, m, n, h)
  {
    var g', m' := g - {n}, Without(m, h);
    assert AgreesAt(g0, g, m, n);
    if OwnRemoval(g0, m, n, h) {
      forall k ensures AgreesAt(g0, g', m', k) { assert AgreesAt(g0, g, m, k); }
    } else {
      if n !in g0 {
        assert !AgreesAt(g0, g', m', n);
      } else {
        var k :| k in m && m[k] == h;
        assert AgreesAt(g0, g, m, k) && !AgreesAt(g0, g', m', k);
      }
    }
  }

  /** Creates use new names, and removals remove what their name stands for. */
  ghost predicate Disciplined(p: Profile, st: CState, cmds: seq<Command>) {
    |cmds| > 0 ==>
      var pre, c := cmds[..|cmds| - 1], cmds[|cmds| - 1];
      var r := Run(p, st, pre);
      && Disciplined(p, st, pre)
      && (c.op.CreateOp? ==> c.name !in st.reg && c.name !in r.st.reg)
      && match CallOf(r.st.reg, c)
         case Some(DoRemove(Keyed(h))) => OwnRemoval(st.reg, MadeOf(p, st, pre), c.name, h)
         case _ => true
  }

  lemma SoundNext(p: Profile, g0: Registry, m: Made, st: CState, c: Command)
    requires Sound(st, g0, m) && Process(p, st, c).1.Some?
    requires c.op.CreateOp? ==> c.name !in g0 && c.name !in st.reg
    requires match CallOf(st.reg, c) case Some(DoRemove(Keyed(h))) => OwnRemoval(g0, m, c.name, h) case _ => true
    ensures Sound(Process(p, st, c).0, g0, MadeNext(m, st.reg, c, Process(p, st, c).1))
  {
    var out := Process(p, st, c).1.value;
    match c.op
    case CreateOp =>
      CreateKeeps(p, st, c, out.h);
      AgreementWith(g0, st.reg, m, c.name, out.h);
    case RemoveOp =>
      var h := CallOf(st.reg, c).value.target.h;
      RemovalKeepsAgreement(g0, st.reg, m, c.name, h);
    case SetOp =>
    case GetOp =>
  }

  /**
    After any run of successful commands, the names it has registered are in one-to-one
    correspondence with the objects it has made and not removed, which are all in the store.
   */
  lemma {:induction false} RegistryAgreesWithStore(p: Profile, st: CState, cmds: seq<Command>)
    requires Run(p, st, cmds).ok && Disciplined(p, st, cmds)
    ensures Sound(Run(p, st, cmds).st, st.reg, MadeOf(p, st, cmds))
  {
    if |cmds| > 0 {
      var n := |cmds| - 1;
      RegistryAgreesWithStore(p, st, cmds[..n]);
      SoundNext(p, st.reg, MadeOf(p, st, cmds[..n]), Run(p, st, cmds[..n]).st, cmds[n]);
    } else {
      forall n ensures AgreesAt(st.reg, st.reg, map[], n) {}
    }
  }
}
