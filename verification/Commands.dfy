/**
  Symbolic commands: how a command that names objects by `$NAME` becomes a call of the SAI
  client, and what running commands does to the switch and to the registry of names.
 */
module Commands {
  import opened Wrappers
  import opened SaiStore

  /** An entry of a command that may be absent, given as null, or given. */
  datatype Arg<T> = Absent | Given(v: Option<T>)

  datatype Op = CreateOp | SetOp | GetOp | RemoveOp | OtherOp

  datatype Command = Command(name: string, op: Op, ty: Arg<ObjType>, key: Arg<Value>, oid: Arg<Value>, attrs: seq<Value>)

  /** What the registry keeps for a name: an OID, or the key of an entry. */
  datatype RegEntry = RegEntry(ty: Option<ObjType>, oid: Option<Oid>, key: Option<Fields>)
  type Registry = map<string, RegEntry>

  /** What a call acts on: a type alone, or a type and a key. */
  datatype Target = Bare(ty: ObjType) | Keyed(h: Handle)

  datatype Call =
    | DoCreate(target: Target, attrs: seq<Value>)
    | DoSet(target: Target, attr: seq<Value>)
    | DoGet(target: Target, names: seq<Value>)
    | DoRemove(target: Target)

  datatype Out = Created(h: Handle) | Values(vals: seq<Value>) | Done

  datatype CState = CState(dev: Dev, reg: Registry)

  // ---------- substitution of $NAME ----------

  function ValueOf(e: RegEntry): Value {
    if e.oid.Some? then Ref(e.oid.value)
    else if e.key.Some? then Dict(e.key.value)
    else Txt("null")
  }

  function Subst(g: Registry, v: Value): Value {
    if v.Sym? && v.name in g then ValueOf(g[v.name]) else v
  }

  /** Only the values at the top of a key are substituted. */
  function SubstFields(g: Registry, f: Fields): Fields {
    match f
    case NoFields => NoFields
    case Field(n, v, rest) => Field(n, Subst(g, v), SubstFields(g, rest))
  }

  function SubstAttrs(g: Registry, attrs: seq<Value>): (r: seq<Value>)
    ensures |r| == |attrs|
  {
    seq(|attrs|, i requires 0 <= i < |attrs| => Subst(g, attrs[i]))
  }

  function TypeArg(g: Registry, c: Command): Option<ObjType> {
    if c.ty.Given? then c.ty.v else if c.name in g then g[c.name].ty else None
  }

  function KeyArg(g: Registry, c: Command): Option<Value> {
    if c.key.Given? then c.key.v
    else if c.name in g && g[c.name].key.Some? then Some(Dict(g[c.name].key.value))
    else None
  }

  /** Without a key the oid argument is taken, and without that the registered OID. */
  function OidArg(g: Registry, c: Command): Option<Value> {
    if c.oid.Given? then c.oid.v
    else if c.name in g && g[c.name].oid.Some? then Some(Ref(g[c.name].oid.value))
    else None
  }

  function TargetOf(g: Registry, c: Command): Option<Target> {
    match TypeArg(g, c) case None => None case Some(ty) =>
    if ty == "" then None
    else
      match if KeyArg(g, c).Some? then KeyArg(g, c) else OidArg(g, c)
      case None => Some(Bare(ty))
      case Some(Dict(f)) => Some(Keyed(EntryH(ty, SubstFields(g, f))))
      case Some(Ref(o)) => Some(Keyed(OidH(o)))
      case Some(_) => None
  }

  /** The call a command stands for; None if the command is rejected before any call. */
  function CallOf(g: Registry, c: Command): Option<Call> {
    if c.name == "" || c.op.OtherOp? || (!c.op.CreateOp? && c.name !in g) then None
    else
      match TargetOf(g, c) case None => None case Some(t) =>
      var attrs := SubstAttrs(g, c.attrs);
      match c.op
      case CreateOp => Some(DoCreate(t, attrs))
      case SetOp => Some(DoSet(t, attrs))
      case GetOp => Some(DoGet(t, attrs))
      case RemoveOp => Some(DoRemove(t))
      case OtherOp => None
  }

  // ---------- the calls ----------

  /** Each attribute is read with a buffer that is large enough. */
  function ReadNames(a: Attrs, names: seq<Value>): Option<seq<Value>> {
    if |names| == 0 then Some([])
    else
      var n := |names| - 1;
      match ReadNames(a, names[..n]) case None => None case Some(pre) =>
      if names[n].Txt? && names[n].text in a then Some(pre + [a[names[n].text]]) else None
  }

  function Exec(p: Profile, d: Dev, call: Call): (Dev, Option<Out>) {
    match call
    case DoCreate(Bare(ty), attrs) =>
      var (d', st, vid) := DevCreate(p, d, ty, attrs);
      (d', if st == Success then Some(Created(OidH(vid))) else None)
    case DoCreate(Keyed(EntryH(ty, f)), attrs) =>
      var (st, s) := CreateEntry(d.store, ty, f, attrs);
      (d.(store := s), if st == Success then Some(Created(EntryH(ty, f))) else None)
    case DoCreate(Keyed(OidH(_)), _) => (d, None)
    case DoRemove(Keyed(h)) =>
      var (st, s) := RemoveObj(d.store, h);
      (d.(store := s), if st == Success then Some(Done) else None)
    case DoSet(Keyed(h), attr) =>
      if |attr| != 2 then (d, None)
      else
        var (st, s) := SaiStore.SetAttr(d.store, h, attr);
        (d.(store := s), if st == Success then Some(Done) else None)
    case DoGet(Keyed(OidH(o)), names) =>
      if |names| == 0 then (d, Some(Values([])))
      else if OidH(o) !in d.store then (d, None)
      else
        (d, match ReadNames(d.store[OidH(o)], names) case None => None case Some(vals) => Some(Values(vals)))
    case DoGet(_, _) => (d, None)
    case DoSet(Bare(_), _) => (d, None)
    case DoRemove(Bare(_)) => (d, None)
  }

  /** What the registry keeps for an object made under a name. */
  function EntryOf(h: Handle): RegEntry {
    match h
    case OidH(o) => RegEntry(if o.Vid? then Some(o.ty) else None, Some(o), None)
    case EntryH(ty, f) => RegEntry(Some(ty), None, Some(f))
  }

  /** A made object is registered; a removal forgets the name even when the call fails. */
  function Register(g: Registry, c: Command, out: Option<Out>): Registry {
    match out
    case Some(Created(h)) => g[c.name := EntryOf(h)]
    case _ => if c.op.RemoveOp? then g - {c.name} else g
  }

  function Process(p: Profile, st: CState, c: Command): (CState, Option<Out>) {
    match CallOf(st.reg, c)
    case None => (st, None)
    case Some(call) =>
      var (d, out) := Exec(p, st.dev, call);
      (CState(d, Register(st.reg, c, out)), out)
  }

  // ---------- command lists ----------

  /** `outs` are the results so far; `ok` is false once a command has raised, which ends the run. */
  datatype Result = Result(st: CState, outs: seq<Out>, ok: bool)

  function Run(p: Profile, st: CState, cmds: seq<Command>): Result {
    RunFrom(p, Result(st, [], true), cmds)
  }

  function RunFrom(p: Profile, r: Result, cmds: seq<Command>): Result {
    if |cmds| == 0 then r else Next(p, RunFrom(p, r, cmds[..|cmds| - 1]), cmds[|cmds| - 1])
  }

  function Next(p: Profile, r: Result, c: Command): Result {
    if !r.ok then r
    else
      match Process(p, r.st, c)
      case (st, None) => Result(st, r.outs, false)
      case (st, Some(out)) => Result(st, r.outs + [out], true)
  }

  /** The calls a run makes, in order: one for each command that is reached and not rejected. */
  function CallsOf(p: Profile, st: CState, cmds: seq<Command>): seq<Call> {
    if |cmds| == 0 then []
    else
      var r := Run(p, st, cmds[..|cmds| - 1]);
      CallsOf(p, st, cmds[..|cmds| - 1]) + CallsMade(r, cmds[|cmds| - 1])
  }

  function CallsMade(r: Result, c: Command): seq<Call> {
    match if r.ok then CallOf(r.st.reg, c) else None
    case None => []
    case Some(call) => [call]
  }

  function Undo(c: Command): Command {
    Command(c.name, RemoveOp, Absent, Given(if c.key.Given? then c.key.v else None), Absent, [])
  }

  /** The commands of cleanup: the creates in reverse order, each turned into a remove. */
  function CleanupOf(cmds: seq<Command>): seq<Command> {
    if |cmds| == 0 then []
    else
      var c := cmds[|cmds| - 1];
      (if c.op.CreateOp? then [Undo(c)] else []) + CleanupOf(cmds[..|cmds| - 1])
  }

  function CreatesOf(cmds: seq<Command>): seq<Command> {
    if |cmds| == 0 then []
    else
      var c := cmds[|cmds| - 1];
      CreatesOf(cmds[..|cmds| - 1]) + if c.op.CreateOp? then [c] else []
  }

  /** The objects a run has made, in order. */
  function MadeBy(outs: seq<Out>): seq<Handle> {
    if |outs| == 0 then []
    else
      var o := outs[|outs| - 1];
      MadeBy(outs[..|outs| - 1]) + if o.Created? then [o.h] else []
  }

  /** A run can be split after its first command. */
  lemma {:induction false} RunCons(p: Profile, r: Result, c: Command, cmds: seq<Command>)
    ensures RunFrom(p, r, [c] + cmds) == RunFrom(p, Next(p, r, c), cmds)
    decreases |cmds|
  {
    if |cmds| == 0 {
      assert ([c] + cmds)[..0] == [];
    } else {
      var n := |cmds| - 1;
      RunCons(p, r, c, cmds[..n]);
      assert ([c] + cmds)[..n + 1] == [c] + cmds[..n];
    }
  }

  lemma {:induction false} RunStopped(p: Profile, r: Result, cmds: seq<Command>)
    requires !r.ok
    ensures RunFrom(p, r, cmds) == r
  {
    if |cmds| > 0 { RunStopped(p, r, cmds[..|cmds| - 1]); }
  }
}
