/**
  The command processor as the code runs it: a registry that commands update, a loop that
  replaces references, and the two modes of process_commands, consumed to the end.
 */
module CommandProcessor {
  import opened Wrappers
  import opened SaiStore
  import opened Commands

  class CommandProcessor {
    const profile: Profile
    var registry: Registry
    var dev: Dev

    constructor (profile: Profile, dev: Dev)
      ensures this.profile == profile && State() == CState(dev, map[])
    {
      this.profile, this.dev, this.registry := profile, dev, map[];
    }

    function State(): CState
      reads this
    {
      CState(dev, registry)
    }

    method SubstituteKey(key: Fields) returns (r: Fields)
      ensures r == SubstFields(registry, key)
    {
      r := NoFields;
      var rest := key;
      while rest.Field?
        invariant Append(r, SubstFields(registry, rest)) == SubstFields(registry, key)
        decreases rest
      {
        var v := Subst(registry, rest.val);
        AppendNext(r, rest.name, v, SubstFields(registry, rest.rest));
        r := Append(r, Field(rest.name, v, NoFields));
        rest := rest.rest;
      }
      AppendNothing(r);
    }

    method SubstituteAttrs(attrs: seq<Value>) returns (r: seq<Value>)
      ensures r == SubstAttrs(registry, attrs)
    {
      r := [];
      for i := 0 to |attrs|
        invariant r == SubstAttrs(registry, attrs[..i])
      {
        r := r + [Subst(registry, attrs[i])];
      }
      assert attrs[..|attrs|] == attrs;
    }

    /** The target of a command: its own key or OID, or what its name is registered for. */
    method FindTarget(c: Command) returns (t: Option<Target>)
      ensures t == TargetOf(registry, c)
    {
      var ty := TypeArg(registry, c);
      if ty.None? || ty.value == "" { return None; }
      var key := KeyArg(registry, c);
      if key.None? { key := OidArg(registry, c); }
      match key
      case None => t := Some(Bare(ty.value));
      case Some(Dict(f)) =>
        var f' := SubstituteKey(f);
        t := Some(Keyed(EntryH(ty.value, f')));
      case Some(Ref(o)) => t := Some(Keyed(OidH(o)));
      case Some(_) => t := None;
    }

    /** None: an exception is raised; a removal forgets its name all the same. */
    method ProcessCommand(c: Command) returns (out: Option<Out>)
      modifies this
      ensures (State(), out) == Process(profile, old(State()), c)
    {
      if c.name == "" || c.op.OtherOp? { return None; }
      if !c.op.CreateOp? && c.name !in registry { return None; }
      var target := FindTarget(c);
      if target.None? { return None; }
      var attrs := SubstituteAttrs(c.attrs);
      match c.op
      case CreateOp =>
        dev, out := Exec(profile, dev, DoCreate(target.value, attrs)).0, Exec(profile, dev, DoCreate(target.value, attrs)).1;
        if out.Some? { registry := registry[c.name := EntryOf(out.value.h)]; }
      case RemoveOp =>
        dev, out := Exec(profile, dev, DoRemove(target.value)).0, Exec(profile, dev, DoRemove(target.value)).1;
        registry := registry - {c.name};
      case GetOp =>
        out := Exec(profile, dev, DoGet(target.value, attrs)).1;
      case SetOp =>
        dev, out := Exec(profile, dev, DoSet(target.value, attrs)).0, Exec(profile, dev, DoSet(target.value, attrs)).1;
    }

    /** The removes that undo the creates, last create first. */
    method CleanupCommands(commands: seq<Command>) returns (todo: seq<Command>)
      ensures todo == CleanupOf(commands)
    {
      todo := [];
      var i := |commands|;
      assert commands[..i] == commands;
      while i > 0
        invariant 0 <= i <= |commands|
        invariant todo + CleanupOf(commands[..i]) == CleanupOf(commands)
      {
        assert commands[..i][..i - 1] == commands[..i - 1];
        i := i - 1;
        if commands[i].op.CreateOp? {
          assert (todo + [Undo(commands[i])]) + CleanupOf(commands[..i]) == todo + ([Undo(commands[i])] + CleanupOf(commands[..i]));
          todo := todo + [Undo(commands[i])];
        }
      }
    }

    method ProcessAll(todo: seq<Command>) returns (outs: seq<Out>, ok: bool)
      modifies this
      ensures Result(State(), outs, ok) == Run(profile, old(State()), todo)
    {
      outs, ok := [], true;
      var j := 0;
      while j < |todo| && ok
        invariant 0 <= j <= |todo|
        invariant Result(State(), outs, ok) == Run(profile, old(State()), todo[..j])
      {
        assert todo[..j + 1][..j] == todo[..j];
        var out := ProcessCommand(todo[j]);
        if out.Some? { outs := outs + [out.value]; } else { ok := false; }
        j := j + 1;
      }
      RunRest(profile, old(State()), todo, j);
    }

    /** Runs the commands, or the cleanup derived from them, up to the first exception. */
    method ProcessCommands(commands: seq<Command>, cleanup: bool) returns (outs: seq<Out>, ok: bool)
      modifies this
      ensures Result(State(), outs, ok) == Run(profile, old(State()), if cleanup then CleanupOf(commands) else commands)
    {
      var todo := commands;
      if cleanup { todo := CleanupCommands(commands); }
      outs, ok := ProcessAll(todo);
    }
  }

  /** A run that has ended early, or at the end of the list, is the whole run. */
  lemma RunRest(p: Profile, st: CState, cmds: seq<Command>, j: nat)
    requires j <= |cmds| && (j == |cmds| || !Run(p, st, cmds[..j]).ok)
    ensures Run(p, st, cmds) == Run(p, st, cmds[..j])
  {
    if j == |cmds| {
      assert cmds[..j] == cmds;
    } else {
      var n := |cmds| - 1;
      assert cmds[..n][..j] == cmds[..j];
      RunRest(p, st, cmds[..n], j);
    }
  }

  function Append(f: Fields, g: Fields): Fields {
    match f
    case NoFields => g
    case Field(n, v, rest) => Field(n, v, Append(rest, g))
  }

  lemma {:induction false} AppendNext(f: Fields, n: string, v: Value, g: Fields)
    ensures Append(Append(f, Field(n, v, NoFields)), g) == Append(f, Field(n, v, g))
  {
    match f
    case NoFields =>
    case Field(_, _, rest) => AppendNext(rest, n, v, g);
  }

  lemma {:induction false} AppendNothing(f: Fields)
    ensures Append(f, NoFields) == f
  {
    match f
    case NoFields =>
    case Field(_, _, rest) => AppendNothing(rest);
  }
}
