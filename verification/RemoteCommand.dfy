/**
  Remote commands: a client and a listener that share two Redis lists.  Every access to a list
  is one step, so the listener's read and delete, and the client's two deletes and its push,
  can be interleaved in any order.
 */
module RemoteCommand {
  import opened Wrappers

  /** A list element: one of the words the listener knows, or any other text. */
  datatype Token = IfaceExists | IfaceIsUp | SetIfaceStatus | StartAgent | StopAgent | Text(text: string)

  /** What the client pushes: a command word and, for most commands, one argument. */
  type Cmd = seq<Token>

  datatype Status = Ok | Err

  datatype Client =
    | Idle
    | ClearingCmd(cmd: Cmd)
    | ClearingStatus(cmd: Cmd)
    | Pushing(cmd: Cmd)
    | Polling(cmd: Cmd, attempts: nat)
    | Finishing(cmd: Cmd, got: seq<Status>)

  datatype Listener =
    | Looking
    | Took(cmd: Cmd)
    | Working(cmd: Cmd)
    | Answering(status: Status)
    | Dead

  /** What the host system does for a command: a yes, a no, or an exception. */
  datatype Outcome = Yes | No | Raise

  /** `issued`, `ran` and `answers` record what was pushed, executed and returned; `late` is set by a timeout. */
  datatype State = State(
    client: Client, listener: Listener, agent: bool, cmds: seq<Token>, statuses: seq<Status>,
    issued: seq<Cmd>, ran: seq<(Cmd, Status)>, answers: seq<(Cmd, Status)>, late: bool)

  const START := State(Idle, Looking, false, [], [], [], [], [], false)

  datatype Label =
    | Call(cmd: Cmd)
    | ClientStep
    | Read
    | Delete
    | Execute(o: Outcome)
    | Respond

  // ---------- the listener's commands ----------

  function OkIf(b: bool): Status {
    if b then Ok else Err
  }

  /** The reply to a command and whether an agent process is kept; None if the listener dies of an exception. */
  function Dispatch(agent: bool, cmd: Cmd, o: Outcome): Option<(bool, Status)>
    requires |cmd| > 0
  {
    if cmd[0] == IfaceExists && |cmd| == 2 then
      if o.Raise? then None else Some((agent, OkIf(o.Yes?)))
    else if cmd[0] == IfaceIsUp && |cmd| == 2 then
      Some((agent, OkIf(o.Yes?)))
    else if cmd[0] == SetIfaceStatus && |cmd| == 2 then
      if o.Raise? then None else Some((agent, Ok))
    else if cmd[0] == StartAgent && |cmd| == 2 then
      if o.Raise? then None else Some((true, Ok))
    else if cmd[0] == StopAgent then
      if agent then Some((false, Ok)) else None
    else Some((agent, Err))
  }

  // ---------- steps ----------

  /** The next step of a call in progress; `limit` is the number of polls a call may make. */
  function StepClient(s: State, limit: nat): Option<State> {
    match s.client
    case Idle => None
    case ClearingCmd(c) => Some(s.(cmds := [], client := ClearingStatus(c)))
    case ClearingStatus(c) => Some(s.(statuses := [], client := Pushing(c)))
    case Pushing(c) =>
      var s' := s.(cmds := s.cmds + c, issued := s.issued + [c]);
      Some(if limit == 0 then s'.(client := Finishing(c, []), late := true) else s'.(client := Polling(c, limit)))
    case Polling(c, n) =>
      Some(if |s.statuses| > 0 then s.(client := Finishing(c, s.statuses))
           else if n > 1 then s.(client := Polling(c, n - 1))
           else s.(client := Finishing(c, []), late := true))
    case Finishing(c, got) =>
      var answer := if |got| > 0 then got[0] else Err;
      Some(s.(statuses := [], client := Idle, answers := s.answers + [(c, answer)]))
  }

  function Step(s: State, l: Label, limit: nat): Option<State> {
    match l
    case Call(c) => if s.client.Idle? && |c| > 0 then Some(s.(client := ClearingCmd(c))) else None
    case ClientStep => StepClient(s, limit)
    case Read =>
      if !s.listener.Looking? then None
      else if |s.cmds| == 0 then Some(s)
      else Some(s.(listener := Took(s.cmds)))
    case Delete =>
      if s.listener.Took? then Some(s.(cmds := [], listener := Working(s.listener.cmd))) else None
    case Execute(o) => (
      if !s.listener.Working? || |s.listener.cmd| == 0 then None
      else
        match Dispatch(s.agent, s.listener.cmd, o)
        case None => Some(s.(listener := Dead))
        case Some((agent, status)) =>
          Some(s.(agent := agent, listener := Answering(status), ran := s.ran + [(s.listener.cmd, status)])))
    case Respond =>
      if s.listener.Answering? then Some(s.(statuses := [s.listener.status] + s.statuses, listener := Looking)) else None
  }

  function Run(s: State, ls: seq<Label>, limit: nat): Option<State> {
    if |ls| == 0 then Some(s)
    else
      match Run(s, ls[..|ls| - 1], limit) case None => None case Some(s') =>
      Step(s', ls[|ls| - 1], limit)
  }

  // ---------- the invariant of runs without a timeout ----------

  /** Where such a run may begin: the listener looks and finds nothing. Statuses may still lie about. */
  predicate Settled(s: State) {
    s.client.Idle? && s.listener.Looking? && s.cmds == []
  }

  /** Nothing has been recorded yet. */
  predicate Unrecorded(s: State) {
    s.issued == [] && s.ran == [] && s.answers == [] && !s.late
  }

  function CmdsOf(log: seq<(Cmd, Status)>): (r: seq<Cmd>)
    ensures |r| == |log|
  {
    seq(|log|, i requires 0 <= i < |log| => log[i].0)
  }

  /** Nothing is under way; `left` are the statuses that lay about before the first call. */
  predicate Quiet(s: State, left: seq<Status>) {
    && s.cmds == [] && s.listener.Looking? && (s.statuses == [] || (s.statuses == left && s.answers == []))
    && s.ran == s.answers && s.issued == CmdsOf(s.answers)
  }

  /** The command is with the listener and has not run yet, or it made the listener die. */
  predicate Underway(s: State, c: Cmd) {
    && s.statuses == [] && s.ran == s.answers
    && match s.listener
       case Looking => s.cmds == c
       case Took(d) => s.cmds == c && d == c
       case Working(d) => s.cmds == [] && d == c
       case Dead => s.cmds == []
       case Answering(_) => false
  }

  /** The command has run once, and its status is on the way. */
  predicate HasRun(s: State, c: Cmd, status: Status) {
    && s.cmds == [] && s.ran == s.answers + [(c, status)]
    && match s.listener
       case Looking => s.statuses == [status]
       case Answering(st) => s.statuses == [] && st == status
       case _ => false
  }

  ghost predicate Inv(s: State, left: seq<Status>) {
    match s.client
    case Polling(c, n) =>
      && |c| > 0 && n > 0 && s.issued == CmdsOf(s.answers) + [c]
      && (Underway(s, c) || exists status :: HasRun(s, c, status))
    case Finishing(c, got) =>
      && |c| > 0 && |got| == 1 && s.issued == CmdsOf(s.answers) + [c]
      && HasRun(s, c, got[0]) && s.listener.Looking?
    case ClearingCmd(c) => |c| > 0 && Quiet(s, left)
    case ClearingStatus(c) => |c| > 0 && Quiet(s, left)
    case Pushing(c) => |c| > 0 && Quiet(s, left) && s.statuses == []
    case Idle => Quiet(s, left)
  }

  lemma CmdsOfSnoc(log: seq<(Cmd, Status)>, e: (Cmd, Status))
    ensures CmdsOf(log + [e]) == CmdsOf(log) + [e.0]
  {
  }

  lemma ClientKeepsInv(s: State, left: seq<Status>, limit: nat)
    requires Inv(s, left) && StepClient(s, limit).Some? && !StepClient(s, limit).value.late
    ensures Inv(StepClient(s, limit).value, left)
  {
    match s.client
    case Polling(c, n) =>
      if !Underway(s, c) {
        var status :| HasRun(s, c, status);
        assert |s.statuses| == 0 && n > 1 ==> HasRun(StepClient(s, limit).value, c, status);
      }
    case Finishing(c, got) => CmdsOfSnoc(s.answers, (c, got[0]));
    case _ =>
  }

  lemma ListenerKeepsInv(s: State, l: Label, left: seq<Status>, limit: nat)
    requires Inv(s, left) && (l.Read? || l.Delete? || l.Execute? || l.Respond?) && Step(s, l, limit).Some?
    ensures Inv(Step(s, l, limit).value, left)
  {
    var s' := Step(s, l, limit).value;
    if s.client.Polling? {
      var c := s.client.cmd;
      if l.Execute? && s'.listener.Answering? { assert HasRun(s', c, s'.listener.status); }
      if l.Respond? { assert HasRun(s', c, s.listener.status); }
    }
  }

  lemma LateStays(s: State, l: Label, limit: nat)
    requires Step(s, l, limit).Some? && s.late
    ensures Step(s, l, limit).value.late
  {
  }

  lemma {:induction false} RunKeepsInv(s0: State, ls: seq<Label>, limit: nat)
    requires Settled(s0) && Unrecorded(s0) && Run(s0, ls, limit).Some? && !Run(s0, ls, limit).value.late
    ensures Inv(Run(s0, ls, limit).value, s0.statuses)
  {
    if |ls| > 0 {
      var n := |ls| - 1;
      var s := Run(s0, ls[..n], limit).value;
      if s.late { LateStays(s, ls[n], limit); }
      RunKeepsInv(s0, ls[..n], limit);
      match ls[n]
      case Call(_) =>
      case ClientStep => ClientKeepsInv(s, s0.statuses, limit);
      case _ => ListenerKeepsInv(s, ls[n], s0.statuses, limit);
    }
  }

  // ---------- what follows ----------

  /** Commands run in the order in which they were issued, each at most once, and each answer is the status of its own run. */
  ghost predicate InOrder(issued: seq<Cmd>, ran: seq<(Cmd, Status)>, answers: seq<(Cmd, Status)>) {
    CmdsOf(ran) <= issued && answers <= ran && |issued| <= |answers| + 1
  }

  lemma {:induction false} OrderFrom(s0: State, ls: seq<Label>, limit: nat)
    requires Settled(s0) && Unrecorded(s0) && Run(s0, ls, limit).Some? && !Run(s0, ls, limit).value.late
    ensures var s := Run(s0, ls, limit).value;
      && InOrder(s.issued, s.ran, s.answers)
      && (s.client.Idle? ==> s.ran == s.answers && CmdsOf(s.ran) == s.issued && s.cmds == [])
      && (s.client.Idle? ==> s.statuses == [] || (s.statuses == s0.statuses && s.answers == []))
  {
    RunKeepsInv(s0, ls, limit);
    var s := Run(s0, ls, limit).value;
    match s.client
    case Polling(c, _) =>
      if !Underway(s, c) {
        var status :| HasRun(s, c, status);
        CmdsOfSnoc(s.answers, (c, status));
      }
    case Finishing(c, got) => CmdsOfSnoc(s.answers, (c, got[0]));
    case _ =>
  }

  /**
    In every interleaving in which no call times out: commands run in the order in which they
    were issued, each at most once, and each answer is the status of its own command's run;
    between calls every issued command has run exactly once and both lists are empty.
   */
  lemma {:induction false} EachCommandRunsOnce(ls: seq<Label>, limit: nat)
    requires Run(START, ls, limit).Some? && !Run(START, ls, limit).value.late
    ensures var s := Run(START, ls, limit).value;
      && CmdsOf(s.ran) <= s.issued && s.answers <= s.ran && |s.issued| <= |s.answers| + 1
      && (s.client.Idle? ==> s.ran == s.answers && CmdsOf(s.ran) == s.issued && s.cmds == [] && s.statuses == [])
  {
    OrderFrom(START, ls, limit);
  }

  /** Client steps left in a call. */
  function StepsLeft(c: Client, limit: nat): nat {
    match c
    case Idle => 0
    case Finishing(_, _) => 1
    case Polling(_, n) => n + 1
    case Pushing(_) => limit + 2
    case ClearingStatus(_) => limit + 3
    case ClearingCmd(_) => limit + 4
  }

  function ClientSteps(ls: seq<Label>): nat {
    if |ls| == 0 then 0 else ClientSteps(ls[..|ls| - 1]) + if ls[|ls| - 1].ClientStep? then 1 else 0
  }

  ghost predicate NoCalls(ls: seq<Label>) {
    forall i | 0 <= i < |ls| :: !ls[i].Call?
  }

  lemma OneStepLess(s: State, l: Label, limit: nat)
    requires Step(s, l, limit).Some? && !l.Call? && (s.client.Polling? ==> s.client.attempts > 0)
    ensures var s' := Step(s, l, limit).value;
      && StepsLeft(s'.client, limit) + (if l.ClientStep? then 1 else 0) <= StepsLeft(s.client, limit)
      && (s'.client.Polling? ==> s'.client.attempts > 0)
  {
  }

  /** Up to its polls no step of a call is left out: it polls as often as it may. */
  lemma {:induction false} NoneLost(s: State, ls: seq<Label>, limit: nat)
    requires Run(s, ls, limit).Some? && NoCalls(ls)
    ensures var c := Run(s, ls, limit).value.client;
      !c.Idle? && !c.Finishing? ==> ClientSteps(ls) + StepsLeft(c, limit) == StepsLeft(s.client, limit)
  {
    if |ls| > 0 {
      var n := |ls| - 1;
      assert NoCalls(ls[..n]);
      NoneLost(s, ls[..n], limit);
    }
  }

  /** A call ends after at most `limit` polls, whatever the listener does, and is never stuck before. */
  lemma {:induction false} CallEnds(s: State, ls: seq<Label>, limit: nat)
    requires Run(s, ls, limit).Some? && NoCalls(ls) && (s.client.Polling? ==> s.client.attempts > 0)
    ensures var s' := Run(s, ls, limit).value;
      && ClientSteps(ls) + StepsLeft(s'.client, limit) <= StepsLeft(s.client, limit)
      && (s'.client.Polling? ==> s'.client.attempts > 0)
      && (StepClient(s', limit).None? <==> s'.client.Idle?)
  {
    if |ls| > 0 {
      var n := |ls| - 1;
      assert NoCalls(ls[..n]);
      CallEnds(s, ls[..n], limit);
      OneStepLess(Run(s, ls[..n], limit).value, ls[n], limit);
    }
  }

  // ---------- the agent process ----------

  /** Whether an agent is running after these commands. */
  function AgentAfter(ran: seq<(Cmd, Status)>): bool {
    if |ran| == 0 then false
    else
      var (c, status) := ran[|ran| - 1];
      if |c| == 2 && c[0] == StartAgent then true
      else if |c| > 0 && c[0] == StopAgent then false
      else AgentAfter(ran[..|ran| - 1])
  }

  predicate IsQuery(c: Cmd) {
    |c| == 2 && (c[0] == IfaceExists || c[0] == IfaceIsUp)
  }

  /** What an answer may be: a query either, an order ok, a stop ok if there was an agent, anything else err. */
  predicate Fitting(agent: bool, c: Cmd, status: Status) {
    if IsQuery(c) then true
    else if |c| == 2 && (c[0] == SetIfaceStatus || c[0] == StartAgent) then status == Ok
    else if |c| > 0 && c[0] == StopAgent then agent && status == Ok
    else status == Err
  }

  ghost predicate AllFitting(ran: seq<(Cmd, Status)>) {
    |ran| > 0 ==>
      var pre, (c, status) := ran[..|ran| - 1], ran[|ran| - 1];
      AllFitting(pre) && Fitting(AgentAfter(pre), c, status)
  }

  lemma {:induction false} AgentSnoc(ran: seq<(Cmd, Status)>, c: Cmd, status: Status)
    ensures AgentAfter(ran + [(c, status)]) ==
      if |c| == 2 && c[0] == StartAgent then true else if |c| > 0 && c[0] == StopAgent then false else AgentAfter(ran)
    ensures AllFitting(ran + [(c, status)]) <==> AllFitting(ran) && Fitting(AgentAfter(ran), c, status)
  {
    assert (ran + [(c, status)])[..|ran|] == ran;
  }

  lemma AgentNext(s: State, o: Outcome, limit: nat)
    requires Step(s, Execute(o), limit).Some? && s.agent == AgentAfter(s.ran) && AllFitting(s.ran)
    ensures var s' := Step(s, Execute(o), limit).value;
      && s'.agent == AgentAfter(s'.ran) && AllFitting(s'.ran)
      && (s'.listener.Answering? && IsQuery(s.listener.cmd) ==> (s'.listener.status == Ok <==> o.Yes?))
  {
    match Dispatch(s.agent, s.listener.cmd, o)
    case None =>
    case Some((_, status)) => AgentSnoc(s.ran, s.listener.cmd, status);
  }

  lemma OnlyExecuteRuns(s: State, l: Label, limit: nat)
    requires Step(s, l, limit).Some? && !l.Execute?
    ensures Step(s, l, limit).value.ran == s.ran && Step(s, l, limit).value.agent == s.agent
  {
  }

  /**
    In any run at all, every command is answered as fits it, and every stop command that ran had an
    agent to stop; without a running agent it has no answer, because it kills the listener.
   */
  lemma {:induction false} AnswersFit(ls: seq<Label>, limit: nat)
    requires Run(START, ls, limit).Some?
    ensures var s := Run(START, ls, limit).value;
      s.agent == AgentAfter(s.ran) && AllFitting(s.ran)
  {
    if |ls| > 0 {
      var n := |ls| - 1;
      AnswersFit(ls[..n], limit);
      var s := Run(START, ls[..n], limit).value;
      if ls[n].Execute? { AgentNext(s, ls[n].o, limit); } else { OnlyExecuteRuns(s, ls[n], limit); }
    }
  }

  // ---------- what is there is returned ----------

  /** Steps of the listener, which do not touch the call. */
  predicate ListenerOnly(ls: seq<Label>) {
    forall i | 0 <= i < |ls| :: ls[i].Read? || ls[i].Delete? || ls[i].Execute? || ls[i].Respond?
  }

  lemma {:induction false} ListenerLeavesClient(s: State, ls: seq<Label>, limit: nat)
    requires Run(s, ls, limit).Some? && ListenerOnly(ls)
    ensures var t := Run(s, ls, limit).value; t.client == s.client && t.answers == s.answers && t.late == s.late
  {
    if |ls| > 0 {
      var n := |ls| - 1;
      ListenerLeavesClient(s, ls[..n], limit);
    }
  }

  /** A poll that finds a status ends the call with it, however many attempts are left and whatever the listener does meanwhile. */
  lemma {:induction false} StatusIsReturned(s: State, ls: seq<Label>, limit: nat)
    requires s.client.Polling? && |s.statuses| > 0 && ListenerOnly(ls)
    ensures Step(s, ClientStep, limit).Some?
    ensures var polled := Step(s, ClientStep, limit).value;
      Run(polled, ls, limit).Some? ==>
        var ended := Step(Run(polled, ls, limit).value, ClientStep, limit);
        && ended.Some? && ended.value.client.Idle? && ended.value.late == s.late
        && ended.value.answers == s.answers + [(s.client.cmd, s.statuses[0])]
  {
    var polled := Step(s, ClientStep, limit).value;
    if Run(polled, ls, limit).Some? { ListenerLeavesClient(polled, ls, limit); }
  }

  /** A call times out exactly if its last poll, if it makes any, finds nothing. */
  lemma LateExactly(s: State, l: Label, limit: nat)
    requires Step(s, l, limit).Some? && !s.late
    ensures Step(s, l, limit).value.late <==>
      l.ClientStep? && ((s.client.Pushing? && limit == 0) || (s.client.Polling? && s.client.attempts <= 1 && s.statuses == []))
  {
  }

  /** What makes the listener die: a stop with no agent running, or an exception where none is caught. */
  predicate Kills(agent: bool, c: Cmd, o: Outcome)
    requires |c| > 0
  {
    || (c[0] == StopAgent && !agent)
    || (o.Raise? && |c| == 2 && (c[0] == IfaceExists || c[0] == SetIfaceStatus || c[0] == StartAgent))
  }

  /**
    The listener carries out a command it looks at in four steps: it takes it, deletes the list, and
    pushes the status that fits; only the commands named die, and they alone are not answered.
   */
  lemma {:induction false} CommandIsCarriedOut(s: State, o: Outcome, limit: nat)
    requires s.listener.Looking? && |s.cmds| > 0
    ensures Run(s, [Read, Delete, Execute(o), Respond], limit).None? <==> Kills(s.agent, s.cmds, o)
    ensures Kills(s.agent, s.cmds, o) ==> Run(s, [Read, Delete, Execute(o)], limit) == Some(s.(cmds := [], listener := Dead))
    ensures !Kills(s.agent, s.cmds, o) ==>
      && Run(s, [Read, Delete, Execute(o), Respond], limit).Some?
      && var t := Run(s, [Read, Delete, Execute(o), Respond], limit).value;
         && t.listener.Looking? && t.cmds == [] && t.client == s.client && |t.statuses| == |s.statuses| + 1
         && t.statuses[1..] == s.statuses && t.ran == s.ran + [(s.cmds, t.statuses[0])]
         && Fitting(s.agent, s.cmds, t.statuses[0]) && (IsQuery(s.cmds) ==> (t.statuses[0] == Ok <==> o.Yes?))
  {
    RunOfFour(s, Read, Delete, Execute(o), Respond, limit);
    match Dispatch(s.agent, s.cmds, o)
    case None =>
    case Some((_, status)) => assert ([status] + s.statuses)[1..] == s.statuses;
  }

  /** A step after a run that may have failed. */
  function Then(s: Option<State>, l: Label, limit: nat): Option<State> {
    match s case None => None case Some(t) => Step(t, l, limit)
  }

  lemma {:induction false} RunOfFour(s: State, a: Label, b: Label, c: Label, d: Label, limit: nat)
    ensures Run(s, [a, b, c], limit) == Then(Then(Step(s, a, limit), b, limit), c, limit)
    ensures Run(s, [a, b, c, d], limit) == Then(Run(s, [a, b, c], limit), d, limit)
  {
    assert [a, b, c, d][..3] == [a, b, c] && [a, b, c][..2] == [a, b] && [a, b][..1] == [a] && [a][..0] == [];
    assert Run(s, [], limit) == Some(s) && Run(s, [a], limit) == Step(s, a, limit);
    assert Run(s, [a, b], limit) == Then(Run(s, [a], limit), b, limit);
  }

  // ---------- after a timeout ----------

  lemma OneMore(ls: seq<Label>, s: State, l: Label, limit: nat) returns (ls': seq<Label>, s': State)
    requires Run(START, ls, limit) == Some(s) && Step(s, l, limit).Some?
    ensures Run(START, ls', limit) == Some(s') && Some(s') == Step(s, l, limit)
  {
    ls', s' := ls + [l], Step(s, l, limit).value;
    assert ls'[..|ls|] == ls;
  }

  /** A call made in full, up to its first poll. */
  lemma Started(ls: seq<Label>, s: State, c: Cmd, limit: nat) returns (ls': seq<Label>, s': State)
    requires Run(START, ls, limit) == Some(s) && s.client.Idle? && |c| > 0 && limit > 0
    ensures Run(START, ls', limit) == Some(s')
    ensures s' == s.(client := Polling(c, limit), cmds := [] + c, statuses := [], issued := s.issued + [c])
  {
    ls', s' := OneMore(ls, s, Call(c), limit);
    ls', s' := OneMore(ls', s', ClientStep, limit);
    ls', s' := OneMore(ls', s', ClientStep, limit);
    ls', s' := OneMore(ls', s', ClientStep, limit);
  }

  /** The last poll and the end of the call. */
  lemma Ended(ls: seq<Label>, s: State, limit: nat) returns (ls': seq<Label>, s': State)
    requires Run(START, ls, limit) == Some(s) && s.client.Polling? && s.client.attempts == 1
    ensures Run(START, ls', limit) == Some(s')
    ensures var s1, answer := s.(client := Idle, statuses := []), if |s.statuses| > 0 then s.statuses[0] else Err;
      s' == s1.(answers := s.answers + [(s.client.cmd, answer)], late := s.late || |s.statuses| == 0)
  {
    ls', s' := OneMore(ls, s, ClientStep, limit);
    ls', s' := OneMore(ls', s', ClientStep, limit);
  }

  /** The listener takes the command and runs it, but does not answer yet. */
  lemma Executed(ls: seq<Label>, s: State, a: Token, limit: nat) returns (ls': seq<Label>, s': State)
    requires Run(START, ls, limit) == Some(s) && s.listener.Looking? && s.cmds == [IfaceExists, a]
    ensures Run(START, ls', limit) == Some(s')
    ensures s' == s.(cmds := [], listener := Answering(Ok), ran := s.ran + [([IfaceExists, a], Ok)])
  {
    ls', s' := OneMore(ls, s, Read, limit);
    ls', s' := OneMore(ls', s', Delete, limit);
    ls', s' := OneMore(ls', s', Execute(Yes), limit);
  }

  /**
    A timeout breaks the match: the listener finishes the first command late, and its status is
    taken for the answer to the second, which has not run at all.
   */
  lemma LateStatusIsTakenForAnother(a: Token, b: Token) returns (ls: seq<Label>)
    ensures Run(START, ls, 1).Some?
    ensures var s := Run(START, ls, 1).value;
      && s.answers == [([IfaceExists, a], Err), ([IfaceExists, b], Ok)]
      && s.ran == [([IfaceExists, a], Ok)]
  {
    var s;
    ls, s := Started([], START, [IfaceExists, a], 1);
    ls, s := Ended(ls, s, 1);
    ls, s := Executed(ls, s, a, 1);
    ls, s := Started(ls, s, [IfaceExists, b], 1);
    ls, s := OneMore(ls, s, Respond, 1);
    ls, s := Ended(ls, s, 1);
  }

  // ---------- recovery ----------

  /** The same state with nothing recorded. */
  function Afresh(s: State): State {
    s.(issued := [], ran := [], answers := [], late := false)
  }

  /** The state `t` with the records of `s` before its own. */
  function After(s: State, t: State): State {
    t.(issued := s.issued + t.issued, ran := s.ran + t.ran, answers := s.answers + t.answers, late := s.late || t.late)
  }

  lemma AfterAfresh(s: State)
    ensures After(s, Afresh(s)) == s
  {
  }

  lemma RecordsDoNotMatter(s: State, t: State, l: Label, limit: nat)
    ensures Step(After(s, t), l, limit) == match Step(t, l, limit) case None => None case Some(t') => Some(After(s, t'))
  {
    match l
    case ClientStep =>
      if t.client.Pushing? { Associates(s.issued, t.issued, [t.client.cmd]); }
      if t.client.Finishing? {
        Associates(s.answers, t.answers, [(t.client.cmd, if |t.client.got| > 0 then t.client.got[0] else Err)]);
      }
    case Execute(o) =>
      if t.listener.Working? && |t.listener.cmd| > 0 && Dispatch(t.agent, t.listener.cmd, o).Some? {
        Associates(s.ran, t.ran, [(t.listener.cmd, Dispatch(t.agent, t.listener.cmd, o).value.1)]);
      }
    case _ =>
  }

  lemma Associates<T>(a: seq<T>, b: seq<T>, c: seq<T>)
    ensures (a + b) + c == a + (b + c)
  {
  }

  lemma {:induction false} RunAfresh(s: State, ls: seq<Label>, limit: nat)
    ensures Run(s, ls, limit) == match Run(Afresh(s), ls, limit) case None => None case Some(t) => Some(After(s, t))
  {
    if |ls| == 0 {
      AfterAfresh(s);
    } else {
      var n := |ls| - 1;
      RunAfresh(s, ls[..n], limit);
      if Run(Afresh(s), ls[..n], limit).Some? { RecordsDoNotMatter(s, Run(Afresh(s), ls[..n], limit).value, ls[n], limit); }
    }
  }

  /**
    Whatever timed out before, and whatever statuses have come in late: once the listener looks and
    finds nothing, and as long as no call times out from then on, every command issued from then on
    runs once, in order, and each answer is the status of its own command's run.
   */
  lemma {:induction false} RecoversAfterTimeouts(s0: State, ls: seq<Label>, limit: nat)
    requires Settled(s0) && Run(Afresh(s0), ls, limit).Some? && !Run(Afresh(s0), ls, limit).value.late
    ensures Run(s0, ls, limit).Some?
    ensures var s := Run(s0, ls, limit).value;
      && s0.issued <= s.issued && s0.ran <= s.ran && s0.answers <= s.answers
      && var issued, ran, answers := s.issued[|s0.issued|..], s.ran[|s0.ran|..], s.answers[|s0.answers|..];
         && InOrder(issued, ran, answers)
         && (s.client.Idle? ==> ran == answers && CmdsOf(ran) == issued && s.cmds == [])
  {
    RunAfresh(s0, ls, limit);
    OrderFrom(Afresh(s0), ls, limit);
    var s, t := Run(s0, ls, limit).value, Run(Afresh(s0), ls, limit).value;
    assert s.issued[|s0.issued|..] == t.issued && s.ran[|s0.ran|..] == t.ran && s.answers[|s0.answers|..] == t.answers;
  }

  /** There is such a state after a timeout: the late status has been pushed, and the next call deletes it. */
  lemma SettledAfterTimeout(a: Token) returns (ls: seq<Label>)
    ensures Run(START, ls, 1).Some?
    ensures var s := Run(START, ls, 1).value;
      Settled(s) && s.late && s.statuses == [Ok] && s.answers == [([IfaceExists, a], Err)]
  {
    var s;
    ls, s := Started([], START, [IfaceExists, a], 1);
    ls, s := Ended(ls, s, 1);
    ls, s := Executed(ls, s, a, 1);
    ls, s := OneMore(ls, s, Respond, 1);
  }
}
