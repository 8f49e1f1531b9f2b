/**
  SAI calls over Redis: the client empties the response list, pushes one request and polls for
  three response elements; the server pops the request and pushes the three elements, possibly
  one by one.  Requests are numbered, so that a response can be told to belong to one of them.
 */
module RedisRpc {
  import opened Wrappers

  /** One of the three elements of the response to a request. */
  datatype Elem = Elem(req: nat, part: nat)

  datatype Client =
    | Idle
    | Clearing
    | Checking
    | Pushing
    | Polling(req: nat, attempts: nat)
    | Finishing(req: nat, got: seq<Elem>)

  datatype Server = Waiting | Sending(req: nat, sent: nat)

  /** `next` is the number of the next request; `answers` are the calls that returned; `late` is set when a call fails. */
  datatype State = State(
    client: Client, server: Server, requests: seq<nat>, responses: seq<Elem>,
    next: nat, answers: seq<(nat, seq<Elem>)>, late: bool)

  const START := State(Idle, Waiting, [], [], 0, [], false)

  datatype Label = Call | ClientStep | Take | Send

  /** The response to a request, or its first k elements. */
  function Response(req: nat, k: nat): (r: seq<Elem>)
    ensures |r| == k
  {
    seq(k, i requires 0 <= i < k => Elem(req, i))
  }

  function StepClient(s: State, limit: nat): Option<State> {
    match s.client
    case Idle => None
    case Clearing => Some(s.(responses := [], client := Checking))
    case Checking =>
      Some(if s.responses == [] then s.(client := Pushing) else s.(client := Idle, late := true))
    case Pushing =>
      Some(s.(requests := s.requests + [s.next], next := s.next + 1, client := Polling(s.next, limit)))
    case Polling(r, n) =>
      Some(if |s.responses| < 3 && n > 0 then s.(client := Polling(r, n - 1)) else s.(client := Finishing(r, s.responses)))
    case Finishing(r, got) =>
      var s' := s.(responses := [], client := Idle);
      Some(if |got| == 3 then s'.(answers := s.answers + [(r, got)]) else s'.(late := true))
  }

  function Step(s: State, l: Label, limit: nat): Option<State> {
    match l
    case Call => if s.client.Idle? then Some(s.(client := Clearing)) else None
    case ClientStep => StepClient(s, limit)
    case Take =>
      if s.server.Waiting? && |s.requests| > 0 then Some(s.(requests := s.requests[1..], server := Sending(s.requests[0], 0))) else None
    case Send =>
      if s.server.Waiting? then None
      else
        var Sending(r, k) := s.server;
        Some(s.(responses := s.responses + [Elem(r, k)], server := if k < 2 then Sending(r, k + 1) else Waiting))
  }

  function Run(s: State, ls: seq<Label>, limit: nat): Option<State> {
    if |ls| == 0 then Some(s)
    else
      match Run(s, ls[..|ls| - 1], limit) case None => None case Some(s') =>
      Step(s', ls[|ls| - 1], limit)
  }

  // ---------- the invariant while no call has failed ----------

  predicate Quiet(s: State) {
    s.requests == [] && s.responses == [] && s.server.Waiting?
  }

  /** The one request under way: not taken yet, half answered, or answered in full. */
  predicate Underway(s: State, r: nat) {
    match s.server
    case Waiting => (s.requests == [r] && s.responses == []) || (s.requests == [] && s.responses == Response(r, 3))
    case Sending(r', k) => r' == r && k <= 2 && s.requests == [] && s.responses == Response(r, k)
  }

  /** The i-th call that returned got the three elements of the response to the i-th request. */
  ghost predicate Matched(answers: seq<(nat, seq<Elem>)>) {
    forall i | 0 <= i < |answers| :: answers[i] == (i, Response(i, 3))
  }

  ghost predicate Inv(s: State) {
    && Matched(s.answers)
    && match s.client
       case Polling(r, _) => r == |s.answers| && s.next == r + 1 && Underway(s, r)
       case Finishing(r, got) =>
         r == |s.answers| && s.next == r + 1 && Underway(s, r) && (|got| >= 3 ==> got == Response(r, 3) && got == s.responses)
       case _ => s.next == |s.answers| && Quiet(s)
  }

  lemma ResponseGrows(r: nat, k: nat)
    ensures Response(r, k) + [Elem(r, k)] == Response(r, k + 1)
  {
  }

  lemma StepKeepsInv(s: State, l: Label, limit: nat)
    requires Inv(s) && Step(s, l, limit).Some? && !Step(s, l, limit).value.late
    ensures Inv(Step(s, l, limit).value)
  {
    if l.Send? { ResponseGrows(s.server.req, s.server.sent); }
  }

  lemma LateStays(s: State, l: Label, limit: nat)
    requires Step(s, l, limit).Some? && s.late
    ensures Step(s, l, limit).value.late
  {
  }

  /**
    As long as no call has failed, every call that returned has the three response elements of
    its own request in order, and between calls nothing is left in either list.
   */
  lemma {:induction false} ResponsesMatchRequests(ls: seq<Label>, limit: nat)
    requires Run(START, ls, limit).Some? && !Run(START, ls, limit).value.late
    ensures var s := Run(START, ls, limit).value;
      Inv(s) && Matched(s.answers) && (s.client.Idle? ==> Quiet(s) && s.next == |s.answers|)
  {
    if |ls| > 0 {
      var n := |ls| - 1;
      var s := Run(START, ls[..n], limit).value;
      if s.late { LateStays(s, ls[n], limit); }
      ResponsesMatchRequests(ls[..n], limit);
      StepKeepsInv(s, ls[n], limit);
    }
  }

  // ---------- polling ends ----------

  function StepsLeft(c: Client, limit: nat): nat {
    match c
    case Idle => 0
    case Finishing(_, _) => 1
    case Polling(_, n) => n + 2
    case Pushing => limit + 3
    case Checking => limit + 4
    case Clearing => limit + 5
  }

  function ClientSteps(ls: seq<Label>): nat {
    if |ls| == 0 then 0 else ClientSteps(ls[..|ls| - 1]) + if ls[|ls| - 1].ClientStep? then 1 else 0
  }

  /** A call is over after at most `limit` polls, whatever the server does. */
  lemma {:induction false} CallEnds(s: State, ls: seq<Label>, limit: nat)
    requires Run(s, ls, limit).Some? && Call !in ls
    ensures ClientSteps(ls) + StepsLeft(Run(s, ls, limit).value.client, limit) <= StepsLeft(s.client, limit)
    ensures StepClient(Run(s, ls, limit).value, limit).None? <==> Run(s, ls, limit).value.client.Idle?
    ensures Run(s, ls, limit).value.client.Polling? ==>
      ClientSteps(ls) + StepsLeft(Run(s, ls, limit).value.client, limit) == StepsLeft(s.client, limit)
  {
    if |ls| > 0 {
      var n := |ls| - 1;
      assert ls[n] in ls;
      CallEnds(s, ls[..n], limit);
      NoneLost(s, ls, limit);
    }
  }

  /** Up to its polls no step of a call is left out. */
  lemma {:induction false} NoneLost(s: State, ls: seq<Label>, limit: nat)
    requires Run(s, ls, limit).Some? && Call !in ls
    ensures var c := Run(s, ls, limit).value.client;
      !c.Idle? && !c.Finishing? ==> ClientSteps(ls) + StepsLeft(c, limit) == StepsLeft(s.client, limit)
  {
    if |ls| > 0 {
      var n := |ls| - 1;
      assert ls[n] in ls;
      NoneLost(s, ls[..n], limit);
    }
  }

  // ---------- a response that is there is returned ----------

  predicate ServerOnly(ls: seq<Label>) {
    forall i | 0 <= i < |ls| :: ls[i].Take? || ls[i].Send?
  }

  lemma {:induction false} ServerLeavesClient(s: State, ls: seq<Label>, limit: nat)
    requires Run(s, ls, limit).Some? && ServerOnly(ls)
    ensures var t := Run(s, ls, limit).value; t.client == s.client && t.answers == s.answers && t.late == s.late
  {
    if |ls| > 0 {
      var n := |ls| - 1;
      ServerLeavesClient(s, ls[..n], limit);
    }
  }

  /**
    However many attempts are left, a poll that finds three elements ends the call with them,
    whatever the server does before the call has cleared the list.
   */
  lemma {:induction false} FullResponseIsReturned(s: State, ls: seq<Label>, limit: nat)
    requires s.client.Polling? && |s.responses| == 3 && ServerOnly(ls)
    ensures Step(s, ClientStep, limit).Some?
    ensures var polled := Step(s, ClientStep, limit).value;
      Run(polled, ls, limit).Some? ==>
        var ended := Step(Run(polled, ls, limit).value, ClientStep, limit);
        && ended.Some? && ended.value.client.Idle? && ended.value.responses == [] && ended.value.late == s.late
        && ended.value.answers == s.answers + [(s.client.req, s.responses)]
  {
    var polled := Step(s, ClientStep, limit).value;
    if Run(polled, ls, limit).Some? { ServerLeavesClient(polled, ls, limit); }
  }

  /** A call finds fewer than three elements with its last attempt. */
  predicate GivesUp(s: State, l: Label) {
    l.ClientStep? && s.client.Polling? && s.client.attempts == 0 && |s.responses| < 3
  }

  ghost predicate TimedOut(ls: seq<Label>, limit: nat) {
    exists k :: 0 <= k < |ls| && GivesUpAt(ls, k, limit)
  }

  ghost predicate GivesUpAt(ls: seq<Label>, k: nat, limit: nat)
    requires k < |ls|
  {
    Run(START, ls[..k], limit).Some? && GivesUp(Run(START, ls[..k], limit).value, ls[k])
  }

  lemma TimedOutLater(ls: seq<Label>, n: nat, limit: nat)
    requires n <= |ls|
    ensures TimedOut(ls[..n], limit) ==> TimedOut(ls, limit)
  {
    if TimedOut(ls[..n], limit) {
      var k :| 0 <= k < n && GivesUpAt(ls[..n], k, limit);
      assert ls[..n][..k] == ls[..k] && GivesUpAt(ls, k, limit);
    }
  }

  lemma NotLateYet(s: State, l: Label, limit: nat)
    requires Inv(s) && !s.late && (s.client.Finishing? ==> |s.client.got| == 3) && Step(s, l, limit).Some? && !GivesUp(s, l)
    ensures var t := Step(s, l, limit).value; !t.late && (t.client.Finishing? ==> |t.client.got| == 3)
  {
  }

  /**
    The only way for a call to fail is to find fewer than three elements with its last attempt: in
    a run without that, no call has failed, and between calls every request has been answered by the
    response to it.
   */
  lemma {:induction false} OnlyTimeoutsFail(ls: seq<Label>, limit: nat)
    requires Run(START, ls, limit).Some? && !TimedOut(ls, limit)
    ensures var s := Run(START, ls, limit).value;
      && Inv(s) && !s.late && (s.client.Finishing? ==> |s.client.got| == 3)
      && Matched(s.answers) && (s.client.Idle? ==> s.next == |s.answers| && Quiet(s))
  {
    if |ls| > 0 {
      var n := |ls| - 1;
      TimedOutLater(ls, n, limit);
      OnlyTimeoutsFail(ls[..n], limit);
      assert !GivesUpAt(ls, n, limit);
      NotLateYet(Run(START, ls[..n], limit).value, ls[n], limit);
      StepKeepsInv(Run(START, ls[..n], limit).value, ls[n], limit);
    }
  }

  // ---------- after a failed call ----------

  lemma OneMore(ls: seq<Label>, s: State, l: Label, limit: nat) returns (ls': seq<Label>, s': State)
    requires Run(START, ls, limit) == Some(s) && Step(s, l, limit).Some?
    ensures Run(START, ls', limit) == Some(s') && Some(s') == Step(s, l, limit)
  {
    ls', s' := ls + [l], Step(s, l, limit).value;
    assert ls'[..|ls|] == ls;
  }

  /** A call up to its first poll. */
  lemma Started(ls: seq<Label>, s: State, limit: nat) returns (ls': seq<Label>, s': State)
    requires Run(START, ls, limit) == Some(s) && s.client.Idle?
    ensures Run(START, ls', limit) == Some(s')
    ensures s' == s.(client := Polling(s.next, limit), responses := [], requests := s.requests + [s.next], next := s.next + 1)
  {
    ls', s' := OneMore(ls, s, Call, limit);
    ls', s' := OneMore(ls', s', ClientStep, limit);
    ls', s' := OneMore(ls', s', ClientStep, limit);
    ls', s' := OneMore(ls', s', ClientStep, limit);
  }

  /** The last poll and the end of the call. */
  lemma Ended(ls: seq<Label>, s: State, limit: nat) returns (ls': seq<Label>, s': State)
    requires Run(START, ls, limit) == Some(s) && s.client.Polling? && s.client.attempts == 0
    ensures Run(START, ls', limit) == Some(s')
    ensures var s1 := s.(client := Idle, responses := []);
      s' == if |s.responses| == 3 then s1.(answers := s.answers + [(s.client.req, s.responses)]) else s1.(late := true)
  {
    ls', s' := OneMore(ls, s, ClientStep, limit);
    ls', s' := OneMore(ls', s', ClientStep, limit);
  }

  /** The server answers the oldest request. */
  lemma Served(ls: seq<Label>, s: State, limit: nat) returns (ls': seq<Label>, s': State)
    requires Run(START, ls, limit) == Some(s) && s.server.Waiting? && |s.requests| > 0
    ensures Run(START, ls', limit) == Some(s')
    ensures s' == s.(requests := s.requests[1..], responses := s.responses + Response(s.requests[0], 3))
  {
    var r := s.requests[0];
    ls', s' := OneMore(ls, s, Take, limit);
    ls', s' := OneMore(ls', s', Send, limit);
    ls', s' := OneMore(ls', s', Send, limit);
    ls', s' := OneMore(ls', s', Send, limit);
    assert Response(r, 3) == [Elem(r, 0), Elem(r, 1), Elem(r, 2)];
  }

  lemma FailedCall() returns (ls: seq<Label>, s: State)
    ensures Run(START, ls, 0) == Some(s) && s == State(Idle, Waiting, [0], [], 1, [], true)
  {
    ls, s := Started([], START, 0);
    ls, s := Ended(ls, s, 0);
  }

  /** After a call that timed out, the next one can be given the response to the earlier request. */
  lemma LateResponseIsTakenForAnother() returns (ls: seq<Label>)
    ensures Run(START, ls, 0).Some? && Run(START, ls, 0).value.answers == [(1, Response(0, 3))]
  {
    var s;
    ls, s := FailedCall();
    ls, s := Started(ls, s, 0);
    assert s.requests == [0, 1] && s.requests[1..] == [1];
    ls, s := Served(ls, s, 0);
    assert s.responses == Response(0, 3);
    ls, s := Ended(ls, s, 0);
  }
}
