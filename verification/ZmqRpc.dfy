/**
  SAI calls over ZMQ: the client sends on a REQ socket and waits; when a call times out it
  closes the socket and opens a new one.  On any other socket error it does so only if the server
  can be reached, and otherwise goes on with the old socket.  A reply travels back only to the
  socket its request came from, and a REQ socket sends and receives strictly by turns, so no reply
  can be taken for another, not even after timeouts and errors.
 */
module ZmqRpc {
  import opened Wrappers

  /** A request under way, and the socket it was sent on. */
  datatype Msg = Msg(sock: nat, req: nat)

  datatype Client = Idle | Receiving(req: nat)

  /**
    `pending` is the request for which the current socket still owes a reply; `failed` are the
    requests whose call gave up; `ran` those the server has carried out.
   */
  datatype State = State(
    client: Client, sock: nat, pending: Option<nat>, toServer: seq<Msg>, toClient: seq<Msg>,
    next: nat, answers: seq<(nat, nat)>, failed: set<nat>, ran: seq<nat>)

  const START := State(Idle, 0, None, [], [], 0, [], {}, [])

  /**
    SendError and ReceiveError: any socket error but a timeout, with the server reachable or not.
    Serve(i): the server carries out the i-th waiting request; Lose(i): the network drops it.
   */
  datatype Label =
    | Send
    | SendTimeout
    | SendError(reachable: bool)
    | Receive(i: nat)
    | ReceiveTimeout
    | ReceiveError(reachable: bool)
    | Serve(i: nat)
    | Lose(i: nat)

  function Drop(q: seq<Msg>, i: nat): seq<Msg>
    requires i < |q|
  {
    q[..i] + q[i + 1..]
  }

  /** A new socket takes the place of the old one; what was on its way to the old one is never received. */
  function Reopened(s: State, req: nat): State {
    s.(client := Idle, sock := s.sock + 1, pending := None, failed := s.failed + {req})
  }

  /** The call fails before the socket is replaced. */
  function GivenUp(s: State, req: nat): State {
    s.(client := Idle, failed := s.failed + {req})
  }

  function Step(s: State, l: Label): Option<State> {
    match l
    case Send =>
      if !s.client.Idle? || s.pending.Some? then None
      else Some(s.(client := Receiving(s.next), pending := Some(s.next), toServer := s.toServer + [Msg(s.sock, s.next)], next := s.next + 1))
    case SendTimeout =>
      if s.client.Idle? && s.pending.None? then Some(Reopened(s.(next := s.next + 1), s.next)) else None
    case SendError(reachable) =>
      var s' := s.(next := s.next + 1);
      if !s.client.Idle? then None else if reachable then Some(Reopened(s', s.next)) else Some(GivenUp(s', s.next))
    case Receive(i) =>
      if s.client.Receiving? && i < |s.toClient| && s.toClient[i].sock == s.sock
      then Some(s.(client := Idle, pending := None, toClient := Drop(s.toClient, i), answers := s.answers + [(s.client.req, s.toClient[i].req)]))
      else None
    case ReceiveTimeout =>
      if s.client.Receiving? then Some(Reopened(s, s.client.req)) else None
    case ReceiveError(reachable) =>
      if !s.client.Receiving? then None
      else if reachable then Some(Reopened(s, s.client.req))
      else Some(GivenUp(s, s.client.req))
    case Serve(i) =>
      if i < |s.toServer|
      then Some(s.(toServer := Drop(s.toServer, i), toClient := s.toClient + [s.toServer[i]], ran := s.ran + [s.toServer[i].req]))
      else None
    case Lose(i) =>
      if i < |s.toServer| then Some(s.(toServer := Drop(s.toServer, i))) else None
  }

  function Run(s: State, ls: seq<Label>): Option<State> {
    if |ls| == 0 then Some(s)
    else
      match Run(s, ls[..|ls| - 1]) case None => None case Some(s') =>
      Step(s', ls[|ls| - 1])
  }

  // ---------- the invariant ----------

  /** A message on the current socket can only be the pending request, which is that of the call under way if there is one. */
  predicate Fits(s: State, m: Msg) {
    && m.sock <= s.sock && m.req < s.next
    && (m.sock == s.sock ==> s.pending == Some(m.req))
  }

  predicate AllFit(s: State, q: seq<Msg>) {
    forall i | 0 <= i < |q| :: Fits(s, q[i])
  }

  /** Each request is at most once in the queue or among those carried out. */
  ghost predicate OnceEach(q: seq<Msg>, ran: seq<nat>) {
    && (forall i, j | 0 <= i < j < |q| :: q[i].req != q[j].req)
    && (forall i, j | 0 <= i < j < |ran| :: ran[i] != ran[j])
    && (forall i | 0 <= i < |q| :: q[i].req !in ran)
  }

  ghost predicate Matched(answers: seq<(nat, nat)>) {
    forall i | 0 <= i < |answers| :: answers[i].1 == answers[i].0
  }

  ghost predicate Inv(s: State) {
    && AllFit(s, s.toServer) && AllFit(s, s.toClient)
    && OnceEach(s.toServer, s.ran) && (forall i | 0 <= i < |s.ran| :: s.ran[i] < s.next)
    && (forall i | 0 <= i < |s.toClient| :: s.toClient[i].req in s.ran)
    && (forall i, j | 0 <= i < j < |s.toClient| :: s.toClient[i].req != s.toClient[j].req)
    && (s.client.Receiving? ==> s.pending == Some(s.client.req)) && (s.pending.Some? ==> s.pending.value < s.next)
    && Matched(s.answers) && (forall i | 0 <= i < |s.answers| :: s.answers[i].0 in s.ran)
  }

  lemma DropKeeps(q: seq<Msg>, i: nat)
    requires i < |q|
    ensures forall k | 0 <= k < |Drop(q, i)| :: Drop(q, i)[k] == q[if k < i then k else k + 1]
  {
  }

  lemma FitAfterReopening(s: State, s': State, q: seq<Msg>)
    requires AllFit(s, q) && s'.sock > s.sock && s'.next >= s.next
    ensures AllFit(s', q)
  {
    forall k | 0 <= k < |q| ensures Fits(s', q[k]) { assert Fits(s, q[k]); }
  }

  lemma FitOnTheSameSocket(s: State, s': State, q: seq<Msg>)
    requires AllFit(s, q) && s'.sock == s.sock && s'.pending == s.pending && s'.next >= s.next
    ensures AllFit(s', q)
  {
    forall k | 0 <= k < |q| ensures Fits(s', q[k]) { assert Fits(s, q[k]); }
  }

  lemma SendKeepsInv(s: State)
    requires Inv(s) && Step(s, Send).Some?
    ensures Inv(Step(s, Send).value)
  {
    var s' := Step(s, Send).value;
    forall i | 0 <= i < |s.toServer| ensures Fits(s', s.toServer[i]) && s.toServer[i].req != s.next { assert Fits(s, s.toServer[i]); }
    forall i | 0 <= i < |s.toClient| ensures Fits(s', s.toClient[i]) { assert Fits(s, s.toClient[i]); }
    assert s.next !in s.ran;
  }

  lemma ReceiveKeepsInv(s: State, i: nat)
    requires Inv(s) && Step(s, Receive(i)).Some?
    ensures Inv(Step(s, Receive(i)).value)
  {
    var s' := Step(s, Receive(i)).value;
    DropKeeps(s.toClient, i);
    assert Fits(s, s.toClient[i]);
    forall k | 0 <= k < |s'.toClient| ensures Fits(s', s'.toClient[k]) {
      assert Fits(s, s.toClient[if k < i then k else k + 1]);
    }
    forall k | 0 <= k < |s.toServer| ensures Fits(s', s.toServer[k]) { assert Fits(s, s.toServer[k]); }
  }

  lemma ClientKeepsInv(s: State, l: Label)
    requires Inv(s) && Step(s, l).Some? && !l.Serve? && !l.Lose?
    ensures Inv(Step(s, l).value)
  {
    var s' := Step(s, l).value;
    match l
    case Send => SendKeepsInv(s);
    case Receive(i) => ReceiveKeepsInv(s, i);
    case _ =>
      if s'.sock > s.sock {
        FitAfterReopening(s, s', s.toServer);
        FitAfterReopening(s, s', s.toClient);
      } else {
        FitOnTheSameSocket(s, s', s.toServer);
        FitOnTheSameSocket(s, s', s.toClient);
      }
  }

  lemma ServerKeepsInv(s: State, l: Label)
    requires Inv(s) && Step(s, l).Some? && (l.Serve? || l.Lose?)
    ensures Inv(Step(s, l).value)
  {
    var s', i := Step(s, l).value, l.i;
    DropKeeps(s.toServer, i);
    assert Fits(s, s.toServer[i]);
    forall k | 0 <= k < |s'.toServer| ensures Fits(s', s'.toServer[k]) && s'.toServer[k].req != s.toServer[i].req {
      assert Fits(s, s.toServer[if k < i then k else k + 1]);
    }
    forall k | 0 <= k < |s.toClient| ensures Fits(s', s.toClient[k]) { assert Fits(s, s.toClient[k]); }
  }

  /**
    In every run, whatever times out, fails or gets lost: each answer belongs to the request of its own
    call, that request has been carried out, and no request is carried out twice.
   */
  lemma {:induction false} RepliesAlwaysMatch(ls: seq<Label>)
    requires Run(START, ls).Some?
    ensures var s := Run(START, ls).value;
      && Inv(s) && Matched(s.answers)
      && (forall i | 0 <= i < |s.answers| :: s.answers[i].0 in s.ran)
      && (forall i, j | 0 <= i < j < |s.ran| :: s.ran[i] != s.ran[j])
  {
    if |ls| > 0 {
      var n := |ls| - 1;
      RepliesAlwaysMatch(ls[..n]);
      if ls[n].Serve? || ls[n].Lose? {
        ServerKeepsInv(Run(START, ls[..n]).value, ls[n]);
      } else {
        ClientKeepsInv(Run(START, ls[..n]).value, ls[n]);
      }
    }
  }

  // ---------- what is there is received ----------

  /**
    After any run: a reply that has come in on the socket of the call under way can be received, and
    then the call returns it as the answer to its own request and the next call can begin.
   */
  lemma {:induction false} ReplyIsReturned(ls: seq<Label>, i: nat)
    requires Run(START, ls).Some?
    requires var s := Run(START, ls).value; s.client.Receiving? && i < |s.toClient| && s.toClient[i].sock == s.sock
    ensures var s := Run(START, ls).value;
      && Step(s, Receive(i)).Some?
      && var t := Step(s, Receive(i)).value;
         && t.client.Idle? && t.answers == s.answers + [(s.client.req, s.client.req)] && t.failed == s.failed && t.sock == s.sock
         && Step(t, Send).Some?
  {
    RepliesAlwaysMatch(ls);
    var s := Run(START, ls).value;
    assert Fits(s, s.toClient[i]);
  }

  /** A request that waits can be carried out, and its reply goes to the socket it came from. */
  lemma RequestIsServed(s: State, i: nat)
    requires i < |s.toServer|
    ensures Step(s, Serve(i)).Some?
    ensures var t := Step(s, Serve(i)).value;
      && t.toClient == s.toClient + [s.toServer[i]] && t.ran == s.ran + [s.toServer[i].req]
      && t.client == s.client && t.sock == s.sock && t.answers == s.answers && t.failed == s.failed
  {
  }

  /** The call has failed, and another can be made at once exactly if `again`. */
  predicate FailedCall(s: State, req: nat, t: Option<State>, again: bool) {
    && t.Some? && t.value.client.Idle? && t.value.failed == s.failed + {req} && t.value.answers == s.answers && t.value.ran == s.ran
    && t.value.toServer == s.toServer && t.value.toClient == s.toClient
    && (Step(t.value, Send).Some? <==> again)
  }

  /**
    A request can be sent exactly if no call is under way and the socket owes no reply, and sending may time out
    then. A timeout always ends the call and makes room for the next one; so does another error if the
    server can be reached, and otherwise only if the socket owed no reply.
   */
  lemma CallsCanEnd(s: State)
    ensures Step(s, Send).Some? <==> s.client.Idle? && s.pending.None?
    ensures Step(s, SendTimeout).Some? <==> Step(s, Send).Some?
    ensures Step(s, SendTimeout).Some? ==> FailedCall(s, s.next, Step(s, SendTimeout), true)
    ensures s.client.Idle? ==> FailedCall(s, s.next, Step(s, SendError(true)), true)
    ensures s.client.Idle? ==> FailedCall(s, s.next, Step(s, SendError(false)), s.pending.None?)
    ensures s.client.Receiving? ==> FailedCall(s, s.client.req, Step(s, ReceiveTimeout), true)
    ensures s.client.Receiving? ==> FailedCall(s, s.client.req, Step(s, ReceiveError(true)), true)
    ensures s.client.Receiving? ==> FailedCall(s, s.client.req, Step(s, ReceiveError(false)), s.pending.None?)
  {
  }

  /**
    When the error comes after the request was sent and the server cannot be reached, a reply may
    come in on the socket in use with no call waiting for it. Only the turns of the socket help
    then: the one thing the next call can do is fail.
   */
  lemma {:induction false} ReplyWithoutCall()
    ensures var s := Run(START, [Send, ReceiveError(false), Serve(0)]);
      && s.Some? && s.value.client.Idle? && s.value.toClient == [Msg(s.value.sock, 0)] && 0 in s.value.failed
      && Step(s.value, Send).None? && Step(s.value, Receive(0)).None? && Step(s.value, SendError(true)).Some?
  {
    var ls := [Send, ReceiveError(false), Serve(0)];
    assert ls[..2][..1] == [Send] && ls[..2][..1][..0] == [];
    assert Run(START, []) == Some(START);
    assert Run(START, [Send]) == Step(START, Send) by { assert [Send][..0] == []; }
    assert ls[..2] == [Send, ReceiveError(false)];
    assert Run(START, ls[..2]) == Step(Step(START, Send).value, ReceiveError(false));
  }
}
