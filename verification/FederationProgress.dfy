/** What the two agents owe each other: every request, every wish to negotiate and every
    finished handshake is acted on by a thread that has been started, and a turn that was
    asked for ends in the responder's offer. */
module FederationProgress {
  import opened Federation

  // ---------------------------------------------------------------- nothing is forgotten

  /** The initiator could grant the request it holds. */
  predicate CanGrant(p: Peer) {
    p.role == Initiator && p.remoteRequest != 0 && p.ready && p.signaling == Stable && p.remoteGrant == 0
  }

  /** The peer wants to negotiate and nothing else is in its way. */
  predicate Wants(p: Peer) {
    && p.needsNegotiation && p.signaling == Stable
    && (if p.role == Initiator then p.remoteGrant == 0 else p.ready && p.localRequest == 0)
  }

  predicate Attended(d: Side) {
    var p := d.peer;
    && !p.makingOffer && p.nextSequence >= 0 && (p.localRequest == 0 || p.localGrant == 0)
    && (CanGrant(p) ==> d.continues > 0)
    && (Wants(p) ==> d.continues > 0 || d.negotiates > 0 || d.failed)
    && (p.role == Responder && (p.localRequest != 0 || p.localGrant != 0) ==> p.needsNegotiation)
    && (p.remoteHello && p.remoteAck && !p.ready ==> d.marks > 0)
  }

  lemma NegotiatedAttended(d: Side, created: bool)
    requires Attended(d)
    ensures Attended(d.Negotiated(created))
  {
  }

  /** The thread that negotiates may itself be the one that was owed. */
  lemma ScheduledAttended(d: Side, created: bool)
    requires Attended(d) && d.negotiates > 0
    ensures Attended(d.(negotiates := d.negotiates - 1).Negotiated(created))
  {
  }

  lemma ContinuedAttended(d: Side)
    requires Attended(d) && d.continues > 0
    ensures Attended(d.Continued())
  {
  }

  lemma HeardAttended(d: Side, m: Control)
    requires Attended(d) && AcceptControl(d.peer, m).2 == Accepted
    ensures Attended(d.Heard(m))
  {
    match m
    case Request(n) => RequestAttended(d, n);
    case Hello =>
    case Ack =>
    case Grant(_) =>
      hide CanGrant;
      assert !CanGrant(d.Heard(m).peer) by { NeverGrants(d.Heard(m).peer); }
  }

  lemma NeverGrants(p: Peer)
    requires p.role != Initiator
    ensures !CanGrant(p)
  {
  }

  /** A request is granted at once, or something else stands in its way. */
  lemma TakenAtOnce(p: Peer)
    requires !p.makingOffer
    ensures var q := TakeGrant(p).0;
            && !CanGrant(q) && (Wants(q) ==> Wants(p))
            && q == p.(remoteRequest := q.remoteRequest, remoteGrant := q.remoteGrant)
  {
  }

  lemma RequestAttended(d: Side, n: int)
    requires Attended(d) && AcceptControl(d.peer, Request(n)).2 == Accepted
    ensures Attended(d.Heard(Request(n)))
  {
    TakenAtOnce(d.peer.(lastRemoteRequest := n, remoteRequest := n));
    hide TakeGrant;
    hide CanGrant;
  }

  lemma DescribedAttended(d: Side, what: Description, retry: bool)
    requires Attended(d) && AcceptDescription(d.peer, what, retry).1 == Accepted
    ensures Attended(d.Described(what, retry))
  {
  }

  /** Every step of either agent leaves both attended. */
  lemma StepAttends(s: System, t: Step)
    requires Consistent(s) && Enabled(s, t) && Attended(s.initiator) && Attended(s.responder)
    ensures Attended(Apply(s, t).initiator) && Attended(Apply(s, t).responder)
  {
    hide Consistent;
    StepKeeps(s, t);
    var d := s.At(t.who);
    match t
    case RunNegotiate(_, created) => NegotiatedAttended(d, created);
    case RunScheduled(_, created) => ScheduledAttended(d, created);
    case RunContinue(_) => ContinuedAttended(d);
    case DeliverControl(w) => HeardAttended(d, s.ControlTo(w)[0]);
    case DeliverDescription(w, retry) => DescribedAttended(d, s.SignalTo(w)[0], retry);
    case _ =>
  }

  lemma {:induction false} ExecutionAttended(steps: seq<Step>, states: seq<System>, k: nat)
    requires Execution(steps, states) && k < |states|
    ensures Attended(states[k].initiator) && Attended(states[k].responder)
  {
    hide Enabled;
    hide Apply;
    hide Attended;
    if k == 0 {
      FreshAttended();
    } else {
      ExecutionAttended(steps, states, k - 1);
      ExecutionConsistent(steps, states, k - 1);
      hide Consistent;
      StepAttends(states[k - 1], steps[k - 1]);
    }
  }

  lemma FreshAttended()
    ensures Attended(InitialSystem().initiator) && Attended(InitialSystem().responder)
  {
  }

  /** In every execution, a stored request that the initiator could grant has a thread on
      its way to grant it, a wish to negotiate that nothing hinders has a thread on its way
      unless the connection failed to produce an offer, and a finished handshake has one too. */
  lemma NothingIsForgotten(steps: seq<Step>, states: seq<System>, k: nat)
    requires Execution(steps, states) && k < |states|
    ensures var a, b := states[k].initiator, states[k].responder;
            && (a.peer.remoteRequest != 0 ==> !a.peer.ready || a.peer.signaling != Stable || a.continues > 0)
            && (forall d :: (d == a || d == b) && Wants(d.peer) ==> d.continues > 0 || d.negotiates > 0 || d.failed)
            && (forall d :: (d == a || d == b) && d.peer.remoteHello && d.peer.remoteAck && !d.peer.ready ==> d.marks > 0)
  {
    ExecutionAttended(steps, states, k);
    ExecutionConsistent(steps, states, k);
    RolesFixed(states[k]);
    hide Consistent;
    hide Execution;
  }

  lemma RolesFixed(s: System)
    requires Consistent(s)
    ensures s.initiator.peer.role == Initiator && s.responder.peer.role == Responder
    ensures s.initiator.peer.remoteRequest != 0 ==> s.initiator.peer.remoteGrant == 0
  {
  }

  /** In every execution, a request that reaches an initiator which is ready, stable and owes
      no grant is granted at once: the grant is on its way when the delivery ends. */
  lemma GrantedAtOnce(steps: seq<Step>, states: seq<System>, k: nat, n: int)
    requires Execution(steps, states) && k < |steps| && steps[k] == DeliverControl(Initiator)
    requires states[k].controlToInitiator != [] && states[k].controlToInitiator[0] == Request(n)
    requires var p := states[k].initiator.peer; p.ready && p.signaling == Stable && p.remoteGrant == 0
    ensures Turns(states[k + 1].initiator.controlSends) == [Grant(n)]
    ensures states[k + 1].initiator.peer.remoteGrant == n && states[k + 1].initiator.peer.remoteRequest == 0
  {
    ExecutionConsistent(steps, states, k);
    RequestArrives(states[k], n);
  }

  lemma RequestArrives(s: System, n: int)
    requires Consistent(s) && s.controlToInitiator != [] && s.controlToInitiator[0] == Request(n)
    ensures n != 0 && n == s.responder.peer.localRequest
    ensures var p, u := s.initiator.peer, Apply(s, DeliverControl(Initiator)).initiator;
            if p.ready && p.signaling == Stable then
              Turns(u.controlSends) == [Grant(n)] && u.peer == p.(lastRemoteRequest := n, remoteGrant := n)
            else Turns(u.controlSends) == [] && u.peer == p.(lastRemoteRequest := n, remoteRequest := n)
  {
    TurnsHead(s.controlToInitiator);
    SideAppend(s, Initiator, Grant(n));
  }

  // ---------------------------------------------------------------- a turn ends in an offer

  /** The steps that finish what was begun: sends, deliveries and started threads. */
  predicate Scheduled(t: Step) {
    !t.OpenControl? && !t.RunNegotiate? && (t.RunScheduled? ==> t.created)
  }

  /** The responder has asked for a turn or holds one. */
  predicate TurnOpen(s: System) {
    s.responder.peer.localRequest != 0 || s.responder.peer.localGrant != 0
  }

  predicate Offered(s: System) {
    s.responder.peer.signaling == HaveLocalOffer && Unanswered(s, Responder) == 1
  }

  ghost predicate Good(s: System) {
    && Consistent(s) && Attended(s.initiator) && Attended(s.responder)
    && s.initiator.peer.ready && s.responder.peer.ready && !s.responder.failed
  }

  /** How far the turn still is from its offer. */
  function Rank(s: System): nat {
    var ahead, back := |s.controlToResponder|, |s.controlToInitiator|;
    if s.responder.peer.localGrant != 0 then (if s.responder.negotiates > 0 then 1 else 2)
    else if Turns(s.controlToResponder) != [] then 3 + ahead
    else if Turns(s.initiator.controlSends) != [] then 5 + ahead
    else if s.initiator.peer.remoteRequest != 0 then
      ahead + (if s.initiator.peer.signaling == Stable then 6 else if s.signalToInitiator != [] then 7
               else if s.signalToResponder != [] then 8 else 9)
    else if Turns(s.controlToInitiator) != [] then 10 + ahead + back
    else 12 + ahead + back
  }

  /** Where the one turn message of a list stands. */
  lemma {:induction false} TurnAt(q: seq<Control>) returns (k: nat)
    requires |Turns(q)| == 1
    ensures k < |q| && q[k] == Turns(q)[0]
  {
    if q[0].Request? || q[0].Grant? {
      k := 0;
    } else {
      k := TurnAt(q[1..]);
      k := k + 1;
    }
  }

  ghost predicate Closer(s: System, t: Step) {
    && Enabled(s, t) && Scheduled(t)
    && var u := Apply(s, t);
       Good(u) && (Offered(u) || (TurnOpen(u) && Rank(u) < Rank(s)))
  }

  lemma StepGood(s: System, t: Step)
    requires Good(s) && Enabled(s, t) && Scheduled(t)
    ensures Good(Apply(s, t))
  {
    StepKeeps(s, t);
    StepAttends(s, t);
    ReadyKept(s, t);
    hide Consistent;
    hide Attended;
    hide Apply;
  }

  lemma ReadyKept(s: System, t: Step)
    requires Enabled(s, t) && Scheduled(t) && s.initiator.peer.ready && s.responder.peer.ready && !s.responder.failed
    ensures Apply(s, t).initiator.peer.ready && Apply(s, t).responder.peer.ready && !Apply(s, t).responder.failed
  {
    var d := s.At(t.who);
    match t
    case RunScheduled(_, _) => NegotiatedReady(d.(negotiates := d.negotiates - 1));
    case RunContinue(_) => ContinuedReady(d);
    case DeliverControl(w) => HeardReady(d, s.ControlTo(w)[0]);
    case DeliverDescription(w, retry) => DescribedReady(d, s.SignalTo(w)[0], retry);
    case _ =>
    hide Negotiate;
    hide AcceptControl;
    hide AcceptDescription;
    hide TakeGrant;
  }

  lemma NegotiatedReady(d: Side)
    ensures d.Negotiated(true).peer.ready == d.peer.ready && (!d.failed ==> !d.Negotiated(true).failed)
  {
  }

  lemma ContinuedReady(d: Side)
    requires d.continues > 0
    ensures d.Continued().peer.ready == d.peer.ready && d.Continued().failed == d.failed
  {
  }

  lemma HeardReady(d: Side, m: Control)
    ensures d.Heard(m).peer.ready == d.peer.ready && d.Heard(m).failed == d.failed
  {
  }

  lemma DescribedReady(d: Side, what: Description, retry: bool)
    ensures d.Described(what, retry).peer.ready == d.peer.ready && d.Described(what, retry).failed == d.failed
  {
  }

  /** The turn is held: the started thread makes the offer. */
  lemma HeldCloser(s: System) returns (t: Step)
    requires Good(s) && s.responder.peer.localGrant != 0
    ensures Closer(s, t)
  {
    assert Quiet(s);
    assert Wants(s.responder.peer);
    t := if s.responder.negotiates > 0 then RunScheduled(Responder, true) else RunContinue(Responder);
    StepGood(s, t);
    OffersUnfold();
  }

  /** The grant is on its way. */
  lemma GrantCloser(s: System) returns (t: Step)
    requires Good(s) && s.responder.peer.localGrant == 0 && (Turns(s.controlToResponder) != [] || Turns(s.initiator.controlSends) != [])
    ensures Closer(s, t)
  {
    var n := s.responder.peer.nextSequence;
    assert Quiet(s) && Turn(s, [], [Grant(n)], n, 0, n, 0);
    if Turns(s.controlToResponder) != [] {
      t := DeliverControl(Responder);
      TurnsHead(s.controlToResponder);
    } else {
      var k := TurnAt(s.initiator.controlSends);
      t := FinishControlSend(Initiator, k);
      TurnsAppend(s.controlToResponder, Grant(n));
    }
    StepGood(s, t);
    hide Consistent;
  }

  /** The initiator holds the request: it grants it, or first finishes its own offer. */
  lemma StoredCloser(s: System) returns (t: Step)
    requires Good(s) && s.initiator.peer.remoteRequest != 0
    ensures Closer(s, t)
  {
    var n := s.responder.peer.nextSequence;
    assert Turn(s, [], [], n, n, 0, 0) && n > 0;
    if s.initiator.peer.signaling == Stable {
      t := RunContinue(Initiator);
      SideAppend(s, Initiator, Grant(n));
    } else if s.signalToInitiator != [] {
      t := DeliverDescription(Initiator, false);
    } else if s.signalToResponder != [] {
      t := DeliverDescription(Responder, false);
    } else {
      t := FinishOfferSend(Initiator);
    }
    StepGood(s, t);
    hide Consistent;
  }

  /** The request is on its way: to be delivered, */
  lemma SentCloser(s: System) returns (t: Step)
    requires Good(s) && TurnOpen(s) && s.responder.peer.localGrant == 0 && s.initiator.peer.remoteRequest == 0
    requires Turns(s.controlToResponder) == [] && Turns(s.initiator.controlSends) == [] && Turns(s.controlToInitiator) != []
    ensures Closer(s, t)
  {
    var n := s.responder.peer.nextSequence;
    assert Turn(s, [Request(n)], [], n, 0, 0, 0) && n > 0;
    t := DeliverControl(Initiator);
    TurnsHead(s.controlToInitiator);
    if s.controlToInitiator[0].Request? { RequestArrives(s, n); } else { SideAppend(s, Initiator, Ack); }
    StepGood(s, t);
    hide Consistent;
  }

  /** or still to be sent. */
  lemma UnsentCloser(s: System) returns (t: Step)
    requires Good(s) && TurnOpen(s) && s.responder.peer.localGrant == 0 && s.initiator.peer.remoteRequest == 0
    requires Turns(s.controlToResponder) == [] && Turns(s.initiator.controlSends) == [] && Turns(s.controlToInitiator) == []
    ensures Closer(s, t)
  {
    var n := s.responder.peer.nextSequence;
    assert Turn(s, [Request(n)], [], n, 0, 0, 0) && n > 0;
    var k := TurnAt(s.responder.controlSends);
    t := FinishControlSend(Responder, k);
    TurnsAppend(s.controlToInitiator, Request(n));
    StepGood(s, t);
    hide Consistent;
  }

  lemma SomeStepCloser(s: System) returns (t: Step)
    requires Good(s) && TurnOpen(s)
    ensures Closer(s, t)
  {
    hide Good;
    hide Closer;
    if s.responder.peer.localGrant != 0 {
      t := HeldCloser(s);
    } else if Turns(s.controlToResponder) != [] || Turns(s.initiator.controlSends) != [] {
      t := GrantCloser(s);
    } else if s.initiator.peer.remoteRequest != 0 {
      t := StoredCloser(s);
    } else if Turns(s.controlToInitiator) != [] {
      t := SentCloser(s);
    } else {
      t := UnsentCloser(s);
    }
  }

  /** A continuation of `s` by steps that only finish what was begun. */
  ghost predicate Finishes(s: System, steps: seq<Step>, states: seq<System>) {
    && |states| == |steps| + 1 && states[0] == s
    && forall k :: 0 <= k < |steps| ==> Scheduled(steps[k]) && Enabled(states[k], steps[k]) && states[k + 1] == Apply(states[k], steps[k])
  }

  lemma {:induction false} TurnFinishes(s: System) returns (steps: seq<Step>, states: seq<System>)
    requires Good(s) && TurnOpen(s)
    ensures Finishes(s, steps, states) && Offered(states[|steps|])
    decreases Rank(s)
  {
    hide Good;
    hide TurnOpen;
    hide Rank;
    hide Apply;
    hide Enabled;
    hide Offered;
    var t := SomeStepCloser(s);
    var u := Apply(s, t);
    if Offered(u) {
      steps, states := [t], [s, u];
    } else {
      steps, states := TurnFinishes(u);
      steps, states := [t] + steps, [s] + states;
    }
  }

  /** In every reachable state in which the responder has asked for a turn or holds one, both
      agents are ready and no offer has failed, finishing what was begun, and nothing else,
      brings the turn to the responder's offer: each request is granted and used. */
  lemma TurnCompletes(steps: seq<Step>, states: seq<System>, k: nat) returns (more: seq<Step>, reached: seq<System>)
    requires Execution(steps, states) && k < |states| && TurnOpen(states[k])
    requires states[k].initiator.peer.ready && states[k].responder.peer.ready && !states[k].responder.failed
    ensures Finishes(states[k], more, reached) && Offered(reached[|more|])
  {
    ExecutionConsistent(steps, states, k);
    ExecutionAttended(steps, states, k);
    hide Consistent;
    hide Attended;
    hide Execution;
    more, reached := TurnFinishes(states[k]);
  }
}
