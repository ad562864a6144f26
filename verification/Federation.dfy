/** Negotiation turns between the two media agents of one federation link.
    Offers and answers travel on an ordered signalling path; the responder asks for
    its turn, and the initiator grants it, on an ordered control channel.  The code
    leaves its mutex before it sends an offer, a request or a grant, so every such
    message waits in a bag of unfinished sends until a separate step queues it, and the
    threads it starts wait until they are scheduled. */
module Federation {

  datatype Role = Initiator | Responder

  datatype Signaling = Stable | HaveLocalOffer

  datatype Description = Offer | Answer

  datatype Control = Hello | Ack | Request(sequence: int) | Grant(sequence: int)

  datatype Verdict =
    | Accepted
    | Unscheduled | Ungranted | CrossedGrant  // refused offers
    | UnexpectedAnswer                        // refused by the peer connection
    | InvalidRequest | InvalidGrant           // refused control messages

  /** What a critical section leaves to be sent after the mutex is released. */
  datatype Outgoing = Nothing | SendOffer | SendControl(message: Control)

  /** The fields of one federationPeer that decide negotiation. */
  datatype Peer = Peer(
    role: Role,
    makingOffer: bool,
    needsNegotiation: bool,
    signaling: Signaling,
    nextSequence: int,
    localRequest: int,
    localGrant: int,
    lastRemoteRequest: int,
    remoteRequest: int,
    remoteGrant: int,
    remoteHello: bool,
    remoteAck: bool,
    ready: bool)

  function FreshPeer(role: Role): Peer {
    Peer(role, false, false, Stable, 0, 0, 0, 0, 0, 0, false, false, false)
  }

  // ---------------------------------------------------------------- critical sections

  function TakeGrant(p: Peer): (Peer, Outgoing) {
    if p.role != Initiator || !p.ready || p.remoteRequest == 0 || p.remoteGrant != 0
       || p.makingOffer || p.signaling != Stable
    then (p, Nothing)
    else (p.(remoteRequest := 0, remoteGrant := p.remoteRequest), SendControl(Grant(p.remoteRequest)))
  }

  /** `created` says whether the peer connection produced and applied a local offer. */
  function Negotiate(p: Peer, created: bool): (Peer, Outgoing) {
    var q := p.(needsNegotiation := true);
    if p.makingOffer || p.signaling != Stable || (p.role == Initiator && p.remoteGrant != 0) then
      (q, Nothing)
    else if p.role == Responder && !p.ready then
      (q, Nothing)
    else if p.role == Responder && p.localGrant == 0 then
      if p.localRequest != 0 then (q, Nothing)
      else
        (q.(nextSequence := p.nextSequence + 1, localRequest := p.nextSequence + 1),
         SendControl(Request(p.nextSequence + 1)))
    else if !created then
      (q, Nothing)
    else
      (q.(needsNegotiation := false, localGrant := 0, signaling := HaveLocalOffer), SendOffer)
  }

  /** An accepted offer is answered inside the same critical section.  `retry` says
      whether an answer left an active outgoing track unaccepted. */
  function AcceptDescription(p: Peer, d: Description, retry: bool): (Peer, Verdict) {
    match d
    case Offer =>
      if p.makingOffer || p.signaling != Stable then (p, Unscheduled)
      else if p.role == Initiator then
        if p.remoteGrant == 0 then (p, Ungranted) else (p.(remoteGrant := 0), Accepted)
      else if p.localGrant != 0 then (p, CrossedGrant)
      else (p, Accepted)
    case Answer =>
      if p.signaling != HaveLocalOffer then (p, UnexpectedAnswer)
      else (p.(signaling := Stable, needsNegotiation := p.needsNegotiation || retry), Accepted)
  }

  function AcceptControl(p: Peer, m: Control): (Peer, Outgoing, Verdict) {
    match m
    case Hello => (p.(remoteHello := true), SendControl(Ack), Accepted)
    case Ack => (p.(remoteAck := true), Nothing, Accepted)
    case Request(n) =>
      if p.role != Initiator || n <= p.lastRemoteRequest then (p, Nothing, InvalidRequest)
      else
        var (q, out) := TakeGrant(p.(lastRemoteRequest := n, remoteRequest := n));
        (q, out, Accepted)
    case Grant(n) =>
      if p.role == Initiator || n != p.localRequest then (p, Nothing, InvalidGrant)
      else (p.(localRequest := 0, localGrant := n), Nothing, Accepted)
  }

  function MarkReady(p: Peer): Peer {
    if !p.ready && p.remoteHello && p.remoteAck then p.(ready := true) else p
  }

  /** The peer would ask its connection for an offer. */
  predicate Offers(p: Peer) {
    && !p.makingOffer && p.signaling == Stable
    && (if p.role == Initiator then p.remoteGrant == 0 else p.ready && p.localGrant != 0)
  }

  /** A granted request, or else whether negotiation is to be started. */
  function Continue(p: Peer): (Peer, Outgoing, bool) {
    var (q, out) := TakeGrant(p);
    (q, out, out.Nothing? && p.needsNegotiation)
  }

  /** The mutable peer: each method is one critical section of the code. */
  class FederationPeer {
    const role: Role
    var makingOffer: bool
    var needsNegotiation: bool
    var signaling: Signaling
    var nextSequence: int
    var localRequest: int
    var localGrant: int
    var lastRemoteRequest: int
    var remoteRequest: int
    var remoteGrant: int
    var remoteHello: bool
    var remoteAck: bool
    var ready: bool

    function View(): Peer
      reads this
    {
      Peer(role, makingOffer, needsNegotiation, signaling, nextSequence, localRequest, localGrant,
           lastRemoteRequest, remoteRequest, remoteGrant, remoteHello, remoteAck, ready)
    }

    constructor (role: Role)
      ensures View() == FreshPeer(role)
    {
      this.role := role;
      makingOffer, needsNegotiation, signaling := false, false, Stable;
      nextSequence, localRequest, localGrant := 0, 0, 0;
      lastRemoteRequest, remoteRequest, remoteGrant := 0, 0, 0;
      remoteHello, remoteAck, ready := false, false, false;
    }

    method TakeRemoteGrant() returns (out: Outgoing)
      modifies this
      ensures (View(), out) == TakeGrant(old(View()))
    {
      if role != Initiator || !ready || remoteRequest == 0 || remoteGrant != 0
         || makingOffer || signaling != Stable {
        return Nothing;
      }
      var sequence := remoteRequest;
      remoteRequest := 0;
      remoteGrant := sequence;
      out := SendControl(Grant(sequence));
    }

    method StartNegotiation(created: bool) returns (out: Outgoing)
      modifies this
      ensures (View(), out) == Negotiate(old(View()), created)
    {
      needsNegotiation := true;
      if makingOffer || signaling != Stable || (role == Initiator && remoteGrant != 0) {
        return Nothing;
      }
      if role != Initiator {
        if !ready { return Nothing; }
        if localGrant == 0 {
          if localRequest != 0 { return Nothing; }
          nextSequence := nextSequence + 1;
          localRequest := nextSequence;
          return SendControl(Request(nextSequence));
        }
      }
      makingOffer := true;
      if !created {
        makingOffer := false;
        return Nothing;
      }
      signaling := HaveLocalOffer;
      needsNegotiation := false;
      localGrant := 0;
      makingOffer := false;
      out := SendOffer;
    }

    method ContinueNegotiation() returns (out: Outgoing, negotiate: bool)
      modifies this
      ensures (View(), out, negotiate) == Continue(old(View()))
    {
      out := TakeRemoteGrant();
      negotiate := out.Nothing? && needsNegotiation;
    }

    method BecomeReady() returns (became: bool)
      modifies this
      ensures View() == MarkReady(old(View())) && became == (ready && !old(ready))
    {
      became := !ready && remoteHello && remoteAck;
      if became { ready := true; }
    }

    method AcceptSignal(d: Description, retry: bool) returns (verdict: Verdict)
      modifies this
      ensures (View(), verdict) == AcceptDescription(old(View()), d, retry)
    {
      if d == Offer {
        if makingOffer || signaling != Stable { return Unscheduled; }
        if role == Initiator {
          if remoteGrant == 0 { return Ungranted; }
          remoteGrant := 0;
        } else if localGrant != 0 {
          return CrossedGrant;
        }
      } else {
        if signaling != HaveLocalOffer { return UnexpectedAnswer; }
        signaling := Stable;
        if retry { needsNegotiation := true; }
      }
      verdict := Accepted;
    }

    method AcceptControlMessage(m: Control) returns (out: Outgoing, verdict: Verdict)
      modifies this
      ensures (View(), out, verdict) == AcceptControl(old(View()), m)
    {
      out, verdict := Nothing, Accepted;
      match m
      case Hello =>
        remoteHello := true;
        out := SendControl(Ack);
      case Ack =>
        remoteAck := true;
      case Request(n) =>
        if role != Initiator || n <= lastRemoteRequest { return Nothing, InvalidRequest; }
        lastRemoteRequest := n;
        remoteRequest := n;
        out := TakeRemoteGrant();
      case Grant(n) =>
        if role == Initiator || n != localRequest { return Nothing, InvalidGrant; }
        localRequest := 0;
        localGrant := n;
    }
  }

  // ---------------------------------------------------------------- the two-agent system

  /** One agent together with the sends its threads have not finished and the threads that
      were started and have not run: continueNegotiation, negotiate and markReady.  `failed`
      remembers that the connection produced no offer when it was last asked for one. */
  datatype Side = Side(
    peer: Peer, controlSends: seq<Control>, offerSends: nat,
    continues: nat, negotiates: nat, marks: nat, failed: bool)
  {
    function After(p: Peer, out: Outgoing): Side {
      match out
      case Nothing => this.(peer := p)
      case SendOffer => this.(peer := p, offerSends := offerSends + 1)
      case SendControl(m) => this.(peer := p, controlSends := controlSends + [m])
    }

    function Negotiated(created: bool): Side {
      var (p, out) := Negotiate(peer, created);
      After(p, out).(failed := !out.SendOffer? && (failed || Offers(peer)))
    }

    function Continued(): Side
      requires continues > 0
    {
      var (p, out, negotiate) := Continue(peer);
      After(p, out).(continues := continues - 1, negotiates := negotiates + if negotiate then 1 else 0)
    }

    function Marked(): Side
      requires marks > 0
    {
      var p := MarkReady(peer);
      this.(peer := p, marks := marks - 1, continues := continues + if p.ready && !peer.ready then 1 else 0)
    }

    function Heard(m: Control): Side {
      var (p, out, verdict) := AcceptControl(peer, m);
      var u := After(p, out);
      if verdict != Accepted then u
      else
        match m
        case Hello => u.(marks := marks + 1)
        case Ack => u.(marks := marks + 1)
        case Grant(_) => u.(negotiates := negotiates + 1)
        case Request(_) => u
    }

    function Described(d: Description, retry: bool): Side {
      var (p, verdict) := AcceptDescription(peer, d, retry);
      this.(peer := p, continues := continues + if verdict == Accepted then 1 else 0)
    }
  }

  function Idling(p: Peer): Side {
    Side(p, [], 0, 0, 0, 0, false)
  }

  /** `control[x]` and `signal[x]` are the ordered paths that lead to x. */
  datatype System = System(
    initiator: Side, responder: Side,
    controlToInitiator: seq<Control>, controlToResponder: seq<Control>,
    signalToInitiator: seq<Description>, signalToResponder: seq<Description>)
  {
    function At(r: Role): Side {
      if r == Initiator then initiator else responder
    }
    function With(r: Role, side: Side): System {
      if r == Initiator then this.(initiator := side) else this.(responder := side)
    }
    function ControlTo(r: Role): seq<Control> {
      if r == Initiator then controlToInitiator else controlToResponder
    }
    function WithControlTo(r: Role, q: seq<Control>): System {
      if r == Initiator then this.(controlToInitiator := q) else this.(controlToResponder := q)
    }
    function SignalTo(r: Role): seq<Description> {
      if r == Initiator then signalToInitiator else signalToResponder
    }
    function WithSignalTo(r: Role, q: seq<Description>): System {
      if r == Initiator then this.(signalToInitiator := q) else this.(signalToResponder := q)
    }
  }

  function Other(r: Role): Role {
    if r == Initiator then Responder else Initiator
  }

  function InitialSystem(): System {
    System(Idling(FreshPeer(Initiator)), Idling(FreshPeer(Responder)), [], [], [], [])
  }

  /** Every started thread of either agent may run at any moment, and tracks may ask for a
      negotiation at any moment; an agent that has closed is one that takes no further step. */
  datatype Step =
    | OpenControl(who: Role)
    | RunNegotiate(who: Role, created: bool)       // asked for by a track or the connection
    | RunScheduled(who: Role, created: bool)       // a negotiate thread that was started
    | RunContinue(who: Role)
    | RunMarkReady(who: Role)
    | FinishControlSend(who: Role, index: nat)
    | FinishOfferSend(who: Role)
    | DeliverControl(who: Role)
    | DeliverDescription(who: Role, retry: bool)

  predicate Enabled(s: System, t: Step) {
    match t
    case RunScheduled(w, _) => s.At(w).negotiates > 0
    case RunContinue(w) => s.At(w).continues > 0
    case RunMarkReady(w) => s.At(w).marks > 0
    case FinishControlSend(w, k) => k < |s.At(w).controlSends|
    case FinishOfferSend(w) => s.At(w).offerSends > 0
    case DeliverControl(w) => s.ControlTo(w) != []
    case DeliverDescription(w, _) => s.SignalTo(w) != []
    case _ => true
  }

  /** The verdict of the receiver on the message that a delivery step hands over. */
  function Judge(s: System, t: Step): Verdict
    requires Enabled(s, t)
  {
    match t
    case DeliverControl(w) => AcceptControl(s.At(w).peer, s.ControlTo(w)[0]).2
    case DeliverDescription(w, retry) => AcceptDescription(s.At(w).peer, s.SignalTo(w)[0], retry).1
    case _ => Accepted
  }

  function Apply(s: System, t: Step): System
    requires Enabled(s, t)
  {
    var side := s.At(t.who);
    match t
    case OpenControl(w) =>
      s.With(w, side.(controlSends := side.controlSends + [Hello]))
    case RunNegotiate(w, created) => s.With(w, side.Negotiated(created))
    case RunScheduled(w, created) => s.With(w, side.(negotiates := side.negotiates - 1).Negotiated(created))
    case RunContinue(w) => s.With(w, side.Continued())
    case RunMarkReady(w) => s.With(w, side.Marked())
    case FinishControlSend(w, k) =>
      var sends := side.controlSends;
      s.With(w, side.(controlSends := sends[..k] + sends[k + 1..]))
       .WithControlTo(Other(w), s.ControlTo(Other(w)) + [sends[k]])
    case FinishOfferSend(w) =>
      s.With(w, side.(offerSends := side.offerSends - 1))
       .WithSignalTo(Other(w), s.SignalTo(Other(w)) + [Offer])
    case DeliverControl(w) =>
      s.With(w, side.Heard(s.ControlTo(w)[0])).WithControlTo(w, s.ControlTo(w)[1..])
    case DeliverDescription(w, retry) =>
      var d := s.SignalTo(w)[0];
      var u := s.With(w, side.Described(d, retry)).WithSignalTo(w, s.SignalTo(w)[1..]);
      if d == Offer && AcceptDescription(side.peer, d, retry).1 == Accepted
      then u.WithSignalTo(Other(w), u.SignalTo(Other(w)) + [Answer])
      else u
  }

  /** `states` is an execution of the two agents from their initial state. */
  ghost predicate Execution(steps: seq<Step>, states: seq<System>) {
    && |states| == |steps| + 1
    && states[0] == InitialSystem()
    && forall k :: 0 <= k < |steps| ==> Enabled(states[k], steps[k]) && states[k + 1] == Apply(states[k], steps[k])
  }

  // ---------------------------------------------------------------- what is claimed

  /** The turn messages among control messages, in order. */
  function Turns(q: seq<Control>): seq<Control> {
    if q == [] then []
    else if q[0].Request? || q[0].Grant? then [q[0]] + Turns(q[1..])
    else Turns(q[1..])
  }

  function OffersIn(q: seq<Description>): nat {
    if q == [] then 0 else (if q[0] == Offer then 1 else 0) + OffersIn(q[1..])
  }

  /** Offers of `who` that the other side has not answered yet. */
  function Unanswered(s: System, who: Role): nat {
    s.At(who).offerSends + OffersIn(s.SignalTo(Other(who)))
  }

  /** Every place a responder's turn can be: asked for, held back by the initiator,
      granted, or spent on an offer that is still unanswered. */
  function TurnCount(s: System): nat {
    |Turns(s.responder.controlSends)| + |Turns(s.controlToInitiator)|
    + (if s.initiator.peer.remoteRequest != 0 then 1 else 0)
    + |Turns(s.initiator.controlSends)| + |Turns(s.controlToResponder)|
    + (if s.responder.peer.localGrant != 0 then 1 else 0)
    + Unanswered(s, Responder)
  }

  predicate BothHaveLocalOffer(s: System) {
    s.initiator.peer.signaling == HaveLocalOffer && s.responder.peer.signaling == HaveLocalOffer
  }

  /** The half-duplex view of offer/answer (section 4 of RFC 3264). */
  datatype Exchange = Idle | OfferedBy(who: Role) | Glare

  function ExchangeOf(s: System): Exchange {
    match (Unanswered(s, Initiator), Unanswered(s, Responder))
    case (0, 0) => Idle
    case (1, 0) => OfferedBy(Initiator)
    case (0, 1) => OfferedBy(Responder)
    case _ => Glare
  }

  /** An exchange starts only when none is open and is closed only by its answer. */
  predicate HalfDuplex(before: Exchange, after: Exchange) {
    !after.Glare? && (before == after || before == Idle || after == Idle)
  }

  // ---------------------------------------------------------------- the inductive invariant

  /** Where the signalling of the pair stands. */
  predicate Quiet(s: System) {
    && s.initiator.peer.signaling == Stable && s.responder.peer.signaling == Stable
    && s.initiator.offerSends == 0 && s.responder.offerSends == 0
    && s.signalToInitiator == [] && s.signalToResponder == []
  }
  predicate InitiatorOffered(s: System) {
    && s.initiator.peer.signaling == HaveLocalOffer && s.responder.peer.signaling == Stable
    && s.responder.offerSends == 0 && s.signalToInitiator == []
    && ((s.initiator.offerSends == 1 && s.signalToResponder == [])
        || (s.initiator.offerSends == 0 && s.signalToResponder == [Offer]))
  }
  predicate ResponderAnswered(s: System) {
    && s.initiator.peer.signaling == HaveLocalOffer && s.responder.peer.signaling == Stable
    && s.initiator.offerSends == 0 && s.responder.offerSends == 0
    && s.signalToInitiator == [Answer] && s.signalToResponder == []
  }
  predicate ResponderOffered(s: System) {
    && s.initiator.peer.signaling == Stable && s.responder.peer.signaling == HaveLocalOffer
    && s.initiator.offerSends == 0 && s.signalToResponder == []
    && ((s.responder.offerSends == 1 && s.signalToInitiator == [])
        || (s.responder.offerSends == 0 && s.signalToInitiator == [Offer]))
  }
  predicate InitiatorAnswered(s: System) {
    && s.initiator.peer.signaling == Stable && s.responder.peer.signaling == HaveLocalOffer
    && s.initiator.offerSends == 0 && s.responder.offerSends == 0
    && s.signalToInitiator == [] && s.signalToResponder == [Answer]
  }
  predicate InitiatorReoffered(s: System) {
    && s.initiator.peer.signaling == HaveLocalOffer && s.responder.peer.signaling == HaveLocalOffer
    && s.responder.offerSends == 0 && s.signalToInitiator == []
    && ((s.initiator.offerSends == 1 && s.signalToResponder == [Answer])
        || (s.initiator.offerSends == 0 && s.signalToResponder == [Answer, Offer]))
  }

  /** Where the responder's turn stands: requests and grants on their way, then the four
      fields that remember it. */
  predicate Turn(s: System, asking: seq<Control>, granting: seq<Control>,
                 localRequest: int, remoteRequest: int, remoteGrant: int, localGrant: int)
  {
    && ((Turns(s.responder.controlSends) == asking && Turns(s.controlToInitiator) == [])
        || (Turns(s.responder.controlSends) == [] && Turns(s.controlToInitiator) == asking))
    && ((Turns(s.initiator.controlSends) == granting && Turns(s.controlToResponder) == [])
        || (Turns(s.initiator.controlSends) == [] && Turns(s.controlToResponder) == granting))
    && s.responder.peer.localRequest == localRequest && s.responder.peer.localGrant == localGrant
    && s.initiator.peer.remoteRequest == remoteRequest && s.initiator.peer.remoteGrant == remoteGrant
  }

  predicate Shape(s: System) {
    var a, b := s.initiator.peer, s.responder.peer;
    && a.role == Initiator && b.role == Responder
    && !a.makingOffer && !b.makingOffer
    && a.localRequest == 0 && a.localGrant == 0
    && b.remoteRequest == 0 && b.remoteGrant == 0
    && 0 <= a.lastRemoteRequest <= b.nextSequence
  }

  predicate Consistent(s: System) {
    var n := s.responder.peer.nextSequence;
    && Shape(s)
    && (|| ((Quiet(s) || InitiatorOffered(s) || ResponderAnswered(s) || InitiatorAnswered(s) || InitiatorReoffered(s))
            && Turn(s, [], [], 0, 0, 0, 0))
        || ((Quiet(s) || InitiatorOffered(s) || ResponderAnswered(s)) && n > 0
            && ((Turn(s, [Request(n)], [], n, 0, 0, 0) && s.initiator.peer.lastRemoteRequest < n)
                || Turn(s, [], [], n, n, 0, 0)))
        || (Quiet(s) && n > 0 && (Turn(s, [], [Grant(n)], n, 0, n, 0) || Turn(s, [], [], 0, 0, n, n)))
        || (ResponderOffered(s) && n > 0 && Turn(s, [], [], 0, 0, n, 0)))
  }

  lemma {:induction false} TurnsConcat(p: seq<Control>, q: seq<Control>)
    ensures Turns(p + q) == Turns(p) + Turns(q)
  {
    if p == [] {
      assert p + q == q;
    } else {
      assert (p + q)[1..] == p[1..] + q;
      TurnsConcat(p[1..], q);
    }
  }

  lemma TurnsRemove(q: seq<Control>, k: nat)
    requires k < |q|
    requires |Turns(q)| <= 1
    ensures Turns(q[..k] + q[k + 1..]) == if Turns([q[k]]) == [] then Turns(q) else []
    ensures Turns([q[k]]) == [] || Turns([q[k]]) == Turns(q)
  {
    assert q == q[..k] + ([q[k]] + q[k + 1..]);
    TurnsConcat(q[..k], [q[k]] + q[k + 1..]);
    TurnsConcat([q[k]], q[k + 1..]);
    TurnsConcat(q[..k], q[k + 1..]);
    hide Turns;
    OneOfThree(Turns(q[..k]), Turns([q[k]]), Turns(q[k + 1..]));
  }

  lemma OneOfThree(a: seq<Control>, b: seq<Control>, c: seq<Control>)
    requires |a + (b + c)| <= 1
    ensures a + c == if b == [] then a + (b + c) else []
    ensures b == [] || b == a + (b + c)
  {
  }

  lemma TurnsAppend(q: seq<Control>, m: Control)
    ensures Turns(q + [m]) == Turns(q) + Turns([m])
    ensures Turns([m]) == if m.Request? || m.Grant? then [m] else []
  {
    TurnsConcat(q, [m]);
  }

  lemma TurnsHead(q: seq<Control>)
    requires q != [] && |Turns(q)| <= 1
    ensures q[0].Request? || q[0].Grant? ==> Turns(q) == [q[0]] && Turns(q[1..]) == []
    ensures !q[0].Request? && !q[0].Grant? ==> Turns(q) == Turns(q[1..])
  {
    if q[0].Request? || q[0].Grant? {
      assert Turns(q) == [q[0]] + Turns(q[1..]);
    }
  }

  lemma SideAppend(s: System, w: Role, m: Control)
    ensures Turns(s.At(w).controlSends + [m]) == Turns(s.At(w).controlSends) + (if m.Request? || m.Grant? then [m] else [])
  {
    TurnsAppend(s.At(w).controlSends, m);
  }

  /** A peer without the fields the invariant does not look at. */
  function Core(p: Peer): Peer {
    p.(needsNegotiation := false, remoteHello := false, remoteAck := false, ready := false)
  }

  /** Two systems that agree on all the invariant looks at. */
  predicate SameTurns(s: System, u: System) {
    && Core(u.initiator.peer) == Core(s.initiator.peer) && Core(u.responder.peer) == Core(s.responder.peer)
    && u.initiator.offerSends == s.initiator.offerSends && u.responder.offerSends == s.responder.offerSends
    && u.signalToInitiator == s.signalToInitiator && u.signalToResponder == s.signalToResponder
    && Turns(u.initiator.controlSends) == Turns(s.initiator.controlSends)
    && Turns(u.responder.controlSends) == Turns(s.responder.controlSends)
    && Turns(u.controlToInitiator) == Turns(s.controlToInitiator)
    && Turns(u.controlToResponder) == Turns(s.controlToResponder)
  }

  lemma SameTurnsKeeps(s: System, u: System)
    requires Consistent(s) && SameTurns(s, u)
    ensures Consistent(u)
  {
  }

  lemma RequestKeeps(s: System, created: bool)
    requires Consistent(s) && Negotiate(s.responder.peer, created).1.SendControl?
    ensures Consistent(Apply(s, RunNegotiate(Responder, created)))
  {
    var n := s.responder.peer.nextSequence + 1;
    SideAppend(s, Responder, Request(n));
    assert Quiet(s) || InitiatorOffered(s) || ResponderAnswered(s);
    assert Turn(s, [], [], 0, 0, 0, 0);
    assert Turn(Apply(s, RunNegotiate(Responder, created)), [Request(n)], [], n, 0, 0, 0);
  }

  lemma OfferKeeps(s: System, w: Role, created: bool)
    requires Consistent(s) && Negotiate(s.At(w).peer, created).1.SendOffer?
    ensures Consistent(Apply(s, RunNegotiate(w, created)))
  {
    var n := s.responder.peer.nextSequence;
    var u := Apply(s, RunNegotiate(w, created));
    if w == Responder {
      assert Quiet(s) && Turn(s, [], [], 0, 0, n, n);
      assert ResponderOffered(u) && Turn(u, [], [], 0, 0, n, 0);
    } else if InitiatorAnswered(s) {
      assert InitiatorReoffered(u) && Turn(u, [], [], 0, 0, 0, 0);
    } else {
      assert Quiet(s) && InitiatorOffered(u);
    }
  }

  lemma ScheduledKeeps(s: System, w: Role, created: bool)
    requires Consistent(s) && Enabled(s, RunScheduled(w, created))
    ensures Consistent(Apply(s, RunScheduled(w, created)))
  {
    hide Consistent;
    NegotiateKeeps(s, w, created);
    SameTurnsKeeps(Apply(s, RunNegotiate(w, created)), Apply(s, RunScheduled(w, created)));
  }

  lemma NegotiateKeeps(s: System, w: Role, created: bool)
    requires Consistent(s)
    ensures Consistent(Apply(s, RunNegotiate(w, created)))
  {
    match Negotiate(s.At(w).peer, created).1
    case Nothing =>
      var u := Apply(s, RunNegotiate(w, created));
      assert SameTurns(s, u);
      SameTurnsKeeps(s, u);
    case SendOffer => OfferKeeps(s, w, created);
    case SendControl(_) => RequestKeeps(s, created);
  }

  lemma LocalKeeps(s: System, t: Step)
    requires Consistent(s) && (t.OpenControl? || t.RunMarkReady?) && Enabled(s, t)
    ensures Consistent(Apply(s, t))
  {
    hide Consistent;
    SideAppend(s, t.who, Hello);
    SameTurnsKeeps(s, Apply(s, t));
  }

  lemma ContinueKeeps(s: System, w: Role)
    requires Consistent(s) && Enabled(s, RunContinue(w))
    ensures Consistent(Apply(s, RunContinue(w)))
  {
    if TakeGrant(s.At(w).peer).1.Nothing? {
      SameTurnsKeeps(s, Apply(s, RunContinue(w)));
    } else {
      GrantKeeps(s, w);
    }
  }

  /** The thread grants the stored request. */
  lemma GrantKeeps(s: System, w: Role)
    requires Consistent(s) && Enabled(s, RunContinue(w)) && !TakeGrant(s.At(w).peer).1.Nothing?
    ensures Consistent(Apply(s, RunContinue(w)))
  {
    SideAppend(s, w, Grant(s.At(w).peer.remoteRequest));
  }

  lemma ControlSendKeeps(s: System, w: Role, k: nat)
    requires Consistent(s) && Enabled(s, FinishControlSend(w, k))
    ensures Consistent(Apply(s, FinishControlSend(w, k)))
  {
    var n, m := s.responder.peer.nextSequence, s.At(w).controlSends[k];
    var u := Apply(s, FinishControlSend(w, k));
    TurnsRemove(s.At(w).controlSends, k);
    TurnsAppend(s.ControlTo(Other(w)), m);
    hide Turns;
    if !m.Request? && !m.Grant? {
      SameTurnsKeeps(s, u);
    } else if w == Responder {
      assert Turn(s, [Request(n)], [], n, 0, 0, 0) && Turn(u, [Request(n)], [], n, 0, 0, 0);
    } else {
      assert Turn(s, [], [Grant(n)], n, 0, n, 0) && Turn(u, [], [Grant(n)], n, 0, n, 0);
    }
  }

  lemma OfferSendKeeps(s: System, w: Role)
    requires Consistent(s) && Enabled(s, FinishOfferSend(w))
    ensures Consistent(Apply(s, FinishOfferSend(w)))
  {
  }

  lemma HandshakeKeeps(s: System, w: Role)
    requires Consistent(s) && s.ControlTo(w) != []
    requires s.ControlTo(w)[0].Hello? || s.ControlTo(w)[0].Ack?
    ensures Judge(s, DeliverControl(w)) == Accepted
    ensures Consistent(Apply(s, DeliverControl(w)))
  {
    TurnsHead(s.ControlTo(w));
    SideAppend(s, w, Ack);
    SameTurnsKeeps(s, Apply(s, DeliverControl(w)));
  }

  lemma RequestDeliveryKeeps(s: System)
    requires Consistent(s) && s.controlToInitiator != []
    requires s.controlToInitiator[0].Request? || s.controlToInitiator[0].Grant?
    ensures Judge(s, DeliverControl(Initiator)) == Accepted
    ensures Consistent(Apply(s, DeliverControl(Initiator)))
  {
    var n := s.responder.peer.nextSequence;
    TurnsHead(s.controlToInitiator);
    assert Turn(s, [Request(n)], [], n, 0, 0, 0);
    assert Turns(s.controlToInitiator)[0] == Request(n);
    SideAppend(s, Initiator, Grant(n));
    var u := Apply(s, DeliverControl(Initiator));
    assert Turn(u, [], [], n, n, 0, 0) || (Quiet(s) && Turn(u, [], [Grant(n)], n, 0, n, 0));
  }

  lemma GrantDeliveryKeeps(s: System)
    requires Consistent(s) && s.controlToResponder != []
    requires s.controlToResponder[0].Request? || s.controlToResponder[0].Grant?
    ensures Judge(s, DeliverControl(Responder)) == Accepted
    ensures Consistent(Apply(s, DeliverControl(Responder)))
  {
    var n := s.responder.peer.nextSequence;
    TurnsHead(s.controlToResponder);
    assert Quiet(s) && Turn(s, [], [Grant(n)], n, 0, n, 0);
    assert Turns(s.controlToResponder)[0] == Grant(n);
    var u := Apply(s, DeliverControl(Responder));
    assert Turn(u, [], [], 0, 0, n, n);
  }

  lemma ControlDeliveryKeeps(s: System, w: Role)
    requires Consistent(s) && Enabled(s, DeliverControl(w))
    ensures Judge(s, DeliverControl(w)) == Accepted
    ensures Consistent(Apply(s, DeliverControl(w)))
  {
    hide Consistent;
    hide Apply;
    var m := s.ControlTo(w)[0];
    if m.Hello? || m.Ack? {
      HandshakeKeeps(s, w);
    } else if w == Initiator {
      RequestDeliveryKeeps(s);
    } else {
      GrantDeliveryKeeps(s);
    }
  }

  lemma OfferDeliveryKeeps(s: System, w: Role, retry: bool)
    requires Consistent(s) && s.SignalTo(w) != [] && s.SignalTo(w)[0] == Offer
    ensures Judge(s, DeliverDescription(w, retry)) == Accepted
    ensures Consistent(Apply(s, DeliverDescription(w, retry)))
  {
    var u := Apply(s, DeliverDescription(w, retry));
    if w == Initiator {
      assert ResponderOffered(s);
      assert InitiatorAnswered(u) && Turn(u, [], [], 0, 0, 0, 0);
    } else {
      assert InitiatorOffered(s);
      assert ResponderAnswered(u);
    }
  }

  lemma AnswerDeliveryKeeps(s: System, w: Role, retry: bool)
    requires Consistent(s) && s.SignalTo(w) != [] && s.SignalTo(w)[0] == Answer
    ensures Judge(s, DeliverDescription(w, retry)) == Accepted
    ensures Consistent(Apply(s, DeliverDescription(w, retry)))
  {
    var u := Apply(s, DeliverDescription(w, retry));
    if w == Initiator {
      assert ResponderAnswered(s);
      assert Quiet(u);
    } else {
      assert InitiatorAnswered(s) ==> Quiet(u);
      assert InitiatorReoffered(s) ==> InitiatorOffered(u);
    }
  }

  lemma DescriptionDeliveryKeeps(s: System, w: Role, retry: bool)
    requires Consistent(s) && Enabled(s, DeliverDescription(w, retry))
    ensures Judge(s, DeliverDescription(w, retry)) == Accepted
    ensures Consistent(Apply(s, DeliverDescription(w, retry)))
  {
    hide Consistent;
    if s.SignalTo(w)[0] == Offer { OfferDeliveryKeeps(s, w, retry); } else { AnswerDeliveryKeeps(s, w, retry); }
  }

  /** Every step of either agent keeps the invariant, and no delivery is refused. */
  lemma StepKeeps(s: System, t: Step)
    requires Consistent(s) && Enabled(s, t)
    ensures Judge(s, t) == Accepted
    ensures Consistent(Apply(s, t))
  {
    hide Consistent;
    hide Apply;
    match t
    case OpenControl(w) => LocalKeeps(s, t);
    case RunNegotiate(w, created) => NegotiateKeeps(s, w, created);
    case RunScheduled(w, created) => ScheduledKeeps(s, w, created);
    case RunContinue(w) => ContinueKeeps(s, w);
    case RunMarkReady(w) => LocalKeeps(s, t);
    case FinishControlSend(w, k) => ControlSendKeeps(s, w, k);
    case FinishOfferSend(w) => OfferSendKeeps(s, w);
    case DeliverControl(w) => ControlDeliveryKeeps(s, w);
    case DeliverDescription(w, retry) => DescriptionDeliveryKeeps(s, w, retry);
  }

  lemma {:induction false} ExecutionConsistent(steps: seq<Step>, states: seq<System>, k: nat)
    requires Execution(steps, states) && k < |states|
    ensures Consistent(states[k])
  {
    if k > 0 {
      ExecutionConsistent(steps, states, k - 1);
      StepKeeps(states[k - 1], steps[k - 1]);
    }
  }

  // ---------------------------------------------------------------- main results

  /** Between two conforming agents no message is ever refused, whatever the interleaving. */
  lemma NeverRefused(steps: seq<Step>, states: seq<System>, k: nat, t: Step)
    requires Execution(steps, states) && k < |states| && Enabled(states[k], t)
    ensures Judge(states[k], t) == Accepted
  {
    ExecutionConsistent(steps, states, k);
    StepKeeps(states[k], t);
  }

  lemma OffersUnfold()
    ensures OffersIn([]) == 0 && OffersIn([Offer]) == 1 && OffersIn([Answer]) == 0
    ensures OffersIn([Answer, Offer]) == 1
  {
    assert [Answer, Offer][1..] == [Offer];
  }

  lemma OneTurn(s: System)
    requires Consistent(s)
    ensures TurnCount(s) <= 1
    ensures s.responder.peer.localRequest != 0 ==> TurnCount(s) == 1
    ensures s.initiator.peer.remoteGrant != 0 ==> TurnCount(s) == 1
  {
    OffersUnfold();
  }

  /** At most one responder turn exists anywhere in the system, in every execution. */
  lemma AtMostOneTurn(steps: seq<Step>, states: seq<System>, k: nat)
    requires Execution(steps, states) && k < |states|
    ensures TurnCount(states[k]) <= 1
    ensures states[k].responder.peer.localRequest != 0 ==> TurnCount(states[k]) == 1
    ensures states[k].initiator.peer.remoteGrant != 0 ==> TurnCount(states[k]) == 1
  {
    ExecutionConsistent(steps, states, k);
    OneTurn(states[k]);
  }

  lemma NoGlare(s: System)
    requires Consistent(s)
    ensures !ExchangeOf(s).Glare?
    ensures ExchangeOf(s) == Idle <==> Quiet(s) || ResponderAnswered(s) || InitiatorAnswered(s)
    ensures ExchangeOf(s) == OfferedBy(Initiator) <==> InitiatorOffered(s) || InitiatorReoffered(s)
    ensures ExchangeOf(s) == OfferedBy(Responder) <==> ResponderOffered(s)
  {
    OffersUnfold();
  }

  lemma StepHalfDuplex(s: System, t: Step)
    requires Consistent(s) && Enabled(s, t)
    ensures HalfDuplex(ExchangeOf(s), ExchangeOf(Apply(s, t)))
  {
    StepKeeps(s, t);
    NoGlare(s);
    NoGlare(Apply(s, t));
  }

  /** Offers never cross: every execution, step by step, is a run of the half-duplex
      offer/answer machine, so the side that answers has no unanswered offer of its own. */
  lemma OffersNeverCross(steps: seq<Step>, states: seq<System>, k: nat)
    requires Execution(steps, states) && k < |steps|
    ensures HalfDuplex(ExchangeOf(states[k]), ExchangeOf(states[k + 1]))
    ensures Unanswered(states[k], Initiator) == 0 || Unanswered(states[k], Responder) == 0
  {
    ExecutionConsistent(steps, states, k);
    NoGlare(states[k]);
    StepHalfDuplex(states[k], steps[k]);
  }

  /** Both sides can hold a local offer at once, and exactly when the initiator has
      offered again while its answer to the responder is still on its way. */
  lemma BothOfferExactly(steps: seq<Step>, states: seq<System>, k: nat)
    requires Execution(steps, states) && k < |states|
    ensures BothHaveLocalOffer(states[k]) <==>
            states[k].initiator.peer.signaling == HaveLocalOffer && Answer in states[k].signalToResponder
    ensures BothHaveLocalOffer(states[k]) ==> states[k].signalToResponder[0] == Answer
  {
    ExecutionConsistent(steps, states, k);
  }

  ghost predicate Reachable(s: System) {
    exists steps: seq<Step>, states: seq<System> :: Execution(steps, states) && states[|steps|] == s
  }

  lemma Advance(s: System, t: Step, u: System)
    requires Reachable(s) && Enabled(s, t) && Apply(s, t) == u
    ensures Reachable(u)
  {
    hide Apply;
    hide Enabled;
    var steps, states :| Execution(steps, states) && states[|steps|] == s;
    var steps', states' := steps + [t], states + [u];
    assert Execution(steps', states') && states'[|steps'|] == u;
  }

  /** Nothing queued and nothing waiting to be sent. */
  predicate Calm(s: System) {
    && s.initiator.controlSends == [] && s.responder.controlSends == []
    && s.initiator.offerSends == 0 && s.responder.offerSends == 0
    && s.controlToInitiator == [] && s.controlToResponder == [] && s.signalToInitiator == [] && s.signalToResponder == []
  }

  /** The side after a hello, and after an acknowledgement. */
  function Hailed(d: Side): Side {
    d.(peer := d.peer.(remoteHello := true), marks := d.marks + 1)
  }

  function Acknowledged(d: Side): Side {
    d.(peer := d.peer.(remoteAck := true), marks := d.marks + 1)
  }

  lemma HelloArrives(s: System, from: Role)
    requires Reachable(s) && Calm(s)
    ensures Reachable(s.With(Other(from), Hailed(s.At(Other(from))).(controlSends := [Ack])))
  {
    hide Reachable;
    var to := Other(from);
    var s1 := s.With(from, s.At(from).(controlSends := [Hello]));
    Advance(s, OpenControl(from), s1);
    var s2 := s.WithControlTo(to, [Hello]);
    Advance(s1, FinishControlSend(from, 0), s2);
    Advance(s2, DeliverControl(to), s.With(to, Hailed(s.At(to)).(controlSends := [Ack])));
  }

  lemma AckArrives(s: System, to: Role)
    requires Calm(s) && Reachable(s.With(Other(to), s.At(Other(to)).(controlSends := [Ack])))
    ensures Reachable(s.With(to, Acknowledged(s.At(to))))
  {
    hide Reachable;
    Advance(s.With(Other(to), s.At(Other(to)).(controlSends := [Ack])), FinishControlSend(Other(to), 0), s.WithControlTo(to, [Ack]));
    Advance(s.WithControlTo(to, [Ack]), DeliverControl(to), s.With(to, Acknowledged(s.At(to))));
  }

  /** `from` opens its control channel: its hello arrives and is acknowledged. */
  lemma Greet(s: System, from: Role) returns (u: System)
    requires Reachable(s) && Calm(s)
    ensures Reachable(u) && Calm(u)
    ensures u.At(from) == Acknowledged(s.At(from)) && u.At(Other(from)) == Hailed(s.At(Other(from)))
  {
    hide Reachable;
    var to := Other(from);
    HelloArrives(s, from);
    var h := s.With(to, Hailed(s.At(to)));
    assert h.With(to, h.At(to).(controlSends := [Ack])) == s.With(to, Hailed(s.At(to)).(controlSends := [Ack]));
    AckArrives(h, from);
    u := h.With(from, Acknowledged(h.At(from)));
  }

  /** A peer that has finished the hello/ack handshake. */
  function ReadyPeer(role: Role): Peer {
    FreshPeer(role).(remoteHello := true, remoteAck := true, ready := true)
  }

  lemma HandshakeReachable() returns (u: System)
    ensures Reachable(u) && Calm(u) && u.initiator.peer == ReadyPeer(Initiator) && u.responder.peer == ReadyPeer(Responder)
  {
    var none: seq<Step> := [];
    assert Execution(none, [InitialSystem()]) && [InitialSystem()][|none|] == InitialSystem();
    u := Greet(InitialSystem(), Initiator);
    u := Greet(u, Responder);
    hide Reachable;
    var v := u.(initiator := u.initiator.Marked());
    Advance(u, RunMarkReady(Initiator), v);
    u := v.(responder := v.responder.Marked());
    Advance(v, RunMarkReady(Responder), u);
  }

  lemma GrantReachable() returns (u: System)
    ensures Reachable(u) && Calm(u)
    ensures u.initiator.peer == ReadyPeer(Initiator).(lastRemoteRequest := 1, remoteGrant := 1)
    ensures u.responder.peer == ReadyPeer(Responder).(needsNegotiation := true, nextSequence := 1, localGrant := 1)
  {
    var s0 := HandshakeReachable();
    hide Reachable;
    var b := ReadyPeer(Responder).(needsNegotiation := true, nextSequence := 1, localRequest := 1);
    var s1 := s0.(responder := s0.responder.(peer := b, controlSends := [Request(1)]));
    Advance(s0, RunNegotiate(Responder, true), s1);
    var s2 := s0.(responder := s0.responder.(peer := b), controlToInitiator := [Request(1)]);
    Advance(s1, FinishControlSend(Responder, 0), s2);
    var granted := ReadyPeer(Initiator).(lastRemoteRequest := 1, remoteGrant := 1);
    var s3 := s2.(initiator := s0.initiator.(peer := granted, controlSends := [Grant(1)]), controlToInitiator := []);
    Advance(s2, DeliverControl(Initiator), s3);
    var s4 := s3.(initiator := s0.initiator.(peer := granted), controlToResponder := [Grant(1)]);
    Advance(s3, FinishControlSend(Initiator, 0), s4);
    u := s4.(responder := s4.responder.Heard(Grant(1)), controlToResponder := []);
    Advance(s4, DeliverControl(Responder), u);
  }

  lemma OfferReachable() returns (u: System)
    ensures Reachable(u) && Calm(u.(signalToInitiator := [])) && u.signalToInitiator == [Offer]
    ensures u.initiator.peer == ReadyPeer(Initiator).(lastRemoteRequest := 1, remoteGrant := 1)
    ensures u.responder.peer == ReadyPeer(Responder).(nextSequence := 1, signaling := HaveLocalOffer)
  {
    var s0 := GrantReachable();
    hide Reachable;
    var s1 := s0.(responder := s0.responder.Negotiated(true));
    Advance(s0, RunNegotiate(Responder, true), s1);
    u := s1.(responder := s1.responder.(offerSends := 0), signalToInitiator := [Offer]);
    Advance(s1, FinishOfferSend(Responder), u);
  }

  /** The literal claim "never both in have-local-offer" fails in a reachable state: the
      initiator has answered the responder's granted offer and offered again before its
      answer arrives. */
  lemma BothCanOffer()
    ensures exists s :: Reachable(s) && BothHaveLocalOffer(s)
  {
    var s0 := OfferReachable();
    hide Reachable;
    var s1 := s0.(initiator := s0.initiator.Described(Offer, false), signalToInitiator := [], signalToResponder := [Answer]);
    Advance(s0, DeliverDescription(Initiator, false), s1);
    var s2 := s1.(initiator := s1.initiator.Negotiated(true));
    Advance(s1, RunNegotiate(Initiator, true), s2);
    assert BothHaveLocalOffer(s2);
  }
}
