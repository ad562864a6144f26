/** Writer fencing of one program: leases for two roles share one fencing revision.  An
    event that cannot be queued throws after, or before, the state it reports has changed,
    exactly where the code queues it. */
module Failover {
  import opened Common

  const MAX_OUTBOX := 256

  datatype Role = PackagerWriter | GatewayWriter

  /** What a writer presents; the lease id is a digest of role, revision and holder. */
  datatype Triple = Triple(role: Role, holder: int, revision: nat)

  datatype Lease = Lease(triple: Triple, expiresAt: int)

  datatype RoleState = RoleState(active: Option<Lease>, failureSince: Option<int>)

  datatype Config = Config(leaseTtl: nat, grace: nat, recoveryDeadline: nat)

  datatype Coordinator = Coordinator(
    config: Config, fencingRevision: nat, stopped: bool, outbox: nat,
    packager: RoleState, gateway: RoleState)
  {
    function At(r: Role): RoleState {
      if r == PackagerWriter then packager else gateway
    }
    function With(r: Role, s: RoleState): Coordinator {
      if r == PackagerWriter then this.(packager := s) else this.(gateway := s)
    }
  }

  function Registered(config: Config, leaseEpoch: nat): Coordinator {
    Coordinator(config, leaseEpoch, false, 0, RoleState(None, None), RoleState(None, None))
  }

  datatype Result = Done | Thrown

  function Emit(c: Coordinator): (Coordinator, Result) {
    if c.outbox >= MAX_OUTBOX then (c, Thrown) else (c.(outbox := c.outbox + 1), Done)
  }

  function Promote(c: Coordinator, r: Role, holder: int, now: int): (Coordinator, Result) {
    var revision := c.fencingRevision + 1;
    Emit(c.(fencingRevision := revision)
          .With(r, RoleState(Some(Lease(Triple(r, holder, revision), now + c.config.leaseTtl)), None)))
  }

  function Stop(c: Coordinator): (Coordinator, Result) {
    Emit(c.(stopped := true, fencingRevision := c.fencingRevision + 1,
            packager := c.packager.(active := None), gateway := c.gateway.(active := None)))
  }

  /** `candidate` is the best authorised standby, chosen deterministically. */
  function Acquire(c: Coordinator, r: Role, candidate: Option<int>, now: int): (Coordinator, Result) {
    if c.stopped then (c, Thrown)
    else if c.At(r).active.Some? && c.At(r).active.value.expiresAt > now then (c, Thrown)
    else if candidate.None? then Stop(c)
    else Promote(c, r, candidate.value, now)
  }

  function Heartbeat(c: Coordinator, r: Role, t: Triple, healthy: bool, now: int): (Coordinator, Result) {
    var state := c.At(r);
    if state.active.None? || state.active.value.triple != t then (c, Thrown)
    else if !healthy then
      (c.With(r, state.(failureSince := Some(if state.failureSince.Some? then state.failureSince.value else now))), Done)
    else
      (c.With(r, RoleState(Some(state.active.value.(expiresAt := now + c.config.leaseTtl)), None)), Done)
  }

  function Min(a: int, b: int): int {
    if a < b then a else b
  }

  /** `signalsHealthy`: no component is unavailable; `browser`: the failure is the source's. */
  function Evaluate(c: Coordinator, r: Role, signalsHealthy: bool, browser: bool, candidate: Option<int>, now: int)
    : (Coordinator, Result)
  {
    var state := c.At(r);
    if state.active.Some? && state.active.value.expiresAt > now && signalsHealthy && state.failureSince.None? then (c, Done)
    else
      var since := if state.failureSince.Some? then state.failureSince.value
                   else Min(now, if state.active.Some? then state.active.value.expiresAt else now);
      var marked := c.With(r, state.(failureSince := Some(since)));
      if now < since + c.config.grace then (marked, Done)
      else
        var (fenced, announced) := Fence(marked, r);
        if announced == Thrown then (fenced, Thrown)
        else if browser || now > since + c.config.recoveryDeadline || candidate.None? then Stop(fenced)
        else Promote(fenced, r, candidate.value, now)
  }

  /** The fence is announced before the lease is dropped. */
  function Fence(c: Coordinator, r: Role): (Coordinator, Result) {
    if c.At(r).active.None? then (c, Done)
    else
      var (d, announced) := Emit(c);
      if announced == Thrown then (d, Thrown) else (d.With(r, d.At(r).(active := None)), Done)
  }

  predicate Authorised(c: Coordinator, r: Role, t: Triple, now: int) {
    !c.stopped && c.At(r).active.Some? && c.At(r).active.value.expiresAt > now && c.At(r).active.value.triple == t
  }

  /** One registered program; `roles` holds the state of each writer role. */
  class FailoverCoordinator {
    const config: Config
    var fencingRevision: nat
    var stopped: bool
    var outbox: nat
    var roles: map<Role, RoleState>

    ghost predicate Valid()
      reads this
    {
      roles.Keys == {PackagerWriter, GatewayWriter}
    }

    ghost function View(): Coordinator
      requires Valid()
      reads this
    {
      Coordinator(config, fencingRevision, stopped, outbox, roles[PackagerWriter], roles[GatewayWriter])
    }

    constructor (config: Config, leaseEpoch: nat)
      ensures Valid() && View() == Registered(config, leaseEpoch)
    {
      this.config := config;
      fencingRevision, stopped, outbox := leaseEpoch, false, 0;
      roles := map[PackagerWriter := RoleState(None, None), GatewayWriter := RoleState(None, None)];
    }

    method EmitEvent() returns (result: Result)
      requires Valid()
      modifies this`outbox
      ensures Valid() && (View(), result) == Emit(old(View()))
    {
      if outbox >= MAX_OUTBOX { return Thrown; }
      outbox := outbox + 1;
      result := Done;
    }

    method PromoteTo(r: Role, holder: int, now: int) returns (result: Result)
      requires Valid()
      modifies this
      ensures Valid() && (View(), result) == Promote(old(View()), r, holder, now)
    {
      fencingRevision := fencingRevision + 1;
      roles := roles[r := RoleState(Some(Lease(Triple(r, holder, fencingRevision), now + config.leaseTtl)), None)];
      result := EmitEvent();
    }

    method StopProgram() returns (result: Result)
      requires Valid()
      modifies this
      ensures Valid() && (View(), result) == Stop(old(View()))
    {
      stopped := true;
      roles := map r | r in roles :: roles[r].(active := None);
      fencingRevision := fencingRevision + 1;
      result := EmitEvent();
    }

    method AcquireRole(r: Role, candidate: Option<int>, now: int) returns (result: Result)
      requires Valid()
      modifies this
      ensures Valid() && (View(), result) == Acquire(old(View()), r, candidate, now)
    {
      if stopped { return Thrown; }
      var active := roles[r].active;
      if active.Some? && active.value.expiresAt > now { return Thrown; }
      if candidate.None? {
        result := StopProgram();
      } else {
        result := PromoteTo(r, candidate.value, now);
      }
    }

    method HeartbeatOf(r: Role, t: Triple, healthy: bool, now: int) returns (result: Result)
      requires Valid()
      modifies this
      ensures Valid() && (View(), result) == Heartbeat(old(View()), r, t, healthy, now)
    {
      var state := roles[r];
      if state.active.None? || state.active.value.triple != t { return Thrown; }
      if !healthy {
        if state.failureSince.None? { roles := roles[r := state.(failureSince := Some(now))]; }
        return Done;
      }
      roles := roles[r := RoleState(Some(state.active.value.(expiresAt := now + config.leaseTtl)), None)];
      result := Done;
    }

    method FenceRole(r: Role) returns (result: Result)
      requires Valid()
      modifies this
      ensures Valid() && (View(), result) == Fence(old(View()), r)
    {
      if roles[r].active.None? { return Done; }
      result := EmitEvent();
      if result == Done { roles := roles[r := roles[r].(active := None)]; }
    }

    method EvaluateRole(r: Role, signalsHealthy: bool, browser: bool, candidate: Option<int>, now: int) returns (result: Result)
      requires Valid()
      modifies this
      ensures Valid() && (View(), result) == Evaluate(old(View()), r, signalsHealthy, browser, candidate, now)
    {
      var active := roles[r].active;
      if active.Some? && active.value.expiresAt > now && signalsHealthy && roles[r].failureSince.None? {
        return Done;
      }
      if roles[r].failureSince.None? {
        roles := roles[r := roles[r].(failureSince := Some(Min(now, if active.Some? then active.value.expiresAt else now)))];
      }
      var since := roles[r].failureSince.value;
      if now < since + config.grace {
        return Done;
      }
      ghost var marked := View();
      assert marked == old(View()).With(r, old(View()).At(r).(failureSince := Some(since)));
      result := FenceRole(r);
      hide Promote;
      hide Stop;
      hide Fence;
      if result == Thrown { return; }
      if browser || now > since + config.recoveryDeadline || candidate.None? {
        result := StopProgram();
      } else {
        result := PromoteTo(r, candidate.value, now);
      }
    }

    method AuthorizeWriter(r: Role, t: Triple, now: int) returns (ok: bool)
      requires Valid()
      ensures ok <==> Authorised(View(), r, t, now)
    {
      var active := roles[r].active;
      ok := !stopped && active.Some? && active.value.expiresAt > now && active.value.triple == t;
    }
  }

  // ---------------------------------------------------------------- every run without restore

  datatype Step =
    | DoAcquire(role: Role, candidate: Option<int>, now: int)
    | DoHeartbeat(role: Role, triple: Triple, healthy: bool, now: int)
    | DoEvaluate(role: Role, signalsHealthy: bool, browser: bool, candidate: Option<int>, now: int)
    | Configure                       // queues an event and touches no lease
    | Acknowledge(left: nat)          // the outbox shrinks

  function Apply(c: Coordinator, t: Step): (Coordinator, Result) {
    match t
    case DoAcquire(r, candidate, now) => Acquire(c, r, candidate, now)
    case DoHeartbeat(r, triple, healthy, now) => Heartbeat(c, r, triple, healthy, now)
    case DoEvaluate(r, healthy, browser, candidate, now) => Evaluate(c, r, healthy, browser, candidate, now)
    case Configure => Emit(c)
    case Acknowledge(left) => (if left < c.outbox then c.(outbox := left) else c, Done)
  }

  ghost predicate Execution(config: Config, leaseEpoch: nat, steps: seq<Step>, states: seq<Coordinator>) {
    && |states| == |steps| + 1 && states[0] == Registered(config, leaseEpoch)
    && forall k :: 0 <= k < |steps| ==> states[k + 1] == Apply(states[k], steps[k]).0
  }

  function TripleOf(s: RoleState): Option<Triple> {
    if s.active.None? then None else Some(s.active.value.triple)
  }

  /** A role's triple is kept, dropped, or replaced by one with a revision above everything
      issued before; a stop is never undone. */
  predicate Fences(c: Coordinator, d: Coordinator, r: Role) {
    && d.fencingRevision >= c.fencingRevision && (c.stopped ==> d.stopped)
    && var before, after := TripleOf(c.At(r)), TripleOf(d.At(r));
       || after == before || after.None?
       || (after.value.revision == d.fencingRevision > c.fencingRevision && after.value.role == r)
  }

  lemma PromoteFences(c: Coordinator, q: Role, holder: int, now: int, r: Role)
    ensures Fences(c, Promote(c, q, holder, now).0, r)
  {
  }

  lemma EvaluateFences(c: Coordinator, q: Role, healthy: bool, browser: bool, candidate: Option<int>, now: int, r: Role)
    ensures Fences(c, Evaluate(c, q, healthy, browser, candidate, now).0, r)
  {
    hide Promote;
    if candidate.Some? {
      forall d: Coordinator
        ensures Fences(d, Promote(d, q, candidate.value, now).0, r)
      {
        PromoteFences(d, q, candidate.value, now, r);
      }
    }
  }

  /** Every step, thrown or not, fences. */
  lemma StepFences(c: Coordinator, t: Step, r: Role)
    ensures Fences(c, Apply(c, t).0, r)
  {
    hide Promote;
    hide Evaluate;
    match t
    case DoAcquire(q, candidate, now) =>
      if candidate.Some? { PromoteFences(c, q, candidate.value, now, r); }
    case DoEvaluate(q, healthy, browser, candidate, now) => EvaluateFences(c, q, healthy, browser, candidate, now, r);
    case _ =>
  }

  ghost predicate Fenced(c: Coordinator) {
    forall r :: TripleOf(c.At(r)).Some? ==> TripleOf(c.At(r)).value.revision <= c.fencingRevision && TripleOf(c.At(r)).value.role == r
  }

  lemma {:induction false} ExecutionFenced(config: Config, e: nat, steps: seq<Step>, states: seq<Coordinator>, k: nat)
    requires Execution(config, e, steps, states) && k < |states|
    ensures Fenced(states[k])
  {
    if k > 0 {
      ExecutionFenced(config, e, steps, states, k - 1);
      StepFences(states[k - 1], steps[k - 1], PackagerWriter);
      StepFences(states[k - 1], steps[k - 1], GatewayWriter);
      hide Apply;
    }
  }

  /** The triple can no longer become active in any role. */
  ghost predicate Retired(c: Coordinator, t: Triple) {
    t.revision <= c.fencingRevision && forall r :: TripleOf(c.At(r)) != Some(t)
  }

  lemma RetiredStep(c: Coordinator, d: Coordinator, t: Triple)
    requires Retired(c, t) && Fences(c, d, PackagerWriter) && Fences(c, d, GatewayWriter)
    ensures Retired(d, t)
  {
    forall r
      ensures TripleOf(d.At(r)) != Some(t)
    {
      assert TripleOf(c.At(r)) != Some(t);
    }
  }

  lemma {:induction false} RetiredForever(config: Config, e: nat, steps: seq<Step>, states: seq<Coordinator>, i: nat, k: nat, t: Triple)
    requires Execution(config, e, steps, states) && i <= k < |states| && Retired(states[i], t)
    ensures Retired(states[k], t)
    decreases k
  {
    hide Apply;
    hide Retired;
    hide Fences;
    if i < k {
      RetiredForever(config, e, steps, states, i, k - 1, t);
      var c, d := states[k - 1], states[k];
      StepFences(c, steps[k - 1], PackagerWriter);
      StepFences(c, steps[k - 1], GatewayWriter);
      RetiredStep(c, d, t);
    }
  }

  /** A triple that was active and has been replaced or fenced is never authorised again,
      in either role, at any later time of any run. */
  lemma ReplacedNeverReturns(config: Config, e: nat, steps: seq<Step>, states: seq<Coordinator>,
                             i: nat, j: nat, k: nat, t: Triple, r: Role, now: int)
    requires Execution(config, e, steps, states) && i <= j <= k < |states|
    requires TripleOf(states[i].At(t.role)) == Some(t) && TripleOf(states[j].At(t.role)) != Some(t)
    ensures !Authorised(states[k], r, t, now)
  {
    ExecutionFenced(config, e, steps, states, i);
    ExecutionFenced(config, e, steps, states, j);
    RevisionMonotone(config, e, steps, states, i, j);
    assert Retired(states[j], t);
    RetiredForever(config, e, steps, states, j, k, t);
  }

  lemma {:induction false} RevisionMonotone(config: Config, e: nat, steps: seq<Step>, states: seq<Coordinator>, i: nat, k: nat)
    requires Execution(config, e, steps, states) && i <= k < |states|
    ensures states[i].fencingRevision <= states[k].fencingRevision && (states[i].stopped ==> states[k].stopped)
    decreases k
  {
    hide Apply;
    if i < k {
      RevisionMonotone(config, e, steps, states, i, k - 1);
      StepFences(states[k - 1], steps[k - 1], PackagerWriter);
    }
  }

  /** Leases installed by different steps carry different revisions, across both roles, and
      later ones carry larger revisions. */
  lemma RevisionsStrictlyIncrease(config: Config, e: nat, steps: seq<Step>, states: seq<Coordinator>, i: nat, j: nat, r: Role, q: Role)
    requires Execution(config, e, steps, states) && i < j < |steps|
    requires TripleOf(states[i + 1].At(r)).Some? && TripleOf(states[i + 1].At(r)) != TripleOf(states[i].At(r))
    requires TripleOf(states[j + 1].At(q)).Some? && TripleOf(states[j + 1].At(q)) != TripleOf(states[j].At(q))
    ensures TripleOf(states[i + 1].At(r)).value.revision < TripleOf(states[j + 1].At(q)).value.revision
  {
    StepFences(states[i], steps[i], r);
    StepFences(states[j], steps[j], q);
    RevisionMonotone(config, e, steps, states, i + 1, j);
    hide Apply;
  }

  /** Every lease was installed by one step, under a revision above all issued before it,
      and has been its role's lease ever since. */
  lemma {:induction false} LeaseOrigin(config: Config, e: nat, steps: seq<Step>, states: seq<Coordinator>, k: nat, r: Role) returns (h: nat)
    requires Execution(config, e, steps, states) && k < |states| && TripleOf(states[k].At(r)).Some?
    ensures var t := TripleOf(states[k].At(r)).value;
            && h < k && t.role == r && states[h].fencingRevision < t.revision == states[h + 1].fencingRevision
            && forall m :: h < m <= k ==> TripleOf(states[m].At(r)) == Some(t)
  {
    assert k > 0;
    StepFences(states[k - 1], steps[k - 1], r);
    assert Fences(states[k - 1], states[k - 1 + 1], r);
    hide Apply;
    if TripleOf(states[k - 1].At(r)) == TripleOf(states[k].At(r)) {
      h := LeaseOrigin(config, e, steps, states, k - 1, r);
    } else {
      h := k - 1;
    }
  }

  /** The writers of a role succeed one another: of two triples authorised at any two moments
      of a run the later one is the same or carries a larger revision, and a predecessor is
      never authorised again, in either role. */
  lemma WritersSucceed(config: Config, e: nat, steps: seq<Step>, states: seq<Coordinator>, i: nat, k: nat,
                       r: Role, t: Triple, u: Triple, now: int, later: int)
    requires Execution(config, e, steps, states) && i <= k < |states|
    requires Authorised(states[i], r, t, now) && Authorised(states[k], r, u, later)
    ensures t == u || t.revision < u.revision
    ensures t != u ==> i < k && forall m, q, at :: k <= m < |states| ==> !Authorised(states[m], q, t, at)
  {
    if t != u {
      var h := LeaseOrigin(config, e, steps, states, k, r);
      ExecutionFenced(config, e, steps, states, i);
      assert i <= h;
      RevisionMonotone(config, e, steps, states, i, h);
      assert t.role == r;
      hide Execution;
      forall m, q, at | k <= m < |states| ensures !Authorised(states[m], q, t, at) {
        ReplacedNeverReturns(config, e, steps, states, i, k, m, t, q, at);
      }
    }
  }

  /** Nothing is authorised after a stop, even when announcing the stop failed. */
  lemma NothingAfterStop(config: Config, e: nat, steps: seq<Step>, states: seq<Coordinator>, i: nat, k: nat, r: Role, t: Triple, now: int)
    requires Execution(config, e, steps, states) && i <= k < |states| && states[i].stopped
    ensures !Authorised(states[k], r, t, now)
  {
    RevisionMonotone(config, e, steps, states, i, k);
  }

  /** With a full outbox an overdue writer is not fenced: evaluation throws before it drops
      the lease, and does so exactly when there is a lease to announce. */
  lemma FullOutboxKeepsWriter(c: Coordinator, r: Role, healthy: bool, browser: bool, candidate: Option<int>, now: int)
    requires c.outbox >= MAX_OUTBOX && c.At(r).active.Some?
    ensures var d := Evaluate(c, r, healthy, browser, candidate, now).0;
            TripleOf(d.At(r)) == TripleOf(c.At(r)) && d.fencingRevision == c.fencingRevision && d.stopped == c.stopped
    ensures forall t :: Authorised(c, r, t, now) <==> Authorised(Evaluate(c, r, healthy, browser, candidate, now).0, r, t, now)
  {
  }

  // ---------------------------------------------------------------- how long a writer stays

  /** An acquisition within a lease's time is refused and changes nothing, for either role's
      candidate. */
  lemma AcquireNeverDisplaces(c: Coordinator, r: Role, candidate: Option<int>, now: int)
    requires c.At(r).active.Some? && now < c.At(r).active.value.expiresAt
    ensures Acquire(c, r, candidate, now) == (c, Thrown)
  {
  }

  /** A takeover or acquisition at `now` authorises the new writer for exactly the lease time,
      whether or not it could be announced. */
  lemma PromotedForLeaseTime(c: Coordinator, r: Role, holder: int, now: int, at: int)
    requires !c.stopped
    ensures var d, t := Promote(c, r, holder, now).0, Triple(r, holder, c.fencingRevision + 1);
            Authorised(d, r, t, at) <==> at < now + c.config.leaseTtl
  {
  }

  /** The step does nothing against the writer of role r: its own heartbeats are healthy, its
      evaluations find it healthy and in time, and no acquisition comes after its time. */
  predicate Harmless(c: Coordinator, t: Step, r: Role)
    requires c.At(r).active.Some?
  {
    var lease := c.At(r).active.value;
    match t
    case DoAcquire(q, _, now) => q == r ==> now < lease.expiresAt
    case DoHeartbeat(q, triple, healthy, _) => q == r && triple == lease.triple ==> healthy
    case DoEvaluate(q, healthy, _, _, now) => q == r ==> healthy && now < lease.expiresAt
    case _ => true
  }

  /** When the lease ends after the step. */
  function Extended(c: Coordinator, t: Step, r: Role): int
    requires c.At(r).active.Some?
  {
    var lease := c.At(r).active.value;
    if t.DoHeartbeat? && t.role == r && t.triple == lease.triple && t.healthy then t.now + c.config.leaseTtl else lease.expiresAt
  }

  lemma HarmlessStep(c: Coordinator, t: Step, r: Role)
    requires c.At(r).active.Some? && c.At(r).failureSince.None? && Harmless(c, t, r) && !Apply(c, t).0.stopped
    ensures var d := Apply(c, t).0;
            && d.At(r) == RoleState(Some(Lease(c.At(r).active.value.triple, Extended(c, t, r))), None)
            && d.config == c.config
  {
    hide Fence;
    match t
    case DoEvaluate(q, healthy, browser, candidate, now) =>
      if q != r { OtherEvaluate(c, q, r, healthy, browser, candidate, now); }
    case _ =>
  }

  /** Evaluating one role leaves the other alone unless it stops the program. */
  lemma OtherEvaluate(c: Coordinator, q: Role, r: Role, healthy: bool, browser: bool, candidate: Option<int>, now: int)
    requires q != r
    ensures var d := Evaluate(c, q, healthy, browser, candidate, now).0;
            d.config == c.config && (!d.stopped ==> d.At(r) == c.At(r))
  {
  }

  /** When the lease held at step i ends, after the steps up to k. */
  function LeaseEnd(steps: seq<Step>, states: seq<Coordinator>, r: Role, i: nat, k: nat): int
    requires i <= k < |states| && |states| == |steps| + 1 && states[i].At(r).active.Some?
  {
    if k == i then states[i].At(r).active.value.expiresAt
    else if states[k - 1].At(r).active.Some? && Extended(states[k - 1], steps[k - 1], r) != states[k - 1].At(r).active.value.expiresAt
    then Extended(states[k - 1], steps[k - 1], r)
    else LeaseEnd(steps, states, r, i, k - 1)
  }

  /** A writer that nothing is done against stays authorised, while the program runs, exactly
      until its lease time after its last healthy heartbeat. */
  lemma {:induction false} HealthyWriterStays(config: Config, e: nat, steps: seq<Step>, states: seq<Coordinator>, i: nat, k: nat, r: Role, now: int)
    requires Execution(config, e, steps, states) && i <= k < |states| && states[i].At(r).active.Some? && states[i].At(r).failureSince.None?
    requires !states[k].stopped && forall j :: i <= j < k && states[j].At(r).active.Some? ==> Harmless(states[j], steps[j], r)
    ensures states[k].At(r).active.Some? && states[k].At(r).failureSince.None?
    ensures var t := states[i].At(r).active.value.triple;
            && states[k].At(r).active.value == Lease(t, LeaseEnd(steps, states, r, i, k))
            && (Authorised(states[k], r, t, now) <==> now < LeaseEnd(steps, states, r, i, k))
    decreases k
  {
    hide Apply;
    hide Harmless;
    hide Extended;
    if i < k {
      RevisionMonotone(config, e, steps, states, k - 1, k);
      HealthyWriterStays(config, e, steps, states, i, k - 1, r, now);
      HarmlessStep(states[k - 1], steps[k - 1], r);
    }
  }

  /** An evaluation of a role without a healthy writer, by the times of the configuration: all
      is kept during the grace period; after it the writer is out, and a candidate takes over
      for one lease time unless the source failed or the deadline has passed, and otherwise
      the program stops. */
  lemma EvaluationDecides(c: Coordinator, r: Role, healthy: bool, browser: bool, candidate: Option<int>, now: int)
    requires !c.stopped && (c.At(r).active.Some? ==> c.outbox < MAX_OUTBOX)
    requires !(c.At(r).active.Some? && healthy && now < c.At(r).active.value.expiresAt && c.At(r).failureSince.None?)
    ensures var d, s := Evaluate(c, r, healthy, browser, candidate, now).0, c.At(r);
            var since := if s.failureSince.Some? then s.failureSince.value else if s.active.Some? then Min(now, s.active.value.expiresAt) else now;
            && (now < since + c.config.grace ==> d.At(r).active == s.active && !d.stopped)
            && (now >= since + c.config.grace ==>
                  if browser || now > since + c.config.recoveryDeadline || candidate.None? then d.stopped
                  else
                    && !d.stopped
                    && d.At(r) == RoleState(Some(Lease(Triple(r, candidate.value, c.fencingRevision + 1), now + c.config.leaseTtl)), None))
  {
  }

  /** An acquisition of a role without a live lease: the candidate is the writer for one lease
      time, and without a candidate the program stops. */
  lemma AcquisitionDecides(c: Coordinator, r: Role, candidate: Option<int>, now: int)
    requires !c.stopped && (c.At(r).active.Some? ==> c.At(r).active.value.expiresAt <= now)
    ensures var d := Acquire(c, r, candidate, now).0;
            if candidate.None? then d.stopped
            else !d.stopped && d.At(r) == RoleState(Some(Lease(Triple(r, candidate.value, c.fencingRevision + 1), now + c.config.leaseTtl)), None)
  {
  }

  // ---------------------------------------------------------------- how a failing writer goes

  /** The step gives a writer that fails since `since` no reprieve and does not replace it yet. */
  predicate Indifferent(c: Coordinator, t: Step, r: Role, since: int)
    requires c.At(r).active.Some?
  {
    var lease := c.At(r).active.value;
    match t
    case DoAcquire(q, _, now) => q == r ==> now < lease.expiresAt
    case DoHeartbeat(q, triple, healthy, _) => q == r && triple == lease.triple ==> !healthy
    case DoEvaluate(q, _, _, _, now) => q == r ==> now < since + c.config.grace
    case _ => true
  }

  lemma IndifferentStep(c: Coordinator, t: Step, r: Role, since: int)
    requires c.At(r).active.Some? && c.At(r).failureSince == Some(since) && Indifferent(c, t, r, since) && !Apply(c, t).0.stopped
    ensures Apply(c, t).0.At(r) == c.At(r) && Apply(c, t).0.config == c.config
  {
    hide Fence;
    match t
    case DoEvaluate(q, healthy, browser, candidate, now) =>
      if q != r { OtherEvaluate(c, q, r, healthy, browser, candidate, now); }
    case _ =>
  }

  lemma FailureBegins(c: Coordinator, r: Role, since: int)
    requires c.At(r).active.Some? && c.At(r).failureSince.None?
    ensures var d := Apply(c, DoHeartbeat(r, c.At(r).active.value.triple, false, since)).0;
            d.At(r) == RoleState(c.At(r).active, Some(since)) && d.config == c.config
  {
  }

  /** In every run, the first unhealthy heartbeat starts the grace period, and until a healthy
      one neither later unhealthy heartbeats nor early evaluations move its beginning or the
      end of the lease. */
  lemma {:induction false} FailureRemembered(config: Config, e: nat, steps: seq<Step>, states: seq<Coordinator>, i: nat, k: nat, r: Role, since: int)
    requires Execution(config, e, steps, states) && i < k < |states| && states[i].At(r).active.Some? && states[i].At(r).failureSince.None?
    requires steps[i] == DoHeartbeat(r, states[i].At(r).active.value.triple, false, since)
    requires !states[k].stopped
    requires forall j :: i < j < k && states[j].At(r).active.Some? ==> Indifferent(states[j], steps[j], r, since)
    ensures states[k].At(r) == RoleState(states[i].At(r).active, Some(since)) && states[k].config == config
    decreases k
  {
    hide Apply;
    hide Indifferent;
    if k == i + 1 {
      ConfigFixed(config, e, steps, states, i);
      FailureBegins(states[i], r, since);
    } else {
      RevisionMonotone(config, e, steps, states, k - 1, k);
      FailureRemembered(config, e, steps, states, i, k - 1, r, since);
      IndifferentStep(states[k - 1], steps[k - 1], r, since);
    }
  }

  lemma {:induction false} ConfigFixed(config: Config, e: nat, steps: seq<Step>, states: seq<Coordinator>, k: nat)
    requires Execution(config, e, steps, states) && k < |states|
    ensures states[k].config == config
  {
    if k > 0 { ConfigFixed(config, e, steps, states, k - 1); }
  }

  /** So a writer that keeps failing is replaced by the first evaluation after the grace
      period that has a candidate and comes before the deadline. */
  lemma FailingWriterReplaced(config: Config, e: nat, steps: seq<Step>, states: seq<Coordinator>, i: nat, k: nat, r: Role, since: int)
    requires Execution(config, e, steps, states) && i < k < |steps| && states[i].At(r).active.Some? && states[i].At(r).failureSince.None?
    requires steps[i] == DoHeartbeat(r, states[i].At(r).active.value.triple, false, since)
    requires !states[k].stopped && states[k].outbox < MAX_OUTBOX
    requires forall j :: i < j < k && states[j].At(r).active.Some? ==> Indifferent(states[j], steps[j], r, since)
    requires steps[k].DoEvaluate? && steps[k].role == r && !steps[k].browser && steps[k].candidate.Some?
    requires since + config.grace <= steps[k].now <= since + config.recoveryDeadline
    ensures states[k + 1].At(r).active ==
            Some(Lease(Triple(r, steps[k].candidate.value, states[k].fencingRevision + 1), steps[k].now + config.leaseTtl))
  {
    FailureRemembered(config, e, steps, states, i, k, r, since);
    var t := steps[k];
    hide Indifferent;
    EvaluationDecides(states[k], r, t.signalsHealthy, t.browser, t.candidate, t.now);
    hide Evaluate;
  }
}
