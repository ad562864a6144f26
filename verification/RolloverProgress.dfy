/** The replacement loop gets through: whatever has happened so far, an owner that is still
    open and has generations left can finish the replacement of a stopped encoder. */
module RolloverProgress {
  import opened Common
  import opened ProgramTime
  import opened RolloverRun
  import R = Rollover
  import B = RolloverBudget

  // ---------------------------------------------------------------- processes that were born

  predicate WasBorn(life: Life) {
    life == Running || life == Closing || life == Finished
  }

  /** Every encoder the owner ever had was really constructed, and so was one that the loop
      is about to accept or discard. */
  ghost predicate Constructed(s: System) {
    && (forall i :: 0 <= i <= s.out ==> WasBorn(LifeOf(s, i)))
    && (s.pc.Accepting? || s.pc.Discarding? ==> WasBorn(LifeOf(s, s.out + 1)))
  }

  /** A process that was born stays so. */
  lemma BornStays(s: System, t: Step, i: nat)
    requires Enabled(s, t) && WasBorn(LifeOf(s, i))
    ensures WasBorn(LifeOf(Apply(s, t), i))
  {
    hide R.Apply;
    hide R.Enabled;
    hide B.Reserve;
  }

  lemma Advances(s: System, t: Step)
    requires Kept(s) && Enabled(s, t)
    ensures var u := Apply(s, t);
            && (u.out == s.out || (t.AdoptNext? && u.out == s.out + 1 && s.pc.Accepting? && u.pc.Waiting?))
            && ((u.pc.Accepting? || u.pc.Discarding?) && t.Receive? ==> WasBorn(LifeOf(u, u.out + 1)))
            && ((u.pc.Accepting? || u.pc.Discarding?) && !t.Receive? ==> u.pc == s.pc)
  {
    hide R.Apply;
    hide R.Enabled;
    hide R.Sound;
    hide B.Reserve;
    hide Reaped;
  }

  lemma StepConstructed(s: System, t: Step)
    requires Kept(s) && Constructed(s) && Enabled(s, t)
    ensures Constructed(Apply(s, t))
  {
    hide Kept;
    hide Apply;
    hide Enabled;
    hide LifeOf;
    hide WasBorn;
    var u := Apply(s, t);
    Advances(s, t);
    forall i | 0 <= i <= u.out ensures WasBorn(LifeOf(u, i)) { BornStays(s, t, i); }
    if (u.pc.Accepting? || u.pc.Discarding?) && !t.Receive? { BornStays(s, t, s.out + 1); }
  }

  lemma {:induction false} ExecutionConstructed(fps: int, start: nat, steps: seq<Step>, states: seq<System>, k: nat)
    requires ValidRate(fps) && Execution(fps, start, steps, states) && k < |states|
    ensures Constructed(states[k])
  {
    hide Kept;
    hide Paced;
    hide Tied;
    hide Enabled;
    hide Apply;
    if k > 0 {
      ExecutionConstructed(fps, start, steps, states, k - 1);
      ExecutionKept(fps, start, steps, states, k - 1);
      StepConstructed(states[k - 1], steps[k - 1]);
    }
  }

  // ---------------------------------------------------------------- the way through

  /** The loop can still bring a replacement about: it has not given up, its owner is open
      with a generation to spare, and no construction has failed. */
  ghost predicate Hopeful(s: System) {
    && !s.program.owner.closed && s.program.owner.epoch + 1 < R.EPOCH_LIMIT
    && !Exiting(s.pc) && !s.pc.Done? && !s.pc.Overdue? && !s.pc.Discarding?
    && (s.pc.Constructing? ==> LifeOf(s, s.out + 1) == Creating || LifeOf(s, s.out + 1) == Running)
    && (s.pc.Accepting? ==> LifeOf(s, s.out + 1) == Running)
  }

  ghost predicate Ready(s: System) {
    Kept(s) && Paced(s) && Constructed(s) && Hopeful(s)
  }

  /** More than a minute after the last reserved start. */
  function Later(s: System): nat {
    var after := if s.starts == [] then 0 else s.starts[|s.starts| - 1] + B.MINUTE;
    1 + if after <= s.now then s.now else after
  }

  /** The loop's encoder runs and the owner still hands it everything. */
  predicate InOrder(s: System) {
    s.program.owner.accept && LifeOf(s, s.out) == Running
  }

  /** The next step towards the replacement: an encoder in order stops, and it is reaped, and
      the loop, time and the construction go their way. */
  function Onward(s: System): Step {
    match s.pc
    case Waiting => if InOrder(s) then Stop(s.out) else Ask
    case Asked(accept) => if accept && LifeOf(s, s.out) == Running then Stop(s.out) else Decide
    case Fencing => SetFence
    case Shutting => Shut
    case Draining =>
      if LifeOf(s, s.out) == Running then Stop(s.out) else if LifeOf(s, s.out) == Closing then Reap(s.out) else DrainDone(true)
    case Drained => MayReplace(true, true)
    case Detaching => LetGo
    case Reserving => if B.Reserve(s.budget, s.now).1 == [] then Tick(Later(s)) else Reserve
    case Delaying(start) => if s.now < start then Tick(start) else DelayOver(true)
    case Constructing(_) => if LifeOf(s, s.out + 1) == Creating then Born(s.out + 1) else Receive(true, true)
    case _ => AdoptNext
  }

  function Rank(s: System): nat {
    match s.pc
    case Waiting => if InOrder(s) then 19 else 18
    case Asked(accept) => if accept && LifeOf(s, s.out) == Running then 17 else 16
    case Fencing => 15
    case Shutting => 14
    case Draining => if LifeOf(s, s.out) == Running then 13 else if LifeOf(s, s.out) == Closing then 12 else 11
    case Drained => 10
    case Detaching => 9
    case Reserving => if B.Reserve(s.budget, s.now).1 == [] then 8 else 7
    case Delaying(start) => if s.now < start then 6 else 5
    case Constructing(_) => if LifeOf(s, s.out + 1) == Creating then 4 else 3
    case _ => 2
  }

  /** After a long enough pause every request is granted at once. */
  lemma PauseSuffices(requests: seq<nat>, now: nat)
    requires var granted := B.Run(requests).1; now > 0 && (granted != [] ==> now >= granted[|granted| - 1] + B.MINUTE)
    ensures B.Reserve(B.Run(requests).0, now).1 == [now]
  {
    var granted := B.Run(requests).1;
    B.StartsSpaced(requests);
    B.GrantedExactly(requests, now, now);
    hide B.Run;
    hide B.Reserve;
    if |granted| >= B.LIMIT { assert granted[|granted| - B.LIMIT] <= granted[|granted| - 1]; }
  }

  /** One step on: the same encoder is being replaced, the scheduler is where it was. */
  ghost predicate Closer(s: System, u: System) {
    && Hopeful(u) && Rank(u) < Rank(s)
    && u.out == s.out && u.program.clock == s.program.clock && u.program.owner.epoch == s.program.owner.epoch
  }

  lemma TendingCloser(s: System)
    requires Kept(s) && Constructed(s) && Hopeful(s) && Tending(s.pc)
    ensures Enabled(s, Onward(s)) && Closer(s, Apply(s, Onward(s)))
  {
    assert WasBorn(LifeOf(s, s.out));
    hide R.Sound;
    hide Reaped;
    hide B.Reserve;
  }

  lemma DrainedCloser(s: System)
    requires Kept(s) && Constructed(s) && Hopeful(s) && (s.pc.Drained? || s.pc.Detaching?)
    ensures Enabled(s, Onward(s)) && Closer(s, Apply(s, Onward(s)))
  {
    assert WasBorn(LifeOf(s, s.out));
    assert !Unreaped(s.processes[s.out]);
    hide R.Sound;
    hide B.Reserve;
  }

  lemma ReservingCloser(s: System)
    requires Paced(s) && Hopeful(s) && s.pc.Reserving?
    ensures Enabled(s, Onward(s)) && Closer(s, Apply(s, Onward(s)))
  {
    hide B.Reserve;
    hide B.Run;
    if B.Reserve(s.budget, s.now).1 == [] {
      PauseSuffices(s.requests, Later(s));
    } else {
      hide Paced;
    }
  }

  lemma CreatingCloser(s: System)
    requires Kept(s) && Hopeful(s) && (s.pc.Delaying? || s.pc.Constructing?)
    ensures Enabled(s, Onward(s)) && Closer(s, Apply(s, Onward(s)))
  {
    hide R.Sound;
    hide Reaped;
    hide B.Reserve;
  }

  /** Every step of the way is open and brings the loop closer. */
  lemma OnwardCloser(s: System)
    requires Ready(s) && !s.pc.Accepting?
    ensures Enabled(s, Onward(s)) && Closer(s, Apply(s, Onward(s))) && Ready(Apply(s, Onward(s)))
  {
    if Tending(s.pc) { TendingCloser(s); }
    else if s.pc.Drained? || s.pc.Detaching? { DrainedCloser(s); }
    else if s.pc.Reserving? { ReservingCloser(s); }
    else { CreatingCloser(s); }
    hide Kept;
    hide Paced;
    hide Constructed;
    hide Enabled;
    hide Apply;
    hide Onward;
    StepKeeps(s, Onward(s));
    StepPaced(s, Onward(s));
    StepConstructed(s, Onward(s));
  }

  // ---------------------------------------------------------------- main result

  ghost predicate Leads(s: System, steps: seq<Step>, u: System)
    decreases |steps|
  {
    if steps == [] then u == s else Enabled(s, steps[0]) && Leads(Apply(s, steps[0]), steps[1..], u)
  }

  /** A new encoder has taken the old one's place and waits for a whole second. */
  ghost predicate Replaced(s: System, u: System) {
    && u.out == s.out + 1 && u.current == Some(s.out + 1) && u.pc.Waiting? && LifeOf(u, u.out) == Running
    && !u.program.owner.closed && u.program.owner.accept && u.program.owner.base == -1
    && u.program.owner.current == Some(NOTHING) && u.program.clock == s.program.clock
  }

  lemma AdoptReplaces(s: System)
    requires Ready(s) && s.pc.Accepting?
    ensures Enabled(s, AdoptNext) && Replaced(s, Apply(s, AdoptNext))
  {
    hide R.Sound;
    hide Reaped;
    hide Paced;
  }

  lemma {:induction false} WayThrough(s: System) returns (steps: seq<Step>, u: System)
    requires Ready(s)
    ensures Leads(s, steps, u) && Replaced(s, u)
    decreases Rank(s)
  {
    hide Ready;
    hide Enabled;
    hide Apply;
    if s.pc.Accepting? {
      AdoptReplaces(s);
      u := Apply(s, AdoptNext);
      steps := [AdoptNext];
      assert Leads(u, [], u) && steps[1..] == [];
    } else {
      OnwardCloser(s);
      var rest;
      rest, u := WayThrough(Apply(s, Onward(s)));
      steps := [Onward(s)] + rest;
      assert steps[1..] == rest;
    }
    hide Replaced;
  }

  /** From every state of every run in which the loop is at work on an open owner with a
      generation to spare, and the construction under way has not failed, some steps lead to
      a running replacement with the scheduler undisturbed. */
  lemma ReplacementCompletes(fps: int, start: nat, steps: seq<Step>, states: seq<System>, k: nat) returns (more: seq<Step>, u: System)
    requires ValidRate(fps) && Execution(fps, start, steps, states) && k < |states| && Hopeful(states[k])
    ensures Leads(states[k], more, u) && Replaced(states[k], u)
  {
    ExecutionKept(fps, start, steps, states, k);
    ExecutionConstructed(fps, start, steps, states, k);
    hide Execution;
    hide Kept;
    hide Paced;
    hide Constructed;
    hide Hopeful;
    more, u := WayThrough(states[k]);
  }

  // ---------------------------------------------------------------- and not without a cause

  /** The loop waits, or is leaving because it was closed, revoked or never ready. */
  predicate Content(pc: Pc) {
    pc.Waiting? || pc == Asked(true) || pc.Leaving? || pc.Retiring?
  }

  lemma ContentStep(s: System, t: Step)
    requires Enabled(s, t) && Content(s.pc) && InOrder(s) && InOrder(Apply(s, t))
    ensures Content(Apply(s, t).pc) && Apply(s, t).out == s.out
  {
    hide B.Reserve;
    hide R.Expected;
    hide R.Enqueue;
  }

  /** An encoder in order is never replaced: as long as it runs and is handed everything, the
      loop waits or leaves for good, in every run. */
  lemma {:induction false} NoReplacementWithoutCause(fps: int, start: nat, steps: seq<Step>, states: seq<System>, i: nat, k: nat)
    requires Execution(fps, start, steps, states) && i <= k < |states| && states[i].pc.Waiting?
    requires forall j :: i <= j <= k ==> InOrder(states[j])
    ensures Content(states[k].pc) && states[k].out == states[i].out
    decreases k
  {
    hide Enabled;
    hide Apply;
    hide InOrder;
    if i < k {
      NoReplacementWithoutCause(fps, start, steps, states, i, k - 1);
      assert Enabled(states[k - 1], steps[k - 1]) && states[k - 1 + 1] == Apply(states[k - 1], steps[k - 1]);
      ContentStep(states[k - 1], steps[k - 1]);
    }
  }
}
