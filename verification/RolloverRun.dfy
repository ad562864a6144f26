/** The replacement loop.  Encoders are processes with a life of their own; one loop stops,
    drains, paces and constructs them, while the scheduler writes, the clock runs and
    anyone may close the owner at any point. */
module RolloverRun {
  import opened Common
  import opened ProgramTime
  import R = Rollover
  import B = RolloverBudget

  /** `NeverBorn`: the constructor failed and left nothing behind. */
  datatype Life = Creating | Running | Closing | Finished | NeverBorn

  /** `taken` is what the process has accepted on its lanes. */
  datatype Process = Process(epoch: nat, life: Life, taken: R.Encoder)

  const NOTHING := R.Encoder([], [], 0)

  predicate Unreaped(p: Process) {
    p.life == Creating || p.life == Running || p.life == Closing
  }

  /** Where the loop stands. */
  datatype Pc =
    | Waiting                    // for the next tick
    | Asked(accept: bool)        // has read whether the encoder still accepts
    | Fencing
    | Shutting
    | Draining                   // for at most three seconds
    | Overdue                    // the drain gave up and closed the owner
    | Drained
    | Detaching
    | Reserving
    | Delaying(start: int)
    | Constructing(late: bool)   // late: the owner was closed meanwhile
    | Accepting                  // the result was good and permitted a moment ago
    | Discarding                 // the result came too late or without permission
    | Leaving                    // the deferred exit: close the owner,
    | Retiring                   // fence it,
    | Reaping                    // and wait for the last encoder
    | Done

  /** `out` is the loop's encoder and `current` the owner's.  `starts` and `created` are the
      reserved and the actual start times of all replacements. */
  datatype System = System(
    program: R.Program, processes: seq<Process>, current: Option<nat>, out: nat, pc: Pc,
    now: nat, requests: seq<nat>, budget: B.Budget, starts: seq<int>, created: seq<int>)

  function Initial(fps: int, now: nat): System {
    System(R.InitialProgram(fps), [Process(0, Running, NOTHING)], Some(0), 0, Waiting, now, [], B.Budget([], 0), [], [])
  }

  datatype Step =
    // the rest of the world
    | Write(permitted: bool, room: bool) | ChangeScene
    | CloseCall | CloseFence             // the two halves of a concurrent Close
    | Tick(to: nat)
    | Stop(i: nat)                       // an encoder fails, is revoked or is told to close
    | Reap(i: nat)
    | Born(i: nat) | Stillborn(i: nat)
    // the loop
    | Leave                              // closed, revoked, not permitted, or never ready
    | Ask | Decide
    | SetFence | Shut
    | DrainDone(permitted: bool) | DrainTimeout | OverdueDone
    | MayReplace(eligible: bool, permitted: bool)
    | LetGo
    | Reserve
    | DelayOver(permitted: bool) | DelayCut
    | ConstructTimeout
    | Receive(wellFormed: bool, permitted: bool)
    | Discarded
    | AdoptNext
    | CloseSelf | FenceSelf | End

  /** Permission is refused by a closed owner, and may be refused by others. */
  predicate May(s: System, permitted: bool) {
    permitted ==> !s.program.owner.closed
  }

  function LifeOf(s: System, i: nat): Life {
    if i < |s.processes| then s.processes[i].life else NeverBorn
  }

  predicate Enabled(s: System, t: Step) {
    match t
    case Write(permitted, room) => R.Enabled(s.program, R.Emit(permitted, room)) && May(s, permitted)
    case ChangeScene => R.Enabled(s.program, R.ChangeScene)
    case CloseCall => true
    case CloseFence => s.program.owner.closed
    case Tick(to) => to >= s.now
    case Stop(i) => LifeOf(s, i) == Running
    case Reap(i) => LifeOf(s, i) == Closing
    case Born(i) => LifeOf(s, i) == Creating
    case Stillborn(i) => LifeOf(s, i) == Creating
    case Leave => s.pc.Waiting?
    case Ask => s.pc.Waiting?
    case Decide => s.pc.Asked?
    case SetFence => s.pc.Fencing?
    case Shut => s.pc.Shutting?
    case DrainDone(permitted) => s.pc.Draining? && LifeOf(s, s.out) == Finished && May(s, permitted)
    case DrainTimeout => s.pc.Draining?
    case OverdueDone => s.pc.Overdue? && LifeOf(s, s.out) == Finished
    case MayReplace(_, permitted) => s.pc.Drained? && May(s, permitted)
    case LetGo => s.pc.Detaching? && R.Enabled(s.program, R.Detach)
    case Reserve => s.pc.Reserving?
    case DelayOver(permitted) => s.pc.Delaying? && s.now >= s.pc.start && May(s, permitted)
    case DelayCut => s.pc.Delaying?
    case ConstructTimeout => s.pc.Constructing?
    case Receive(_, permitted) => s.pc.Constructing? && LifeOf(s, s.out + 1) != Creating && May(s, permitted)
    case Discarded => s.pc.Discarding? && LifeOf(s, s.out + 1) == Finished
    case AdoptNext => s.pc.Accepting? && R.Enabled(s.program, R.Adopt)
    case CloseSelf => s.pc.Leaving?
    case FenceSelf => s.pc.Retiring?
    case End => s.pc.Reaping? && LifeOf(s, s.out) == Finished
  }

  function SetLife(s: System, i: nat, life: Life): System {
    if i < |s.processes| then s.(processes := s.processes[i := s.processes[i].(life := life)]) else s
  }

  /** Closing is a request; an encoder that is already closing or gone ignores it. */
  function CloseProcess(s: System, i: nat): System {
    if LifeOf(s, i) == Running then SetLife(s, i, Closing) else s
  }

  /** A step of the owner or scheduler alone. */
  function Drive(s: System, t: R.Step): System
    requires R.Enabled(s.program, t)
  {
    s.(program := R.Apply(s.program, t))
  }

  /** What is written goes to the process that the owner has. */
  function Record(s: System): System {
    if s.current.Some? && s.current.value < |s.processes| && s.program.owner.current.Some? then
      var i := s.current.value;
      s.(processes := s.processes[i := s.processes[i].(taken := s.program.owner.current.value)])
    else s
  }

  function CanRollover(s: System, eligible: bool): bool {
    eligible && LifeOf(s, s.out) == Finished && s.out < |s.processes| && s.processes[s.out].epoch + 1 < R.EPOCH_LIMIT
  }

  function Apply(s: System, t: Step): System
    requires Enabled(s, t)
  {
    match t
    case Write(permitted, room) => Record(Drive(s, R.Emit(permitted, room)))
    case ChangeScene => Drive(s, R.ChangeScene)
    case CloseCall => Drive(s, R.CloseOwner)
    case CloseFence => Drive(s, R.Fence)
    case Tick(to) => s.(now := to)
    case Stop(i) => SetLife(s, i, Closing)
    case Reap(i) => SetLife(s, i, Finished)
    case Born(i) => SetLife(s, i, Running)
    case Stillborn(i) => SetLife(s, i, NeverBorn)
    case Leave => s.(pc := Leaving)
    case Ask => s.(pc := Asked(s.program.owner.accept))
    case Decide => s.(pc := if s.pc.accept && LifeOf(s, s.out) == Running then Waiting else Fencing)
    case SetFence => Drive(s, R.Fence).(pc := Shutting)
    case Shut => CloseProcess(s, s.out).(pc := Draining)
    case DrainDone(permitted) => s.(pc := if permitted then Drained else Leaving)
    case DrainTimeout => Drive(s, R.CloseOwner).(pc := Overdue)
    case OverdueDone => s.(pc := Leaving)
    case MayReplace(eligible, permitted) => s.(pc := if CanRollover(s, eligible) && permitted then Detaching else Leaving)
    case LetGo => Drive(s, R.Detach).(current := None, pc := Reserving)
    case Reserve =>
      var (budget, granted) := B.Reserve(s.budget, s.now);
      s.(budget := budget, requests := s.requests + [s.now], starts := s.starts + granted,
         pc := if granted == [] then Leaving else Delaying(granted[0]))
    case DelayOver(permitted) =>
      if !permitted || s.program.owner.epoch + 1 >= R.EPOCH_LIMIT then s.(pc := Leaving)
      else
        s.(processes := s.processes + [Process(s.program.owner.epoch + 1, Creating, NOTHING)], created := s.created + [s.now],
           pc := Constructing(false))
    case DelayCut => s.(pc := Leaving)
    case ConstructTimeout => Drive(s, R.CloseOwner).(pc := Constructing(true))
    case Receive(wellFormed, permitted) =>
      if LifeOf(s, s.out + 1) == NeverBorn then s.(pc := Leaving)
      else if wellFormed && permitted then s.(pc := Accepting)
      else CloseProcess(s, s.out + 1).(pc := Discarding)
    case Discarded => s.(pc := Leaving)
    case AdoptNext => Drive(s, R.Adopt).(out := s.out + 1, current := Some(s.out + 1), pc := Waiting)
    case CloseSelf => Drive(s, R.CloseOwner).(pc := Retiring)
    case FenceSelf => CloseProcess(Drive(s, R.Fence), s.out).(pc := Reaping)
    case End => s.(pc := Done)
  }

  ghost predicate Execution(fps: int, start: nat, steps: seq<Step>, states: seq<System>) {
    && |states| == |steps| + 1 && states[0] == Initial(fps, start)
    && forall k :: 0 <= k < |steps| ==> Enabled(states[k], steps[k]) && states[k + 1] == Apply(states[k], steps[k])
  }

  // ---------------------------------------------------------------- the processes

  /** The loop's own encoder may be alive. */
  predicate Tending(pc: Pc) {
    pc.Waiting? || pc.Asked? || pc.Fencing? || pc.Shutting? || pc.Draining? || pc.Overdue?
  }

  /** One more than the loop's own encoder has been asked for. */
  predicate Building(pc: Pc) {
    pc.Constructing? || pc.Accepting? || pc.Discarding?
  }

  predicate Exiting(pc: Pc) {
    pc.Leaving? || pc.Retiring? || pc.Reaping?
  }

  /** The owner has been fenced and is not given a new encoder yet. */
  predicate Quiet(pc: Pc) {
    || pc.Shutting? || pc.Draining? || pc.Overdue? || pc.Drained? || pc.Detaching? || pc.Reserving? || pc.Delaying?
    || Building(pc)
  }

  /** The only encoder that may be unreaped, if any. */
  function Suspect(s: System): Option<nat> {
    if Tending(s.pc) || Exiting(s.pc) then Some(s.out)
    else if Building(s.pc) then Some(s.out + 1)
    else None
  }

  ghost predicate Reaped(s: System) {
    forall i :: 0 <= i < |s.processes| && Suspect(s) != Some(i) ==> !Unreaped(s.processes[i])
  }

  ghost predicate Numbered(s: System) {
    && s.out < |s.processes| <= R.EPOCH_LIMIT
    && (forall i :: 0 <= i < |s.processes| ==> s.processes[i].epoch == i)
    && s.program.owner.epoch == s.out
    && (if Building(s.pc) then |s.processes| == s.out + 2 else if Exiting(s.pc) || s.pc.Done? then true else |s.processes| == s.out + 1)
  }

  ghost predicate Owned(s: System) {
    && (s.current.Some? <==> s.program.owner.current.Some?)
    && (s.current.Some? ==> s.current.value == s.out)
    && (Tending(s.pc) || s.pc.Drained? || s.pc.Detaching? ==> s.current.Some?)
    && (s.pc.Reserving? || s.pc.Delaying? || Building(s.pc) ==> s.current.None?)
    && (Quiet(s.pc) ==> !s.program.owner.accept)
  }

  ghost predicate Kept(s: System) {
    R.Sound(s.program) && Reaped(s) && Numbered(s) && Owned(s)
  }

  /** What the owner's own steps leave alone. */
  lemma DriveKeeps(s: System, t: R.Step)
    requires R.Sound(s.program) && R.Enabled(s.program, t) && !t.Detach? && !t.Adopt?
    ensures var o, u := s.program.owner, Drive(s, t).program.owner;
            && R.Sound(Drive(s, t).program)
            && u.epoch == o.epoch && (u.current.Some? <==> o.current.Some?) && (!o.accept ==> !u.accept)
            && (t.Fence? ==> !u.accept) && (t.CloseOwner? ==> u.closed)
  {
    R.StepSound(s.program, t);
    hide R.Sound;
    hide R.Expected;
  }

  /** The steps of the scheduler and of a concurrent Close. */
  predicate AtOwner(t: Step) {
    t.Write? || t.ChangeScene? || t.CloseCall? || t.CloseFence?
  }

  lemma WriteKeeps(s: System, t: R.Step)
    requires Kept(s) && R.Enabled(s.program, t) && t.Emit?
    ensures Kept(Record(Drive(s, t)))
  {
    DriveKeeps(s, t);
    hide R.Sound;
    hide R.Apply;
    hide R.Enabled;
    var u := Drive(s, t);
    assert Kept(u);
    RecordKeeps(u);
  }

  lemma RecordKeeps(s: System)
    requires Kept(s)
    ensures Kept(Record(s))
  {
    hide R.Sound;
  }

  lemma OwnerKeeps(s: System, t: Step)
    requires Kept(s) && Enabled(s, t) && AtOwner(t)
    ensures Kept(Apply(s, t))
  {
    hide R.Sound;
    hide R.Apply;
    hide R.Enabled;
    match t
    case Write(permitted, room) => WriteKeeps(s, R.Emit(permitted, room));
    case ChangeScene => assert R.Enabled(s.program, R.ChangeScene); DriveKeeps(s, R.ChangeScene);
    case CloseCall => AlwaysEnabled(s.program); DriveKeeps(s, R.CloseOwner);
    case CloseFence => AlwaysEnabled(s.program); DriveKeeps(s, R.Fence);
  }

  lemma AlwaysEnabled(p: R.Program)
    ensures R.Enabled(p, R.CloseOwner) && R.Enabled(p, R.Fence)
  {
  }

  /** The steps of the processes and of time. */
  predicate AtProcess(t: Step) {
    t.Tick? || t.Stop? || t.Reap? || t.Born? || t.Stillborn?
  }

  /** A process that is reaped stays so, whatever is done to the others. */
  lemma LifeKeeps(s: System, i: nat, life: Life)
    requires Kept(s) && i < |s.processes| && Unreaped(s.processes[i])
    ensures Kept(SetLife(s, i, life))
  {
    hide R.Sound;
  }

  lemma ProcessKeeps(s: System, t: Step)
    requires Kept(s) && Enabled(s, t) && AtProcess(t)
    ensures Kept(Apply(s, t))
  {
    match t
    case Tick(_) =>
    case Stop(i) => LifeKeeps(s, i, Closing);
    case Reap(i) => LifeKeeps(s, i, Finished);
    case Born(i) => LifeKeeps(s, i, Running);
    case Stillborn(i) => LifeKeeps(s, i, NeverBorn);
  }

  lemma CloseKeeps(s: System, i: nat)
    requires Kept(s)
    ensures Kept(CloseProcess(s, i)) && CloseProcess(s, i) == s.(processes := CloseProcess(s, i).processes)
  {
    if LifeOf(s, i) == Running { LifeKeeps(s, i, Closing); }
  }

  /** The steps that only move the loop on. */
  predicate OnlyMoves(t: Step) {
    t.Leave? || t.Ask? || t.Decide? || t.DrainDone? || t.OverdueDone?
  }

  predicate OnlyMovesLater(t: Step) {
    t.MayReplace? || t.DelayCut? || t.Discarded? || t.End?
  }

  lemma MoveKeeps(s: System, t: Step)
    requires Kept(s) && Enabled(s, t) && (OnlyMoves(t))
    ensures Kept(Apply(s, t))
  {
    hide R.Sound;
    hide R.Enabled;
    hide R.Apply;
  }

  lemma MoveLaterKeeps(s: System, t: Step)
    requires Kept(s) && Enabled(s, t) && (OnlyMovesLater(t))
    ensures Kept(Apply(s, t))
  {
    hide R.Sound;
    hide R.Enabled;
    hide R.Apply;
  }

  lemma FenceKeeps(s: System, t: Step)
    requires Kept(s) && Enabled(s, t) && (t.SetFence?)
    ensures Kept(Apply(s, t))
  {
    AlwaysEnabled(s.program);
    DriveKeeps(s, R.Fence);
    hide R.Sound;
    hide R.Enabled;
    hide R.Apply;
  }

  lemma OverdueKeeps(s: System, t: Step)
    requires Kept(s) && Enabled(s, t) && (t.DrainTimeout?)
    ensures Kept(Apply(s, t))
  {
    AlwaysEnabled(s.program);
    DriveKeeps(s, R.CloseOwner);
    hide R.Sound;
    hide R.Enabled;
    hide R.Apply;
  }

  lemma LateKeeps(s: System, t: Step)
    requires Kept(s) && Enabled(s, t) && (t.ConstructTimeout?)
    ensures Kept(Apply(s, t))
  {
    AlwaysEnabled(s.program);
    DriveKeeps(s, R.CloseOwner);
    hide R.Sound;
    hide R.Enabled;
    hide R.Apply;
  }

  lemma CloseSelfKeeps(s: System, t: Step)
    requires Kept(s) && Enabled(s, t) && (t.CloseSelf?)
    ensures Kept(Apply(s, t))
  {
    AlwaysEnabled(s.program);
    DriveKeeps(s, R.CloseOwner);
    hide R.Sound;
    hide R.Enabled;
    hide R.Apply;
  }

  lemma ShutKeeps(s: System, t: Step)
    requires Kept(s) && Enabled(s, t) && (t.Shut?)
    ensures Kept(Apply(s, t))
  {
    CloseKeeps(s, s.out);
    hide R.Sound;
    hide R.Enabled;
    hide R.Apply;
    hide CloseProcess;
  }

  lemma LetGoKeeps(s: System, t: Step)
    requires Kept(s) && Enabled(s, t) && (t.LetGo?)
    ensures Kept(Apply(s, t))
  {
    R.StepSound(s.program, R.Detach);
    LetGoOwner(s.program);
    hide R.Sound;
    hide R.Enabled;
    hide R.Apply;
  }

  lemma LetGoOwner(p: R.Program)
    requires R.Enabled(p, R.Detach)
    ensures var u := R.Apply(p, R.Detach).owner; u.current.None? && u.accept == p.owner.accept && u.epoch == p.owner.epoch
  {
  }

  lemma AdoptOwner(p: R.Program)
    requires R.Enabled(p, R.Adopt)
    ensures var u := R.Apply(p, R.Adopt).owner; u.current.Some? && u.epoch == p.owner.epoch + 1
  {
  }

  lemma ReserveKeeps(s: System, t: Step)
    requires Kept(s) && Enabled(s, t) && (t.Reserve?)
    ensures Kept(Apply(s, t))
  {
    hide R.Sound;
    hide R.Enabled;
    hide R.Apply;
    hide B.Reserve;
  }

  lemma CreateKeeps(s: System, t: Step)
    requires Kept(s) && Enabled(s, t) && (t.DelayOver?)
    ensures Kept(Apply(s, t))
  {
    hide R.Sound;
    hide R.Enabled;
    hide R.Apply;
  }

  lemma ReceiveKeeps(s: System, t: Step)
    requires Kept(s) && Enabled(s, t) && (t.Receive?)
    ensures Kept(Apply(s, t))
  {
    hide R.Sound;
    hide R.Enabled;
    hide R.Apply;
    if LifeOf(s, s.out + 1) != NeverBorn && !(t.wellFormed && t.permitted) {
      RejectKeeps(s);
    }
    hide CloseProcess;
  }

  lemma RejectKeeps(s: System)
    requires Kept(s) && s.pc.Constructing?
    ensures Kept(CloseProcess(s, s.out + 1).(pc := Discarding))
  {
    hide R.Sound;
    CloseKeeps(s, s.out + 1);
    hide CloseProcess;
  }

  lemma AdoptKeeps(s: System, t: Step)
    requires Kept(s) && Enabled(s, t) && (t.AdoptNext?)
    ensures Kept(Apply(s, t))
  {
    R.StepSound(s.program, R.Adopt);
    AdoptOwner(s.program);
    hide R.Sound;
    hide R.Enabled;
    hide R.Apply;
  }

  lemma FenceSelfKeeps(s: System, t: Step)
    requires Kept(s) && Enabled(s, t) && t.FenceSelf?
    ensures Kept(Apply(s, t))
  {
    AlwaysEnabled(s.program);
    DriveKeeps(s, R.Fence);
    var u := Drive(s, R.Fence);
    hide R.Sound;
    hide R.Enabled;
    hide R.Apply;
    assert Kept(u);
    CloseKeeps(u, s.out);
    hide CloseProcess;
  }

  /** Every step keeps the processes in order. */
  lemma StepKeeps(s: System, t: Step)
    requires Kept(s) && Enabled(s, t)
    ensures Kept(Apply(s, t))
  {
    hide Kept;
    hide Enabled;
    hide Apply;
    if AtOwner(t) { OwnerKeeps(s, t); }
    else if AtProcess(t) { ProcessKeeps(s, t); }
    else if OnlyMoves(t) { MoveKeeps(s, t); }
    else if OnlyMovesLater(t) { MoveLaterKeeps(s, t); }
    else {
      match t
      case SetFence => FenceKeeps(s, t);
      case Shut => ShutKeeps(s, t);
      case LetGo => LetGoKeeps(s, t);
      case Reserve => ReserveKeeps(s, t);
      case DelayOver(_) => CreateKeeps(s, t);
      case Receive(_, _) => ReceiveKeeps(s, t);
      case AdoptNext => AdoptKeeps(s, t);
      case FenceSelf => FenceSelfKeeps(s, t);
      case DrainTimeout => OverdueKeeps(s, t);
      case ConstructTimeout => LateKeeps(s, t);
      case CloseSelf => CloseSelfKeeps(s, t);
    }
  }

  // ---------------------------------------------------------------- what each process was given

  /** The owner's encoders are the processes: the i-th one it let go is process i, and the
      one it has is process `out`. */
  ghost predicate Tied(s: System) {
    var o := s.program.owner;
    && |o.retired| == s.out + (if s.current.None? then 1 else 0)
    && |o.retired| <= |s.processes|
    && (forall i :: 0 <= i < |o.retired| ==> s.processes[i].taken == o.retired[i])
    && (s.current.Some? && o.current.Some? && s.out < |s.processes| ==> s.processes[s.out].taken == o.current.value)
    && (forall i :: s.out < i < |s.processes| ==> s.processes[i].taken == NOTHING)
  }

  /** The owner's steps neither forget nor swap an encoder. */
  lemma DriveTied(s: System, t: R.Step)
    requires R.Enabled(s.program, t) && !t.Detach? && !t.Adopt?
    ensures Drive(s, t).program.owner.retired == s.program.owner.retired
    ensures !t.Emit? ==> Drive(s, t).program.owner.current == s.program.owner.current
  {
    hide R.Expected;
    hide R.Enqueue;
  }

  lemma WriteTied(s: System, t: Step)
    requires Kept(s) && Tied(s) && Enabled(s, t) && t.Write?
    ensures Tied(Apply(s, t))
  {
    var e := R.Emit(t.permitted, t.room);
    DriveTied(s, e);
    DriveKeeps(s, e);
    hide R.Sound;
    hide R.Apply;
    hide R.Enabled;
  }

  /** What most steps leave alone: the owner's encoders and what the processes were given. */
  ghost predicate SameTaken(s: System, u: System) {
    && u.out == s.out && u.current == s.current && |u.processes| == |s.processes|
    && u.program.owner.retired == s.program.owner.retired && u.program.owner.current == s.program.owner.current
    && forall i :: 0 <= i < |s.processes| ==> u.processes[i].taken == s.processes[i].taken
  }

  /** The steps that drive the owner without handing it anything. */
  predicate Drives(t: Step) {
    || t.ChangeScene? || t.CloseCall? || t.CloseFence? || t.SetFence? || t.DrainTimeout? || t.ConstructTimeout?
    || t.CloseSelf? || t.FenceSelf?
  }

  lemma DrivenTaken(s: System, t: Step)
    requires Enabled(s, t) && Drives(t)
    ensures SameTaken(s, Apply(s, t))
  {
    hide R.Apply;
    hide R.Enabled;
    AlwaysEnabled(s.program);
    DriveTied(s, R.CloseOwner);
    DriveTied(s, R.Fence);
    if t.ChangeScene? { DriveTied(s, R.ChangeScene); }
  }

  lemma MovedTaken(s: System, t: Step)
    requires Enabled(s, t) && !Drives(t) && !t.Write? && !t.LetGo? && !t.AdoptNext? && !t.DelayOver?
    ensures SameTaken(s, Apply(s, t))
  {
    hide R.Apply;
    hide R.Enabled;
    hide B.Reserve;
  }

  lemma SameTied(s: System, u: System)
    requires Tied(s) && SameTaken(s, u)
    ensures Tied(u)
  {
  }

  lemma LetGoTied(s: System)
    requires Kept(s) && Tied(s) && Enabled(s, LetGo)
    ensures Tied(Apply(s, LetGo))
  {
    hide R.Sound;
    hide Reaped;
  }

  lemma AdoptTied(s: System)
    requires Kept(s) && Tied(s) && Enabled(s, AdoptNext)
    ensures Tied(Apply(s, AdoptNext))
  {
    hide R.Sound;
    hide Reaped;
  }

  lemma CreateTied(s: System, t: Step)
    requires Kept(s) && Tied(s) && Enabled(s, t) && t.DelayOver?
    ensures Tied(Apply(s, t))
  {
    hide R.Sound;
    hide Reaped;
  }

  lemma StepTied(s: System, t: Step)
    requires Kept(s) && Tied(s) && Enabled(s, t)
    ensures Tied(Apply(s, t))
  {
    hide Kept;
    hide Tied;
    hide Enabled;
    hide Apply;
    hide SameTaken;
    match t
    case Write(_, _) => WriteTied(s, t);
    case LetGo => LetGoTied(s);
    case AdoptNext => AdoptTied(s);
    case DelayOver(_) => CreateTied(s, t);
    case _ =>
      if Drives(t) { DrivenTaken(s, t); } else { MovedTaken(s, t); }
      SameTied(s, Apply(s, t));
  }

  // ---------------------------------------------------------------- the pace

  /** Every replacement was reserved, starts no earlier than reserved, and the next one is
      reserved only afterwards. */
  ghost predicate Paced(s: System) {
    && (s.budget, s.starts) == B.Run(s.requests)
    && |s.processes| == |s.created| + 1
    && |s.created| <= |s.starts| <= |s.created| + 1
    && (s.pc.Delaying? ==> |s.starts| == |s.created| + 1 && s.pc.start == s.starts[|s.created|])
    && (!s.pc.Delaying? && !Exiting(s.pc) && !s.pc.Done? ==> |s.starts| == |s.created|)
    && (forall i :: 0 <= i < |s.created| ==> s.starts[i] <= s.created[i] <= s.now)
    && (forall i :: 0 <= i < |s.created| && i + 1 < |s.starts| ==> s.created[i] <= s.starts[i + 1])
  }

  lemma ReservePaced(s: System)
    requires Paced(s) && Enabled(s, Reserve)
    ensures Paced(Apply(s, Reserve))
  {
    RunGrows(s.requests, s.now);
    GrantAhead(s.budget, s.now);
    hide B.Run;
    hide B.Reserve;
  }

  lemma RunGrows(requests: seq<nat>, now: nat)
    ensures var (b, granted) := B.Run(requests);
            B.Run(requests + [now]) == (B.Reserve(b, now).0, granted + B.Reserve(b, now).1)
  {
    hide B.Reserve;
    var all := requests + [now];
    assert all[..|all| - 1] == requests;
  }

  lemma GrantAhead(b: B.Budget, now: nat)
    ensures var granted := B.Reserve(b, now).1; granted == [] || (|granted| == 1 && granted[0] >= now)
  {
  }

  /** What the other steps leave alone. */
  lemma PaceUntouched(s: System, t: Step)
    requires Enabled(s, t) && !t.Reserve? && !t.DelayOver? && !t.Tick?
    ensures var u := Apply(s, t);
            && u.budget == s.budget && u.starts == s.starts && u.requests == s.requests && u.created == s.created
            && u.now == s.now && |u.processes| == |s.processes|
            && (u.pc.Delaying? ==> u.pc == s.pc)
            && (s.pc.Delaying? && u.pc != s.pc ==> Exiting(u.pc))
            && (Exiting(s.pc) || s.pc.Done? ==> Exiting(u.pc) || u.pc.Done?)
  {
    hide R.Apply;
    hide R.Enabled;
  }

  lemma StepPaced(s: System, t: Step)
    requires Paced(s) && Enabled(s, t)
    ensures Paced(Apply(s, t))
  {
    hide B.Run;
    hide B.Reserve;
    if t.Reserve? {
      ReservePaced(s);
    } else if !t.DelayOver? && !t.Tick? {
      PaceUntouched(s, t);
      hide Apply;
      hide Enabled;
    }
  }

  // ---------------------------------------------------------------- main results

  lemma InitialKept(fps: int, start: nat)
    requires ValidRate(fps)
    ensures Kept(Initial(fps, start)) && Paced(Initial(fps, start)) && Tied(Initial(fps, start))
  {
    R.InitialSound(fps);
    hide R.Sound;
  }

  lemma {:induction false} ExecutionKept(fps: int, start: nat, steps: seq<Step>, states: seq<System>, k: nat)
    requires ValidRate(fps) && Execution(fps, start, steps, states) && k < |states|
    ensures Kept(states[k]) && Paced(states[k]) && Tied(states[k]) && states[k].program.owner.fps == fps
  {
    hide Kept;
    hide Paced;
    hide Tied;
    hide Enabled;
    hide Apply;
    if k == 0 {
      InitialKept(fps, start);
    } else {
      ExecutionKept(fps, start, steps, states, k - 1);
      StepKeeps(states[k - 1], steps[k - 1]);
      StepPaced(states[k - 1], steps[k - 1]);
      StepTied(states[k - 1], steps[k - 1]);
      RateKept(states[k - 1], steps[k - 1]);
    }
  }

  lemma RateKept(s: System, t: Step)
    requires Enabled(s, t)
    ensures Apply(s, t).program.owner.fps == s.program.owner.fps
  {
    hide B.Reserve;
    hide R.Expected;
  }

  /** At any moment at most one encoder process is unreaped, one being constructed included. */
  lemma AtMostOneUnreaped(fps: int, start: nat, steps: seq<Step>, states: seq<System>, k: nat, i: nat, j: nat)
    requires ValidRate(fps) && Execution(fps, start, steps, states) && k < |states|
    requires i < |states[k].processes| && j < |states[k].processes|
    requires Unreaped(states[k].processes[i]) && Unreaped(states[k].processes[j])
    ensures i == j
  {
    ExecutionKept(fps, start, steps, states, k);
    hide R.Sound;
    hide Execution;
  }

  /** The owner reports itself finished only when no process is left. */
  lemma FinishedMeansReaped(fps: int, start: nat, steps: seq<Step>, states: seq<System>, k: nat)
    requires ValidRate(fps) && Execution(fps, start, steps, states) && k < |states| && states[k].pc.Done?
    ensures forall i :: 0 <= i < |states[k].processes| ==> !Unreaped(states[k].processes[i])
  {
    ExecutionKept(fps, start, steps, states, k);
    hide R.Sound;
    hide Execution;
  }

  /** The n-th creation is given epoch n, failed and late ones included, and all earlier
      processes are reaped by then. */
  lemma CreationsNumbered(fps: int, start: nat, steps: seq<Step>, states: seq<System>, k: nat, n: nat)
    requires ValidRate(fps) && Execution(fps, start, steps, states) && k < |states| && n < |states[k].processes|
    ensures states[k].processes[n].epoch == n < R.EPOCH_LIMIT
    ensures n + 1 < |states[k].processes| && (Tending(states[k].pc) || Building(states[k].pc)) ==> !Unreaped(states[k].processes[n])
  {
    ExecutionKept(fps, start, steps, states, k);
    hide R.Sound;
    hide Execution;
  }

  /** The loop never waits on its own bookkeeping: when it lets its encoder go the owner has
      it and no longer accepts, and when it adopts one the owner has none, closed or not. */
  lemma GuardsHold(fps: int, start: nat, steps: seq<Step>, states: seq<System>, k: nat)
    requires ValidRate(fps) && Execution(fps, start, steps, states) && k < |states|
    ensures states[k].pc.Detaching? ==> Enabled(states[k], LetGo)
    ensures states[k].pc.Accepting? ==> Enabled(states[k], AdoptNext)
  {
    hide R.Sound;
    hide Execution;
    hide Paced;
    hide Tied;
    hide Reaped;
    ExecutionKept(fps, start, steps, states, k);
  }

  /** In every run of the loop, every encoder process ever created has been given exactly
      audio 0, 960, 1920, ... and frames 0, 1, 2, ... of its own, and one that was never
      adopted nothing. */
  lemma EveryProcessGapless(fps: int, start: nat, steps: seq<Step>, states: seq<System>, k: nat, i: nat)
    requires ValidRate(fps) && Execution(fps, start, steps, states) && k < |states| && i < |states[k].processes|
    ensures R.Gapless(states[k].processes[i].taken, fps)
    ensures i > states[k].program.owner.epoch ==> states[k].processes[i].taken == NOTHING
  {
    ExecutionKept(fps, start, steps, states, k);
    var s := states[k];
    hide Execution;
    hide Reaped;
    hide Paced;
    if i < |s.program.owner.retired| { assert s.program.owner.retired[i] in s.program.owner.retired; }
  }

  /** Starts that lie between their own and the next reservation. */
  ghost predicate Interleaved(starts: seq<int>, created: seq<int>) {
    && |created| <= |starts|
    && (forall i :: 0 <= i < |created| ==> starts[i] <= created[i])
    && (forall i :: 0 <= i < |created| && i + 1 < |starts| ==> created[i] <= starts[i + 1])
  }

  ghost predicate Apart(starts: seq<int>, n: nat, distance: int) {
    forall a, b :: 0 <= a && b == a + n && b < |starts| ==> starts[b] - starts[a] >= distance
  }

  lemma BudgetApart(requests: seq<nat>)
    ensures Apart(B.Run(requests).1, 1, B.SECOND) && Apart(B.Run(requests).1, 8, B.MINUTE)
  {
    B.StartsSpaced(requests);
    var starts := B.Run(requests).1;
    hide B.Run;
    forall a, b | 0 <= a && b == a + 8 && b < |starts| ensures starts[b] - starts[a] >= B.MINUTE { B.AtMostEightPerMinute(requests, a); }
  }

  /** Distances of the reservations carry over, up to one lateness or one place. */
  lemma Carried(starts: seq<int>, created: seq<int>, i: nat, n: nat, distance: int)
    requires Interleaved(starts, created) && i + n < |created| && n > 0
    requires Apart(starts, n, distance)
    ensures created[i + n] - created[i] >= distance - (created[i] - starts[i])
    ensures i + n + 1 < |created| ==> created[i + n + 1] - created[i] >= distance
  {
    assert starts[i + n] - starts[i] >= distance;
    if i + n + 1 < |created| { assert starts[i + 1 + n] - starts[i + 1] >= distance; }
  }

  /** Replacements keep the reserved pace: each starts no earlier than reserved, the
      reservations are a second apart and eight a minute, and so a late timer can cost only
      its own lateness. */
  lemma CreationsPaced(fps: int, start: nat, steps: seq<Step>, states: seq<System>, k: nat, i: nat)
    requires ValidRate(fps) && Execution(fps, start, steps, states) && k < |states| && i < |states[k].created|
    ensures var s := states[k];
            && |s.starts| >= |s.created| && s.created[i] >= s.starts[i]
            && (i + 1 < |s.created| ==> s.created[i + 1] - s.created[i] >= B.SECOND - (s.created[i] - s.starts[i]))
            && (i + 2 < |s.created| ==> s.created[i + 2] - s.created[i] >= B.SECOND)
            && (i + 8 < |s.created| ==> s.created[i + 8] - s.created[i] >= B.MINUTE - (s.created[i] - s.starts[i]))
            && (i + 9 < |s.created| ==> s.created[i + 9] - s.created[i] >= B.MINUTE)
  {
    hide Execution;
    hide Kept;
    hide Tied;
    hide B.Run;
    ExecutionKept(fps, start, steps, states, k);
    var s := states[k];
    assert Interleaved(s.starts, s.created) && s.starts == B.Run(s.requests).1;
    hide Paced;
    BudgetApart(s.requests);
    hide Apart;
    if i + 1 < |s.created| { Carried(s.starts, s.created, i, 1, B.SECOND); }
    if i + 8 < |s.created| { Carried(s.starts, s.created, i, 8, B.MINUTE); }
  }
}
