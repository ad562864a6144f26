/** Successive encoders behind one scheduler.  The scheduler's events are dropped while
    an encoder is replaced and rebased to a whole second for the next one; each encoder's
    raw lanes accept only a gapless sequence that starts at zero. */
module Rollover {
  import opened Common
  import opened ProgramTime
  import opened ProgramClock

  const MAX_REVISION := 0x1f_ffff_ffff_ffff
  const EPOCH_LIMIT := 128

  // ---------------------------------------------------------------- raw lanes of one encoder

  /** The times one encoder has accepted on its audio and its video lane. */
  datatype Encoder = Encoder(audio: seq<int>, video: seq<int>, revision: int)

  datatype Refusal = OutOfSequence | Unavailable

  /** The admission check of a raw lane.  `room` stands for everything else it asks for:
      the writer's permission, the block size and a free slot. */
  function Enqueue(e: Encoder, event: Event, revision: int, fps: int, room: bool): (Encoder, Option<Refusal>) {
    match event
    case Audio(at) =>
      if |e.audio| > MAX_TIME / BLOCK || at != |e.audio| * BLOCK then (e, Some(OutOfSequence))
      else if !room then (e, Some(Unavailable))
      else (e.(audio := e.audio + [at]), None)
    case Video(at) =>
      if VideoTime(|e.video|, fps, 0) != Some(at) || !(1 <= revision <= MAX_REVISION) || revision < e.revision then
        (e, Some(OutOfSequence))
      else if !room then (e, Some(Unavailable))
      else (e.(video := e.video + [at], revision := revision), None)
  }

  // ---------------------------------------------------------------- the rollover owner

  /** `retired` remembers what every reaped encoder had accepted. */
  datatype Owner = Owner(
    fps: int,
    audioIndex: nat, videoIndex: nat, videoRevision: int,
    base: int,                    // -1 until a whole-second audio block
    accept: bool, current: Option<Encoder>,
    epoch: nat, closed: bool,
    retired: seq<Encoder>)

  datatype Delivery =
    | Denied(outOfSequence: bool)   // the owner closes
    | Dropped                       // no encoder is accepting
    | Delivered
    | Refused(why: Refusal)         // the encoder is given up

  function Rebase(event: Event, base: int): Event {
    match event
    case Audio(at) => Audio(at - base)
    case Video(at) => Video(at - base)
  }

  predicate Expected(o: Owner, event: Event, revision: int) {
    match event
    case Audio(at) => o.audioIndex <= MAX_TIME / BLOCK && at == o.audioIndex * BLOCK
    case Video(at) =>
      VideoTime(o.videoIndex, o.fps, 0) == Some(at) && 1 <= revision <= MAX_REVISION && revision >= o.videoRevision
  }

  function Write(o: Owner, event: Event, revision: int, permitted: bool, room: bool): (Owner, Delivery) {
    if o.closed || !permitted || !Expected(o, event, revision) then
      (o.(closed := true, accept := false), Denied(!Expected(o, event, revision)))
    else
      var u := if event.Video? then o.(videoIndex := o.videoIndex + 1, videoRevision := revision)
               else o.(audioIndex := o.audioIndex + 1);
      if !o.accept || o.current.None? then (u, Dropped)
      else if o.base < 0 && (event.Video? || event.at % RATE != 0) then (u, Dropped)
      else
        var base := if o.base < 0 then event.at else o.base;
        var (e, refusal) := Enqueue(o.current.value, Rebase(event, base), revision, o.fps, room);
        if refusal.None? then (u.(base := base, current := Some(e)), Delivered)
        else (u.(base := base, accept := false), Refused(refusal.value))
  }

  class ProgramRollover {
    const fps: int
    var audioIndex: nat
    var videoIndex: nat
    var videoRevision: int
    var base: int
    var accept: bool
    var current: Option<Encoder>
    var epoch: nat
    var closed: bool
    ghost var retired: seq<Encoder>

    ghost function View(): Owner
      reads this
    {
      Owner(fps, audioIndex, videoIndex, videoRevision, base, accept, current, epoch, closed, retired)
    }

    constructor (fps: int)
      ensures View() == Opened(fps)
    {
      this.fps := fps;
      audioIndex, videoIndex, videoRevision, base := 0, 0, 0, -1;
      accept, current, epoch, closed := true, Some(Encoder([], [], 0)), 0, false;
      retired := [];
    }

    method WriteProgram(event: Event, revision: int, permitted: bool, room: bool) returns (delivery: Delivery)
      modifies this
      ensures (View(), delivery) == Write(old(View()), event, revision, permitted, room)
    {
      var expected := if event.Video? then VideoTime(videoIndex, fps, 0) else Some(audioIndex * BLOCK);
      var valid := if event.Video? then 1 <= revision <= MAX_REVISION && revision >= videoRevision
                   else audioIndex <= MAX_TIME / BLOCK;
      var inSequence := valid && expected == Some(event.at);
      if closed || !permitted || !inSequence {
        closed := true;
        accept := false;
        return Denied(!inSequence);
      }
      if event.Video? {
        videoIndex := videoIndex + 1;
        videoRevision := revision;
      } else {
        audioIndex := audioIndex + 1;
      }
      if !accept || current.None? {
        return Dropped;
      }
      if base < 0 {
        if event.Video? || event.at % RATE != 0 {
          return Dropped;
        }
        base := event.at;
      }
      var encoder, refusal := Enqueue(current.value, Rebase(event, base), revision, fps, room).0,
                              Enqueue(current.value, Rebase(event, base), revision, fps, room).1;
      if refusal.Some? {
        accept := false;
        return Refused(refusal.value);
      }
      current := Some(encoder);
      delivery := Delivered;
    }
  }

  function Opened(fps: int): Owner {
    Owner(fps, 0, 0, 0, -1, true, Some(Encoder([], [], 0)), 0, false, [])
  }

  function Detached(o: Owner): Owner
    requires o.current.Some?
  {
    o.(current := None, retired := o.retired + [o.current.value])
  }

  function Adopted(o: Owner): Owner {
    o.(current := Some(Encoder([], [], 0)), accept := true, base := -1, epoch := o.epoch + 1)
  }

  // ---------------------------------------------------------------- scheduler, owner and lanes together

  /** `scene` is the mixer's presentation revision, stamped on every frame. */
  datatype Program = Program(clock: Cursors, scene: int, owner: Owner, stopped: bool)

  /** The scheduler stops at the first write that is denied; the owner may be closed, fenced,
      emptied and given a replacement at any point between two hand-offs. */
  datatype Step =
    | Emit(permitted: bool, room: bool)  // one hand-off of the scheduler
    | ChangeScene
    | CloseOwner
    | Fence                              // nothing more is accepted
    | Detach                             // the encoder is let go
    | Adopt                              // a replacement takes its place, even in a closed owner

  predicate Enabled(p: Program, t: Step) {
    match t
    case Emit(_, _) => p.clock.Valid() && p.clock.Next().at <= MAX_TIME && !p.stopped
    case ChangeScene => p.scene < MAX_REVISION
    case CloseOwner => true
    case Fence => true
    case Detach => p.owner.current.Some? && !p.owner.accept
    case Adopt => p.owner.current.None?
  }

  function Apply(p: Program, t: Step): Program
    requires Enabled(p, t)
  {
    match t
    case Emit(permitted, room) =>
      var (owner, delivery) := Write(p.owner, p.clock.Next(), p.scene, permitted, room);
      Program(p.clock.After(), p.scene, owner, delivery.Denied?)
    case ChangeScene => p.(scene := p.scene + 1)
    case CloseOwner => p.(owner := p.owner.(closed := true))
    case Fence => p.(owner := p.owner.(accept := false))
    case Detach => p.(owner := Detached(p.owner))
    case Adopt => p.(owner := Adopted(p.owner))
  }

  function Outcome(p: Program, t: Step): Delivery
    requires Enabled(p, t)
  {
    match t
    case Emit(permitted, room) => Write(p.owner, p.clock.Next(), p.scene, permitted, room).1
    case _ => Dropped
  }

  function InitialProgram(fps: int): Program {
    Program(Cursors(0, fps, 0, 0), 1, Opened(fps), false)
  }

  ghost predicate Execution(fps: int, steps: seq<Step>, states: seq<Program>) {
    && |states| == |steps| + 1
    && states[0] == InitialProgram(fps)
    && forall k :: 0 <= k < |steps| ==> Enabled(states[k], steps[k]) && states[k + 1] == Apply(states[k], steps[k])
  }

  // ---------------------------------------------------------------- the invariant

  /** Exactly the audio blocks 0, 960, 1920, ... and the frames 0, 1, 2, ... */
  ghost predicate Gapless(e: Encoder, fps: int)
    requires ValidRate(fps)
  {
    && (forall i :: 0 <= i < |e.audio| ==> e.audio[i] == i * BLOCK)
    && (forall j :: 0 <= j < |e.video| ==> e.video[j] == FrameTime(j, fps))
  }

  /** All audio before the next frame and all frames before the next block are out. */
  ghost predicate Balanced(audio: nat, video: nat, fps: int)
    requires ValidRate(fps)
  {
    && (audio > 0 ==> (audio - 1) * BLOCK <= FrameTime(video, fps))
    && (video > 0 ==> FrameTime(video - 1, fps) < audio * BLOCK)
  }

  /** Frames of the whole seconds before `base`. */
  function FramesBefore(base: int, fps: int): int {
    base / RATE * fps
  }

  ghost predicate Aligned(o: Owner) {
    o.accept && o.current.Some? && o.base >= 0 ==>
      && o.base % RATE == 0
      && |o.current.value.audio| == o.audioIndex - o.base / BLOCK
      && |o.current.value.video| == o.videoIndex - FramesBefore(o.base, o.fps)
  }

  ghost predicate Sound(p: Program) {
    var o := p.owner;
    && ValidRate(o.fps)
    && (!p.stopped ==> p.clock == Cursors(0, o.fps, o.audioIndex * BLOCK, o.videoIndex))
    && Balanced(o.audioIndex, o.videoIndex, o.fps)
    && 1 <= p.scene <= MAX_REVISION && 0 <= o.videoRevision <= p.scene
    && (forall e :: e in o.retired ==> Gapless(e, o.fps))
    && (o.current.Some? ==> Gapless(o.current.value, o.fps) && o.current.value.revision <= o.videoRevision)
    && (o.current.Some? && o.base < 0 ==> o.current.value == Encoder([], [], 0))
    && Aligned(o)
  }

  // ---------------------------------------------------------------- one hand-off

  /** A scheduler in step with the owner is never out of sequence. */
  lemma NextIsExpected(p: Program)
    requires Sound(p) && !p.stopped && p.clock.Next().at <= MAX_TIME
    ensures Expected(p.owner, p.clock.Next(), p.scene)
  {
    VideoTimeDefined(p.owner.videoIndex, p.owner.fps, 0);
    FrameTimeExact(p.owner.videoIndex, p.owner.fps);
    hide FrameTime;
  }

  lemma BalanceKept(p: Program)
    requires Sound(p) && !p.stopped
    ensures if p.clock.Next().Audio? then Balanced(p.owner.audioIndex + 1, p.owner.videoIndex, p.owner.fps)
            else Balanced(p.owner.audioIndex, p.owner.videoIndex + 1, p.owner.fps)
  {
    FrameSpacing(p.owner.videoIndex, p.owner.fps);
    hide FrameTime;
  }

  /** When audio reaches a whole second, exactly the frames of the seconds before it are out. */
  lemma WholeSecond(o: Owner)
    requires ValidRate(o.fps) && Balanced(o.audioIndex, o.videoIndex, o.fps)
    requires o.audioIndex * BLOCK <= FrameTime(o.videoIndex, o.fps)
    requires o.audioIndex * BLOCK % RATE == 0
    ensures o.videoIndex == FramesBefore(o.audioIndex * BLOCK, o.fps)
  {
    var k := o.audioIndex * BLOCK / RATE;
    FrameTimeShift(k, 0, o.fps);
    assert FrameTime(0, o.fps) == 0;
    var w: nat := k * o.fps;
    FrameTimeMonotone(o.videoIndex, w, o.fps);
    if o.videoIndex > 0 { FrameTimeMonotone(o.videoIndex - 1, w, o.fps); }
    hide FrameTime;
  }

  /** The rebased audio block is the one the lane expects. */
  lemma AudioFits(o: Owner, base: int)
    requires 0 <= base <= o.audioIndex * BLOCK && base % RATE == 0
    ensures o.audioIndex * BLOCK - base == (o.audioIndex - base / BLOCK) * BLOCK
    ensures o.audioIndex <= MAX_TIME / BLOCK ==> o.audioIndex - base / BLOCK <= MAX_TIME / BLOCK
  {
    var k := base / RATE;
    assert base == k * 50 * BLOCK && base / BLOCK == k * 50;
  }

  /** The rebased frame is the one the lane expects. */
  lemma VideoFits(fps: int, videoIndex: nat, base: nat)
    requires ValidRate(fps) && base % RATE == 0 && videoIndex >= FramesBefore(base, fps)
    requires VideoTime(videoIndex, fps, 0).Some?
    ensures VideoTime(videoIndex - FramesBefore(base, fps), fps, 0) == Some(FrameTime(videoIndex, fps) - base)
    ensures FrameTime(videoIndex - FramesBefore(base, fps), fps) == FrameTime(videoIndex, fps) - base
  {
    var k := base / RATE;
    var rest: nat := videoIndex - k * fps;
    FrameTimeShift(k, rest, fps);
    VideoTimeDefined(videoIndex, fps, 0);
    VideoTimeDefined(rest, fps, 0);
    FrameTimeExact(videoIndex, fps);
    FrameTimeExact(rest, fps);
    hide FrameTime;
  }

  /** Encoders only ever see the next expected block of their own sequence. */
  lemma EmitAudio(p: Program, permitted: bool, room: bool)
    requires Sound(p) && Enabled(p, Emit(permitted, room)) && p.clock.Next().Audio?
    ensures Sound(Apply(p, Emit(permitted, room)))
    ensures Outcome(p, Emit(permitted, room)) != Denied(true)
    ensures Outcome(p, Emit(permitted, room)) != Refused(OutOfSequence)
  {
    hide FrameTime;
    hide VideoTime;
    hide FramesBefore;
    hide Balanced;
    NextIsExpected(p);
    BalanceKept(p);
    var o := p.owner;
    if permitted && o.accept && o.current.Some? && (o.base >= 0 || o.audioIndex * BLOCK % RATE == 0) {
      BlockFits(p);
    }
  }

  /** The block an accepting encoder is handed continues its own sequence. */
  lemma BlockFits(p: Program)
    requires Sound(p) && !p.stopped && p.clock.Next().Audio? && p.clock.Next().at <= MAX_TIME
    requires p.owner.accept && p.owner.current.Some? && (p.owner.base >= 0 || p.owner.audioIndex * BLOCK % RATE == 0)
    ensures var o, e := p.owner, p.owner.current.value;
            var base := if o.base < 0 then o.audioIndex * BLOCK else o.base;
            && base % RATE == 0 && o.audioIndex * BLOCK - base == |e.audio| * BLOCK && |e.audio| <= MAX_TIME / BLOCK
            && |e.audio| == o.audioIndex - base / BLOCK && |e.video| == o.videoIndex - FramesBefore(base, o.fps)
  {
    var o := p.owner;
    if o.base >= 0 {
      hide FramesBefore;
      AudioFits(o, o.base);
    } else {
      WholeSecond(o);
      hide FramesBefore;
    }
  }

  lemma EmitVideo(p: Program, permitted: bool, room: bool)
    requires Sound(p) && Enabled(p, Emit(permitted, room)) && p.clock.Next().Video?
    ensures Sound(Apply(p, Emit(permitted, room)))
    ensures Outcome(p, Emit(permitted, room)) != Denied(true)
    ensures Outcome(p, Emit(permitted, room)) != Refused(OutOfSequence)
  {
    hide FrameTime;
    hide VideoTime;
    hide FramesBefore;
    NextIsExpected(p);
    BalanceKept(p);
    var o := p.owner;
    if permitted && o.accept && o.current.Some? && o.base >= 0 {
      VideoFits(o.fps, o.videoIndex, o.base);
    }
  }

  lemma StepSound(p: Program, t: Step)
    requires Sound(p) && Enabled(p, t)
    ensures Sound(Apply(p, t))
    ensures Outcome(p, t) != Denied(true) && Outcome(p, t) != Refused(OutOfSequence)
  {
    match t
    case Emit(permitted, room) =>
      if p.clock.Next().Audio? { EmitAudio(p, permitted, room); } else { EmitVideo(p, permitted, room); }
    case ChangeScene =>
    case CloseOwner =>
    case Fence =>
    case Detach =>
    case Adopt =>
  }

  // ---------------------------------------------------------------- main results

  lemma InitialSound(fps: int)
    requires ValidRate(fps)
    ensures Sound(InitialProgram(fps))
  {
  }

  lemma {:induction false} ExecutionSound(fps: int, steps: seq<Step>, states: seq<Program>, k: nat)
    requires ValidRate(fps) && Execution(fps, steps, states) && k < |states|
    ensures Sound(states[k]) && states[k].owner.fps == fps
  {
    if k > 0 {
      ExecutionSound(fps, steps, states, k - 1);
      StepSound(states[k - 1], steps[k - 1]);
    }
  }

  /** For every run of the scheduler with encoders replaced at arbitrary points, every
      encoder generation receives exactly the gapless grids from zero. */
  lemma EveryGenerationGapless(fps: int, steps: seq<Step>, states: seq<Program>, k: nat)
    requires ValidRate(fps) && Execution(fps, steps, states) && k < |states|
    ensures forall e :: e in states[k].owner.retired ==> Gapless(e, fps)
    ensures states[k].owner.current.Some? ==> Gapless(states[k].owner.current.value, fps)
  {
    ExecutionSound(fps, steps, states, k);
  }

  /** Neither the owner nor any raw lane ever finds an event out of sequence. */
  lemma SequenceCheckNeverFires(fps: int, steps: seq<Step>, states: seq<Program>, k: nat)
    requires ValidRate(fps) && Execution(fps, steps, states) && k < |steps|
    ensures Outcome(states[k], steps[k]) != Denied(true)
    ensures Outcome(states[k], steps[k]) != Refused(OutOfSequence)
  {
    ExecutionSound(fps, steps, states, k);
    StepSound(states[k], steps[k]);
  }

  /** The event begins a whole second of audio. */
  predicate WholeSecondBlock(e: Event) {
    e.Audio? && e.at % RATE == 0
  }

  /** What becomes of a hand-off, in every execution: it is delivered exactly when it is
      permitted, an encoder accepts and has room, and a whole second of audio has come to
      that encoder, now or before. */
  lemma DeliveredExactly(fps: int, steps: seq<Step>, states: seq<Program>, k: nat)
    requires ValidRate(fps) && Execution(fps, steps, states) && k < |steps| && steps[k].Emit?
    ensures var o, t, e := states[k].owner, steps[k], states[k].clock.Next();
            var reached := o.base >= 0 || WholeSecondBlock(e);
            && (Outcome(states[k], t) == Delivered <==> !o.closed && t.permitted && o.accept && o.current.Some? && reached && t.room)
            && (Outcome(states[k], t) == Dropped <==> !o.closed && t.permitted && !(o.accept && o.current.Some? && reached))
            && (Outcome(states[k], t) == Denied(false) <==> o.closed || !t.permitted)
  {
    ExecutionSound(fps, steps, states, k);
    StepSound(states[k], steps[k]);
    NextIsExpected(states[k]);
    hide FrameTime;
    hide VideoTime;
    hide Sound;
  }

  /** The first whole second of audio handed to the encoder adopted last, while it accepted. */
  function FirstSecond(steps: seq<Step>, states: seq<Program>, k: nat): Option<int>
    requires k <= |steps| && |states| == |steps| + 1
  {
    if k == 0 then None
    else
      var before, o, t := FirstSecond(steps, states, k - 1), states[k - 1].owner, steps[k - 1];
      if t.Adopt? then None
      else if before.None? && t.Emit? && t.permitted && !o.closed && o.accept && o.current.Some?
              && states[k - 1].clock.Valid() && WholeSecondBlock(states[k - 1].clock.Next())
      then Some(states[k - 1].clock.Next().at)
      else before
  }

  lemma {:induction false} BaseIsFirstSecond(fps: int, steps: seq<Step>, states: seq<Program>, k: nat)
    requires ValidRate(fps) && Execution(fps, steps, states) && k <= |steps|
    ensures states[k].owner.base == if FirstSecond(steps, states, k).None? then -1 else FirstSecond(steps, states, k).value
    ensures FirstSecond(steps, states, k).Some? ==> FirstSecond(steps, states, k).value >= 0 && FirstSecond(steps, states, k).value % RATE == 0
  {
    hide Apply;
    hide Sound;
    if k > 0 {
      BaseIsFirstSecond(fps, steps, states, k - 1);
      ExecutionSound(fps, steps, states, k - 1);
      EmitStands(states[k - 1], steps[k - 1]);
      BaseStep(states[k - 1], steps[k - 1]);
    }
  }

  lemma EmitStands(p: Program, t: Step)
    requires Sound(p) && Enabled(p, t)
    ensures t.Emit? ==> Expected(p.owner, p.clock.Next(), p.scene) && p.clock.Next().at >= 0
  {
    hide FrameTime;
    hide VideoTime;
    if t.Emit? {
      assert p.clock.Next().at >= 0 by { NextAtLeastZero(p); }
      hide Sound;
      NextIsExpected(p);
    }
  }

  lemma NextAtLeastZero(p: Program)
    requires Sound(p) && !p.stopped
    ensures p.clock.Valid() && p.clock.Next().at >= 0
  {
    FrameTimeExact(p.owner.videoIndex, p.owner.fps);
    hide FrameTime;
  }

  lemma BaseStep(p: Program, t: Step)
    requires Enabled(p, t) && p.owner.base >= -1 && (t.Emit? ==> Expected(p.owner, p.clock.Next(), p.scene) && p.clock.Next().at >= 0)
    ensures var o := p.owner;
            Apply(p, t).owner.base ==
              if t.Adopt? then -1
              else if o.base < 0 && t.Emit? && t.permitted && !o.closed && o.accept && o.current.Some? && WholeSecondBlock(p.clock.Next())
              then p.clock.Next().at else o.base
  {
    hide Expected;
    hide Enqueue;
  }

  /** An accepting encoder has received everything: nothing before its first whole second of
      audio, and from that second on every block and every frame the scheduler has handed on. */
  lemma AcceptingEncoderHasAll(fps: int, steps: seq<Step>, states: seq<Program>, k: nat)
    requires ValidRate(fps) && Execution(fps, steps, states) && k <= |steps|
    requires states[k].owner.accept && states[k].owner.current.Some? && !states[k].stopped
    ensures var e, clock := states[k].owner.current.value, states[k].clock;
            match FirstSecond(steps, states, k)
            case None => e.audio == [] && e.video == []
            case Some(base) =>
              && |e.audio| * BLOCK == clock.nextAudio - base
              && |e.video| == clock.videoIndex - base / RATE * fps
  {
    ExecutionSound(fps, steps, states, k);
    BaseIsFirstSecond(fps, steps, states, k);
    hide FrameTime;
    hide FirstSecond;
    hide Execution;
    var o := states[k].owner;
    if o.base >= 0 { assert o.base / BLOCK * BLOCK == o.base; }
  }

  /** Hand-offs among the first k steps. */
  function Emits(steps: seq<Step>): nat {
    if steps == [] then 0 else Emits(steps[..|steps| - 1]) + (if steps[|steps| - 1].Emit? then 1 else 0)
  }

  lemma ClockMoves(p: Program, t: Step)
    requires Enabled(p, t)
    ensures Apply(p, t).clock == if t.Emit? then p.clock.After() else p.clock
  {
    hide Write;
  }

  /** Replacements never disturb the scheduler: the hand-offs of an execution are the
      scheduler's own stream, whatever happens between them. */
  lemma {:induction false} HandoffsFollowSchedule(fps: int, steps: seq<Step>, states: seq<Program>, k: nat)
    requires ValidRate(fps) && Execution(fps, steps, states) && k < |states|
    ensures states[k].clock == Nth(InitialProgram(fps).clock, Emits(steps[..k]))
  {
    if k > 0 {
      HandoffsFollowSchedule(fps, steps, states, k - 1);
      assert steps[..k][..k - 1] == steps[..k - 1];
      ClockMoves(states[k - 1], steps[k - 1]);
      hide Apply;
      hide Enabled;
    }
  }
}
