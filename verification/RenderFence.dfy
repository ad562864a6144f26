/** The epoch fence that ties borrowed video output to the clocks that timed it.  The mixer
    reads a source's clock, lets go of the clock and acts on the reading later; every clock
    may move in between, and at any point of a composition. */
module RenderFence {
  import opened Common
  import opened SourceClock
  import opened Quarantine

  // ---------------------------------------------------------------- one timeline-backed input

  datatype TimeState = Denied | Waiting | Suspended | Timed

  datatype Snapshot = Snapshot(state: TimeState, epoch: nat)

  function VideoTime(m: Media, now: Option<int>): Snapshot {
    if Current(m, now).closed || (m.bound && m.rate != 90000) then Snapshot(Denied, m.epoch)
    else if m.uncertain then Snapshot(Suspended, m.epoch)
    else if !m.bound || m.reports < 2 then Snapshot(Waiting, m.epoch)
    else Snapshot(Timed, m.epoch)
  }

  /** A decoded image together with the clock epoch that timed it. */
  datatype Frame = Frame(at: int, born: nat)

  /** Fences are numbered; `epoch` is none for the fence a source is admitted with. */
  datatype Fence = Fence(epoch: Option<nat>, closed: bool)

  datatype Input = Input(closed: bool, bound: bool, epoch: nat, frames: seq<Frame>, fence: nat, fences: seq<Fence>)

  function FreshInput(): Input {
    Input(false, false, 0, [], 0, [Fence(None, false)])
  }

  function CloseFence(fences: seq<Fence>, f: nat): seq<Fence> {
    if f < |fences| then fences[f := fences[f].(closed := true)] else fences
  }

  function CloseInput(i: Input): Input {
    i.(closed := true, frames := [], fences := CloseFence(i.fences, i.fence))
  }

  function AcceptVideoTime(i: Input, t: Snapshot): (Input, bool) {
    if i.closed then (i, false)
    else if t.state == Denied || (i.bound && t.epoch < i.epoch) then (CloseInput(i), false)
    else
      var j := if i.bound && t.epoch == i.epoch then i
               else i.(bound := true, epoch := t.epoch, frames := [],
                       fences := CloseFence(i.fences, i.fence) + [Fence(Some(t.epoch), false)],
                       fence := |i.fences|);
      if t.state != Timed then (j.(frames := []), false) else (j, true)
  }

  // ---------------------------------------------------------------- guards

  const MAX_FENCES := 80

  /** A fence of one source. */
  datatype Ref = Ref(source: nat, fence: nat)

  /** `count` beyond the array marks a guard that could not hold all its fences. */
  datatype Guard = Guard(count: nat, fences: seq<Ref>)

  const EMPTY := Guard(0, [])

  function Add(g: Guard, f: Ref): Guard {
    if g.count >= MAX_FENCES then g.(count := MAX_FENCES + 1) else Guard(g.count + 1, g.fences + [f])
  }

  class RenderGuard {
    var count: nat
    const fences: array<Ref>

    ghost predicate Valid()
      reads this
    {
      fences.Length == MAX_FENCES && count <= MAX_FENCES + 1
    }

    ghost function View(): Guard
      requires Valid()
      reads this, fences
    {
      Guard(count, if count <= MAX_FENCES then fences[..count] else fences[..])
    }

    constructor ()
      ensures Valid() && View() == EMPTY && fresh(fences)
    {
      count := 0;
      fences := new Ref[MAX_FENCES](_ => Ref(0, 0));
    }

    method AddFence(f: Ref)
      requires Valid()
      modifies this, fences
      ensures Valid() && View() == Add(old(View()), f)
    {
      if count >= fences.Length {
        count := fences.Length + 1;
        return;
      }
      fences[count] := f;
      count := count + 1;
      assert fences[..count] == old(fences[..count]) + [f];
    }

    /** `answers(i)` is what the i-th fence says at the moment it is asked. */
    method Holds(answers: nat -> bool) returns (ok: bool)
      requires Valid()
      ensures ok <==> View().count <= MAX_FENCES && forall i: nat :: i < View().count ==> answers(i)
    {
      if count > fences.Length { return false; }
      for i := 0 to count
        invariant forall j: nat :: j < i ==> answers(j)
      {
        if !answers(i) { return false; }
      }
      ok := true;
    }
  }

  // ---------------------------------------------------------------- the mixer and its clocks

  /** One source: its clock, its mixer input and the reading the mixer has taken but not yet
      acted on. */
  datatype Feed = Feed(clock: State, input: Input, reading: Option<Snapshot>)

  datatype Tile = Tile(source: nat, frame: Frame)

  /** Pixels handed out, under the guard they were composed with. */
  datatype Borrowed = Borrowed(guard: Guard, tiles: seq<Tile>)

  datatype Mixer = Mixer(feeds: seq<Feed>, borrowed: seq<Borrowed>)

  datatype Pick = Pick(source: nat, frame: nat)

  datatype Step =
    | ClockMoves(source: nat, event: Event)
    | TakeReading(source: nat, refused: bool, now: Option<int>)   // refused: a timestamp outside the map
    | AcceptWrite(source: nat, at: int)
    | AcceptRender(source: nat)
    | Revoke(source: nat)
    | Compose(picks: seq<Pick>)

  predicate Enabled(m: Mixer, t: Step) {
    match t
    case ClockMoves(j, e) => j < |m.feeds| && Wired(m.feeds[j].clock.media) && Steady(m.feeds[j].clock, e)
    case TakeReading(j, _, _) => j < |m.feeds| && Wired(m.feeds[j].clock.media) && m.feeds[j].reading.None?
    case AcceptWrite(j, _) => j < |m.feeds| && m.feeds[j].reading.Some?
    case AcceptRender(j) => j < |m.feeds| && m.feeds[j].reading.Some?
    case Revoke(j) => j < |m.feeds|
    case Compose(_) => true
  }

  predicate Shows(feeds: seq<Feed>, p: Pick) {
    p.source < |feeds| && !feeds[p.source].input.closed && p.frame < |feeds[p.source].input.frames|
  }

  /** Adds each tile's fence and blits its picture; a tile without a picture stays slate. */
  function ComposeAll(feeds: seq<Feed>, picks: seq<Pick>): Borrowed {
    if picks == [] then Borrowed(EMPTY, [])
    else
      var b, p := ComposeAll(feeds, picks[..|picks| - 1]), picks[|picks| - 1];
      if !Shows(feeds, p) then b
      else
        var i := feeds[p.source].input;
        Borrowed(Add(b.guard, Ref(p.source, i.fence)), b.tiles + [Tile(p.source, i.frames[p.frame])])
  }

  /** What a step does to its own source. */
  function FeedStep(f: Feed, t: Step): Feed
    requires !t.Compose? && (t.ClockMoves? ==> Wired(f.clock.media)) && (t.AcceptWrite? || t.AcceptRender? ==> f.reading.Some?)
  {
    match t
    case ClockMoves(_, e) => f.(clock := State(Next(f.clock.media, e), Follow(f.clock.media, f.clock.trail, e)))
    case TakeReading(_, refused, now) =>
      var time := VideoTime(f.clock.media, now);
      f.(clock := f.clock.(media := Current(f.clock.media, now)), reading := Some(if refused then time.(state := Denied) else time))
    case AcceptWrite(_, at) =>
      var (i, ok) := AcceptVideoTime(f.input, f.reading.value);
      f.(input := if ok then i.(frames := i.frames + [Frame(at, i.epoch)]) else i, reading := None)
    case AcceptRender(_) => f.(input := AcceptVideoTime(f.input, f.reading.value).0, reading := None)
    case Revoke(_) => f.(input := CloseInput(f.input))
  }

  function Apply(m: Mixer, t: Step): Mixer
    requires Enabled(m, t)
  {
    if t.Compose? then m.(borrowed := m.borrowed + [ComposeAll(m.feeds, t.picks)])
    else m.(feeds := m.feeds[t.source := FeedStep(m.feeds[t.source], t)])
  }

  ghost predicate Execution(steps: seq<Step>, states: seq<Mixer>) {
    && |states| == |steps| + 1 && states[0].borrowed == []
    && (forall f :: f in states[0].feeds ==> f.clock.media == FreshMedia() && f.input == FreshInput() && f.reading == None)
    && forall k :: 0 <= k < |steps| ==> Enabled(states[k], steps[k]) && states[k + 1] == Apply(states[k], steps[k])
  }

  /** One fence, asked at one moment. */
  predicate FenceValid(m: Mixer, f: Ref, now: Option<int>) {
    && f.source < |m.feeds| && f.fence < |m.feeds[f.source].input.fences|
    && var fence := m.feeds[f.source].input.fences[f.fence];
       && !fence.closed
       && (fence.epoch.Some? ==> VideoTime(m.feeds[f.source].clock.media, now) == Snapshot(Timed, fence.epoch.value))
  }

  /** When and with which clock value a fence is asked. */
  datatype Moment = Moment(k: nat, now: Option<int>)

  /** A guard passes when each of its fences does, each at its own moment of the run. */
  ghost predicate Passes(states: seq<Mixer>, g: Guard, moments: seq<Moment>) {
    && g.count <= MAX_FENCES && |moments| == g.count && |g.fences| >= g.count
    && forall i :: 0 <= i < g.count ==> moments[i].k < |states| && FenceValid(states[moments[i].k], g.fences[i], moments[i].now)
  }

  // ---------------------------------------------------------------- the invariant

  ghost predicate InputFenced(i: Input, clockEpoch: nat) {
    && i.fence == |i.fences| - 1
    && (forall k :: 0 <= k < |i.fences| ==> (i.fences[k].closed <==> k < i.fence || i.closed))
    && (forall k :: 0 <= k < i.fence && i.fences[k].epoch.Some? ==> i.bound && i.fences[k].epoch.value < i.epoch)
    && (i.bound ==> i.fences[i.fence].epoch == Some(i.epoch) && i.epoch <= clockEpoch)
    && (!i.bound ==> i.frames == [] && i.fences[i.fence].epoch == None)
    && (forall f :: f in i.frames ==> f.born == i.epoch)
  }

  ghost predicate FeedFenced(f: Feed) {
    && Tracks(f.clock) && InputFenced(f.input, f.clock.media.epoch)
    && (f.reading.Some? ==> f.reading.value.epoch <= f.clock.media.epoch && (f.input.bound ==> f.input.epoch <= f.reading.value.epoch))
  }

  /** Later states of a source keep the epoch of every fence and only raise the clock's. */
  ghost predicate Continues(f: Feed, g: Feed) {
    && |g.input.fences| >= |f.input.fences| && g.clock.media.epoch >= f.clock.media.epoch
    && forall k :: 0 <= k < |f.input.fences| ==> g.input.fences[k].epoch == f.input.fences[k].epoch
  }

  ghost predicate TileFenced(feeds: seq<Feed>, tile: Tile, f: Ref) {
    && f.source == tile.source < |feeds| && f.fence < |feeds[f.source].input.fences|
    && feeds[f.source].input.fences[f.fence].epoch == Some(tile.frame.born)
    && tile.frame.born <= feeds[f.source].clock.media.epoch
  }

  /** A guard that is not overfull has exactly one fence for each tile; an overfull one says so. */
  ghost predicate BorrowedFenced(feeds: seq<Feed>, b: Borrowed) {
    && (b.guard.count <= MAX_FENCES <==> |b.tiles| <= MAX_FENCES)
    && (b.guard.count <= MAX_FENCES ==>
          && |b.guard.fences| == b.guard.count == |b.tiles|
          && forall i :: 0 <= i < |b.tiles| ==> TileFenced(feeds, b.tiles[i], b.guard.fences[i]))
  }

  ghost predicate Fenced(m: Mixer) {
    && (forall f :: f in m.feeds ==> FeedFenced(f))
    && (forall b :: b in m.borrowed ==> BorrowedFenced(m.feeds, b))
  }

  lemma CurrentTracks(s: State, now: Option<int>)
    requires Tracks(s)
    ensures Tracks(s.(media := Current(s.media, now))) && Current(s.media, now).epoch == s.media.epoch
  {
  }

  lemma AcceptFenced(i: Input, t: Snapshot, clockEpoch: nat)
    requires InputFenced(i, clockEpoch) && t.epoch <= clockEpoch
    ensures var (j, ok) := AcceptVideoTime(i, t);
            && InputFenced(j, clockEpoch) && (ok ==> j.bound)
            && |j.fences| >= |i.fences|
            && forall f :: 0 <= f < |i.fences| ==> j.fences[f].epoch == i.fences[f].epoch
  {
  }

  lemma FeedStepFenced(f: Feed, t: Step)
    requires FeedFenced(f) && !t.Compose? && (t.ClockMoves? ==> Steady(f.clock, t.event))
    requires t.AcceptWrite? || t.AcceptRender? ==> f.reading.Some?
    ensures FeedFenced(FeedStep(f, t)) && Continues(f, FeedStep(f, t))
  {
    hide Next;
    hide Follow;
    hide Tracks;
    hide Current;
    hide AcceptVideoTime;
    match t
    case ClockMoves(_, e) =>
      NextTracks(f.clock, e);
      EpochStep(f.clock, e);
    case TakeReading(_, _, now) => CurrentTracks(f.clock, now);
    case AcceptWrite(_, _) => AcceptFenced(f.input, f.reading.value, f.clock.media.epoch);
    case AcceptRender(_) => AcceptFenced(f.input, f.reading.value, f.clock.media.epoch);
    case Revoke(_) =>
  }

  lemma {:induction false} ComposeFenced(feeds: seq<Feed>, picks: seq<Pick>)
    requires forall f :: f in feeds ==> FeedFenced(f)
    ensures BorrowedFenced(feeds, ComposeAll(feeds, picks)) && ComposeAll(feeds, picks).guard.count <= MAX_FENCES + 1
  {
    if picks != [] {
      var p := picks[|picks| - 1];
      ComposeFenced(feeds, picks[..|picks| - 1]);
      if Shows(feeds, p) {
        var f := feeds[p.source];
        assert FeedFenced(f) && f.input.frames[p.frame] in f.input.frames;
        assert TileFenced(feeds, Tile(p.source, f.input.frames[p.frame]), Ref(p.source, f.input.fence));
      }
      hide FeedFenced;
      hide TileFenced;
    }
  }

  ghost predicate AllContinue(m: Mixer, n: Mixer) {
    && m.borrowed <= n.borrowed && |m.feeds| == |n.feeds|
    && forall j :: 0 <= j < |m.feeds| ==> Continues(m.feeds[j], n.feeds[j])
  }

  lemma BorrowedContinues(m: Mixer, n: Mixer, b: Borrowed)
    requires AllContinue(m, n) && BorrowedFenced(m.feeds, b)
    ensures BorrowedFenced(n.feeds, b)
  {
    if b.guard.count <= MAX_FENCES {
      forall i | 0 <= i < |b.tiles| ensures TileFenced(n.feeds, b.tiles[i], b.guard.fences[i]) {
        assert TileFenced(m.feeds, b.tiles[i], b.guard.fences[i]);
        assert Continues(m.feeds[b.tiles[i].source], n.feeds[b.tiles[i].source]);
      }
    }
  }

  lemma StepContinues(m: Mixer, t: Step)
    requires Fenced(m) && Enabled(m, t)
    ensures AllContinue(m, Apply(m, t)) && forall f :: f in Apply(m, t).feeds ==> FeedFenced(f)
  {
    if !t.Compose? {
      assert m.feeds[t.source] in m.feeds;
      FeedStepFenced(m.feeds[t.source], t);
      hide FeedFenced;
      hide FeedStep;
    }
  }

  lemma StepFenced(m: Mixer, t: Step)
    requires Fenced(m) && Enabled(m, t)
    ensures Fenced(Apply(m, t)) && AllContinue(m, Apply(m, t))
  {
    StepContinues(m, t);
    var n := Apply(m, t);
    if t.Compose? { ComposeFenced(m.feeds, t.picks); }
    hide FeedFenced;
    hide FeedStep;
    forall b | b in n.borrowed ensures BorrowedFenced(n.feeds, b) {
      if b in m.borrowed { BorrowedContinues(m, n, b); }
    }
    hide BorrowedFenced;
    hide AllContinue;
  }

  lemma FreshFenced(m: Mixer)
    requires m.borrowed == []
    requires forall f :: f in m.feeds ==> f.clock.media == FreshMedia() && f.input == FreshInput() && f.reading == None
    ensures Fenced(m)
  {
  }

  lemma {:induction false} ExecutionFenced(steps: seq<Step>, states: seq<Mixer>, k: nat)
    requires Execution(steps, states) && k < |states|
    ensures Fenced(states[k])
  {
    hide Fenced;
    hide Enabled;
    hide Apply;
    hide AllContinue;
    if k == 0 {
      FreshFenced(states[0]);
    } else {
      ExecutionFenced(steps, states, k - 1);
      StepFenced(states[k - 1], steps[k - 1]);
    }
  }

  lemma ContinueOn(a: Mixer, b: Mixer, c: Mixer)
    requires AllContinue(a, b) && AllContinue(b, c)
    ensures AllContinue(a, c)
  {
    forall j | 0 <= j < |a.feeds| ensures Continues(a.feeds[j], c.feeds[j]) {
      assert Continues(a.feeds[j], b.feeds[j]) && Continues(b.feeds[j], c.feeds[j]);
    }
  }

  lemma Same(m: Mixer)
    ensures AllContinue(m, m)
  {
  }

  lemma {:induction false} LaterContinues(steps: seq<Step>, states: seq<Mixer>, i: nat, k: nat)
    requires Execution(steps, states) && i <= k < |states|
    ensures AllContinue(states[i], states[k])
    decreases k
  {
    hide Fenced;
    hide Enabled;
    hide Apply;
    hide AllContinue;
    if i == k {
      Same(states[i]);
    } else {
      LaterContinues(steps, states, i, k - 1);
      ExecutionFenced(steps, states, k - 1);
      StepFenced(states[k - 1], steps[k - 1]);
      ContinueOn(states[i], states[k - 1], states[k]);
    }
  }

  // ---------------------------------------------------------------- main results

  /** A tile whose fence is found valid was timed in its clock's present epoch. */
  lemma TileIsCurrent(m: Mixer, tile: Tile, f: Ref, now: Option<int>)
    requires TileFenced(m.feeds, tile, f) && FenceValid(m, f, now)
    ensures tile.frame.born == m.feeds[tile.source].clock.media.epoch && Ready(m.feeds[tile.source].clock.media)
  {
  }

  lemma OutdatedTile(m: Mixer, tile: Tile, f: Ref, now: Option<int>)
    requires TileFenced(m.feeds, tile, f) && tile.frame.born < m.feeds[tile.source].clock.media.epoch
    ensures !FenceValid(m, f, now)
  {
    hide Current;
  }

  /** Whenever a guard passes, every picture behind it was timed in the epoch its source's
      clock had at the moment that source's fence was asked. */
  lemma GuardedPixelsAreCurrent(steps: seq<Step>, states: seq<Mixer>, k: nat, b: Borrowed, moments: seq<Moment>, n: nat)
    requires Execution(steps, states) && k < |states| && b in states[k].borrowed
    requires Passes(states, b.guard, moments) && (forall i :: 0 <= i < |moments| ==> k <= moments[i].k) && n < |b.tiles|
    ensures n < |moments| && b.tiles[n].source < |states[moments[n].k].feeds|
    ensures var m := states[moments[n].k].feeds[b.tiles[n].source].clock.media; b.tiles[n].frame.born == m.epoch && Ready(m)
  {
    ExecutionFenced(steps, states, k);
    assert BorrowedFenced(states[k].feeds, b);
    var at := moments[n];
    LaterContinues(steps, states, k, at.k);
    BorrowedContinues(states[k], states[at.k], b);
    hide Fenced;
    hide AllContinue;
    hide Execution;
    TileIsCurrent(states[at.k], b.tiles[n], b.guard.fences[n], at.now);
  }

  /** Output that holds a picture of a source from before its quarantine never passes its
      guard again, whenever the fences are asked. */
  lemma QuarantineInvalidatesForever(steps: seq<Step>, states: seq<Mixer>, i: nat, b: Borrowed, n: nat, moments: seq<Moment>)
    requires Execution(steps, states) && i < |steps| && b in states[i].borrowed && n < |b.tiles|
    requires steps[i].ClockMoves? && steps[i].source == b.tiles[n].source
    requires Enters(states[i].feeds[steps[i].source].clock.media, steps[i].event)
    requires forall j :: 0 <= j < |moments| ==> i < moments[j].k < |states|
    ensures !Passes(states, b.guard, moments)
  {
    ExecutionFenced(steps, states, i);
    EpochRises(states[i], steps[i]);
    assert BorrowedFenced(states[i].feeds, b);
    hide Fenced;
    hide AllContinue;
    hide Enters;
    if b.guard.count <= MAX_FENCES && |moments| == b.guard.count {
      var at := moments[n];
      LaterTile(steps, states, i, b, n, at.k);
      hide Execution;
      hide Enabled;
      hide Apply;
      OutdatedTile(states[at.k], b.tiles[n], b.guard.fences[n], at.now);
    }
  }

  /** At any later moment the picture's epoch is behind its clock. */
  lemma LaterTile(steps: seq<Step>, states: seq<Mixer>, i: nat, b: Borrowed, n: nat, k: nat)
    requires Execution(steps, states) && i < |steps| && i < k < |states| && BorrowedFenced(states[i].feeds, b)
    requires n < |b.tiles| && b.guard.count <= MAX_FENCES && steps[i].ClockMoves? && steps[i].source == b.tiles[n].source
    requires var j := steps[i].source;
             && j < |states[i].feeds| && j < |states[i + 1].feeds|
             && states[i + 1].feeds[j].clock.media.epoch == states[i].feeds[j].clock.media.epoch + 1
    ensures TileFenced(states[k].feeds, b.tiles[n], b.guard.fences[n])
    ensures b.tiles[n].frame.born < states[k].feeds[b.tiles[n].source].clock.media.epoch
  {
    LaterContinues(steps, states, i, k);
    LaterContinues(steps, states, i + 1, k);
    BorrowedContinues(states[i], states[k], b);
    assert TileFenced(states[i].feeds, b.tiles[n], b.guard.fences[n]);
    var j := steps[i].source;
    hide Execution;
    assert Continues(states[i + 1].feeds[j], states[k].feeds[j]);
  }

  lemma EpochRises(m: Mixer, t: Step)
    requires Fenced(m) && Enabled(m, t) && t.ClockMoves? && Enters(m.feeds[t.source].clock.media, t.event)
    ensures Apply(m, t).feeds[t.source].clock.media.epoch == m.feeds[t.source].clock.media.epoch + 1
  {
    assert m.feeds[t.source] in m.feeds;
    EpochStep(m.feeds[t.source].clock, t.event);
  }

  /** A composition with more pictures than a guard holds is never handed on. */
  lemma OverfullNeverPasses(steps: seq<Step>, states: seq<Mixer>, k: nat, b: Borrowed, moments: seq<Moment>)
    requires Execution(steps, states) && k < |states| && b in states[k].borrowed && |b.tiles| > MAX_FENCES
    ensures !Passes(states, b.guard, moments)
  {
    ExecutionFenced(steps, states, k);
    assert BorrowedFenced(states[k].feeds, b);
  }

  /** The source is open and its live clock would time a picture in this epoch. */
  predicate Times(f: Feed, epoch: nat, now: Option<int>) {
    var m := f.clock.media;
    !f.input.closed && Live(m, now) && Ready(m) && m.rate == 90000 && m.epoch == epoch
  }

  /** A fence is valid exactly while its source is open and its clock still in the epoch that
      timed the picture. */
  lemma FenceExactly(m: Mixer, tile: Tile, f: Ref, now: Option<int>)
    requires TileFenced(m.feeds, tile, f) && FeedFenced(m.feeds[tile.source])
    ensures FenceValid(m, f, now) <==> Times(m.feeds[tile.source], tile.frame.born, now)
  {
    hide Expired;
    var i := m.feeds[tile.source].input;
    TimedExactly(m.feeds[tile.source].clock.media, now);
    hide VideoTime;
    assert i.bound ==> i.epoch <= m.feeds[tile.source].clock.media.epoch;
  }

  lemma TimedExactly(m: Media, now: Option<int>)
    ensures VideoTime(m, now).epoch == m.epoch
    ensures VideoTime(m, now).state == Timed <==> Live(m, now) && Ready(m) && m.rate == 90000
  {
    hide Expired;
  }

  ghost predicate Askable(states: seq<Mixer>, k: nat, b: Borrowed, moments: seq<Moment>) {
    |moments| == |b.tiles| <= 80 && forall i :: 0 <= i < |moments| ==> k <= moments[i].k < |states|
  }

  lemma TileExactly(steps: seq<Step>, states: seq<Mixer>, k: nat, b: Borrowed, i: nat, at: Moment)
    requires Execution(steps, states) && k < |states| && b in states[k].borrowed
    requires i < |b.tiles| <= 80 && k <= at.k < |states|
    ensures |b.guard.fences| == b.guard.count == |b.tiles| && b.tiles[i].source < |states[at.k].feeds|
    ensures FenceValid(states[at.k], b.guard.fences[i], at.now) <==>
            Times(states[at.k].feeds[b.tiles[i].source], b.tiles[i].frame.born, at.now)
  {
    hide FeedFenced;
    hide TileFenced;
    ExecutionFenced(steps, states, k);
    ExecutionFenced(steps, states, at.k);
    assert BorrowedFenced(states[k].feeds, b);
    LaterContinues(steps, states, k, at.k);
    hide Execution;
    hide AllContinue;
    BorrowedContinues(states[k], states[at.k], b);
    assert TileFenced(states[at.k].feeds, b.tiles[i], b.guard.fences[i]);
    TileSource(states[at.k].feeds, b.tiles[i], b.guard.fences[i]);
    assert states[at.k].feeds[b.tiles[i].source] in states[at.k].feeds;
    hide Fenced;
    hide BorrowedFenced;
    FenceExactly(states[at.k], b.tiles[i], b.guard.fences[i], at.now);
    hide FenceValid;
    hide Times;
  }

  lemma TileSource(feeds: seq<Feed>, tile: Tile, f: Ref)
    requires TileFenced(feeds, tile, f)
    ensures tile.source < |feeds|
  {
  }

  /** A guard passes exactly when each picture's source is, at the moment it is asked, open
      and timed by a live clock in the picture's own epoch. */
  lemma PassesExactly(steps: seq<Step>, states: seq<Mixer>, k: nat, b: Borrowed, moments: seq<Moment>)
    requires Execution(steps, states) && k < |states| && b in states[k].borrowed && Askable(states, k, b, moments)
    ensures forall i :: 0 <= i < |moments| ==> b.tiles[i].source < |states[moments[i].k].feeds|
    ensures Passes(states, b.guard, moments) <==>
              forall i :: 0 <= i < |moments| ==>
                Times(states[moments[i].k].feeds[b.tiles[i].source], b.tiles[i].frame.born, moments[i].now)
  {
    hide Times;
    hide FenceValid;
    hide Execution;
    forall i | 0 <= i < |moments|
      ensures |b.guard.fences| == b.guard.count == |b.tiles| && b.tiles[i].source < |states[moments[i].k].feeds|
      ensures FenceValid(states[moments[i].k], b.guard.fences[i], moments[i].now) <==>
              Times(states[moments[i].k].feeds[b.tiles[i].source], b.tiles[i].frame.born, moments[i].now)
    {
      TileExactly(steps, states, k, b, i, moments[i]);
    }
    GuardCount(steps, states, k, b);
  }

  lemma GuardCount(steps: seq<Step>, states: seq<Mixer>, k: nat, b: Borrowed)
    requires Execution(steps, states) && k < |states| && b in states[k].borrowed && |b.tiles| <= 80
    ensures |b.guard.fences| == b.guard.count == |b.tiles|
  {
    hide FeedFenced;
    hide TileFenced;
    ExecutionFenced(steps, states, k);
    assert BorrowedFenced(states[k].feeds, b);
  }

  // ---------------------------------------------------------------- what reaches the screen

  /** A source is closed by nothing but its revocation or a clock that denies it. */
  lemma ClosesExactly(m: Mixer, t: Step, j: nat)
    requires Fenced(m) && Enabled(m, t) && j < |m.feeds| && !m.feeds[j].input.closed
    ensures Apply(m, t).feeds[j].input.closed <==>
              || t == Revoke(j)
              || ((t.AcceptWrite? || t.AcceptRender?) && t.source == j && m.feeds[j].reading.value.state == Denied)
  {
    assert m.feeds[j] in m.feeds;
    hide Tracks;
    hide Next;
    hide Follow;
    hide Current;
    hide VideoTime;
  }

  /** A picture timed by the clock is kept, last, under the epoch of that reading. */
  lemma TimedPictureKept(m: Mixer, j: nat, at: int)
    requires Fenced(m) && Enabled(m, AcceptWrite(j, at)) && !m.feeds[j].input.closed && m.feeds[j].reading.value.state == Timed
    ensures var i, epoch := Apply(m, AcceptWrite(j, at)).feeds[j].input, m.feeds[j].reading.value.epoch;
            && !i.closed && i.bound && i.epoch == epoch && i.frames != [] && i.frames[|i.frames| - 1] == Frame(at, epoch)
            && (m.feeds[j].input.bound && m.feeds[j].input.epoch == epoch ==> i.frames == m.feeds[j].input.frames + [Frame(at, epoch)])
  {
    assert m.feeds[j] in m.feeds;
    hide Tracks;
  }
}
