/** The program scheduler: merges the audio grid and the video grid into one stream of
    hand-offs, audio first on ties, driven by a monotone wall clock. */
module ProgramClock {
  import opened Common
  import opened ProgramTime

  const SECOND := 1_000_000_000
  const CATCHUP := 16

  datatype Event = Audio(at: int) | Video(at: int)

  /** The two render cursors of a program that started at sample `start`. */
  datatype Cursors = Cursors(start: nat, fps: int, nextAudio: int, videoIndex: nat) {
    predicate Valid() {
      ValidRate(fps)
    }
    function VideoAt(): int
      requires Valid()
    {
      start + FrameTime(videoIndex, fps)
    }
    function Next(): Event
      requires Valid()
    {
      if nextAudio <= VideoAt() then Audio(nextAudio) else Video(VideoAt())
    }
    function After(): Cursors
      requires Valid()
    {
      if nextAudio <= VideoAt() then this.(nextAudio := nextAudio + BLOCK) else this.(videoIndex := videoIndex + 1)
    }
  }

  /** The cursors after n hand-offs. */
  function Nth(c: Cursors, n: nat): (r: Cursors)
    requires c.Valid()
    ensures r.Valid() && r.start == c.start && r.fps == c.fps
  {
    if n == 0 then c else Nth(c, n - 1).After()
  }

  /** The first n hand-offs. */
  function Schedule(c: Cursors, n: nat): (r: seq<Event>)
    requires c.Valid()
    ensures |r| == n
  {
    if n == 0 then [] else Schedule(c, n - 1) + [Nth(c, n - 1).Next()]
  }

  /** Strict hand-off order: earlier time, or audio before video at the same time. */
  predicate Precedes(e: Event, f: Event) {
    e.at < f.at || (e.at == f.at && e.Audio? && f.Video?)
  }

  lemma {:induction false} CursorsAdvance(c: Cursors, n: nat)
    requires c.Valid()
    ensures var d := Nth(c, n);
            && d.videoIndex >= c.videoIndex
            && n >= d.videoIndex - c.videoIndex
            && d.nextAudio == c.nextAudio + BLOCK * (n - (d.videoIndex - c.videoIndex))
  {
    hide FrameTime;
    if n > 0 { CursorsAdvance(c, n - 1); }
  }

  /** What has been handed off precedes both events that are still to come. */
  lemma {:induction false} ScheduledPrecedes(c: Cursors, n: nat, k: nat)
    requires c.Valid() && k < n
    ensures var d := Nth(c, n);
            Precedes(Schedule(c, n)[k], Audio(d.nextAudio)) && Precedes(Schedule(c, n)[k], Video(d.VideoAt()))
  {
    hide FrameTime;
    var d := Nth(c, n - 1);
    FrameSpacing(d.videoIndex, d.fps);
    if k < n - 1 {
      ScheduledPrecedes(c, n - 1, k);
    }
  }

  lemma {:induction false} ScheduleAt(c: Cursors, n: nat, k: nat)
    requires c.Valid() && k < n
    ensures Schedule(c, n)[k] == Nth(c, k).Next()
  {
    hide FrameTime;
    if k < n - 1 { ScheduleAt(c, n - 1, k); }
  }

  /** Hand-offs are strictly ordered, for every start state and every number of them. */
  lemma ScheduleOrdered(c: Cursors, n: nat, i: nat, j: nat)
    requires c.Valid() && i < j < n
    ensures Precedes(Schedule(c, n)[i], Schedule(c, n)[j])
  {
    ScheduledPrecedes(c, j, i);
    ScheduleAt(c, n, i);
    ScheduleAt(c, n, j);
    ScheduleAt(c, j, i);
  }

  /** The event lies on its grid, at or after the cursors `c`. */
  ghost predicate OnGrid(c: Cursors, e: Event)
    requires c.Valid()
  {
    match e
    case Audio(t) => t >= c.nextAudio && (t - c.nextAudio) % BLOCK == 0
    case Video(t) => exists i: nat :: i >= c.videoIndex && t == c.start + FrameTime(i, c.fps)
  }

  predicate Passed(d: Cursors, e: Event)
    requires d.Valid()
  {
    match e
    case Audio(t) => t < d.nextAudio
    case Video(t) => t < d.VideoAt()
  }

  /** Nothing is skipped and nothing is invented: the hand-offs are exactly the grid
      events between the old and the new cursors. */
  lemma {:induction false} ScheduleComplete(c: Cursors, n: nat, e: Event)
    requires c.Valid()
    ensures e in Schedule(c, n) <==> OnGrid(c, e) && Passed(Nth(c, n), e)
  {
    hide FrameTime;
    if n == 0 {
      if e.Video? && OnGrid(c, e) {
        var i: nat :| i >= c.videoIndex && e.at == c.start + FrameTime(i, c.fps);
        FrameTimeMonotone(i, c.videoIndex, c.fps);
      }
    } else {
      ScheduleComplete(c, n - 1, e);
      var d := Nth(c, n - 1);
      CursorsAdvance(c, n - 1);
      FrameSpacing(d.videoIndex, c.fps);
      if d.Next().Audio? {
        AudioPassed(c, d, e);
      } else {
        VideoPassed(c, d, e);
      }
    }
  }

  lemma AudioPassed(c: Cursors, d: Cursors, e: Event)
    requires c.Valid() && d.Valid() && d.start == c.start && d.fps == c.fps && d.Next().Audio?
    requires d.nextAudio >= c.nextAudio && (d.nextAudio - c.nextAudio) % BLOCK == 0
    ensures OnGrid(c, e) && Passed(d.After(), e) <==> (OnGrid(c, e) && Passed(d, e)) || e == d.Next()
  {
    hide FrameTime;
  }

  lemma VideoPassed(c: Cursors, d: Cursors, e: Event)
    requires c.Valid() && d.Valid() && d.start == c.start && d.fps == c.fps && d.Next().Video?
    requires d.videoIndex >= c.videoIndex
    ensures OnGrid(c, e) && Passed(d.After(), e) <==> (OnGrid(c, e) && Passed(d, e)) || e == d.Next()
  {
    hide FrameTime;
    FrameSpacing(d.videoIndex, c.fps);
    if e.Video? && OnGrid(c, e) {
      var i: nat :| i >= c.videoIndex && e.at == c.start + FrameTime(i, c.fps);
      FrameTimeMonotone(i, d.videoIndex, c.fps);
      FrameTimeMonotone(d.videoIndex, i, c.fps);
      FrameTimeMonotone(i, d.videoIndex + 1, c.fps);
    }
  }

  lemma {:induction false} NextNondecreasing(c: Cursors, n: nat)
    requires c.Valid()
    ensures c.Next().at <= Nth(c, n).Next().at
  {
    hide FrameTime;
    if n > 0 {
      NextNondecreasing(c, n - 1);
      FrameSpacing(Nth(c, n - 1).videoIndex, c.fps);
    }
  }

  /** Within the largest permitted lag at most thirteen events can be due. */
  lemma CatchupSuffices(c: Cursors, n: nat, target: int)
    requires c.Valid() && n > 0
    requires target - c.Next().at <= 4800
    requires Nth(c, n - 1).Next().at <= target
    ensures n <= 13
  {
    hide FrameTime;
    var d := Nth(c, n - 1);
    CursorsAdvance(c, n - 1);
    var videos := d.videoIndex - c.videoIndex;
    var audios := n - 1 - videos;
    FrameDistance(c.videoIndex, d.videoIndex, c.fps);
    if n > 1 {
      HandedBefore(c, n - 1);
      NextNondecreasing(c, n - 1);
      if videos > 0 { FrameDistance(c.videoIndex, d.videoIndex - 1, c.fps); }
    }
  }

  /** The newest hand-off of each medium is no later than the next event. */
  lemma {:induction false} HandedBefore(c: Cursors, n: nat)
    requires c.Valid()
    ensures var d := Nth(c, n);
            && (d.nextAudio > c.nextAudio ==> d.nextAudio - BLOCK <= d.Next().at)
            && (d.videoIndex > c.videoIndex ==> d.start + FrameTime(d.videoIndex - 1, d.fps) <= d.Next().at)
  {
    hide FrameTime;
    if n > 0 {
      HandedBefore(c, n - 1);
      CursorsAdvance(c, n - 1);
      NextNondecreasing(Nth(c, n - 1), 1);
      FrameSpacing(Nth(c, n - 1).videoIndex, c.fps);
    }
  }

  /** The next frame stays within a second of the target. */
  lemma FrameFollows(c: Cursors, target: int)
    requires c.Valid()
    ensures c.Next().at <= target ==>
              c.After().VideoAt() == c.VideoAt() || c.After().VideoAt() <= target + RATE + 1
  {
    hide FrameTime;
    FrameSpacing(c.videoIndex, c.fps);
  }

  /** Whole seconds and remainder separately, as the code avoids overflow. */
  function DurationSamples(nanoseconds: nat): nat {
    nanoseconds / SECOND * RATE + nanoseconds % SECOND * RATE / SECOND
  }

  lemma DurationSamplesExact(d: nat)
    ensures DurationSamples(d) == d * RATE / SECOND
  {
    assert d * RATE == d / SECOND * RATE * SECOND + d % SECOND * RATE;
    DivShift(d / SECOND * RATE, d % SECOND * RATE, SECOND);
  }

  datatype Outcome =
    | Done
    | Revoked | Rollback | TimeBudget | VideoBudget | SchedulerLag | OutputFailed | CatchupBudget

  /** What one turn of the loop comes to; `None` for a hand-off that went through. */
  function TurnOutcome(c: Cursors, target: int, maxLag: int, allowed: bool, handed: bool): Option<Outcome>
    requires c.Valid()
  {
    if c.VideoAt() > MAX_TIME then Some(VideoBudget)
    else if c.Next().at > target then Some(Done)
    else if target - c.Next().at > maxLag then Some(SchedulerLag)
    else if !allowed then Some(Revoked)
    else if !handed then Some(OutputFailed)
    else None
  }

  /** The first n hand-offs were permitted and taken. */
  predicate WentThrough(n: nat, allowed: nat -> bool, handed: nat -> bool) {
    n > 0 ==> WentThrough(n - 1, allowed, handed) && allowed(n) && handed(n - 1)
  }

  class Clock {
    const start: int          // wall clock, in nanoseconds
    const startSample: nat
    const fps: int
    const maxLag: int
    var last: int
    var nextAudio: int
    var videoIndex: nat
    var closed: bool

    ghost predicate Valid()
      reads this
    {
      && startSample <= MAX_TIME - RATE && ValidRate(fps) && 960 <= maxLag <= 4800
      && start <= last
    }

    function View(): Cursors
      reads this
    {
      Cursors(startSample, fps, nextAudio, videoIndex)
    }

    ghost function Target(now: int): int
      requires now >= start
    {
      startSample + DurationSamples(now - start)
    }

    constructor (start: int, startSample: nat, fps: int, maxLag: int)
      requires startSample <= MAX_TIME - RATE && ValidRate(fps) && 960 <= maxLag <= 4800
      ensures Valid() && !closed
      ensures View() == Cursors(startSample, fps, startSample, 0) && last == start == this.start
    {
      this.start, this.startSample, this.fps, this.maxLag := start, startSample, fps, maxLag;
      last, nextAudio, videoIndex, closed := start, startSample, 0, false;
    }

    /** One turn of the catch-up loop; `None` for a hand-off that went through. */
    method Handoff(target: int, allowed: bool, handed: bool) returns (stop: Option<Outcome>, event: Event)
      requires Valid() && !closed
      modifies this`nextAudio, this`videoIndex, this`closed
      ensures Valid()
      ensures event == old(View()).Next()
      ensures stop == TurnOutcome(old(View()), target, maxLag, allowed, handed)
      ensures View() == if stop.None? || stop == Some(OutputFailed) then old(View()).After() else old(View())
      ensures closed == (stop.Some? && stop != Some(Done))
    {
      FrameTimeExact(videoIndex, fps);
      VideoTimeDefined(videoIndex, fps, startSample);
      event := View().Next();
      var frame := VideoTime(videoIndex, fps, startSample);
      if frame.None? {
        closed := true;
        return Some(VideoBudget), event;
      }
      var videoAt := frame.value;
      var next := if nextAudio < videoAt then nextAudio else videoAt;
      if next > target {
        return Some(Done), event;
      }
      if target - next > maxLag {
        closed := true;
        return Some(SchedulerLag), event;
      }
      if !allowed {
        closed := true;
        return Some(Revoked), event;
      }
      if nextAudio <= videoAt {
        nextAudio := nextAudio + BLOCK;
      } else {
        videoIndex := videoIndex + 1;
      }
      if !handed {
        closed := true;
        return Some(OutputFailed), event;
      }
      stop := None;
    }

    /** `allowed(k)` and `handed(k)` are the answers of the authorisation callback and of
        the output at the k-th check of this call. */
    method Step(now: int, allowed: nat -> bool, handed: nat -> bool) returns (outcome: Outcome, emitted: seq<Event>)
      requires Valid()
      modifies this
      ensures Valid()
      ensures emitted == Schedule(old(View()), |emitted|)
      ensures forall e :: e in emitted ==> now >= start && e.at <= Target(now)
      ensures outcome == Done ==>
                !closed && last == now && View() == Nth(old(View()), |emitted|) && View().Next().at > Target(now)
      ensures outcome != Done ==> closed
      ensures outcome != CatchupBudget
      ensures WentThrough(|emitted|, allowed, handed)
      ensures old(closed) || !allowed(0) ==> outcome == Revoked && emitted == []
      ensures !old(closed) && allowed(0) && now < old(last) ==> outcome == Rollback && emitted == []
      ensures !old(closed) && allowed(0) && now >= old(last) && Target(now) <= MAX_TIME ==>
                var n := |emitted|; Some(outcome) == TurnOutcome(Nth(old(View()), n), Target(now), maxLag, allowed(n + 1), handed(n))
      ensures !old(closed) && allowed(0) && now >= old(last) && Target(now) > MAX_TIME ==> outcome == TimeBudget && emitted == []
      ensures !old(closed) && now >= old(last) && (forall k :: allowed(k)) && (forall k :: handed(k))
              && Target(now) < MAX_TIME - RATE && old(View()).VideoAt() <= MAX_TIME ==>
                (outcome == Done <==> Target(now) - old(View()).Next().at <= maxLag)
    {
      hide FrameTime;
      hide DurationSamples;
      hide TurnOutcome;
      emitted := [];
      if closed || !allowed(0) {
        closed := true;
        return Revoked, emitted;
      }
      if now < start || now < last {
        closed := true;
        return Rollback, emitted;
      }
      last := now;
      var delta := DurationSamples(now - start);
      if delta > MAX_TIME - startSample {
        closed := true;
        return TimeBudget, emitted;
      }
      ghost var c := View();
      outcome, emitted := CatchUp(startSample + delta, allowed, handed);
      if startSample + delta - c.Next().at <= maxLag { LagDecides(c, |emitted|, startSample + delta, maxLag); }
      FirstTurn(c, |emitted|, startSample + delta, maxLag, allowed, handed);
    }

    /** The catch-up loop. */
    method CatchUp(target: int, allowed: nat -> bool, handed: nat -> bool) returns (outcome: Outcome, emitted: seq<Event>)
      requires Valid() && !closed && target >= startSample
      modifies this`nextAudio, this`videoIndex, this`closed
      ensures Valid() && closed == (outcome != Done)
      ensures emitted == Schedule(old(View()), |emitted|) && WentThrough(|emitted|, allowed, handed)
      ensures forall e :: e in emitted ==> e.at <= target
      ensures var n := |emitted|;
              && Some(outcome) == TurnOutcome(Nth(old(View()), n), target, maxLag, allowed(n + 1), handed(n))
              && (outcome == Done ==> View() == Nth(old(View()), n) && View().Next().at > target) && outcome != CatchupBudget
              && (n > 0 ==> target - old(View()).Next().at <= maxLag)
              && (Nth(old(View()), n).VideoAt() <= old(View()).VideoAt() || Nth(old(View()), n).VideoAt() <= target + RATE + 1)
    {
      hide FrameTime;
      outcome, emitted := CatchupBudget, [];
      ghost var c := View();
      var count := 0;
      while count < CATCHUP
        invariant 0 <= count <= CATCHUP && count == |emitted|
        invariant Valid() && !closed
        invariant View() == Nth(c, count)
        invariant emitted == Schedule(c, count) && WentThrough(count, allowed, handed)
        invariant forall e :: e in emitted ==> e.at <= target
        invariant View().VideoAt() <= c.VideoAt() || View().VideoAt() <= target + RATE + 1
        invariant count > 0 ==> target - c.Next().at <= maxLag && count <= 13
      {
        NextNondecreasing(c, count);
        FrameFollows(View(), target);
        var stop, event := Handoff(target, allowed(count + 1), handed(count));
        if stop.Some? {
          return stop.value, emitted;
        }
        CatchupSuffices(c, count + 1, target);
        emitted := emitted + [event];
        count := count + 1;
      }
      assert false;
    }
  }

  /** After the first hand-off the lag cannot be exceeded any more. */
  lemma LagDecides(c: Cursors, n: nat, target: int, maxLag: int)
    requires c.Valid() && target - c.Next().at <= maxLag
    ensures target - Nth(c, n).Next().at <= maxLag
  {
    NextNondecreasing(c, n);
  }

  /** With every answer positive and time in hand, only the lag decides. */
  lemma FirstTurn(c: Cursors, n: nat, target: int, maxLag: int, allowed: nat -> bool, handed: nat -> bool)
    requires c.Valid()
    ensures (forall k :: allowed(k)) && (forall k :: handed(k)) && Nth(c, n).VideoAt() <= MAX_TIME
            && TurnOutcome(Nth(c, n), target, maxLag, allowed(n + 1), handed(n)).Some? ==>
              && (TurnOutcome(Nth(c, n), target, maxLag, allowed(n + 1), handed(n)) == Some(Done) <==> Nth(c, n).Next().at > target)
              && (Nth(c, n).Next().at <= target ==> target - Nth(c, n).Next().at > maxLag)
  {
  }
}
