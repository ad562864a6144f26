/** The decoded-picture pool of one video source, and the mixer's account of its bytes.
    A source owns a fixed number of picture slots; arrivals wait in time order for the
    program clock, the latest one due is shown, and a picture past its age is taken off. */
module VideoPool {
  import opened Common
  import opened ProgramTime

  type Byte = bv8

  datatype Frame = Frame(at: int, pixels: seq<Byte>)

  /** The picture on screen and the pictures waiting, earliest first. */
  datatype Pool = Pool(shown: Option<Frame>, queue: seq<Frame>)

  datatype Input = Input(
    width: nat, height: nat, capacity: nat, maxAge: int, lookAhead: int,
    pool: Pool, started: bool, last: int, closed: bool)

  /** What the source's clock says of one picture. */
  datatype Reading = Refused | Suspended | Ready(at: int, rebound: bool)

  const EMPTY := Pool(None, [])

  function Held(p: Pool): nat {
    |p.queue| + if p.shown.Some? then 1 else 0
  }

  function Put(p: Pool, capacity: nat, f: Frame): Pool {
    if Held(p) < capacity then p.(queue := p.queue + [f])
    else if |p.queue| < 2 then p
    else p.(queue := p.queue[..|p.queue| - 1] + [f])
  }

  function Closed(s: Input): Input {
    s.(pool := EMPTY, closed := true)
  }

  function Discarded(s: Input): Input {
    s.(pool := EMPTY)
  }

  predicate ClockDenied(s: Input, cursor: int, at: int) {
    at < 0 || at > MAX_TIME || (s.started && at <= s.last) || at > cursor + s.lookAhead
  }

  predicate Stale(cursor: int, at: int, maxAge: int) {
    at < cursor && cursor - at >= maxAge
  }

  function WriteAt(s: Input, cursor: int, at: int, pixels: seq<Byte>): Input {
    if ClockDenied(s, cursor, at) then Closed(s)
    else
      var s := s.(started := true, last := at);
      if Stale(cursor, at, s.maxAge) then s else s.(pool := Put(s.pool, s.capacity, Frame(at, pixels)))
  }

  predicate Admitted(s: Input, allowed: bool, width: nat, height: nat, pixels: seq<Byte>) {
    !s.closed && allowed && width == s.width && height == s.height && |pixels| == s.width * s.height * 4
  }

  function Write(s: Input, cursor: int, allowed: bool, width: nat, height: nat, pixels: seq<Byte>, reading: Reading): Input {
    if s.closed then s
    else if !Admitted(s, allowed, width, height, pixels) || reading.Refused? then Closed(s)
    else if reading.Suspended? then Discarded(s)
    else WriteAt(if reading.rebound then Discarded(s) else s, cursor, reading.at, pixels)
  }

  function Promote(p: Pool, t: int): Pool
    decreases |p.queue|
  {
    if p.queue != [] && p.queue[0].at <= t then Promote(Pool(Some(p.queue[0]), p.queue[1..]), t) else p
  }

  function Advance(p: Pool, t: int, maxAge: int): Pool {
    var p := Promote(p, t);
    if p.shown.Some? && t - p.shown.value.at >= maxAge then p.(shown := None) else p
  }

  // ---------------------------------------------------------------- slots in place

  datatype Slot = Slot(pixels: seq<Byte>, at: int, used: bool)

  function Blank(n: nat): Slot {
    Slot(seq(n, _ => 0), 0, false)
  }

  /** Every slot of the array is blank. */
  ghost predicate Wiped(slots: array<Slot>, bytes: nat)
    reads slots
  {
    forall i :: 0 <= i < slots.Length ==> slots[i] == Blank(bytes)
  }

  class VideoInput {
    const width: nat
    const height: nat
    const capacity: nat
    const maxAge: int
    const lookAhead: int
    var frames: array<Slot>
    var pending: seq<nat>
    var current: int
    var started: bool
    var last: int
    var closed: bool

    /** The used slots are exactly the waiting ones and the one on screen, each once, and
        a free slot holds no picture. */
    ghost predicate Valid()
      reads this, frames
    {
      && frames.Length == (if closed then 0 else capacity)
      && -1 <= current < frames.Length
      && Distinct(pending) && (forall k :: 0 <= k < |pending| ==> pending[k] < frames.Length && pending[k] != current)
      && (forall i :: 0 <= i < frames.Length ==> (frames[i].used <==> i == current || i in pending))
      && (forall i :: 0 <= i < frames.Length && !frames[i].used ==> frames[i] == Blank(width * height * 4))
      && (forall i :: 0 <= i < frames.Length ==> |frames[i].pixels| == width * height * 4)
    }

    ghost function FrameIn(i: nat): Frame
      requires i < frames.Length
      reads this, frames
    {
      Frame(frames[i].at, frames[i].pixels)
    }

    ghost function View(): Input
      requires Valid()
      reads this, frames
    {
      Input(width, height, capacity, maxAge, lookAhead,
            Pool(if current < 0 then None else Some(FrameIn(current)),
                 seq(|pending|, i requires 0 <= i < |pending| && Valid() reads this, frames => FrameIn(pending[i]))),
            started, last, closed)
    }

    constructor (width: nat, height: nat, capacity: nat, maxAge: int, lookAhead: int)
      ensures Valid() && fresh(frames)
      ensures View() == Input(width, height, capacity, maxAge, lookAhead, EMPTY, false, 0, false)
    {
      this.width, this.height, this.capacity, this.maxAge, this.lookAhead := width, height, capacity, maxAge, lookAhead;
      frames := new Slot[capacity](_ => Blank(width * height * 4));
      pending, current, started, last, closed := [], -1, false, 0, false;
    }

    method ClearFrame(i: nat)
      requires i < frames.Length
      modifies frames
      ensures frames[i] == Blank(width * height * 4)
      ensures forall j :: 0 <= j < frames.Length && j != i ==> frames[j] == old(frames[j])
    {
      frames[i] := Blank(width * height * 4);
    }

    method DiscardFrames()
      requires Valid() && !closed
      modifies this, frames
      ensures Valid() && frames == old(frames)
      ensures View() == Discarded(old(View()))
      ensures forall i :: 0 <= i < frames.Length ==> frames[i] == Blank(width * height * 4)
    {
      for i := 0 to frames.Length
        invariant unchanged(this)
        invariant forall j :: 0 <= j < i ==> frames[j] == Blank(width * height * 4)
      {
        ClearFrame(i);
      }
      pending, current := [], -1;
    }

    /** Closing wipes every slot before the storage is let go. */
    method Close()
      requires Valid()
      modifies this, frames
      ensures Valid()
      ensures frames == old(frames) || fresh(frames)
      ensures View() == if old(closed) then old(View()) else Closed(old(View()))
      ensures !old(closed) ==> Wiped(old(frames), width * height * 4)
    {
      if closed { return; }
      DiscardFrames();
      closed := true;
      frames := new Slot[0];
    }

    method FreeSlot() returns (slot: int)
      requires Valid() && !closed
      ensures -1 <= slot < frames.Length
      ensures slot >= 0 ==> !frames[slot].used
      ensures Held(View().pool) <= capacity
      ensures slot < 0 <==> Held(View().pool) == capacity
    {
      slot := -1;
      for i := 0 to frames.Length
        invariant slot == -1 && forall j :: 0 <= j < i ==> frames[j].used
      {
        if !frames[i].used { slot := i; break; }
      }
      ghost var used := if current < 0 then pending else [current as nat] + pending;
      assert forall i: nat :: i in used <==> i == current || i in pending;
      assert Held(View().pool) == |used|;
      Pigeonhole(used, capacity);
      if slot >= 0 { assert slot !in used; }
    }

    method Show(t: int)
      requires Valid() && !closed
      modifies this, frames
      ensures Valid() && frames == old(frames)
      ensures View() == old(View()).(pool := Advance(old(View()).pool, t, maxAge))
    {
      ghost var before := View();
      while pending != [] && frames[pending[0]].at <= t
        invariant Valid() && frames == old(frames) && !closed
        invariant View() == before.(pool := View().pool)
        invariant Promote(View().pool, t) == Promote(before.pool, t)
        decreases |pending|
      {
        PromoteNext();
      }
      if current >= 0 && t - frames[current].at >= maxAge {
        HideCurrent();
      }
    }

    method HideCurrent()
      requires Valid() && current >= 0
      modifies this`current, frames
      ensures Valid() && current == -1
      ensures View() == old(View()).(pool := old(View()).pool.(shown := None))
    {
      ClearFrame(current);
      current := -1;
      assert View().pool.queue == old(View()).pool.queue;
    }

    method PromoteNext()
      requires Valid() && pending != []
      modifies this`current, this`pending, frames
      ensures Valid() && |pending| < |old(pending)|
      ensures View() == old(View()).(pool := Pool(Some(old(View()).pool.queue[0]), old(View()).pool.queue[1..]))
    {
      if current >= 0 { HideCurrent(); }
      PopPending();
    }

    method PopPending()
      requires Valid() && pending != [] && current < 0
      modifies this`current, this`pending
      ensures Valid() && pending == old(pending)[1..]
      ensures View() == old(View()).(pool := Pool(Some(old(View()).pool.queue[0]), old(View()).pool.queue[1..]))
    {
      current, pending := pending[0], pending[1..];
      assert old(pending) == [current as nat] + pending;
      assert View().pool.queue == old(View()).pool.queue[1..];
    }

    /** Gives the storage of the furthest waiting picture back. */
    method DropFurthest() returns (slot: nat)
      requires Valid() && |pending| > 0
      modifies this`pending, frames
      ensures Valid() && slot < frames.Length && !frames[slot].used
      ensures View() == old(View()).(pool := old(View()).pool.(queue := old(View()).pool.queue[..|old(pending)| - 1]))
    {
      var k := |pending| - 1;
      slot := pending[k];
      pending := pending[..k];
      ClearFrame(slot);
      assert forall i :: i in old(pending) <==> i == slot || i in pending;
      assert View().pool.queue == old(View()).pool.queue[..k];
    }

    method Store(slot: nat, at: int, pixels: seq<Byte>)
      requires Valid() && slot < frames.Length && !frames[slot].used && |pixels| == width * height * 4
      modifies this`pending, frames
      ensures Valid()
      ensures View() == old(View()).(pool := old(View()).pool.(queue := old(View()).pool.queue + [Frame(at, pixels)]))
    {
      frames[slot] := Slot(pixels, at, true);
      pending := pending + [slot];
      assert View().pool.queue == old(View()).pool.queue + [Frame(at, pixels)];
    }

    method PutFrame(at: int, pixels: seq<Byte>)
      requires Valid() && !closed && |pixels| == width * height * 4
      modifies this`pending, frames
      ensures Valid()
      ensures View() == old(View()).(pool := Put(old(View()).pool, capacity, Frame(at, pixels)))
    {
      var slot := FreeSlot();
      if slot < 0 {
        if |pending| < 2 { return; }
        slot := DropFurthest();
      }
      Store(slot, at, pixels);
    }

    method WriteFrame(cursor: int, at: int, pixels: seq<Byte>)
      requires Valid() && !closed && |pixels| == width * height * 4
      modifies this, frames
      ensures Valid() && (frames == old(frames) || fresh(frames))
      ensures View() == WriteAt(old(View()), cursor, at, pixels)
    {
      if at < 0 || at > MAX_TIME || (started && at <= last) || at > cursor + lookAhead {
        Close();
        return;
      }
      started, last := true, at;
      assert View() == old(View()).(started := true, last := at);
      if at < cursor && cursor - at >= maxAge { return; }
      PutFrame(at, pixels);
    }

    method WriteRGBA(cursor: int, allowed: bool, w: nat, h: nat, pixels: seq<Byte>, reading: Reading)
      requires Valid()
      modifies this, frames
      ensures Valid() && (frames == old(frames) || fresh(frames))
      ensures View() == Write(old(View()), cursor, allowed, w, h, pixels, reading)
    {
      if closed || !allowed || w != width || h != height || |pixels| != width * height * 4 || reading.Refused? {
        Close();
      } else if reading.Suspended? {
        DiscardFrames();
      } else {
        if reading.rebound { DiscardFrames(); }
        WriteFrame(cursor, reading.at, pixels);
      }
    }
  }

  // ---------------------------------------------------------------- one step of the pool

  function Waiting(p: Pool): (r: set<Frame>)
    ensures forall f :: f in r <==> f in p.queue
  {
    set f | f in p.queue
  }

  function Retained(p: Pool): (r: set<Frame>)
    ensures forall f :: f in r <==> f in p.queue || p.shown == Some(f)
  {
    Waiting(p) + if p.shown.Some? then {p.shown.value} else {}
  }

  predicate Sorted(queue: seq<Frame>) {
    forall i, j :: 0 <= i < j < |queue| ==> queue[i].at < queue[j].at
  }

  predicate Ordered(p: Pool) {
    Sorted(p.queue) && (p.shown.Some? ==> forall f :: f in p.queue ==> p.shown.value.at < f.at)
  }

  lemma AppendKeeps(p: Pool, f: Frame)
    requires Ordered(p) && forall g :: g in Retained(p) ==> g.at < f.at
    ensures var q := p.(queue := p.queue + [f]); Ordered(q) && Retained(q) == Retained(p) + {f}
  {
    hide Waiting;
    hide Retained;
    forall i | 0 <= i < |p.queue| ensures p.queue[i].at < f.at { assert p.queue[i] in Retained(p); }
    var q := p.(queue := p.queue + [f]);
    forall g ensures g in Retained(q) <==> g in Retained(p) + {f} { }
  }

  lemma DropKeeps(p: Pool)
    requires Ordered(p) && p.queue != []
    ensures var q := p.(queue := p.queue[..|p.queue| - 1]);
            Ordered(q) && Retained(q) == Retained(p) - {p.queue[|p.queue| - 1]}
  {
    hide Waiting;
    hide Retained;
    var n := |p.queue| - 1;
    var q := p.(queue := p.queue[..n]);
    assert p.queue == q.queue + [p.queue[n]];
    assert forall i :: 0 <= i < n ==> q.queue[i].at < p.queue[n].at;
    assert p.queue[n] in p.queue;
    forall g ensures g in Retained(q) <==> g in Retained(p) - {p.queue[n]} { }
  }

  /** What a later arrival `f` costs: a picture is lost exactly when every slot is taken,
      it is the furthest one, and never the one shown or the next one due. */
  lemma ArrivalCosts(p: Pool, capacity: nat, f: Frame)
    requires Ordered(p) && Held(p) <= capacity && 2 <= capacity && forall g :: g in Retained(p) ==> g.at < f.at
    ensures var q, n := Put(p, capacity, f), |p.queue|;
            && Ordered(q) && Held(q) <= capacity && q.shown == p.shown
            && Retained(q) + Cost(p, capacity, f) == Retained(p) + {f} && Retained(q) !! Cost(p, capacity, f)
            && (p.queue != [] ==> q.queue != [] && q.queue[0] == p.queue[0])
  {
    hide Waiting;
    hide Retained;
    assert f !in Retained(p);
    if Held(p) < capacity {
      AppendKeeps(p, f);
    } else if |p.queue| >= 2 {
      DropKeeps(p);
      AppendKeeps(p.(queue := p.queue[..|p.queue| - 1]), f);
    }
  }

  /** The picture a full pool gives up: the furthest waiting one, or the arrival itself when
      the only picture waiting is the next one due. */
  function Cost(p: Pool, capacity: nat, f: Frame): set<Frame> {
    if Held(p) < capacity then {} else if |p.queue| < 2 then {f} else {p.queue[|p.queue| - 1]}
  }

  lemma TailOrdered(p: Pool)
    requires Ordered(p) && p.queue != []
    ensures Ordered(Pool(Some(p.queue[0]), p.queue[1..]))
  {
    forall f | f in p.queue[1..] ensures p.queue[0].at < f.at { var i :| 0 <= i < |p.queue| - 1 && p.queue[1..][i] == f; }
  }

  /** Promotion takes the pictures that are due, and the last of them is the one shown. */
  lemma {:induction false} PromoteTakes(p: Pool, t: int) returns (k: nat)
    requires Ordered(p)
    ensures k <= |p.queue| && Promote(p, t).queue == p.queue[k..]
    ensures forall i :: 0 <= i < |p.queue| ==> (i < k <==> p.queue[i].at <= t)
    ensures Promote(p, t).shown == if k == 0 then p.shown else Some(p.queue[k - 1])
    decreases |p.queue|
  {
    if p.queue != [] && p.queue[0].at <= t {
      var rest := Pool(Some(p.queue[0]), p.queue[1..]);
      TailOrdered(p);
      hide Ordered;
      var m := PromoteTakes(rest, t);
      k := m + 1;
      assert p.queue[k..] == rest.queue[m..];
      assert forall i :: 0 < i < |p.queue| ==> p.queue[i] == rest.queue[i - 1];
    } else {
      k := 0;
      assert p.queue[0..] == p.queue;
    }
  }

  /** `p` shows the latest picture of `known` that is due at `t` and younger than `maxAge`. */
  predicate ShowsLatest(p: Pool, known: set<Frame>, t: int, maxAge: int) {
    match p.shown
    case None => forall g :: g in known && g.at <= t ==> t - g.at >= maxAge
    case Some(f) => f in known && f.at <= t && t - f.at < maxAge && forall g :: g in known && g.at <= t ==> g.at <= f.at
  }

  lemma PromoteWaits(p: Pool, t: int)
    requires Ordered(p)
    ensures Waiting(Promote(p, t)) == (set f | f in p.queue && f.at > t)
  {
    hide Waiting;
    var k := PromoteTakes(p, t);
    var q := Promote(p, t);
    hide Promote;
    forall f ensures f in Waiting(q) <==> f in p.queue && f.at > t {
      if f in q.queue { var i :| 0 <= i < |q.queue| && q.queue[i] == f; assert f == p.queue[k + i]; }
      if f in p.queue && f.at > t { var i :| 0 <= i < |p.queue| && p.queue[i] == f; assert f == p.queue[k..][i - k]; }
    }
  }

  lemma PromoteShows(p: Pool, t: int)
    requires Ordered(p) && (p.shown.Some? ==> p.shown.value.at <= t)
    ensures var q := Promote(p, t);
            && Ordered(q) && Held(q) <= Held(p)
            && (q.shown.Some? ==> q.shown.value in Retained(p) && q.shown.value.at <= t)
            && (forall g :: g in Retained(p) && g.at <= t ==> q.shown.Some? && g.at <= q.shown.value.at)
  {
    hide Waiting;
    hide Retained;
    PromoteWaits(p, t);
    var k := PromoteTakes(p, t);
    var q := Promote(p, t);
    hide Promote;
    forall g | g in Retained(p) && g.at <= t ensures q.shown.Some? && g.at <= q.shown.value.at {
      if g in p.queue { var i :| 0 <= i < |p.queue| && p.queue[i] == g; }
    }
    forall g | g in q.queue ensures g.at > t { assert g in Waiting(q); }
  }

  /** Advancing shows the latest retained picture and leaves exactly those not yet due waiting. */
  lemma AdvanceShowsLatest(p: Pool, t: int, maxAge: int)
    requires Ordered(p) && (p.shown.Some? ==> p.shown.value.at <= t)
    ensures var q := Advance(p, t, maxAge);
            && Ordered(q) && Held(q) <= Held(p) && ShowsLatest(q, Retained(p), t, maxAge)
            && Waiting(q) == set f | f in p.queue && f.at > t
  {
    PromoteWaits(p, t);
    PromoteShows(p, t);
    hide Promote;
    hide Retained;
  }

  // ---------------------------------------------------------------- whole runs

  /** A source beside everything it was ever given: `log` the pictures its clock accepted
      since its frames were last discarded, `lost` those a full pool turned away. */
  datatype Story = Story(input: Input, cursor: int, rendered: bool, log: set<Frame>, lost: set<Frame>)

  datatype Event =
    | Arrival(allowed: bool, width: nat, height: nat, pixels: seq<Byte>, reading: Reading)
    | Render(t: int, allowed: bool, reading: Reading)
    | Revoke

  function Tell(s: Story, input: Input, log: set<Frame>, lost: set<Frame>): Story {
    if input.closed then s.(input := input, log := {}, lost := {}) else s.(input := input, log := log, lost := lost)
  }

  /** The reading takes effect first: a new clock epoch or a suspended clock empties the pool. */
  function Rebind(s: Story, reading: Reading): Story {
    if reading.Suspended? || (reading.Ready? && reading.rebound) then s.(input := Discarded(s.input), log := {}, lost := {}) else s
  }

  function Arrive(s: Story, e: Event): Story
    requires e.Arrival?
  {
    var after := Write(s.input, s.cursor, e.allowed, e.width, e.height, e.pixels, e.reading);
    if after.closed || !e.reading.Ready? then Tell(s, after, {}, {})
    else
      var s, f := Rebind(s, e.reading), Frame(e.reading.at, e.pixels);
      Tell(s, after, s.log + {f},
           if Stale(s.cursor, f.at, s.input.maxAge) then s.lost
           else s.lost + (Retained(s.input.pool) + {f} - Retained(after.pool)))
  }

  predicate RenderDenied(s: Story, t: int) {
    t < s.cursor || t > MAX_TIME || (s.rendered && t == s.cursor)
  }

  function Rendered(s: Story, e: Event): Story
    requires e.Render?
  {
    if s.input.closed then s
    else if RenderDenied(s, e.t) || !e.allowed || e.reading.Refused? then Tell(s, Closed(s.input), {}, {})
    else
      var s := Rebind(s, e.reading).(cursor := e.t, rendered := true);
      if e.reading.Suspended? then s
      else s.(input := s.input.(pool := Advance(s.input.pool, e.t, s.input.maxAge)))
  }

  function Step(s: Story, e: Event): Story {
    match e
    case Arrival(_, _, _, _, _) => Arrive(s, e)
    case Render(_, _, _) => Rendered(s, e)
    case Revoke => if s.input.closed then s else Tell(s, Closed(s.input), {}, {})
  }

  function Run(s: Story, events: seq<Event>): Story {
    if events == [] then s else Step(Run(s, events[..|events| - 1]), events[|events| - 1])
  }

  function Begin(width: nat, height: nat, capacity: nat, maxAge: int, lookAhead: int, cursor: int): Story {
    Story(Input(width, height, capacity, maxAge, lookAhead, EMPTY, false, 0, false), cursor, false, {}, {})
  }

  predicate Sound(s: Story) {
    var p := s.input.pool;
    && s.input.capacity >= 2 && s.input.maxAge > 0
    && (s.input.closed ==> p == EMPTY)
    && Ordered(p) && Held(p) <= s.input.capacity
    && Retained(p) <= s.log && s.lost <= s.log && Retained(p) !! s.lost
    && (forall f :: f in s.log ==> s.input.started && f.at <= s.input.last)
    && (p.shown.Some? ==> p.shown.value.at <= s.cursor)
    && (forall f :: f in s.log && f !in s.lost && f !in Waiting(p) ==> Settled(p, f, s.cursor, s.input.maxAge))
  }

  /** A picture that no longer waits: it is not later than the one shown, or it is too old. */
  predicate Settled(p: Pool, f: Frame, cursor: int, maxAge: int) {
    f.at <= cursor && (cursor - f.at >= maxAge || (p.shown.Some? && f.at <= p.shown.value.at))
  }

  lemma PutSound(s: Story, f: Frame)
    requires Sound(s) && !s.input.closed && (s.input.started ==> f.at > s.input.last)
    ensures var p := Put(s.input.pool, s.input.capacity, f);
            Sound(s.(input := s.input.(started := true, last := f.at, pool := p), log := s.log + {f},
                     lost := s.lost + (Retained(s.input.pool) + {f} - Retained(p))))
  {
    hide Waiting;
    hide Retained;
    var p, cost := s.input.pool, Cost(s.input.pool, s.input.capacity, f);
    forall g | g in Retained(p) ensures g.at < f.at { assert g in s.log; }
    ArrivalCosts(p, s.input.capacity, f);
    var q := Put(p, s.input.capacity, f);
    hide Put;
    hide Cost;
    hide Ordered;
    hide Held;
    assert Retained(p) + {f} - Retained(q) == cost;
  }

  lemma AdvanceSound(s: Story, t: int)
    requires Sound(s) && !s.input.closed && s.cursor <= t
    ensures var p := Advance(s.input.pool, t, s.input.maxAge);
            Sound(s.(input := s.input.(pool := p), cursor := t, rendered := true)) && ShowsLatest(p, s.log - s.lost, t, s.input.maxAge)
  {
    hide Waiting;
    hide Retained;
    var p := s.input.pool;
    AdvanceShowsLatest(p, t, s.input.maxAge);
    var q := Advance(p, t, s.input.maxAge);
    hide Advance;
    hide Ordered;
    hide Held;
    forall f | f in s.log - s.lost && f.at <= t
      ensures t - f.at >= s.input.maxAge || (q.shown.Some? && f.at <= q.shown.value.at)
    {
      if f !in Retained(p) && p.shown.Some? && f.at <= p.shown.value.at {
        assert p.shown.value in Retained(p);
      }
    }
    forall g | g in Retained(q) ensures g in Retained(p) { if g in q.queue { assert g in Waiting(q); } }
    forall f | f in s.log && f !in s.lost && f !in Waiting(q) ensures Settled(q, f, t, s.input.maxAge) { }
  }

  /** Rebinding or closing empties the pool together with its story. */
  lemma EmptySound(s: Story)
    requires Sound(s)
    ensures Sound(s.(input := Closed(s.input), log := {}, lost := {})) && Sound(s.(input := Discarded(s.input), log := {}, lost := {}))
  {
    hide Waiting;
    hide Retained;
    assert Retained(EMPTY) == {};
  }

  lemma ArriveSound(s: Story, e: Event)
    requires Sound(s) && e.Arrival?
    ensures Sound(Arrive(s, e))
  {
    EmptySound(s);
    hide Sound;
    if !s.input.closed && Admitted(s.input, e.allowed, e.width, e.height, e.pixels) && e.reading.Ready? {
      var u := Rebind(s, e.reading);
      EmptySound(u);
      if !ClockDenied(u.input, s.cursor, e.reading.at) {
        var f := Frame(e.reading.at, e.pixels);
        if Stale(s.cursor, f.at, s.input.maxAge) { StaleSound(u, f); } else { PutSound(u, f); }
      }
    }
  }

  lemma StaleSound(s: Story, f: Frame)
    requires Sound(s) && !s.input.closed && (s.input.started ==> f.at > s.input.last) && Stale(s.cursor, f.at, s.input.maxAge)
    ensures Sound(s.(input := s.input.(started := true, last := f.at), log := s.log + {f}))
  {
    hide Waiting;
    hide Retained;
  }

  lemma StepSound(s: Story, e: Event)
    requires Sound(s)
    ensures Sound(Step(s, e))
  {
    EmptySound(s);
    match e
    case Arrival(_, _, _, _, _) => ArriveSound(s, e);
    case Render(t, allowed, reading) =>
      if !s.input.closed && !RenderDenied(s, t) && reading.Ready? { AdvanceSound(Rebind(s, reading), t); }
    case Revoke =>
  }

  lemma {:induction false} RunSound(s: Story, events: seq<Event>)
    requires Sound(s)
    ensures Sound(Run(s, events))
  {
    if events != [] {
      RunSound(s, events[..|events| - 1]);
      StepSound(Run(s, events[..|events| - 1]), events[|events| - 1]);
    }
  }

  /** After any run, a render shows the latest picture ever accepted that is due, young
      enough and was not turned away by a full pool, with the pixels it arrived with. */
  lemma RenderShowsLatest(width: nat, height: nat, capacity: nat, maxAge: int, lookAhead: int, start: int, events: seq<Event>, e: Event)
    requires capacity >= 2 && maxAge > 0 && e.Render?
    ensures var s := Step(Run(Begin(width, height, capacity, maxAge, lookAhead, start), events), e);
            !s.input.closed && e.reading.Ready? ==> s.cursor == e.t && ShowsLatest(s.input.pool, s.log - s.lost, e.t, maxAge)
  {
    var b := Begin(width, height, capacity, maxAge, lookAhead, start);
    RunSound(b, events);
    RunKeepsShape(b, events);
    var s := Run(b, events);
    EmptySound(s);
    if !s.input.closed && !RenderDenied(s, e.t) && e.reading.Ready? { AdvanceSound(Rebind(s, e.reading), e.t); }
  }

  lemma {:induction false} RunKeepsShape(s: Story, events: seq<Event>)
    ensures Run(s, events).input.maxAge == s.input.maxAge && Run(s, events).input.capacity == s.input.capacity
  {
    if events != [] {
      RunKeepsShape(s, events[..|events| - 1]);
      StepKeepsShape(Run(s, events[..|events| - 1]), events[|events| - 1]);
      hide Step;
    }
  }

  lemma StepKeepsShape(s: Story, e: Event)
    ensures Step(s, e).input.maxAge == s.input.maxAge && Step(s, e).input.capacity == s.input.capacity
  {
    hide Put;
    hide Advance;
    hide Retained;
  }

  // ---------------------------------------------------------------- what closes a source

  /** The program time after some events. */
  function Clock(start: int, events: seq<Event>): int {
    if events == [] then start
    else if events[|events| - 1].Render? then events[|events| - 1].t
    else Clock(start, events[..|events| - 1])
  }

  /** Later than every picture, and than every render, so far. */
  predicate LaterPicture(events: seq<Event>, at: int) {
    forall j :: 0 <= j < |events| && events[j].Arrival? && events[j].reading.Ready? ==> at > events[j].reading.at
  }

  predicate LaterRender(events: seq<Event>, t: int) {
    forall j :: 0 <= j < |events| && events[j].Render? ==> t > events[j].t
  }

  /** What a producer and a program in order may do after these events. */
  predicate Regular(width: nat, height: nat, lookAhead: int, start: int, events: seq<Event>, e: Event) {
    match e
    case Arrival(allowed, w, h, pixels, reading) =>
      && allowed && w == width && h == height && |pixels| == width * height * 4 && !reading.Refused?
      && (reading.Ready? ==> 0 <= reading.at <= MAX_TIME && LaterPicture(events, reading.at) && reading.at <= Clock(start, events) + lookAhead)
    case Render(t, allowed, reading) => allowed && !reading.Refused? && start <= t <= MAX_TIME && LaterRender(events, t)
    case Revoke => false
  }

  ghost predicate AllRegular(width: nat, height: nat, lookAhead: int, start: int, events: seq<Event>) {
    forall i :: 0 <= i < |events| ==> Regular(width, height, lookAhead, start, events[..i], events[i])
  }

  lemma AllRegularLast(width: nat, height: nat, lookAhead: int, start: int, events: seq<Event>)
    requires events != []
    ensures var init, e := events[..|events| - 1], events[|events| - 1];
            AllRegular(width, height, lookAhead, start, events) <==>
              AllRegular(width, height, lookAhead, start, init) && Regular(width, height, lookAhead, start, init, e)
  {
    hide Regular;
    var init := events[..|events| - 1];
    assert forall i :: 0 <= i < |init| ==> events[i] == init[i] && events[..i] == init[..i];
  }

  lemma LaterLast(events: seq<Event>, e: Event, at: int)
    ensures LaterPicture(events + [e], at) <==> LaterPicture(events, at) && (e.Arrival? && e.reading.Ready? ==> at > e.reading.at)
    ensures LaterRender(events + [e], at) <==> LaterRender(events, at) && (e.Render? ==> at > e.t)
  {
    var all := events + [e];
    assert all[|events|] == e && forall j :: 0 <= j < |events| ==> all[j] == events[j];
  }

  lemma LaterOn(events: seq<Event>, at: int, later: int)
    requires at <= later
    ensures LaterPicture(events, at) ==> LaterPicture(events, later)
    ensures LaterRender(events, at) ==> LaterRender(events, later)
  {
  }

  /** An open source remembers the last picture and the last render. */
  ghost predicate Remembers(s: Story, start: int, events: seq<Event>) {
    && s.cursor == Clock(start, events) && s.cursor >= start
    && (s.input.started ==> forall at :: LaterPicture(events, at) <==> at > s.input.last)
    && (!s.input.started ==> forall at :: LaterPicture(events, at))
    && (s.rendered ==> forall t :: LaterRender(events, t) <==> t > s.cursor)
    && (!s.rendered ==> s.cursor == start && forall t :: LaterRender(events, t))
  }

  lemma ClosesExactly(s: Story, start: int, events: seq<Event>, e: Event)
    requires !s.input.closed && Remembers(s, start, events)
    ensures !Step(s, e).input.closed <==> Regular(s.input.width, s.input.height, s.input.lookAhead, start, events, e)
  {
    hide Put;
    hide Advance;
    hide Retained;
    hide LaterPicture;
    hide LaterRender;
    hide Clock;
  }

  lemma StepMarks(s: Story, e: Event)
    requires !s.input.closed && !Step(s, e).input.closed
    ensures var u := Step(s, e);
            && u.cursor == (if e.Render? then e.t else s.cursor) && u.rendered == (s.rendered || e.Render?)
            && u.input.started == (s.input.started || (e.Arrival? && e.reading.Ready?))
            && u.input.last == (if e.Arrival? && e.reading.Ready? then e.reading.at else s.input.last)
            && u.input.width == s.input.width && u.input.height == s.input.height && u.input.lookAhead == s.input.lookAhead
  {
    hide Put;
    hide Advance;
    hide Retained;
  }

  lemma RemembersOn(s: Story, start: int, events: seq<Event>, e: Event)
    requires !s.input.closed && Remembers(s, start, events) && !Step(s, e).input.closed
    ensures Remembers(Step(s, e), start, events + [e])
  {
    var u := Step(s, e);
    StepMarks(s, e);
    ClosesExactly(s, start, events, e);
    hide Step;
    assert (events + [e])[..|events|] == events;
    forall at ensures LaterPicture(events + [e], at) <==> LaterPicture(events, at) && (e.Arrival? && e.reading.Ready? ==> at > e.reading.at)
              ensures LaterRender(events + [e], at) <==> LaterRender(events, at) && (e.Render? ==> at > e.t)
    { LaterLast(events, e, at); }
    if e.Arrival? && e.reading.Ready? { forall at | at >= e.reading.at ensures LaterPicture(events, at) { LaterOn(events, e.reading.at, at); } }
    if e.Render? { forall t | t >= e.t ensures LaterRender(events, t) { LaterOn(events, e.t, t); } }
    hide LaterPicture;
    hide LaterRender;
  }

  lemma BeginRemembers(width: nat, height: nat, capacity: nat, maxAge: int, lookAhead: int, start: int)
    ensures Remembers(Begin(width, height, capacity, maxAge, lookAhead, start), start, [])
  {
  }

  lemma RunStep(s: Story, events: seq<Event>)
    requires events != []
    ensures Run(s, events) == Step(Run(s, events[..|events| - 1]), events[|events| - 1])
    ensures Run(s, events[..|events| - 1]).input.closed ==> Run(s, events).input.closed
  {
  }

  /** In every run a source is open exactly as long as every picture was permitted, of its
      size, timed, later than the one before and not too far ahead, every render permitted
      and later than the one before, and nothing revoked it. */
  lemma {:induction false} OpenExactly(width: nat, height: nat, capacity: nat, maxAge: int, lookAhead: int, start: int, events: seq<Event>)
    ensures var s := Run(Begin(width, height, capacity, maxAge, lookAhead, start), events);
            && (!s.input.closed <==> AllRegular(width, height, lookAhead, start, events))
            && (!s.input.closed ==> Remembers(s, start, events) && s.input.width == width && s.input.height == height && s.input.lookAhead == lookAhead)
  {
    hide Remembers;
    hide Regular;
    var b := Begin(width, height, capacity, maxAge, lookAhead, start);
    if events == [] {
      BeginRemembers(width, height, capacity, maxAge, lookAhead, start);
    } else {
      hide AllRegular;
      hide Step;
      var init, e := events[..|events| - 1], events[|events| - 1];
      assert events == init + [e];
      OpenExactly(width, height, capacity, maxAge, lookAhead, start, init);
      AllRegularLast(width, height, lookAhead, start, events);
      RunStep(b, events);
      hide Run;
      var s := Run(b, init);
      if !s.input.closed {
        ClosesExactly(s, start, init, e);
        if !Step(s, e).input.closed {
          RemembersOn(s, start, init, e);
          StepMarks(s, e);
        }
      }
    }
  }

  // ---------------------------------------------------------------- the next deadline

  /** Events before time `t` under an unbroken clock. */
  predicate Before(e: Event, t: int) {
    match e
    case Arrival(_, _, _, _, reading) => reading.Ready? && !reading.rebound
    case Render(at, _, reading) => at < t && reading.Ready? && !reading.rebound
    case Revoke => true
  }

  lemma StepKeepsNext(s: Story, e: Event)
    requires Sound(s) && s.input.pool.queue != [] && Before(e, s.input.pool.queue[0].at) && !Step(s, e).input.closed
    ensures Step(s, e).input.pool.queue != [] && Step(s, e).input.pool.queue[0] == s.input.pool.queue[0]
  {
    hide Waiting;
    hide Retained;
    hide Ordered;
    hide Held;
  }

  lemma {:induction false} ClosedForGood(s: Story, events: seq<Event>)
    requires s.input.closed
    ensures Run(s, events).input.closed
  {
    if events != [] { ClosedForGood(s, events[..|events| - 1]); }
  }

  /** However many pictures arrive, the next one due stays next until the program reaches it. */
  lemma {:induction false} NextDeadlineKept(s: Story, events: seq<Event>)
    requires Sound(s) && s.input.pool.queue != [] && !Run(s, events).input.closed
    requires forall e :: e in events ==> Before(e, s.input.pool.queue[0].at)
    ensures Run(s, events).input.pool.queue != [] && Run(s, events).input.pool.queue[0] == s.input.pool.queue[0]
  {
    if events != [] {
      var prior, e := events[..|events| - 1], events[|events| - 1];
      RunSound(s, prior);
      if Run(s, prior).input.closed { ClosedForGood(Run(s, prior), [e]); }
      NextDeadlineKept(s, prior);
      StepKeepsNext(Run(s, prior), e);
    }
  }

  /** No producer can starve the screen: the first render to reach the next picture shows
      it, or a later one that is due as well. */
  lemma NextDeadlineMet(s: Story, events: seq<Event>, t: int)
    requires Sound(s) && s.input.pool.queue != []
    requires forall e :: e in events ==> Before(e, s.input.pool.queue[0].at)
    requires var next := s.input.pool.queue[0]; next.at <= t <= MAX_TIME && t - next.at < s.input.maxAge
    requires !Run(s, events).input.closed && !RenderDenied(Run(s, events), t)
    ensures var after := Step(Run(s, events), Render(t, true, Ready(0, false)));
            after.input.pool.shown.Some? && s.input.pool.queue[0].at <= after.input.pool.shown.value.at <= t
  {
    NextDeadlineKept(s, events);
    RunSound(s, events);
    RunKeepsShape(s, events);
    var u := Run(s, events);
    hide Run;
    AdvanceShowsLatest(u.input.pool, t, u.input.maxAge);
    hide Advance;
    assert u.input.pool.queue[0] in Retained(u.input.pool);
  }

  // ---------------------------------------------------------------- the mixer's bytes

  function SlotBytes(width: nat, height: nat, slots: nat): nat {
    width * height * 4 * slots
  }

  /** The picture bytes an open source owns in all its slots. */
  function Owned(s: VideoInput): nat {
    SlotBytes(s.width, s.height, s.capacity)
  }

  ghost function Footprint(sources: set<VideoInput>): nat {
    if sources == {} then 0 else var s :| s in sources; Owned(s) + Footprint(sources - {s})
  }

  lemma {:induction false} FootprintSplit(sources: set<VideoInput>, s: VideoInput)
    requires s in sources
    ensures Footprint(sources) == Owned(s) + Footprint(sources - {s})
    decreases |sources|
  {
    hide Owned;
    var t :| t in sources && Footprint(sources) == Owned(t) + Footprint(sources - {t});
    if t != s {
      FootprintSplit(sources - {t}, s);
      FootprintSplit(sources - {s}, t);
      assert sources - {t} - {s} == sources - {s} - {t};
    }
  }

  lemma FootprintDrop(sources: set<VideoInput>, s: VideoInput)
    requires s in sources
    ensures Footprint(sources - {s}) == Footprint(sources) - Owned(s) && |sources - {s}| < |sources|
  {
    hide Owned;
    FootprintSplit(sources, s);
    hide Footprint;
  }

  predicate ValidSize(width: int, height: int) {
    2 <= width <= 1920 && 2 <= height <= 1080 && width % 2 == 0 && height % 2 == 0
  }

  class VideoMixer {
    const outputBytes: nat
    const maxSources: nat
    const queueFrames: nat
    const maxBytes: nat
    const lookAhead: int
    var sources: set<VideoInput>
    var usedBytes: int
    var closed: bool

    /** The account is exact, what is owned never exceeds the limits, and every source is open
        with slots of its own. */
    ghost predicate Valid()
      reads this, sources, set s | s in sources :: s.frames
    {
      && (closed ==> sources == {} && usedBytes == 0)
      && (!closed ==> usedBytes == outputBytes + Footprint(sources) <= maxBytes && |sources| <= maxSources)
      && (forall s :: s in sources ==> s.Valid() && !s.closed)
      && (forall s, t :: s in sources && t in sources && s != t ==> s.frames != t.frames)
    }

    constructor (outputBytes: nat, maxSources: nat, queueFrames: nat, maxBytes: nat, lookAhead: int)
      requires outputBytes <= maxBytes
      ensures Valid() && sources == {} && !closed
    {
      this.outputBytes, this.maxSources, this.queueFrames := outputBytes, maxSources, queueFrames;
      this.maxBytes, this.lookAhead := maxBytes, lookAhead;
      sources, usedBytes, closed := {}, outputBytes, false;
    }

    /** Counts the bytes of a source slot by slot. */
    method CountSlots(s: VideoInput) returns (bytes: nat)
      requires s.Valid() && !s.closed
      ensures bytes == Owned(s)
    {
      bytes := 0;
      for i := 0 to s.frames.Length
        invariant bytes == SlotBytes(s.width, s.height, i)
      {
        bytes := bytes + |s.frames[i].pixels|;
      }
    }

    /** A source is admitted exactly when it is in order and all its slots fit. */
    method Add(mixerAllowed: bool, allowed: bool, width: nat, height: nat, maxAge: int) returns (admitted: Option<VideoInput>)
      requires Valid()
      modifies this, sources, set s | s in sources :: s.frames
      ensures Valid()
      ensures admitted.Some? <==>
              && !old(closed) && mixerAllowed && allowed && ValidSize(width, height) && 4800 <= maxAge <= 1440000
              && |old(sources)| < maxSources
              && outputBytes + Footprint(old(sources)) + SlotBytes(width, height, queueFrames) <= maxBytes
      ensures admitted.Some? ==>
                var s := admitted.value;
                && fresh(s) && fresh(s.frames) && !closed && sources == old(sources) + {s}
                && s.width == width && s.height == height && s.capacity == queueFrames && s.maxAge == maxAge
      ensures admitted.None? ==> closed == (old(closed) || !mixerAllowed) && (!closed ==> sources == old(sources))
    {
      hide VideoInput.Valid;
      hide VideoInput.View;
      hide Footprint;
      hide SlotBytes;
      if closed || !mixerAllowed {
        CloseAll();
        return None;
      }
      if !ValidSize(width, height) || maxAge < 4800 || maxAge > 1440000 || !allowed || |sources| >= maxSources
         || SlotBytes(width, height, queueFrames) > maxBytes - usedBytes {
        return None;
      }
      var s := Admit(width, height, maxAge);
      return Some(s);
    }

    method Admit(width: nat, height: nat, maxAge: int) returns (s: VideoInput)
      requires Valid() && !closed && |sources| < maxSources && usedBytes + SlotBytes(width, height, queueFrames) <= maxBytes
      modifies this
      ensures Valid() && !closed && fresh(s) && fresh(s.frames) && sources == old(sources) + {s}
      ensures s.width == width && s.height == height && s.capacity == queueFrames && s.maxAge == maxAge
    {
      hide VideoInput.Valid;
      hide VideoInput.View;
      hide Footprint;
      hide SlotBytes;
      s := NewInput(width, height, maxAge);
      var bytes := CountSlots(s);
      usedBytes := usedBytes + bytes;
      sources := sources + {s};
      FootprintSplit(sources, s);
      assert sources - {s} == old(sources);
    }

    method NewInput(width: nat, height: nat, maxAge: int) returns (s: VideoInput)
      ensures fresh(s) && fresh(s.frames) && s.Valid() && !s.closed
      ensures s.width == width && s.height == height && s.capacity == queueFrames && s.maxAge == maxAge
    {
      s := new VideoInput(width, height, queueFrames, maxAge, lookAhead);
      assert s.View().width == width;
    }

    method CloseInput(s: VideoInput)
      requires s.Valid() && !s.closed
      modifies s, s.frames
      ensures s.Valid() && s.closed && (s.frames == old(s.frames) || fresh(s.frames))
      ensures Wiped(old(s.frames), SlotBytes(s.width, s.height, 1))
    {
      s.Close();
    }

    /** Closing a source wipes it and returns exactly the bytes of its slots. */
    method CloseSource(s: VideoInput)
      requires Valid() && s in sources
      modifies this, s, s.frames
      ensures Valid() && closed == old(closed) && s.Valid() && s.closed
      ensures sources == old(sources) - {s} && usedBytes == old(usedBytes) - Owned(s)
      ensures Wiped(old(s.frames), SlotBytes(s.width, s.height, 1))
    {
      hide VideoInput.Valid;
      hide Footprint;
      hide Wiped;
      hide SlotBytes;
      hide Owned;
      Release(s);
      hide Valid;
      CloseInput(s);
    }

    /** Takes a source and its bytes out of the account. */
    method Release(s: VideoInput)
      requires Valid() && s in sources
      modifies this`sources, this`usedBytes
      ensures Valid() && sources == old(sources) - {s} && usedBytes == old(usedBytes) - Owned(s)
      ensures s.Valid() && !s.closed && forall t :: t in sources ==> t != s && t.frames != s.frames
    {
      hide VideoInput.Valid;
      hide VideoInput.View;
      hide Owned;
      hide Footprint;
      var bytes := CountSlots(s);
      FootprintDrop(sources, s);
      usedBytes := usedBytes - bytes;
      sources := sources - {s};
    }

    method CloseAll()
      requires Valid()
      modifies this, sources, set s | s in sources :: s.frames
      ensures Valid() && closed
    {
      if closed { return; }
      while sources != {}
        invariant Valid() && !closed && sources <= old(sources)
        invariant forall s :: s in sources ==> s.frames == old(s.frames)
        decreases |sources|
      {
        var s :| s in sources;
        CloseSource(s);
      }
      closed, usedBytes := true, 0;
    }

    /** A write that closes its source gives its bytes back. */
    method WriteTo(s: VideoInput, cursor: int, allowed: bool, w: nat, h: nat, pixels: seq<Byte>, reading: Reading)
      requires Valid() && !closed && s in sources
      modifies this, s, s.frames
      ensures Valid() && !closed && s.Valid()
      ensures s.View() == Write(old(s.View()), cursor, allowed, w, h, pixels, reading)
      ensures sources == if s.closed then old(sources) - {s} else old(sources)
      ensures usedBytes == old(usedBytes) - if s.closed then Owned(s) else 0
    {
      hide VideoInput.Valid;
      hide VideoInput.View;
      hide Owned;
      hide Write;
      hide Footprint;
      var bytes := CountSlots(s);
      FootprintDrop(sources, s);
      s.WriteRGBA(cursor, allowed, w, h, pixels, reading);
      if s.closed {
        usedBytes := usedBytes - bytes;
        sources := sources - {s};
      }
    }
  }
}
