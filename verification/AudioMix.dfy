/** The mixer's PCM rings and its unprocessed output.  Each source keeps one ring indexed
    by program time modulo the queue length; a block is summed at full precision, scaled
    and clamped. */
module AudioMix {
  import opened Common
  import opened ProgramTime

  /** One stereo sample, 16 bits a side. */
  datatype Sample = Sample(left: int, right: int) {
    predicate Valid() { -32768 <= left <= 32767 && -32768 <= right <= 32767 }
  }

  const ZERO := Sample(0, 0)
  const MAX_SOURCES := 80

  // ---------------------------------------------------------------- one ring

  /** `slots` is the ring, `heard` every sample that was stored for a time not yet played,
      `played` what has been handed to the mixer since `start`. */
  datatype Ring = Ring(
    slots: seq<Sample>, start: int, cursor: int, started: bool, lastEnd: int, closed: bool,
    heard: map<int, Sample>, played: seq<Sample>)

  function FreshRing(size: nat, start: nat): Ring {
    Ring(seq(size, _ => ZERO), start, start, false, 0, false, map[], [])
  }

  /** The ring cell of time `i`. */
  function Cell(i: int, n: nat): (c: nat)
    requires n > 0
    ensures c < n
  {
    i % n
  }

  /** Stores the samples for times `lo` up to `hi` of a packet that begins at `at`. */
  function Store(r: Ring, at: int, packet: seq<Sample>, lo: int, hi: int): (s: Ring)
    requires r.slots != [] && at <= lo <= hi <= at + |packet|
    ensures |s.slots| == |r.slots| && s.cursor == r.cursor
    decreases hi - lo
  {
    if lo == hi then r
    else
      var s := Store(r, at, packet, lo, hi - 1);
      s.(slots := s.slots[Cell(hi - 1, |s.slots|) := packet[hi - 1 - at]], heard := s.heard[hi - 1 := packet[hi - 1 - at]])
  }

  predicate Refused(r: Ring, at: int, packet: seq<Sample>) {
    || r.closed || packet == [] || |packet| > 5760 || at < 0 || at > MAX_TIME
    || (r.started && at < r.lastEnd) || at + |packet| > r.cursor + |r.slots|
  }

  function Max(a: int, b: int): int {
    if a < b then b else a
  }

  function Min(a: int, b: int): int {
    if a < b then a else b
  }

  /** Samples that are already past are discarded, never shifted into the present. */
  function Write(r: Ring, at: int, packet: seq<Sample>): (s: Ring)
    requires r.slots != []
    ensures |s.slots| == |r.slots|
  {
    if Refused(r, at, packet) then r.(closed := true)
    else
      var end := at + |packet|;
      Store(r.(started := true, lastEnd := end), at, packet, Min(Max(at, r.cursor), end), end)
  }

  /** Takes the next n samples and clears their slots. */
  function Take(r: Ring, n: nat): (s: Ring)
    requires r.slots != []
    ensures |s.slots| == |r.slots|
  {
    if n == 0 then r
    else
      var s := Take(r, n - 1);
      var i := Cell(s.cursor, |s.slots|);
      s.(played := s.played + [s.slots[i]], slots := s.slots[i := ZERO], cursor := s.cursor + 1)
  }

  function HeardAt(r: Ring, i: int): Sample {
    if i in r.heard then r.heard[i] else ZERO
  }

  /** The ring refines a map from program time to sample. */
  ghost predicate Represents(r: Ring) {
    && r.slots != []
    && (forall i :: r.cursor <= i < r.cursor + |r.slots| ==> r.slots[Cell(i, |r.slots|)] == HeardAt(r, i))
    && (forall i :: i in r.heard ==> r.start <= i < r.cursor + |r.slots|)
    && |r.played| == r.cursor - r.start
    && (forall k :: 0 <= k < |r.played| ==> r.played[k] == HeardAt(r, r.start + k))
  }

  lemma CellsDistinct(i: int, j: int, n: nat)
    requires n > 0 && Cell(i, n) == Cell(j, n) && i <= j < i + n
    ensures i == j
  {
    var a, b := i / n, j / n;
    assert j - i == (b - a) * n;
    if b > a { ProductAtLeast(b - a, n); }
  }

  lemma WrapAround(c: int, n: nat)
    requires n > 0
    ensures Cell(c + n, n) == Cell(c, n)
  {
    DivShift(1, c, n);
  }

  lemma StoreOne(r: Ring, i: int, x: Sample)
    requires Represents(r) && r.cursor <= i < r.cursor + |r.slots|
    ensures Represents(r.(slots := r.slots[Cell(i, |r.slots|) := x], heard := r.heard[i := x]))
  {
    hide Cell;
    var n := |r.slots|;
    var s := r.(slots := r.slots[Cell(i, n) := x], heard := r.heard[i := x]);
    forall j | s.cursor <= j < s.cursor + n
      ensures s.slots[Cell(j, n)] == HeardAt(s, j)
    {
      if Cell(j, n) == Cell(i, n) { if i <= j { CellsDistinct(i, j, n); } else { CellsDistinct(j, i, n); } }
    }
  }

  /** Storing touches the slots and the time map only, and the map exactly from lo to hi. */
  lemma {:induction false} StoreHeard(r: Ring, at: int, packet: seq<Sample>, lo: int, hi: int)
    requires r.slots != [] && at <= lo <= hi <= at + |packet|
    ensures var s := Store(r, at, packet, lo, hi);
            && s == r.(slots := s.slots, heard := s.heard)
            && (forall i :: i in s.heard <==> i in r.heard || lo <= i < hi)
            && (forall i :: lo <= i < hi ==> s.heard[i] == packet[i - at])
            && (forall i :: i in r.heard && !(lo <= i < hi) ==> s.heard[i] == r.heard[i])
            && (lo == hi ==> s == r)
    decreases hi - lo
  {
    hide Cell;
    if lo < hi { StoreHeard(r, at, packet, lo, hi - 1); }
  }

  lemma StoreLast(r: Ring, at: int, packet: seq<Sample>, lo: int, hi: int)
    requires r.slots != [] && at <= lo < hi <= at + |packet|
    ensures var s, x := Store(r, at, packet, lo, hi - 1), packet[hi - 1 - at];
            Store(r, at, packet, lo, hi) == s.(slots := s.slots[Cell(hi - 1, |s.slots|) := x], heard := s.heard[hi - 1 := x])
  {
    hide Cell;
  }

  lemma {:induction false} StoreRepresents(r: Ring, at: int, packet: seq<Sample>, lo: int, hi: int)
    requires Represents(r) && at <= lo <= hi <= at + |packet|
    requires lo < hi ==> r.cursor <= lo && hi <= r.cursor + |r.slots|
    ensures Represents(Store(r, at, packet, lo, hi))
    decreases hi - lo
  {
    hide Represents;
    hide Cell;
    NonEmptyRing(r);
    if lo == hi {
      assert Store(r, at, packet, lo, hi) == r;
    } else {
      StoreLast(r, at, packet, lo, hi);
      hide Store;
      StoreRepresents(r, at, packet, lo, hi - 1);
      StoreOne(Store(r, at, packet, lo, hi - 1), hi - 1, packet[hi - 1 - at]);
    }
  }

  lemma TakeOne(r: Ring)
    requires Represents(r)
    ensures var i := Cell(r.cursor, |r.slots|);
            Represents(r.(played := r.played + [r.slots[i]], slots := r.slots[i := ZERO], cursor := r.cursor + 1))
  {
    hide Cell;
    var n, c := |r.slots|, r.cursor;
    var cell := Cell(c, n);
    assert r.slots[cell] == HeardAt(r, c);
    var s := r.(played := r.played + [r.slots[cell]], slots := r.slots[cell := ZERO], cursor := c + 1);
    forall j | s.cursor <= j < s.cursor + n
      ensures s.slots[Cell(j, n)] == HeardAt(s, j)
    {
      TakeOneAt(r, j);
    }
  }

  lemma TakeOneAt(r: Ring, j: int)
    requires Represents(r) && r.cursor < j <= r.cursor + |r.slots|
    ensures r.slots[Cell(r.cursor, |r.slots|) := ZERO][Cell(j, |r.slots|)] == HeardAt(r, j)
  {
    hide Cell;
    var n, c := |r.slots|, r.cursor;
    if j == c + n {
      WrapAround(c, n);
      assert j !in r.heard;
    } else {
      if Cell(j, n) == Cell(c, n) { CellsDistinct(c, j, n); }
      assert r.slots[Cell(j, n)] == HeardAt(r, j);
    }
  }

  lemma {:induction false} TakeRepresents(r: Ring, n: nat)
    requires Represents(r)
    ensures var s := Take(r, n);
            && Represents(s) && s.cursor == r.cursor + n && s.heard == r.heard && |s.slots| == |r.slots|
            && s.start == r.start && r.played <= s.played
  {
    if n > 0 {
      TakeRepresents(r, n - 1);
      TakeOne(Take(r, n - 1));
      hide Represents;
    }
  }

  // ---------------------------------------------------------------- every run of writes and renders

  datatype Step = Packet(at: int, samples: seq<Sample>) | Render

  function Run(size: nat, start: nat, steps: seq<Step>): (r: Ring)
    requires size >= BLOCK
    ensures |r.slots| == size
  {
    if steps == [] then FreshRing(size, start)
    else
      var r, t := Run(size, start, steps[..|steps| - 1]), steps[|steps| - 1];
      if t.Packet? then Write(r, t.at, t.samples) else Take(r, BLOCK)
  }

  lemma MarkedRepresents(r: Ring, end: int)
    requires Represents(r)
    ensures Represents(r.(started := true, lastEnd := end)) && Represents(r.(closed := true))
  {
  }

  lemma WriteRepresents(r: Ring, at: int, packet: seq<Sample>)
    requires Represents(r)
    ensures r.slots != []
    ensures var s := Write(r, at, packet);
            && Represents(s) && s.cursor == r.cursor && s.start == r.start && s.played == r.played
            && (forall i :: i < r.cursor ==> HeardAt(s, i) == HeardAt(r, i))
            && (!Refused(r, at, packet) ==> forall i :: Max(at, r.cursor) <= i < at + |packet| ==> HeardAt(s, i) == packet[i - at])
            && (at + |packet| <= r.cursor ==> s.slots == r.slots)
  {
    hide Represents;
    var end := at + |packet|;
    NonEmptyRing(r);
    MarkedRepresents(r, end);
    if !Refused(r, at, packet) {
      StoreRepresents(r.(started := true, lastEnd := end), at, packet, Min(Max(at, r.cursor), end), end);
      StoreHeard(r.(started := true, lastEnd := end), at, packet, Min(Max(at, r.cursor), end), end);
    }
    hide Store;
  }

  lemma NonEmptyRing(r: Ring)
    requires Represents(r)
    ensures r.slots != []
  {
  }

  lemma FreshRepresents(size: nat, start: nat)
    requires size >= BLOCK
    ensures Represents(FreshRing(size, start))
  {
    var r := FreshRing(size, start);
    forall i | r.cursor <= i < r.cursor + size
      ensures r.slots[Cell(i, size)] == ZERO
    {
    }
  }

  /** For every run, ring slot i mod size holds the sample stored for time i or silence, and
      what was played is, time by time, what had been stored for that time. */
  lemma {:induction false} RingRefinesTime(size: nat, start: nat, steps: seq<Step>)
    requires size >= BLOCK
    ensures Represents(Run(size, start, steps))
  {
    hide Represents;
    if steps == [] {
      FreshRepresents(size, start);
    } else {
      var r, t := Run(size, start, steps[..|steps| - 1]), steps[|steps| - 1];
      RingRefinesTime(size, start, steps[..|steps| - 1]);
      if t.Packet? { WriteRepresents(r, t.at, t.samples); } else { TakeRepresents(r, BLOCK); }
      hide Write;
      hide Take;
    }
  }

  /** A late packet never changes what has been played nor any time before the cursor. */
  lemma LateNeverShifts(size: nat, start: nat, steps: seq<Step>, at: int, packet: seq<Sample>)
    requires size >= BLOCK
    ensures var r := Run(size, start, steps);
            var s := Write(r, at, packet);
            && s.played == r.played && s.cursor == r.cursor
            && (forall i :: i < r.cursor ==> HeardAt(s, i) == HeardAt(r, i))
            && (at + |packet| <= r.cursor ==> s.slots == r.slots)
  {
    hide Represents;
    hide Write;
    RingRefinesTime(size, start, steps);
    WriteRepresents(Run(size, start, steps), at, packet);
  }

  /** Blocks played by a run. */
  function Renders(steps: seq<Step>): nat {
    if steps == [] then 0 else Renders(steps[..|steps| - 1]) + if steps[|steps| - 1].Render? then 1 else 0
  }

  predicate FollowsOn(steps: seq<Step>, at: int) {
    forall j :: 0 <= j < |steps| && steps[j].Packet? ==> at >= steps[j].at + |steps[j].samples|
  }

  /** A packet that may follow these steps: of at most 120 ms, no earlier than the end of any
      packet before it, and inside the window of the ring. */
  predicate MayFollow(size: nat, start: nat, steps: seq<Step>, at: int, packet: seq<Sample>) {
    && 0 < |packet| <= 5760 && 0 <= at <= MAX_TIME && FollowsOn(steps, at)
    && at + |packet| <= start + BLOCK * Renders(steps) + size
  }

  ghost predicate Orderly(size: nat, start: nat, steps: seq<Step>) {
    forall i :: 0 <= i < |steps| && steps[i].Packet? ==> MayFollow(size, start, steps[..i], steps[i].at, steps[i].samples)
  }

  lemma OrderlyLast(size: nat, start: nat, steps: seq<Step>)
    requires steps != []
    ensures var init, t := steps[..|steps| - 1], steps[|steps| - 1];
            Orderly(size, start, steps) <==> Orderly(size, start, init) && (t.Packet? ==> MayFollow(size, start, init, t.at, t.samples))
  {
    hide MayFollow;
    var init := steps[..|steps| - 1];
    assert forall i :: 0 <= i < |init| ==> steps[i] == init[i] && steps[..i] == init[..i];
  }

  /** An open ring remembers the end of its last packet. */
  ghost predicate Remembers(r: Ring, start: nat, steps: seq<Step>) {
    && r.cursor == start + BLOCK * Renders(steps)
    && (!r.closed ==>
          && (r.started ==> forall at :: FollowsOn(steps, at) <==> at >= r.lastEnd)
          && (!r.started ==> forall at :: FollowsOn(steps, at)))
  }

  lemma FollowsLast(steps: seq<Step>, t: Step, at: int)
    ensures FollowsOn(steps + [t], at) <==> FollowsOn(steps, at) && (t.Packet? ==> at >= t.at + |t.samples|)
  {
    assert (steps + [t])[..|steps|] == steps;
    assert (steps + [t])[|steps|] == t;
    if FollowsOn(steps + [t], at) {
      forall j | 0 <= j < |steps| && steps[j].Packet? ensures at >= steps[j].at + |steps[j].samples| { assert (steps + [t])[j] == steps[j]; }
    }
  }

  lemma WriteMarks(r: Ring, at: int, packet: seq<Sample>)
    requires r.slots != []
    ensures var s := Write(r, at, packet);
            && s.cursor == r.cursor && s.closed == (r.closed || Refused(r, at, packet))
            && (!s.closed ==> s.started && s.lastEnd == at + |packet|)
  {
    if !Refused(r, at, packet) {
      var end := at + |packet|;
      StoreHeard(r.(started := true, lastEnd := end), at, packet, Min(Max(at, r.cursor), end), end);
    }
    hide Store;
  }

  lemma {:induction false} TakeMarks(r: Ring, n: nat)
    requires r.slots != []
    ensures var s := Take(r, n); s.cursor == r.cursor + n && s.closed == r.closed && s.started == r.started && s.lastEnd == r.lastEnd
  {
    if n > 0 { TakeMarks(r, n - 1); }
  }

  lemma RefusedExactly(r: Ring, start: nat, steps: seq<Step>, at: int, packet: seq<Sample>)
    requires Remembers(r, start, steps) && !r.closed
    ensures Refused(r, at, packet) <==> !MayFollow(|r.slots|, start, steps, at, packet)
  {
    hide FollowsOn;
  }

  /** A source is closed by its packets exactly when one of them was empty, too long, early
      against the one before, or beyond the window; in every run. */
  lemma {:induction false} OpenExactly(size: nat, start: nat, steps: seq<Step>)
    requires size >= BLOCK
    ensures !Run(size, start, steps).closed <==> Orderly(size, start, steps)
    ensures Remembers(Run(size, start, steps), start, steps)
  {
    if steps == [] {
      NothingYet(size, start);
    } else {
      hide Orderly;
      hide Remembers;
      hide MayFollow;
      hide Write;
      hide Take;
      var init, t := steps[..|steps| - 1], steps[|steps| - 1];
      assert steps == init + [t];
      OpenExactly(size, start, init);
      OrderlyLast(size, start, steps);
      if t.Packet? { PacketOpens(Run(size, start, init), start, init, t); } else { RenderOpens(Run(size, start, init), start, init); }
    }
  }

  lemma NothingYet(size: nat, start: nat)
    requires size >= BLOCK
    ensures Remembers(FreshRing(size, start), start, []) && Orderly(size, start, [])
  {
  }

  lemma RenderOpens(r: Ring, start: nat, steps: seq<Step>)
    requires r.slots != [] && Remembers(r, start, steps)
    ensures Take(r, BLOCK).closed == r.closed && Remembers(Take(r, BLOCK), start, steps + [Render])
  {
    TakeMarks(r, BLOCK);
    hide Take;
    assert (steps + [Render])[..|steps|] == steps;
    forall at ensures FollowsOn(steps + [Render], at) <==> FollowsOn(steps, at) { FollowsLast(steps, Render, at); }
    hide FollowsOn;
  }

  lemma PacketOpens(r: Ring, start: nat, steps: seq<Step>, t: Step)
    requires r.slots != [] && Remembers(r, start, steps) && t.Packet?
    ensures var s := Write(r, t.at, t.samples);
            && (!s.closed <==> !r.closed && MayFollow(|r.slots|, start, steps, t.at, t.samples))
            && Remembers(s, start, steps + [t])
  {
    WriteMarks(r, t.at, t.samples);
    if !r.closed { RefusedExactly(r, start, steps, t.at, t.samples); }
    MayFollowOn(|r.slots|, start, steps, t.at, t.samples);
    hide Write;
    hide Refused;
    hide MayFollow;
    assert (steps + [t])[..|steps|] == steps;
    forall at ensures FollowsOn(steps + [t], at) <==> FollowsOn(steps, at) && at >= t.at + |t.samples| { FollowsLast(steps, t, at); }
    hide FollowsOn;
  }

  lemma MayFollowOn(size: nat, start: nat, steps: seq<Step>, at: int, packet: seq<Sample>)
    ensures MayFollow(size, start, steps, at, packet) ==> FollowsOn(steps, at) && forall later :: later >= at ==> FollowsOn(steps, later)
  {
  }

  // ---------------------------------------------------------------- the rings in place

  /** One source's ring as the code keeps it: a fixed array written modulo its length. */
  class PcmRing {
    const pcm: array<Sample>
    var cursor: int

    constructor (size: nat, start: nat)
      ensures fresh(pcm) && pcm[..] == FreshRing(size, start).slots && cursor == start
    {
      pcm := new Sample[size](_ => ZERO);
      cursor := start;
    }

    method StorePacket(ghost r: Ring, at: int, packet: seq<Sample>, lo: int, hi: int)
      requires pcm[..] == r.slots != [] && at <= lo <= hi <= at + |packet|
      modifies pcm
      ensures pcm[..] == Store(r, at, packet, lo, hi).slots
    {
      var i := lo;
      while i < hi
        invariant lo <= i <= hi && pcm[..] == Store(r, at, packet, lo, i).slots
      {
        pcm[i % pcm.Length] := packet[i - at];
        i := i + 1;
      }
    }

    method TakeBlock(ghost r: Ring, n: nat) returns (block: seq<Sample>)
      requires pcm[..] == r.slots != [] && cursor == r.cursor
      modifies this, pcm
      ensures pcm[..] == Take(r, n).slots && cursor == Take(r, n).cursor
      ensures Take(r, n).played == r.played + block && |block| == n
    {
      block := [];
      for i := 0 to n
        invariant pcm[..] == Take(r, i).slots && cursor == Take(r, i).cursor
        invariant Take(r, i).played == r.played + block && |block| == i
      {
        block := block + [pcm[cursor % pcm.Length]];
        pcm[cursor % pcm.Length] := ZERO;
        cursor := cursor + 1;
      }
    }
  }

  // ---------------------------------------------------------------- summing and clamping

  /** A source's contribution to one block: its samples and its Q15 gains. */
  datatype Source = Source(id: int, left: int, right: int, muted: bool, block: seq<Sample>) {
    predicate Valid(n: nat) {
      0 <= left <= 32768 && 0 <= right <= 32768 && |block| == n && forall i :: 0 <= i < n ==> block[i].Valid()
    }
  }

  function Contribution(s: Source, i: nat, right: bool): int
    requires i < |s.block|
  {
    if s.muted then 0 else if right then s.block[i].right * s.right else s.block[i].left * s.left
  }

  ghost predicate AllValid(sources: set<Source>, n: nat) {
    forall s :: s in sources ==> s.Valid(n)
  }

  ghost function Sum(sources: set<Source>, n: nat, i: nat, right: bool): int
    requires AllValid(sources, n) && i < n
  {
    if sources == {} then 0
    else
      var s :| s in sources;
      Contribution(s, i, right) + Sum(sources - {s}, n, i, right)
  }

  lemma {:induction false} SumSplit(sources: set<Source>, n: nat, i: nat, right: bool, s: Source)
    requires AllValid(sources, n) && i < n && s in sources
    ensures Sum(sources, n, i, right) == Contribution(s, i, right) + Sum(sources - {s}, n, i, right)
    decreases |sources|
  {
    hide Contribution;
    var t :| t in sources && Sum(sources, n, i, right) == Contribution(t, i, right) + Sum(sources - {t}, n, i, right);
    if t != s {
      SumSplit(sources - {t}, n, i, right, s);
      SumSplit(sources - {s}, n, i, right, t);
      assert sources - {t} - {s} == sources - {s} - {t};
    }
  }

  lemma ContributionBound(s: Source, i: nat, n: nat, right: bool)
    requires s.Valid(n) && i < n
    ensures -0x4000_0000 <= Contribution(s, i, right) <= 0x4000_0000
  {
    assert s.block[i].Valid();
    if right { ProductBound(s.block[i].right, s.right); } else { ProductBound(s.block[i].left, s.left); }
  }

  lemma ProductBound(x: int, g: int)
    requires -32768 <= x <= 32767 && 0 <= g <= 32768
    ensures -0x4000_0000 <= x * g <= 0x4000_0000
  {
    NonNegative(32768 - x, g);
    NonNegative(32768 + x, g);
    assert (32768 - x) * g == 32768 * g - x * g && (32768 + x) * g == 32768 * g + x * g;
  }

  lemma NonNegative(a: int, b: int)
    requires a >= 0 && b >= 0
    ensures a * b >= 0
  {
  }

  /** The full-precision sum stays far inside 64 bits. */
  lemma {:induction false} SumNeverOverflows(sources: set<Source>, n: nat, i: nat, right: bool)
    requires AllValid(sources, n) && i < n
    ensures -0x4000_0000 * |sources| <= Sum(sources, n, i, right) <= 0x4000_0000 * |sources|
    ensures |sources| <= MAX_SOURCES ==> -0x7fff_ffff_ffff_ffff <= Sum(sources, n, i, right) <= 0x7fff_ffff_ffff_ffff
    decreases |sources|
  {
    if sources != {} {
      var s :| s in sources;
      SumSplit(sources, n, i, right, s);
      ContributionBound(s, i, n, right);
      SumNeverOverflows(sources - {s}, n, i, right);
      hide Contribution;
      hide Sum;
    }
  }

  function SumInOrder(order: seq<Source>, n: nat, i: nat, right: bool): int
    requires (forall k :: 0 <= k < |order| ==> order[k].Valid(n)) && i < n
  {
    if order == [] then 0 else
      var last := |order| - 1;
      assert order[last].Valid(n);
      SumInOrder(order[..last], n, i, right) + Contribution(order[last], i, right)
  }

  /** The order in which the source map is walked is inaudible. */
  lemma {:induction false} OrderInaudible(order: seq<Source>, n: nat, i: nat, right: bool)
    requires (forall k :: 0 <= k < |order| ==> order[k].Valid(n)) && i < n
    requires forall a, b :: 0 <= a < b < |order| ==> order[a] != order[b]
    ensures SumInOrder(order, n, i, right) == Sum(Elements(order), n, i, right)
  {
    if order != [] {
      var init, last := order[..|order| - 1], order[|order| - 1];
      OrderInaudible(init, n, i, right);
      assert last !in init;
      SumSplit(Elements(order), n, i, right, last);
      assert Elements(order) - {last} == Elements(init);
      hide Contribution;
      hide Sum;
    }
  }

  /** Truncating scale from Q15, then clamping to 16 bits. */
  function Output(sum: int): int {
    var scaled := if sum >= 0 then sum / 32768 else -(-sum / 32768);
    if scaled > 32767 then 32767 else if scaled < -32768 then -32768 else scaled
  }

  /** The output is the sum in units of 1/32768, rounded towards zero and cut off at the ends
      of 16 bits. */
  lemma OutputExact(sum: int)
    ensures -32768 <= Output(sum) <= 32767
    ensures 0 <= sum < 32768 * 32768 ==> 32768 * Output(sum) <= sum < 32768 * (Output(sum) + 1)
    ensures -32768 * 32769 < sum <= 0 ==> 32768 * (Output(sum) - 1) < sum <= 32768 * Output(sum)
    ensures sum >= 32768 * 32768 ==> Output(sum) == 32767
    ensures sum <= -32768 * 32769 ==> Output(sum) == -32768
  {
  }

  /** A source on its own: at full gain it comes out verbatim, at gain zero or muted it is
      not heard, and each side has its own gain. */
  lemma SoleSource(s: Source, n: nat, i: nat)
    requires s.Valid(n) && i < n
    ensures AllValid({s}, n)
    ensures var l, r := Output(Sum({s}, n, i, false)), Output(Sum({s}, n, i, true));
            && (s.muted ==> l == 0 && r == 0)
            && (!s.muted && s.left == 32768 ==> l == s.block[i].left) && (!s.muted && s.right == 32768 ==> r == s.block[i].right)
            && (s.left == 0 ==> l == 0) && (s.right == 0 ==> r == 0)
  {
    SoleSum(s, n, i, false);
    SoleSum(s, n, i, true);
    OutputExact(Sum({s}, n, i, false));
    OutputExact(Sum({s}, n, i, true));
    assert s.block[i].Valid();
    hide Output;
    hide Sum;
  }

  lemma SoleSum(s: Source, n: nat, i: nat, right: bool)
    requires s.Valid(n) && i < n
    ensures Sum({s}, n, i, right) == Contribution(s, i, right)
  {
    SumSplit({s}, n, i, right, s);
    assert {s} - {s} == {};
    hide Contribution;
  }

  /** Walks the sources in any order, then scales and clamps; every output sample is the
      clamped gain-weighted sum over all sources. */
  method MixBlock(sources: set<Source>, n: nat) returns (block: seq<Sample>)
    requires AllValid(sources, n)
    ensures |block| == n
    ensures forall i :: 0 <= i < n ==>
              block[i].Valid() && block[i] == Sample(Output(Sum(sources, n, i, false)), Output(Sum(sources, n, i, true)))
  {
    var left, right := seq(n, _ => 0), seq(n, _ => 0);
    var todo := sources;
    while todo != {}
      invariant todo <= sources && |left| == |right| == n
      invariant forall i :: 0 <= i < n ==>
                  left[i] + Sum(todo, n, i, false) == Sum(sources, n, i, false)
                  && right[i] + Sum(todo, n, i, true) == Sum(sources, n, i, true)
      decreases todo
    {
      var s :| s in todo;
      var l, r := AddBlock(s, n, left, right);
      forall i | 0 <= i < n
        ensures l[i] + Sum(todo - {s}, n, i, false) == Sum(sources, n, i, false)
        ensures r[i] + Sum(todo - {s}, n, i, true) == Sum(sources, n, i, true)
      {
        SumSplit(todo, n, i, false, s);
        SumSplit(todo, n, i, true, s);
      }
      left, right, todo := l, r, todo - {s};
    }
    block := [];
    for k := 0 to n
      invariant |block| == k
      invariant forall i :: 0 <= i < k ==> block[i] == Sample(Output(left[i]), Output(right[i])) && block[i].Valid()
    {
      block := block + [Sample(Output(left[k]), Output(right[k]))];
    }
  }

  method AddBlock(s: Source, n: nat, left: seq<int>, right: seq<int>) returns (l: seq<int>, r: seq<int>)
    requires s.Valid(n) && |left| == |right| == n
    ensures |l| == |r| == n
    ensures forall i :: 0 <= i < n ==> l[i] == left[i] + Contribution(s, i, false) && r[i] == right[i] + Contribution(s, i, true)
  {
    hide Contribution;
    l, r := left, right;
    for k := 0 to n
      invariant |l| == |r| == n
      invariant forall i :: 0 <= i < k ==> l[i] == left[i] + Contribution(s, i, false) && r[i] == right[i] + Contribution(s, i, true)
      invariant forall i :: k <= i < n ==> l[i] == left[i] && r[i] == right[i]
    {
      l, r := l[k := l[k] + Contribution(s, k, false)], r[k := r[k] + Contribution(s, k, true)];
    }
  }
}
