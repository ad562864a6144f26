/** Bounded reassembly of one VP8 frame from RTP fragments (section 4.2 of RFC 7741). */
module FrameAssembly {
  import opened Common

  const WRAP16 := 0x1_0000
  const WRAP32 := 0x1_0000_0000
  const FRAME_LIMIT := 4 * 1024 * 1024
  const FRAGMENT_LIMIT := 4096
  const HEADLESS_LIMIT := 64
  const LIFETIME := 250_000_000

  /** A depayloaded packet; an empty payload stands for one that does not parse. */
  datatype Packet = Packet(timestamp: nat, sequence: nat, marker: bool, head: bool, payload: seq<int>)

  datatype Assembly = Assembly(
    active: bool, started: bool, ended: bool, timestamp: nat, first: nat, last: nat,
    deadline: int, fragments: map<nat, seq<int>>, bytes: nat)

  function Cleared(): Assembly {
    Assembly(false, false, false, 0, 0, 0, 0, map[], 0)
  }

  function Expire(a: Assembly, now: int): Assembly {
    if a.active && now >= a.deadline then Cleared() else a
  }

  /** The later of two 32-bit timestamps, in the signed reading of their difference. */
  predicate Newer(t: nat, u: nat) {
    0 < (t - u) % WRAP32 < WRAP32 / 2
  }

  function Distance(from: nat, to: nat): nat {
    (to - from) % WRAP16
  }

  function At(first: nat, i: nat): nat {
    (first + i) % WRAP16
  }

  predicate Complete(fragments: map<nat, seq<int>>, first: nat, count: nat) {
    forall i: nat :: i < count ==> At(first, i) in fragments
  }

  /** The fragments from the head on, in sequence order. */
  function Join(fragments: map<nat, seq<int>>, first: nat, count: nat): seq<int>
    requires Complete(fragments, first, count)
  {
    if count == 0 then [] else Join(fragments, first, count - 1) + fragments[At(first, count - 1)]
  }

  /** The assembly that is to take the packet: the present one, or a new one. */
  function Opened(a: Assembly, p: Packet, now: int): Assembly {
    if a.active && p.timestamp == a.timestamp then a
    else Cleared().(active := true, timestamp := p.timestamp, deadline := now + LIFETIME)
  }

  predicate Conflicts(a: Assembly, p: Packet) {
    (p.head && a.started && a.first != p.sequence) || (p.marker && a.ended && a.last != p.sequence)
  }

  function Marked(a: Assembly, p: Packet): Assembly {
    a.(started := a.started || p.head, first := if p.head then p.sequence else a.first,
       ended := a.ended || p.marker, last := if p.marker then p.sequence else a.last)
  }

  predicate Overflows(a: Assembly, p: Packet) {
    || a.bytes + |p.payload| > FRAME_LIMIT || |a.fragments| >= FRAGMENT_LIMIT
    || (!a.started && |a.fragments| >= HEADLESS_LIMIT)
    || (a.started && Distance(a.first, p.sequence) >= FRAGMENT_LIMIT)
  }

  function Stored(a: Assembly, p: Packet): Assembly {
    a.(fragments := a.fragments[p.sequence := p.payload], bytes := a.bytes + |p.payload|)
  }

  /** Hands out the frame once every fragment from head to marker is there. */
  function Emit(a: Assembly): (Assembly, Option<seq<int>>) {
    if !a.started || !a.ended then (a, None)
    else
      var count := Distance(a.first, a.last) + 1;
      if count > FRAGMENT_LIMIT then (Cleared(), None)
      else if |a.fragments| != count || !Complete(a.fragments, a.first, count) then (a, None)
      else (Cleared(), Some(Join(a.fragments, a.first, count)))
  }

  function Push(before: Assembly, p: Packet, now: int): (Assembly, Option<seq<int>>) {
    var a := Expire(before, now);
    if p.payload == [] then (a, None)
    else if a.active && p.timestamp != a.timestamp && !Newer(p.timestamp, a.timestamp) then (a, None)
    else Taken(Opened(a, p, now), p)
  }

  function Taken(b: Assembly, p: Packet): (Assembly, Option<seq<int>>) {
    if p.sequence in b.fragments then (if b.fragments[p.sequence] == p.payload then b else Cleared(), None)
    else if Conflicts(b, p) then (Cleared(), None)
    else
      var c := Marked(b, p);
      if Overflows(c, p) then (Cleared(), None) else Emit(Stored(c, p))
  }

  class Assembler {
    var active: bool
    var started: bool
    var ended: bool
    var timestamp: nat
    var first: nat
    var last: nat
    var deadline: int
    var fragments: map<nat, seq<int>>
    var bytes: nat

    ghost function View(): Assembly
      reads this
    {
      Assembly(active, started, ended, timestamp, first, last, deadline, fragments, bytes)
    }

    constructor ()
      ensures View() == Cleared()
    {
      active, started, ended, timestamp, first, last, deadline, fragments, bytes := false, false, false, 0, 0, 0, 0, map[], 0;
    }

    method Clear()
      modifies this
      ensures View() == Cleared()
    {
      active, started, ended, timestamp, first, last, deadline, fragments, bytes := false, false, false, 0, 0, 0, 0, map[], 0;
    }

    /** Looks for a gap, then concatenates. */
    method Assemble() returns (frame: Option<seq<int>>)
      requires started && ended
      modifies this
      ensures (View(), frame) == Emit(old(View()))
    {
      var count := Distance(first, last) + 1;
      if count > FRAGMENT_LIMIT {
        Clear();
        return None;
      }
      if |fragments| != count {
        return None;
      }
      var i := 0;
      while i < count
        invariant i <= count && View() == old(View())
        invariant forall j: nat :: j < i ==> At(first, j) in fragments
      {
        if At(first, i) !in fragments {
          return None;
        }
        i := i + 1;
      }
      var joined: seq<int> := [];
      i := 0;
      while i < count
        invariant i <= count && View() == old(View())
        invariant Complete(fragments, first, count)
        invariant joined == Join(fragments, first, i)
      {
        joined := joined + fragments[At(first, i)];
        i := i + 1;
      }
      Clear();
      frame := Some(joined);
    }

    method PushPacket(p: Packet, now: int) returns (frame: Option<seq<int>>)
      modifies this
      ensures (View(), frame) == Push(old(View()), p, now)
    {
      hide Distance;
      hide Newer;
      hide Emit;
      if active && now >= deadline {
        Clear();
      }
      if p.payload == [] {
        return None;
      }
      if active && p.timestamp != timestamp {
        if !Newer(p.timestamp, timestamp) {
          return None;
        }
        Clear();
      }
      if !active {
        Clear();
        active, timestamp, deadline := true, p.timestamp, now + LIFETIME;
      }
      frame := Take(p);
    }

    method MarkEnds(p: Packet) returns (ok: bool)
      modifies this
      ensures ok <==> !Conflicts(old(View()), p)
      ensures View() == if ok then Marked(old(View()), p) else Cleared()
    {
      if p.head {
        if started && first != p.sequence {
          Clear();
          return false;
        }
        started, first := true, p.sequence;
      }
      if p.marker {
        if ended && last != p.sequence {
          Clear();
          return false;
        }
        ended, last := true, p.sequence;
      }
      ok := true;
    }

    /** The packet belongs to the present frame. */
    method Take(p: Packet) returns (frame: Option<seq<int>>)
      modifies this
      ensures (View(), frame) == Taken(old(View()), p)
    {
      hide Distance;
      if p.sequence in fragments {
        if fragments[p.sequence] != p.payload {
          Clear();
        }
        return None;
      }
      var ok := MarkEnds(p);
      if !ok {
        return None;
      }
      hide Marked;
      hide Conflicts;
      if bytes + |p.payload| > FRAME_LIMIT || |fragments| >= FRAGMENT_LIMIT || (!started && |fragments| >= HEADLESS_LIMIT)
         || (started && Distance(first, p.sequence) >= FRAGMENT_LIMIT) {
        Clear();
        return None;
      }
      fragments, bytes := fragments[p.sequence := p.payload], bytes + |p.payload|;
      if !started || !ended {
        return None;
      }
      frame := Assemble();
    }
  }

  // ---------------------------------------------------------------- caps

  ghost function Size(fragments: map<nat, seq<int>>): nat {
    if fragments == map[] then 0
    else
      var q :| q in fragments;
      |fragments[q]| + Size(fragments - {q})
  }

  lemma {:induction false} SizeSplit(fragments: map<nat, seq<int>>, q: nat)
    requires q in fragments
    ensures Size(fragments) == |fragments[q]| + Size(fragments - {q})
    decreases |fragments|
  {
    var r :| r in fragments && Size(fragments) == |fragments[r]| + Size(fragments - {r});
    if r != q {
      SizeSplit(fragments - {r}, q);
      SizeSplit(fragments - {q}, r);
      assert fragments - {r} - {q} == fragments - {q} - {r};
    }
  }

  lemma SizeAdd(fragments: map<nat, seq<int>>, q: nat, part: seq<int>)
    requires q !in fragments
    ensures Size(fragments[q := part]) == Size(fragments) + |part|
    ensures |fragments[q := part]| == |fragments| + 1
  {
    SizeSplit(fragments[q := part], q);
    assert fragments[q := part] - {q} == fragments;
  }

  /** The byte count is exact and both counts stay within their caps. */
  ghost predicate Capped(a: Assembly) {
    && a.bytes == Size(a.fragments) && a.bytes <= FRAME_LIMIT
    && |a.fragments| <= FRAGMENT_LIMIT && (!a.started ==> |a.fragments| <= HEADLESS_LIMIT)
  }

  lemma PushCapped(a: Assembly, p: Packet, now: int)
    requires Capped(a)
    ensures Capped(Push(a, p, now).0)
  {
    var b := Opened(Expire(a, now), p, now);
    if p.sequence !in b.fragments { SizeAdd(b.fragments, p.sequence, p.payload); }
    hide Size;
    hide Join;
    hide Complete;
    assert Size(map[]) == 0 by { SizeEmpty(map[]); }
  }

  lemma SizeEmpty(m: map<nat, seq<int>>)
    requires m == map[]
    ensures Size(m) == 0
  {
  }

  // ---------------------------------------------------------------- soundness over every run

  datatype Arrival = Arrival(packet: Packet, now: int)

  function Run(arrivals: seq<Arrival>): Assembly {
    if arrivals == [] then Cleared()
    else
      var last := arrivals[|arrivals| - 1];
      Push(Run(arrivals[..|arrivals| - 1]), last.packet, last.now).0
  }

  /** The packet of this timestamp that supplied a fragment. */
  ghost predicate Supplied(arrivals: seq<Arrival>, timestamp: nat, sequence: nat, part: seq<int>) {
    exists i :: 0 <= i < |arrivals| && arrivals[i].packet.timestamp == timestamp
                && arrivals[i].packet.sequence == sequence && arrivals[i].packet.payload == part
  }

  ghost predicate HeadAt(arrivals: seq<Arrival>, timestamp: nat, sequence: nat, part: seq<int>) {
    exists i :: 0 <= i < |arrivals| && arrivals[i].packet.timestamp == timestamp && arrivals[i].packet.head
                && arrivals[i].packet.sequence == sequence && arrivals[i].packet.payload == part
  }

  ghost predicate MarkerAt(arrivals: seq<Arrival>, timestamp: nat, sequence: nat, part: seq<int>) {
    exists i :: 0 <= i < |arrivals| && arrivals[i].packet.timestamp == timestamp && arrivals[i].packet.marker
                && arrivals[i].packet.sequence == sequence && arrivals[i].packet.payload == part
  }

  ghost predicate Sourced(a: Assembly, arrivals: seq<Arrival>) {
    && (forall q :: q in a.fragments ==> Supplied(arrivals, a.timestamp, q, a.fragments[q]))
    && (a.started ==> a.first in a.fragments && HeadAt(arrivals, a.timestamp, a.first, a.fragments[a.first]))
    && (a.ended ==> a.last in a.fragments && MarkerAt(arrivals, a.timestamp, a.last, a.fragments[a.last]))
  }

  lemma SourcedLater(a: Assembly, arrivals: seq<Arrival>, more: Arrival)
    requires Sourced(a, arrivals)
    ensures Sourced(a, arrivals + [more])
  {
    var all := arrivals + [more];
    forall q | q in a.fragments
      ensures Supplied(all, a.timestamp, q, a.fragments[q])
    {
      var i :| 0 <= i < |arrivals| && arrivals[i].packet.timestamp == a.timestamp
               && arrivals[i].packet.sequence == q && arrivals[i].packet.payload == a.fragments[q];
      assert all[i] == arrivals[i];
    }
    if a.started {
      var i :| 0 <= i < |arrivals| && arrivals[i].packet.timestamp == a.timestamp && arrivals[i].packet.head
               && arrivals[i].packet.sequence == a.first && arrivals[i].packet.payload == a.fragments[a.first];
      assert all[i] == arrivals[i];
    }
    if a.ended {
      var i :| 0 <= i < |arrivals| && arrivals[i].packet.timestamp == a.timestamp && arrivals[i].packet.marker
               && arrivals[i].packet.sequence == a.last && arrivals[i].packet.payload == a.fragments[a.last];
      assert all[i] == arrivals[i];
    }
  }

  /** The assembly a packet is stored in, if it is stored. */
  function Holding(a: Assembly, p: Packet, now: int): Assembly {
    Stored(Marked(Opened(Expire(a, now), p, now), p), p)
  }

  predicate Stores(a: Assembly, p: Packet, now: int) {
    var x := Expire(a, now);
    var b := Opened(x, p, now);
    && p.payload != [] && (x.active && p.timestamp != x.timestamp ==> Newer(p.timestamp, x.timestamp))
    && p.sequence !in b.fragments && !Conflicts(b, p) && !Overflows(Marked(b, p), p)
  }

  /** A push stores its packet, or returns nothing and leaves old fragments only. */
  lemma PushOutcome(a: Assembly, p: Packet, now: int)
    ensures Stores(a, p, now) ==> Push(a, p, now) == Emit(Holding(a, p, now))
    ensures !Stores(a, p, now) ==> Push(a, p, now).1 == None
    ensures !Stores(a, p, now) ==>
              var r := Push(a, p, now).0; r == a || r == Cleared() || r == Opened(Expire(a, now), p, now)
  {
    hide Join;
    hide Complete;
    hide Overflows;
  }

  lemma HoldingSourced(a: Assembly, arrivals: seq<Arrival>, p: Packet, now: int)
    requires Sourced(a, arrivals) && Stores(a, p, now)
    ensures Sourced(Holding(a, p, now), arrivals + [Arrival(p, now)])
  {
    var all, h := arrivals + [Arrival(p, now)], Holding(a, p, now);
    SourcedLater(a, arrivals, Arrival(p, now));
    assert all[|arrivals|].packet == p;
    assert Supplied(all, p.timestamp, p.sequence, p.payload);
    assert p.head ==> HeadAt(all, p.timestamp, p.sequence, p.payload);
    assert p.marker ==> MarkerAt(all, p.timestamp, p.sequence, p.payload);
    hide Supplied;
    hide HeadAt;
    hide MarkerAt;
    hide Overflows;
  }

  lemma {:induction false} RunSourced(arrivals: seq<Arrival>)
    ensures Sourced(Run(arrivals), arrivals) && Capped(Run(arrivals))
  {
    if arrivals == [] {
      SizeEmpty(map[]);
    } else {
      var init, last := arrivals[..|arrivals| - 1], arrivals[|arrivals| - 1];
      var a := Run(init);
      assert arrivals == init + [last];
      RunSourced(init);
      PushCapped(a, last.packet, last.now);
      PushOutcome(a, last.packet, last.now);
      SourcedLater(a, init, last);
      if Stores(a, last.packet, last.now) { HoldingSourced(a, init, last.packet, last.now); }
      hide Push;
      hide Stores;
      hide Holding;
      hide Capped;
      hide Supplied;
      hide HeadAt;
      hide MarkerAt;
      hide Join;
      hide Complete;
    }
  }

  /** Stored fragments and bytes never exceed the caps, in any run. */
  lemma AlwaysCapped(arrivals: seq<Arrival>)
    ensures Capped(Run(arrivals))
  {
    RunSourced(arrivals);
  }

  function Flatten(parts: seq<seq<int>>): seq<int> {
    if parts == [] then [] else Flatten(parts[..|parts| - 1]) + parts[|parts| - 1]
  }

  /** `parts` are the payloads of packets of one timestamp, consecutive modulo 2^16, from
      a head to a marker, all of them among the arrivals. */
  ghost predicate FrameOf(arrivals: seq<Arrival>, timestamp: nat, first: nat, parts: seq<seq<int>>) {
    && 1 <= |parts| <= FRAGMENT_LIMIT
    && (forall i :: 0 <= i < |parts| ==> Supplied(arrivals, timestamp, At(first, i), parts[i]))
    && HeadAt(arrivals, timestamp, At(first, 0), parts[0])
    && MarkerAt(arrivals, timestamp, At(first, |parts| - 1), parts[|parts| - 1])
  }

  function Parts(fragments: map<nat, seq<int>>, first: nat, count: nat): seq<seq<int>>
    requires Complete(fragments, first, count)
  {
    seq(count, i requires 0 <= i < count => fragments[At(first, i)])
  }

  lemma {:induction false} JoinFlattens(fragments: map<nat, seq<int>>, first: nat, count: nat)
    requires Complete(fragments, first, count)
    ensures Join(fragments, first, count) == Flatten(Parts(fragments, first, count))
  {
    if count > 0 {
      JoinFlattens(fragments, first, count - 1);
      assert Parts(fragments, first, count)[..count - 1] == Parts(fragments, first, count - 1);
    }
  }

  predicate Numbered(arrivals: seq<Arrival>) {
    forall i :: 0 <= i < |arrivals| ==> arrivals[i].packet.sequence < WRAP16
  }

  lemma DistanceReaches(first: nat, last: nat)
    requires first < WRAP16 && last < WRAP16
    ensures At(first, 0) == first && At(first, Distance(first, last)) == last
  {
  }

  /** Any frame that any run returns is the concatenation, in sequence order, of
      same-timestamp payloads that arrived, from a head to a marker. */
  lemma FramesAreSound(arrivals: seq<Arrival>, p: Packet, now: int) returns (first: nat, parts: seq<seq<int>>)
    requires Numbered(arrivals) && p.sequence < WRAP16
    requires Push(Run(arrivals), p, now).1.Some?
    ensures FrameOf(arrivals + [Arrival(p, now)], p.timestamp, first, parts)
    ensures Push(Run(arrivals), p, now).1 == Some(Flatten(parts))
  {
    var a, all := Run(arrivals), arrivals + [Arrival(p, now)];
    var h := Holding(a, p, now);
    hide Run;
    hide Push;
    hide Supplied;
    hide HeadAt;
    hide MarkerAt;
    hide Stores;
    RunSourced(arrivals);
    PushOutcome(a, p, now);
    HoldingSourced(a, arrivals, p, now);
    SequenceBounds(all, h);
    var count := Distance(h.first, h.last) + 1;
    first, parts := h.first, Parts(h.fragments, h.first, count);
    JoinFlattens(h.fragments, h.first, count);
    DistanceReaches(h.first, h.last);
    hide At;
    hide Distance;
    hide Join;
    hide Flatten;
  }

  lemma SequenceBounds(arrivals: seq<Arrival>, h: Assembly)
    requires Numbered(arrivals) && Sourced(h, arrivals)
    ensures h.started ==> h.first < WRAP16
    ensures h.ended ==> h.last < WRAP16
  {
    if h.started {
      var i :| 0 <= i < |arrivals| && arrivals[i].packet.timestamp == h.timestamp && arrivals[i].packet.head
               && arrivals[i].packet.sequence == h.first && arrivals[i].packet.payload == h.fragments[h.first];
    }
    if h.ended {
      var i :| 0 <= i < |arrivals| && arrivals[i].packet.timestamp == h.timestamp && arrivals[i].packet.marker
               && arrivals[i].packet.sequence == h.last && arrivals[i].packet.payload == h.fragments[h.last];
    }
  }

  // ---------------------------------------------------------------- any order, with duplicates

  /** A frame as its sender cut it. */
  datatype Sent = Sent(timestamp: nat, first: nat, parts: seq<seq<int>>) {
    predicate Valid() {
      && first < WRAP16 && 1 <= |parts| <= FRAGMENT_LIMIT
      && (forall i :: 0 <= i < |parts| ==> parts[i] != [])
      && |Flatten(parts)| <= FRAME_LIMIT
    }
    function PacketAt(i: nat): Packet
      requires i < |parts|
    {
      Packet(timestamp, At(first, i), i == |parts| - 1, i == 0, parts[i])
    }
  }

  lemma AtInjective(first: nat, i: nat, j: nat)
    requires i < FRAGMENT_LIMIT && j < FRAGMENT_LIMIT && At(first, i) == At(first, j)
    ensures i == j
  {
  }

  lemma DistanceAt(first: nat, i: nat)
    requires i < FRAGMENT_LIMIT && first < WRAP16
    ensures Distance(first, At(first, i)) == i
  {
  }

  /** Bytes of the first n parts that are in `have`. */
  function PartBytes(parts: seq<seq<int>>, have: set<nat>, n: nat): nat
    requires n <= |parts|
  {
    if n == 0 then 0 else PartBytes(parts, have, n - 1) + if n - 1 in have then |parts[n - 1]| else 0
  }

  lemma {:induction false} PartBytesAdd(parts: seq<seq<int>>, have: set<nat>, i: nat, n: nat)
    requires n <= |parts| && i !in have && i < |parts|
    ensures PartBytes(parts, have + {i}, n) == PartBytes(parts, have, n) + if i < n then |parts[i]| else 0
  {
    if n > 0 { PartBytesAdd(parts, have, i, n - 1); }
  }

  lemma {:induction false} PartBytesBound(parts: seq<seq<int>>, have: set<nat>, n: nat)
    requires n <= |parts|
    ensures PartBytes(parts, have, n) <= |Flatten(parts[..n])|
  {
    if n > 0 {
      PartBytesBound(parts, have, n - 1);
      assert parts[..n][..n - 1] == parts[..n - 1];
    }
  }

  ghost predicate FromPart(f: Sent, have: set<nat>, sequence: nat) {
    exists i :: i in have && sequence == At(f.first, i)
  }

  predicate PartStored(fragments: map<nat, seq<int>>, f: Sent, i: nat) {
    i < |f.parts| && At(f.first, i) in fragments && fragments[At(f.first, i)] == f.parts[i]
  }

  ghost predicate HoldsParts(fragments: map<nat, seq<int>>, f: Sent, have: set<nat>) {
    && (forall q :: q in fragments ==> FromPart(f, have, q))
    && (forall i :: i in have ==> PartStored(fragments, f, i))
    && |fragments| == |have|
  }

  predicate HoldsFlags(a: Assembly, f: Sent, have: set<nat>, deadline: int) {
    && a.active && a.timestamp == f.timestamp && a.deadline == deadline
    && (a.started <==> 0 in have) && (a.started ==> a.first == f.first)
    && (a.ended <==> |f.parts| - 1 in have) && (a.ended ==> a.last == At(f.first, |f.parts| - 1))
  }

  /** The assembly holds exactly the parts in `have`. */
  ghost predicate Holds(a: Assembly, f: Sent, have: set<nat>, deadline: int)
    requires f.Valid()
  {
    && have <= Upto(|f.parts|)
    && HoldsFlags(a, f, have, deadline) && HoldsParts(a.fragments, f, have)
    && a.bytes == PartBytes(f.parts, have, |f.parts|)
  }

  /** At most 64 parts may be waiting for the head. */
  predicate HeadSoon(have: set<nat>) {
    0 in have || |have| <= HEADLESS_LIMIT
  }

  lemma AbsentPart(fragments: map<nat, seq<int>>, f: Sent, have: set<nat>, i: nat)
    requires f.Valid() && have <= Upto(|f.parts|) && HoldsParts(fragments, f, have) && i < |f.parts| && i !in have
    ensures At(f.first, i) !in fragments
  {
    if At(f.first, i) in fragments {
      assert FromPart(f, have, At(f.first, i));
      var j :| j in have && At(f.first, i) == At(f.first, j);
      AtInjective(f.first, i, j);
    }
  }

  lemma RoomForPart(parts: seq<seq<int>>, have: set<nat>, i: nat)
    requires have <= Upto(|parts|) && i < |parts| && i !in have
    ensures PartBytes(parts, have, |parts|) + |parts[i]| <= |Flatten(parts)| && |have| < |parts|
  {
    var n := |parts|;
    SubsetSize(have, Upto(n));
    assert i in Upto(n);
    PartBytesAdd(parts, have, i, n);
    PartBytesBound(parts, have + {i}, n);
    assert parts[..n] == parts;
  }

  lemma AgreesPart(a: Assembly, f: Sent, have: set<nat>, deadline: int, i: nat)
    requires f.first < WRAP16 && HoldsFlags(a, f, have, deadline) && i < |f.parts| && i !in have
    ensures !Conflicts(a, f.PacketAt(i))
    ensures HoldsFlags(Stored(Marked(a, f.PacketAt(i)), f.PacketAt(i)), f, have + {i}, deadline)
  {
    assert At(f.first, 0) == f.first;
    hide At;
  }

  lemma HeadRoom(have: set<nat>, i: nat)
    requires i !in have && HeadSoon(have + {i})
    ensures i == 0 || 0 in have || |have| < HEADLESS_LIMIT
  {
    assert |have + {i}| == |have| + 1;
  }

  lemma NoOverflow(a: Assembly, f: Sent, i: nat)
    requires f.first < WRAP16 && i < |f.parts| <= FRAGMENT_LIMIT && (a.started ==> a.first == f.first)
    requires a.bytes + |f.parts[i]| <= FRAME_LIMIT && |a.fragments| < FRAGMENT_LIMIT
    requires i == 0 || a.started || |a.fragments| < HEADLESS_LIMIT
    ensures !Overflows(Marked(a, f.PacketAt(i)), f.PacketAt(i))
  {
    DistanceAt(f.first, i);
    DistanceAt(f.first, 0);
    assert At(f.first, 0) == f.first;
    hide At;
    hide Distance;
  }

  lemma AdmitsPart(a: Assembly, f: Sent, have: set<nat>, deadline: int, i: nat)
    requires f.Valid() && Holds(a, f, have, deadline) && i < |f.parts| && i !in have && HeadSoon(have + {i})
    ensures !Overflows(Marked(a, f.PacketAt(i)), f.PacketAt(i))
  {
    hide Overflows;
    hide Marked;
    hide PartBytes;
    hide Flatten;
    hide Upto;
    hide At;
    hide HeadSoon;
    assert |a.fragments| == |have|;
    hide HoldsParts;
    RoomForPart(f.parts, have, i);
    HeadRoom(have, i);
    NoOverflow(a, f, i);
  }

  lemma FromAdded(fragments: map<nat, seq<int>>, f: Sent, have: set<nat>, i: nat, q: nat)
    requires HoldsParts(fragments, f, have) && i < |f.parts| && q in fragments[At(f.first, i) := f.parts[i]]
    ensures FromPart(f, have + {i}, q)
  {
    hide At;
    hide FromPart;
    hide PartStored;
    if q == At(f.first, i) { FromSelf(f, have, i); } else { FromMore(f, have, i, q); }
  }

  lemma StoredAdded(fragments: map<nat, seq<int>>, f: Sent, have: set<nat>, i: nat, j: nat)
    requires HoldsParts(fragments, f, have) && i < |f.parts| && j in have + {i} && At(f.first, i) !in fragments
    ensures PartStored(fragments[At(f.first, i) := f.parts[i]], f, j)
  {
    hide At;
    hide FromPart;
    if j != i { assert PartStored(fragments, f, j); }
  }

  lemma PartAdded(fragments: map<nat, seq<int>>, f: Sent, have: set<nat>, i: nat)
    requires f.Valid() && have <= Upto(|f.parts|) && HoldsParts(fragments, f, have) && i < |f.parts| && i !in have
    ensures HoldsParts(fragments[At(f.first, i) := f.parts[i]], f, have + {i})
  {
    AbsentPart(fragments, f, have, i);
    SizeAdd(fragments, At(f.first, i), f.parts[i]);
    assert |fragments[At(f.first, i) := f.parts[i]]| == |have + {i}|;
    hide At;
    hide Flatten;
    hide Size;
    hide FromPart;
    hide PartStored;
    hide Upto;
    forall q | q in fragments[At(f.first, i) := f.parts[i]]
      ensures FromPart(f, have + {i}, q)
    {
      FromAdded(fragments, f, have, i, q);
    }
    forall j | j in have + {i}
      ensures PartStored(fragments[At(f.first, i) := f.parts[i]], f, j)
    {
      StoredAdded(fragments, f, have, i, j);
    }
  }

  lemma FromSelf(f: Sent, have: set<nat>, i: nat)
    ensures FromPart(f, have + {i}, At(f.first, i))
  {
    assert i in have + {i};
  }

  lemma FromMore(f: Sent, have: set<nat>, i: nat, q: nat)
    requires FromPart(f, have, q)
    ensures FromPart(f, have + {i}, q)
  {
    hide At;
    var j :| j in have && q == At(f.first, j);
    assert j in have + {i};
  }

  lemma StoresPart(a: Assembly, f: Sent, have: set<nat>, deadline: int, i: nat)
    requires f.Valid() && Holds(a, f, have, deadline) && i < |f.parts| && i !in have
    ensures Holds(Stored(Marked(a, f.PacketAt(i)), f.PacketAt(i)), f, have + {i}, deadline)
  {
    hide HoldsFlags;
    hide HoldsParts;
    hide PartBytes;
    hide At;
    hide Flatten;
    PartAdded(a.fragments, f, have, i);
    PartBytesAdd(f.parts, have, i, |f.parts|);
    AgreesPart(a, f, have, deadline, i);
  }

  lemma {:induction false} JoinParts(fragments: map<nat, seq<int>>, first: nat, parts: seq<seq<int>>, n: nat)
    requires n <= |parts| && forall i: nat :: i < n ==> At(first, i) in fragments && fragments[At(first, i)] == parts[i]
    ensures Complete(fragments, first, n) && Join(fragments, first, n) == Flatten(parts[..n])
  {
    if n > 0 {
      JoinParts(fragments, first, parts, n - 1);
      assert parts[..n][..n - 1] == parts[..n - 1];
    }
  }

  lemma WaitsUntilFull(a: Assembly, f: Sent, have: set<nat>, deadline: int)
    requires f.Valid() && Holds(a, f, have, deadline) && have != Upto(|f.parts|)
    ensures Emit(a) == (a, None)
  {
    SubsetSize(have, Upto(|f.parts|));
    DistanceAt(f.first, |f.parts| - 1);
    assert |a.fragments| == |have|;
    hide At;
    hide Distance;
    hide Flatten;
    hide Join;
    hide Complete;
    hide HoldsParts;
    hide Upto;
  }

  lemma AllStored(a: Assembly, f: Sent, deadline: int)
    requires f.Valid() && Holds(a, f, Upto(|f.parts|), deadline)
    ensures var n := |f.parts|; Complete(a.fragments, f.first, n) && Join(a.fragments, f.first, n) == Flatten(f.parts)
    ensures a.started && a.ended && |a.fragments| == |f.parts| && a.first == f.first && a.last == At(f.first, |f.parts| - 1)
  {
    hide At;
    hide Flatten;
    hide Join;
    hide Complete;
    hide PartBytes;
    hide FromPart;
    var n := |f.parts|;
    forall i: nat | i < n
      ensures At(f.first, i) in a.fragments && a.fragments[At(f.first, i)] == f.parts[i]
    {
      assert PartStored(a.fragments, f, i);
    }
    JoinParts(a.fragments, f.first, f.parts, n);
    assert f.parts[..n] == f.parts;
  }

  lemma EmitsFull(a: Assembly, f: Sent, deadline: int)
    requires f.Valid() && Holds(a, f, Upto(|f.parts|), deadline)
    ensures Emit(a) == (Cleared(), Some(Flatten(f.parts)))
  {
    hide At;
    hide Distance;
    hide Flatten;
    hide Join;
    hide Complete;
    hide Holds;
    hide Upto;
    AllStored(a, f, deadline);
    DistanceAt(f.first, |f.parts| - 1);
  }

  /** The frame comes out with its last missing part and not before. */
  lemma EmitsWhenFull(a: Assembly, f: Sent, have: set<nat>, deadline: int)
    requires f.Valid() && Holds(a, f, have, deadline)
    ensures have != Upto(|f.parts|) ==> Emit(a) == (a, None)
    ensures have == Upto(|f.parts|) ==> Emit(a) == (Cleared(), Some(Flatten(f.parts)))
  {
    hide Holds;
    hide Emit;
    if have == Upto(|f.parts|) { EmitsFull(a, f, deadline); } else { WaitsUntilFull(a, f, have, deadline); }
  }

  lemma StillOpen(a: Assembly, f: Sent, have: set<nat>, deadline: int, i: nat, now: int)
    requires f.Valid() && Holds(a, f, have, deadline) && now < deadline && i < |f.parts|
    ensures Expire(a, now) == a && a.timestamp == f.timestamp && Opened(a, f.PacketAt(i), now) == a
  {
  }

  lemma PushPart(a: Assembly, f: Sent, have: set<nat>, deadline: int, i: nat, now: int)
    requires f.Valid() && i < |f.parts| && HeadSoon(have + {i})
    requires var x := Expire(a, now); x.active && f.timestamp != x.timestamp ==> Newer(f.timestamp, x.timestamp)
    requires Holds(Opened(Expire(a, now), f.PacketAt(i), now), f, have, deadline)
    ensures have + {i} == Upto(|f.parts|) && i !in have ==> Push(a, f.PacketAt(i), now).1 == Some(Flatten(f.parts))
    ensures have + {i} != Upto(|f.parts|) ==>
              Push(a, f.PacketAt(i), now).1 == None && Holds(Push(a, f.PacketAt(i), now).0, f, have + {i}, deadline)
  {
    var p := f.PacketAt(i);
    var b := Opened(Expire(a, now), p, now);
    PushOutcome(a, p, now);
    if i in have {
      assert have + {i} == have && PartStored(b.fragments, f, i);
      assert Push(a, p, now) == (b, None);
    } else {
      AbsentPart(b.fragments, f, have, i);
      AgreesPart(b, f, have, deadline, i);
      AdmitsPart(b, f, have, deadline, i);
      StoresPart(b, f, have, deadline, i);
      EmitsWhenFull(Stored(Marked(b, p), p), f, have + {i}, deadline);
      assert Stores(a, p, now);
      hide Push;
    }
    hide Flatten;
    hide Emit;
    hide Conflicts;
    hide Overflows;
    hide Holds;
  }

  /** A packet that arrives while a frame is received: one of the frame's own parts, or
      anything else that is not of a newer frame. */
  datatype Delivered = Own(part: nat) | Other(packet: Packet)

  /** A packet that does not parse, or of another frame that is not newer. */
  predicate Ignorable(f: Sent, p: Packet) {
    p.payload == [] || (p.timestamp != f.timestamp && !Newer(p.timestamp, f.timestamp))
  }

  predicate Deliverable(f: Sent, d: Delivered) {
    match d case Own(i) => i < |f.parts| case Other(p) => Ignorable(f, p)
  }

  function PacketOf(f: Sent, d: Delivered): Packet
    requires Deliverable(f, d)
  {
    match d case Own(i) => f.PacketAt(i) case Other(p) => p
  }

  /** The assembly after the first k of a series of packets. */
  function Fed(a: Assembly, f: Sent, order: seq<Delivered>, times: seq<int>, k: nat): Assembly
    requires k <= |order| == |times| && forall j :: 0 <= j < |order| ==> Deliverable(f, order[j])
  {
    if k == 0 then a else Push(Fed(a, f, order, times, k - 1), PacketOf(f, order[k - 1]), times[k - 1]).0
  }

  /** The parts among the first k packets. */
  function Seen(order: seq<Delivered>, k: nat): set<nat>
    requires k <= |order|
  {
    if k == 0 then {} else Seen(order, k - 1) + if order[k - 1].Own? then {order[k - 1].part} else {}
  }

  /** From a part of the frame on: its parts in any order and with any repetition, among
      unparsable packets and packets of other frames that are not newer; the last packet is
      the one that completes the frame. */
  ghost predicate Delivery(f: Sent, order: seq<Delivered>, times: seq<int>) {
    && f.Valid() && |order| == |times| > 0 && order[0].Own?
    && (forall j :: 0 <= j < |order| ==> Deliverable(f, order[j]))
    && (forall j :: 0 <= j < |order| ==> times[0] <= times[j] < times[0] + LIFETIME)
    && (forall k: nat :: k <= |order| ==> HeadSoon(Seen(order, k)))
    && Seen(order, |order|) == Upto(|f.parts|) && Seen(order, |order| - 1) != Upto(|f.parts|)
  }

  /** The assembly is empty, expired, or busy with an older frame. */
  predicate Available(a: Assembly, f: Sent, now: int) {
    var x := Expire(a, now);
    x.active ==> Newer(f.timestamp, x.timestamp)
  }

  lemma {:induction false} SeenGrows(f: Sent, order: seq<Delivered>, k: nat, m: nat)
    requires k <= m <= |order| && forall j :: 0 <= j < |order| ==> Deliverable(f, order[j])
    ensures Seen(order, k) <= Seen(order, m) <= Upto(|f.parts|)
    decreases m
  {
    if k < m {
      SeenGrows(f, order, k, m - 1);
      assert Deliverable(f, order[m - 1]);
    } else if k > 0 {
      SeenGrows(f, order, k - 1, k - 1);
      assert Deliverable(f, order[k - 1]);
    }
  }

  lemma SeenPartial(f: Sent, order: seq<Delivered>, times: seq<int>, k: nat)
    requires Delivery(f, order, times) && k < |order|
    ensures Seen(order, k) != Upto(|f.parts|)
  {
    SeenGrows(f, order, k, |order| - 1);
  }

  lemma OpensFresh(a: Assembly, f: Sent, i: nat, now: int)
    requires f.Valid() && i < |f.parts| && Available(a, f, now)
    ensures Holds(Opened(Expire(a, now), f.PacketAt(i), now), f, {}, now + LIFETIME)
  {
    hide At;
    assert PartBytes(f.parts, {}, |f.parts|) == 0 by { PartBytesNone(f.parts, |f.parts|); }
  }

  lemma {:induction false} PartBytesNone(parts: seq<seq<int>>, n: nat)
    requires n <= |parts|
    ensures PartBytes(parts, {}, n) == 0
  {
    if n > 0 { PartBytesNone(parts, n - 1); }
  }

  /** What is not of a newer frame leaves a frame under way exactly as it is. */
  lemma OtherIgnored(a: Assembly, f: Sent, have: set<nat>, deadline: int, p: Packet, now: int)
    requires f.Valid() && Holds(a, f, have, deadline) && now < deadline && Ignorable(f, p)
    ensures Push(a, p, now) == (a, None)
  {
    hide HoldsParts;
    hide Newer;
    hide Taken;
  }

  function PartsOf(d: Delivered): set<nat> {
    if d.Own? then {d.part} else {}
  }

  /** One more packet: the frame comes out if it is complete with it; if not, nothing does. */
  lemma OnePacket(b: Assembly, f: Sent, have: set<nat>, deadline: int, d: Delivered, now: int)
    requires f.Valid() && Deliverable(f, d) && have != Upto(|f.parts|) && HeadSoon(have + PartsOf(d))
    requires (Holds(b, f, have, deadline) && now < deadline) || (d.Own? && have == {} && Available(b, f, now) && deadline == now + LIFETIME)
    ensures var (c, frame) := Push(b, PacketOf(f, d), now);
            if have + PartsOf(d) == Upto(|f.parts|) then frame == Some(Flatten(f.parts))
            else frame == None && Holds(c, f, have + PartsOf(d), deadline)
  {
    hide Push;
    hide Holds;
    hide Flatten;
    hide HeadSoon;
    hide Upto;
    hide Ignorable;
    if d.Other? {
      assert have + {} == have;
      OtherIgnored(b, f, have, deadline, d.packet, now);
    } else {
      if Holds(b, f, have, deadline) && now < deadline {
        StillOpen(b, f, have, deadline, d.part, now);
      } else {
        OpensFresh(b, f, d.part, now);
      }
      assert d.part in have ==> have + {d.part} == have;
      PushPart(b, f, have, deadline, d.part, now);
    }
  }

  lemma DeliveryFull(f: Sent, order: seq<Delivered>, times: seq<int>)
    requires Delivery(f, order, times)
    ensures |order| == |times| > 0 && Seen(order, |order|) == Upto(|f.parts|)
  {
    hide Upto;
    hide Seen;
    hide HeadSoon;
    hide Flatten;
    hide Deliverable;
  }

  /** What a delivery says of its k-th packet. */
  lemma DeliveryAt(f: Sent, order: seq<Delivered>, times: seq<int>, k: nat)
    requires Delivery(f, order, times) && k < |order|
    ensures f.Valid() && |order| == |times| && Deliverable(f, order[k]) && times[0] <= times[k] < times[0] + LIFETIME
    ensures (k == 0 ==> order[k].Own?) && HeadSoon(Seen(order, k + 1))
  {
    hide Upto;
    hide Seen;
    hide HeadSoon;
    hide Flatten;
    hide Deliverable;
  }

  lemma DeliverySeen(f: Sent, order: seq<Delivered>, times: seq<int>, k: nat)
    requires Delivery(f, order, times) && k < |order|
    ensures Seen(order, k + 1) == Seen(order, k) + PartsOf(order[k])
    ensures Seen(order, k) != Upto(|f.parts|) && (Seen(order, k + 1) == Upto(|f.parts|) <==> k + 1 == |order|)
  {
    hide Delivery;
    hide Upto;
    DeliveryFull(f, order, times);
    SeenPartial(f, order, times, k);
    if k + 1 < |order| { SeenPartial(f, order, times, k + 1); }
  }

  lemma Receives(a: Assembly, f: Sent, order: seq<Delivered>, times: seq<int>, k: nat)
    requires Delivery(f, order, times) && Available(a, f, times[0]) && k < |order|
    requires k > 0 ==> Holds(Fed(a, f, order, times, k), f, Seen(order, k), times[0] + LIFETIME)
    ensures k + 1 == |order| ==> Push(Fed(a, f, order, times, k), PacketOf(f, order[k]), times[k]).1 == Some(Flatten(f.parts))
    ensures k + 1 < |order| ==> Push(Fed(a, f, order, times, k), PacketOf(f, order[k]), times[k]).1 == None
    ensures k + 1 < |order| ==> Holds(Fed(a, f, order, times, k + 1), f, Seen(order, k + 1), times[0] + LIFETIME)
  {
    assert k == 0 ==> Seen(order, k) == {};
    hide Push;
    hide Holds;
    hide Flatten;
    hide HeadSoon;
    hide Upto;
    hide Seen;
    hide Available;
    hide PartsOf;
    assert |order| == |times|;
    DeliveryAt(f, order, times, k);
    DeliverySeen(f, order, times, k);
    OnePacket(Fed(a, f, order, times, k), f, Seen(order, k), times[0] + LIFETIME, order[k], times[k]);
  }

  lemma {:induction false} DeliveryHolds(a: Assembly, f: Sent, order: seq<Delivered>, times: seq<int>, k: nat)
    requires Delivery(f, order, times) && Available(a, f, times[0]) && 0 < k < |order|
    ensures Holds(Fed(a, f, order, times, k), f, Seen(order, k), times[0] + LIFETIME)
  {
    hide Delivery;
    hide Available;
    hide Holds;
    hide Push;
    if k > 1 { DeliveryHolds(a, f, order, times, k - 1); }
    Receives(a, f, order, times, k - 1);
  }

  /** Order-insensitive: whatever the order and the repetitions of a valid frame's packets,
      and whatever unparsable or not newer packets lie between them, exactly that frame comes
      out, at the packet that completes it and at no packet before. */
  lemma AnyOrderReassembles(a: Assembly, f: Sent, order: seq<Delivered>, times: seq<int>, k: nat)
    requires Delivery(f, order, times) && Available(a, f, times[0]) && k < |order|
    ensures Push(Fed(a, f, order, times, k), PacketOf(f, order[k]), times[k]).1 ==
            if k == |order| - 1 then Some(Flatten(f.parts)) else None
  {
    if k > 0 { DeliveryHolds(a, f, order, times, k); }
    hide Holds;
    hide Push;
    hide Flatten;
    Receives(a, f, order, times, k);
  }
}
