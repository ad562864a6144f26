/** One raw lane of an encoder: a fixed set of slots, a channel of slot indices and one
    writer, run concurrently with the producer, the watcher and the closer.  Every locked
    section and every send or receive is one step. */
module RawLane {
  import opened Common

  datatype SlotState = Free | Queued | Borrowed

  datatype Slot = Slot(bytes: seq<int>, state: SlotState)

  /** Where the writer goroutine stands; `sent` counts the bytes of its block in the pipe. */
  datatype Writer = Waiting | Received(slot: nat) | Writing(slot: nat, sent: nat) | Stopped

  /** `accepted` holds the enqueued blocks and `delivered` the blocks fully written, both
      in order; `silence` is the block that replaces revoked content, and `voided` numbers
      the blocks whose guard was found void before the writer had borrowed them. */
  datatype Lane = Lane(
    silence: seq<int>, slots: seq<Slot>, ready: seq<nat>, writer: Writer,
    closed: bool, wiped: bool, pipe: seq<int>,
    accepted: seq<seq<int>>, delivered: seq<seq<int>>, voided: set<nat>)

  function FreshLane(count: nat, silence: seq<int>): Lane {
    Lane(silence, seq(count, _ => Slot(silence, Free)), [], Waiting, false, false, [], [], [], {})
  }

  /** The lowest free slot, or the number of slots. */
  function FirstFree(slots: seq<Slot>): (i: nat)
    ensures i <= |slots|
    ensures i < |slots| ==> slots[i].state == Free
    ensures forall j :: 0 <= j < i ==> slots[j].state != Free
  {
    if slots == [] then 0
    else if slots[0].state == Free then 0
    else 1 + FirstFree(slots[1..])
  }

  function Sanitized(l: Lane, bytes: seq<int>, guard: bool): seq<int> {
    if guard then bytes else l.silence
  }

  /** Queued blocks whose guard no longer holds are replaced whole. */
  function Inspected(slots: seq<Slot>, silence: seq<int>, valid: nat -> bool): (r: seq<Slot>)
    ensures |r| == |slots|
    ensures forall i :: 0 <= i < |r| ==>
              r[i].state == slots[i].state && (r[i] == slots[i] || (r[i].state == Queued && r[i].bytes == silence))
  {
    seq(|slots|, i requires 0 <= i < |slots| =>
      if slots[i].state == Queued && !valid(i) then slots[i].(bytes := silence) else slots[i])
  }

  /** Clears every slot except, in the first sweep, the one the writer has borrowed. */
  function Wiped(slots: seq<Slot>, silence: seq<int>, queuedOnly: bool): (r: seq<Slot>)
    ensures |r| == |slots|
    ensures forall i :: 0 <= i < |r| ==>
              if queuedOnly && slots[i].state == Borrowed then r[i] == slots[i] else r[i] == Slot(silence, Free)
  {
    seq(|slots|, i requires 0 <= i < |slots| =>
      if queuedOnly && slots[i].state == Borrowed then slots[i] else Slot(silence, Free))
  }

  /** The lane's slots as the code keeps them: a fixed array changed in place. */
  class SlotArray {
    const slots: array<Slot>
    const silence: seq<int>
    var ready: seq<nat>

    constructor (count: nat, silence: seq<int>)
      ensures fresh(slots) && slots[..] == FreshLane(count, silence).slots && ready == [] && this.silence == silence
    {
      slots := new Slot[count](_ => Slot(silence, Free));
      this.silence := silence;
      ready := [];
    }

    method EnqueueLocked(data: seq<int>, guard: bool) returns (ok: bool)
      modifies this, slots
      ensures ok <==> FirstFree(old(slots[..])) < slots.Length
      ensures ok ==> var i := FirstFree(old(slots[..]));
                     && slots[..] == old(slots[..])[i := Slot(if guard then data else silence, Queued)]
                     && ready == old(ready) + [i]
      ensures !ok ==> slots[..] == old(slots[..]) && ready == old(ready)
    {
      var i := 0;
      while i < slots.Length
        invariant i <= slots.Length && slots[..] == old(slots[..]) && ready == old(ready)
        invariant forall j :: 0 <= j < i ==> slots[..][j].state != Free
      {
        if slots[i].state == Free {
          assert slots[..][i].state == Free && FirstFree(slots[..]) == i;
          slots[i] := Slot(data, Queued);
          if !guard {
            slots[i] := Slot(silence, Queued);
          }
          ready := ready + [i];
          return true;
        }
        assert slots[..][i] == slots[i];
        i := i + 1;
      }
      ok := false;
    }

    method InspectQueued(valid: nat -> bool)
      modifies slots
      ensures slots[..] == Inspected(old(slots[..]), silence, valid)
    {
      for i := 0 to slots.Length
        invariant forall j :: i <= j < slots.Length ==> slots[j] == old(slots[..])[j]
        invariant forall j :: 0 <= j < i ==> slots[j] == Inspected(old(slots[..]), silence, valid)[j]
      {
        if slots[i].state == Queued && !valid(i) {
          slots[i] := Slot(silence, Queued);
        }
      }
    }

    method Wipe(queuedOnly: bool)
      modifies slots
      ensures slots[..] == Wiped(old(slots[..]), silence, queuedOnly)
    {
      for i := 0 to slots.Length
        invariant forall j :: i <= j < slots.Length ==> slots[j] == old(slots[..])[j]
        invariant forall j :: 0 <= j < i ==> slots[j] == Wiped(old(slots[..]), silence, queuedOnly)[j]
      {
        if !(queuedOnly && slots[i].state == Borrowed) {
          slots[i] := Slot(silence, Free);
        }
      }
    }
  }

  datatype Step =
    | Enqueue(data: seq<int>, guard: bool)      // admitted: in sequence and permitted
    | Receive                                   // the writer takes an index
    | Borrow(guard: bool)                       // and locks its slot
    | WriteSome(amount: nat, allowed: bool, failed: bool)  // one pipe write, with its checks
    | FinishBlock(allowed: bool)                // the final check of a block
    | Inspect(valid: nat -> bool)               // the watcher
    | SetClosed
    | WipeQueued
    | LeaveLoop                                 // the writer sees the closed signal
    | WipeAll                                   // after all workers have ended

  predicate Enabled(l: Lane, t: Step) {
    match t
    case Enqueue(data, _) => !l.closed && |data| == |l.silence| && FirstFree(l.slots) < |l.slots|
    case Receive => l.writer.Waiting? && l.ready != []
    case Borrow(_) => l.writer.Received? && l.writer.slot < |l.slots|
    case WriteSome(n, _, failed) =>
      l.writer.Writing? && l.writer.slot < |l.slots| && (failed || 1 <= n)
      && l.writer.sent + n <= |l.slots[l.writer.slot].bytes|
    case FinishBlock(_) =>
      l.writer.Writing? && l.writer.slot < |l.slots| && l.writer.sent == |l.slots[l.writer.slot].bytes|
    case Inspect(_) => true
    case SetClosed => true
    case WipeQueued => l.closed
    case LeaveLoop => l.closed && l.writer.Waiting?
    case WipeAll => l.closed && l.writer.Stopped?
  }

  function Release(l: Lane, next: Writer): Lane
    requires l.writer.Writing? && l.writer.slot < |l.slots|
  {
    l.(slots := l.slots[l.writer.slot := Slot(l.silence, Free)], writer := next)
  }

  /** Blocks that have left the channel but not yet the lane. */
  function InWriter(l: Lane): nat {
    if l.writer.Received? || l.writer.Writing? then 1 else 0
  }

  /** The number of the block whose index is the j-th in the channel. */
  function NumberOf(l: Lane, j: nat): nat {
    |l.delivered| + InWriter(l) + j
  }

  predicate FindsVoid(l: Lane, valid: nat -> bool, i: nat) {
    i < |l.slots| && l.slots[i].state == Queued && !valid(i)
  }

  /** The blocks the watcher finds void: waiting in the channel, or just received. */
  function FoundVoid(l: Lane, valid: nat -> bool): (r: set<nat>) {
    if l.writer.Stopped? then {}
    else
      (set j: nat | j < |l.ready| && FindsVoid(l, valid, l.ready[j]) :: NumberOf(l, j))
      + if l.writer.Received? && FindsVoid(l, valid, l.writer.slot) then {|l.delivered|} else {}
  }

  function Apply(l: Lane, t: Step): Lane
    requires Enabled(l, t)
  {
    match t
    case Enqueue(data, guard) =>
      var i := FirstFree(l.slots);
      l.(slots := l.slots[i := Slot(Sanitized(l, data, guard), Queued)],
         ready := l.ready + [i], accepted := l.accepted + [data],
         voided := if guard then l.voided else l.voided + {|l.accepted|})
    case Receive => l.(writer := Received(l.ready[0]), ready := l.ready[1..])
    case Borrow(guard) =>
      var s := l.slots[l.writer.slot];
      if l.closed || s.state != Queued then l.(writer := Stopped)
      else l.(slots := l.slots[l.writer.slot := Slot(Sanitized(l, s.bytes, guard), Borrowed)], writer := Writing(l.writer.slot, 0),
                voided := if guard then l.voided else l.voided + {|l.delivered|})
    case WriteSome(n, allowed, failed) =>
      if l.closed || !allowed then Release(l, Stopped).(closed := true)
      else
        var k := l.writer.sent;
        var m := l.(pipe := l.pipe + l.slots[l.writer.slot].bytes[k..k + n], writer := Writing(l.writer.slot, k + n));
        if failed then Release(m, Stopped).(closed := true) else m
    case FinishBlock(allowed) =>
      var done := l.(delivered := l.delivered + [l.slots[l.writer.slot].bytes]);
      if l.closed || !allowed then Release(done, Stopped).(closed := true) else Release(done, Waiting)
    case Inspect(valid) => l.(slots := Inspected(l.slots, l.silence, valid), voided := l.voided + FoundVoid(l, valid))
    case SetClosed => l.(closed := true)
    case WipeQueued => l.(slots := Wiped(l.slots, l.silence, true), wiped := true)
    case LeaveLoop => l.(writer := Stopped)
    case WipeAll => l.(slots := Wiped(l.slots, l.silence, false), wiped := true)
  }

  ghost predicate Execution(count: nat, silence: seq<int>, steps: seq<Step>, states: seq<Lane>) {
    && |states| == |steps| + 1
    && states[0] == FreshLane(count, silence)
    && forall k :: 0 <= k < |steps| ==> Enabled(states[k], steps[k]) && states[k + 1] == Apply(states[k], steps[k])
  }

  // ---------------------------------------------------------------- the invariant

  function Flatten(blocks: seq<seq<int>>): seq<int> {
    if blocks == [] then [] else Flatten(blocks[..|blocks| - 1]) + blocks[|blocks| - 1]
  }

  /** A block goes out as it came in, or wholly replaced if it was found void. */
  predicate Faithful(l: Lane, out: seq<int>, i: nat) {
    i < |l.accepted| && out == if i in l.voided then l.silence else l.accepted[i]
  }

  ghost predicate Shape(l: Lane) {
    && (l.wiped ==> l.closed)
    && (forall i :: 0 <= i < |l.slots| ==> |l.slots[i].bytes| == |l.silence|)
    && (forall i :: 0 <= i < |l.accepted| ==> |l.accepted[i]| == |l.silence|)
    && (forall i :: 0 <= i < |l.slots| ==> (l.slots[i].state == Borrowed <==> l.writer.Writing? && l.writer.slot == i))
    && (l.writer.Writing? ==> l.writer.slot < |l.slots| && l.writer.sent <= |l.silence|)
    && (l.writer.Received? ==> l.writer.slot < |l.slots|)
  }

  /** Until the queue is wiped, the channel and the writer's hand name exactly the queued
      slots, each once. */
  ghost predicate Channel(l: Lane)
    requires Shape(l)
  {
    && (forall i :: 0 <= i < |l.ready| ==> l.ready[i] < |l.slots|)
    && (!l.wiped ==>
          && (forall i :: 0 <= i < |l.ready| ==> l.slots[l.ready[i]].state == Queued)
          && Distinct(l.ready)
          && (l.writer.Received? ==> l.slots[l.writer.slot].state == Queued && l.writer.slot !in l.ready))
  }

  /** Content, in order: delivered blocks, the writer's block, the queued blocks. */
  ghost predicate Order(l: Lane)
    requires Shape(l) && Channel(l)
  {
    && |l.delivered| + InWriter(l) <= |l.accepted| && (forall i :: i in l.voided ==> i < |l.accepted|)
    && (forall i :: 0 <= i < |l.delivered| ==> Faithful(l, l.delivered[i], i))
    && (l.writer.Writing? ==> Faithful(l, l.slots[l.writer.slot].bytes, |l.delivered|))
    && (!l.writer.Stopped? ==> |l.accepted| == |l.delivered| + InWriter(l) + |l.ready|)
    && (!l.wiped ==>
          && (l.writer.Received? ==> Faithful(l, l.slots[l.writer.slot].bytes, |l.delivered|))
          && (!l.writer.Stopped? ==> forall j :: 0 <= j < |l.ready| ==>
                Faithful(l, l.slots[l.ready[j]].bytes, NumberOf(l, j))))
  }

  /** The pipe: every delivered block, then the part of the current one that is out. */
  ghost predicate Piped(l: Lane)
    requires Shape(l)
  {
    exists tail: seq<int> :: l.pipe == Flatten(l.delivered) + tail && Partial(l, tail)
  }

  ghost predicate Partial(l: Lane, tail: seq<int>)
    requires Shape(l)
  {
    if l.writer.Writing? then tail == l.slots[l.writer.slot].bytes[..l.writer.sent]
    else if l.writer.Stopped? then
      tail == [] || (exists block :: Faithful(l, block, |l.delivered|) && tail <= block)
    else tail == []
  }

  ghost predicate Sound(l: Lane) {
    Shape(l) && Channel(l) && Order(l) && Piped(l)
  }

  lemma ShapeKept(l: Lane, t: Step)
    requires Shape(l) && Channel(l) && Enabled(l, t)
    ensures Shape(Apply(l, t))
  {
    hide Inspected;
    hide Wiped;
    hide FirstFree;
    match t
    case Borrow(_) =>
    case WriteSome(_, _, _) =>
    case FinishBlock(_) =>
    case Enqueue(_, _) =>
    case _ =>
  }

  lemma ChannelKept(l: Lane, t: Step)
    requires Shape(l) && Channel(l) && Enabled(l, t)
    ensures Shape(Apply(l, t)) && Channel(Apply(l, t))
  {
    ShapeKept(l, t);
    if t.Enqueue? { EnqueueChannel(l, t); } else if t.Receive? || t.Borrow? { ReceiveChannel(l, t); } else { OtherChannel(l, t); }
    hide Channel;
    hide Shape;
    hide Apply;
    hide Enabled;
  }

  lemma EnqueueChannel(l: Lane, t: Step)
    requires Shape(l) && Channel(l) && Enabled(l, t) && t.Enqueue? && Shape(Apply(l, t))
    ensures Channel(Apply(l, t))
  {
    hide Flatten;
  }

  lemma ReceiveChannel(l: Lane, t: Step)
    requires Shape(l) && Channel(l) && Enabled(l, t) && (t.Receive? || t.Borrow?) && Shape(Apply(l, t))
    ensures Channel(Apply(l, t))
  {
  }

  lemma OtherChannel(l: Lane, t: Step)
    requires Shape(l) && Channel(l) && Enabled(l, t) && !t.Enqueue? && !t.Receive? && !t.Borrow? && Shape(Apply(l, t))
    ensures Channel(Apply(l, t))
  {
    hide FirstFree;
    hide Flatten;
  }

  /** Accepting more blocks, or voiding others, changes nothing for a block. */
  lemma FaithfulLater(l: Lane, m: Lane, out: seq<int>, i: nat)
    requires Faithful(l, out, i) && l.accepted <= m.accepted && m.silence == l.silence && (i in m.voided <==> i in l.voided)
    ensures Faithful(m, out, i)
  {
  }

  lemma EnqueueOrder(l: Lane, data: seq<int>, guard: bool)
    requires Shape(l) && Channel(l) && Order(l) && Enabled(l, Enqueue(data, guard))
    ensures var m := Apply(l, Enqueue(data, guard)); Shape(m) && Channel(m) && Order(m)
  {
    var m := Apply(l, Enqueue(data, guard));
    ChannelKept(l, Enqueue(data, guard));
    hide FirstFree;
    assert l.accepted <= m.accepted;
    if !l.writer.Stopped? {
      var n := |l.delivered| + InWriter(l) + |l.ready|;
      assert m.accepted[n] == data;
      forall j | 0 <= j < |m.ready|
        ensures Faithful(m, m.slots[m.ready[j]].bytes, NumberOf(m, j))
      {
        if j < |l.ready| { assert Faithful(l, l.slots[l.ready[j]].bytes, NumberOf(l, j)); }
      }
    }
  }

  lemma ReceiveOrder(l: Lane)
    requires Shape(l) && Channel(l) && Order(l) && Enabled(l, Receive)
    ensures var m := Apply(l, Receive); Shape(m) && Channel(m) && Order(m)
  {
    var m := Apply(l, Receive);
    ChannelKept(l, Receive);
    if !l.wiped {
      assert Faithful(l, l.slots[l.ready[0]].bytes, |l.delivered| + 0);
      forall j | 0 <= j < |m.ready|
        ensures Faithful(m, m.slots[m.ready[j]].bytes, |m.delivered| + 1 + j)
      {
        assert m.ready[j] == l.ready[j + 1];
        assert Faithful(l, l.slots[l.ready[j + 1]].bytes, |l.delivered| + (j + 1));
      }
    }
  }

  lemma WriterOrder(l: Lane, t: Step)
    requires Shape(l) && Channel(l) && Order(l) && Enabled(l, t) && (t.Borrow? || t.WriteSome? || t.FinishBlock?)
    ensures Shape(Apply(l, t)) && Channel(Apply(l, t)) && Order(Apply(l, t))
  {
    var m := Apply(l, t);
    ChannelKept(l, t);
    assert m.accepted == l.accepted && m.ready == l.ready;
    forall j | 0 <= j < |l.ready| && !m.wiped && !m.writer.Stopped?
      ensures Faithful(m, m.slots[m.ready[j]].bytes, NumberOf(m, j))
    {
      assert Faithful(l, l.slots[l.ready[j]].bytes, NumberOf(l, j));
    }
  }

  /** The watcher voids blocks in the channel or just received, and no others. */
  lemma FoundAt(l: Lane, valid: nat -> bool, i: nat)
    requires !l.writer.Stopped?
    ensures i < |l.delivered| || (l.writer.Writing? && i == |l.delivered|) ==> i !in FoundVoid(l, valid)
    ensures l.writer.Received? && i == |l.delivered| ==> (i in FoundVoid(l, valid) <==> FindsVoid(l, valid, l.writer.slot))
    ensures forall j: nat :: j < |l.ready| && i == NumberOf(l, j) ==> (i in FoundVoid(l, valid) <==> FindsVoid(l, valid, l.ready[j]))
    ensures i in FoundVoid(l, valid) ==> i < |l.delivered| + InWriter(l) + |l.ready|
  {
  }

  lemma InspectFaithful(l: Lane, valid: nat -> bool, j: nat)
    requires Shape(l) && Channel(l) && Order(l) && j < |l.ready| && !l.wiped && !l.writer.Stopped?
    ensures var m := Apply(l, Inspect(valid)); l.ready[j] < |m.slots| && Faithful(m, m.slots[l.ready[j]].bytes, NumberOf(m, j))
  {
    assert Faithful(l, l.slots[l.ready[j]].bytes, NumberOf(l, j));
    FoundAt(l, valid, NumberOf(l, j));
    hide FoundVoid;
    hide Order;
    hide Shape;
  }

  lemma InspectOrder(l: Lane, valid: nat -> bool)
    requires Shape(l) && Channel(l) && Order(l)
    ensures var m := Apply(l, Inspect(valid)); Shape(m) && Channel(m) && Order(m)
  {
    var m := Apply(l, Inspect(valid));
    ChannelKept(l, Inspect(valid));
    if l.writer.Stopped? {
      assert FoundVoid(l, valid) == {};
    } else {
      forall i: nat ensures i !in FoundVoid(l, valid) || (i < |l.accepted| && i >= |l.delivered| && !(l.writer.Writing? && i == |l.delivered|)) {
        FoundAt(l, valid, i);
      }
      FoundAt(l, valid, |l.delivered|);
      forall j | 0 <= j < |l.ready| && !m.wiped
        ensures Faithful(m, m.slots[m.ready[j]].bytes, NumberOf(m, j))
      {
        InspectFaithful(l, valid, j);
      }
    }
    hide FoundVoid;
    hide Channel;
  }

  lemma OrderKept(l: Lane, t: Step)
    requires Shape(l) && Channel(l) && Order(l) && Enabled(l, t)
    ensures Shape(Apply(l, t)) && Channel(Apply(l, t)) && Order(Apply(l, t))
  {
    match t
    case Enqueue(data, guard) => EnqueueOrder(l, data, guard);
    case Receive => ReceiveOrder(l);
    case Borrow(_) => WriterOrder(l, t);
    case WriteSome(_, _, _) => WriterOrder(l, t);
    case FinishBlock(_) => WriterOrder(l, t);
    case Inspect(valid) => InspectOrder(l, valid);
    case _ =>
      ChannelKept(l, t);
      hide Wiped;
  }

  // ---------------------------------------------------------------- the pipe

  lemma FlattenAppend(blocks: seq<seq<int>>, block: seq<int>)
    ensures Flatten(blocks + [block]) == Flatten(blocks) + block
  {
    assert (blocks + [block])[..|blocks|] == blocks;
  }

  /** What a writer that has just stopped leaves of its block in the pipe. */
  lemma StoppedPiped(m: Lane, block: seq<int>, sent: nat)
    requires Shape(m) && m.writer.Stopped? && sent <= |block| && Faithful(m, block, |m.delivered|)
    requires m.pipe == Flatten(m.delivered) + block[..sent]
    ensures Piped(m)
  {
    hide Flatten;
    assert block[..sent] <= block;
    assert Partial(m, block[..sent]);
  }

  lemma BlockPiped(l: Lane)
    requires Sound(l) && l.writer.Writing?
    ensures l.pipe == Flatten(l.delivered) + l.slots[l.writer.slot].bytes[..l.writer.sent]
    ensures Faithful(l, l.slots[l.writer.slot].bytes, |l.delivered|)
  {
    hide Flatten;
  }

  /** What one pipe write does to the lane. */
  lemma WriteOutcome(l: Lane, n: nat, allowed: bool, failed: bool)
    requires Shape(l) && Enabled(l, WriteSome(n, allowed, failed))
    ensures var m, i, k := Apply(l, WriteSome(n, allowed, failed)), l.writer.slot, l.writer.sent;
            && m.delivered == l.delivered && m.accepted == l.accepted && m.silence == l.silence && m.voided == l.voided
            && (l.closed || !allowed ==> m.writer.Stopped? && m.pipe == l.pipe)
            && (!l.closed && allowed ==>
                  && m.pipe == l.pipe + l.slots[i].bytes[k..k + n]
                  && (if failed then m.writer.Stopped? else m.writer == Writing(i, k + n) && m.slots == l.slots))
  {
  }

  lemma ExtendPipe(pipe: seq<int>, block: seq<int>, k: nat, n: nat)
    requires k + n <= |block|
    ensures pipe + block[..k] + block[k..k + n] == pipe + block[..k + n]
  {
    assert block[..k] + block[k..k + n] == block[..k + n];
  }

  lemma WritePiped(l: Lane, n: nat, allowed: bool, failed: bool)
    requires Sound(l) && Enabled(l, WriteSome(n, allowed, failed))
    ensures var m := Apply(l, WriteSome(n, allowed, failed)); Shape(m) && Piped(m)
  {
    hide Flatten;
    hide Piped;
    hide Channel;
    hide Order;
    hide Shape;
    hide Apply;
    var t := WriteSome(n, allowed, failed);
    var m := Apply(l, t);
    var block, k := l.slots[l.writer.slot].bytes, l.writer.sent;
    ShapeKept(l, t);
    BlockPiped(l);
    WriteOutcome(l, n, allowed, failed);
    assert Faithful(m, block, |m.delivered|);
    if l.closed || !allowed {
      StoppedPiped(m, block, k);
    } else {
      ExtendPipe(Flatten(l.delivered), block, k, n);
      if failed { StoppedPiped(m, block, k + n); } else { WritingPiped(m); }
    }
  }

  lemma WritingPiped(m: Lane)
    requires Shape(m) && m.writer.Writing?
    requires m.pipe == Flatten(m.delivered) + m.slots[m.writer.slot].bytes[..m.writer.sent]
    ensures Piped(m)
  {
    hide Flatten;
    assert Partial(m, m.slots[m.writer.slot].bytes[..m.writer.sent]);
  }

  lemma FinishPiped(l: Lane, allowed: bool)
    requires Sound(l) && Enabled(l, FinishBlock(allowed))
    ensures var m := Apply(l, FinishBlock(allowed)); Shape(m) && Piped(m)
  {
    var m := Apply(l, FinishBlock(allowed));
    ShapeKept(l, FinishBlock(allowed));
    var block := l.slots[l.writer.slot].bytes;
    FlattenAppend(l.delivered, block);
    assert block[..l.writer.sent] == block;
    assert m.pipe == Flatten(m.delivered) + [];
    assert Partial(m, []);
    hide Flatten;
  }

  lemma QuietPiped(l: Lane, t: Step)
    requires Sound(l) && Enabled(l, t) && !t.WriteSome? && !t.FinishBlock?
    ensures Shape(Apply(l, t)) && Piped(Apply(l, t))
  {
    var m := Apply(l, t);
    ShapeKept(l, t);
    var tail :| l.pipe == Flatten(l.delivered) + tail && Partial(l, tail);
    assert m.pipe == l.pipe && m.delivered == l.delivered && l.accepted <= m.accepted && m.silence == l.silence;
    hide Flatten;
    hide Inspected;
    hide Wiped;
    hide FirstFree;
    if m.writer.Writing? && l.writer.Writing? {
      assert m.slots[m.writer.slot] == l.slots[l.writer.slot];
    } else if m.writer.Stopped? && l.writer.Stopped? && tail != [] {
      var block :| Faithful(l, block, |l.delivered|) && tail <= block;
      FaithfulLater(l, m, block, |l.delivered|);
    }
    assert Partial(m, tail);
  }

  lemma StepSound(l: Lane, t: Step)
    requires Sound(l) && Enabled(l, t)
    ensures Sound(Apply(l, t))
  {
    OrderKept(l, t);
    hide Order;
    hide Channel;
    hide Piped;
    match t
    case WriteSome(n, allowed, failed) => WritePiped(l, n, allowed, failed);
    case FinishBlock(allowed) => FinishPiped(l, allowed);
    case _ => QuietPiped(l, t);
  }

  lemma FreshSound(count: nat, silence: seq<int>)
    ensures Sound(FreshLane(count, silence))
  {
    var l := FreshLane(count, silence);
    assert Shape(l);
    assert l.pipe == Flatten(l.delivered) + [] && Partial(l, []);
  }

  lemma {:induction false} ExecutionSound(count: nat, silence: seq<int>, steps: seq<Step>, states: seq<Lane>, k: nat)
    requires Execution(count, silence, steps, states) && k < |states|
    ensures Sound(states[k]) && states[k].silence == silence && |states[k].slots| == count
  {
    hide Sound;
    if k == 0 {
      FreshSound(count, silence);
    } else {
      ExecutionSound(count, silence, steps, states, k - 1);
      StepSound(states[k - 1], steps[k - 1]);
    }
  }

  // ---------------------------------------------------------------- main results

  /** The bytes in the pipe are a prefix of the accepted blocks in order, each verbatim if
      its guard held as long as it could be replaced and wholly silence if not, under every
      interleaving. */
  lemma PipeIsFaithfulPrefix(count: nat, silence: seq<int>, steps: seq<Step>, states: seq<Lane>, k: nat)
    returns (out: seq<seq<int>>)
    requires Execution(count, silence, steps, states) && k < |states|
    ensures |out| <= |states[k].accepted|
    ensures forall i :: 0 <= i < |out| ==> out[i] == if i in states[k].voided then silence else states[k].accepted[i]
    ensures states[k].pipe <= Flatten(out)
    ensures |Flatten(out)| - |states[k].pipe| <= |silence|
  {
    hide Flatten;
    hide Channel;
    var l := states[k];
    ExecutionSound(count, silence, steps, states, k);
    var tail :| l.pipe == Flatten(l.delivered) + tail && Partial(l, tail);
    out := l.delivered;
    if tail == [] {
      assert forall i :: 0 <= i < |out| ==> Faithful(l, l.delivered[i], i);
      assert l.pipe == Flatten(out);
    } else {
      var block: seq<int>;
      if l.writer.Writing? {
        block := l.slots[l.writer.slot].bytes;
      } else {
        block :| Faithful(l, block, |l.delivered|) && tail <= block;
      }
      out := l.delivered + [block];
      FlattenAppend(l.delivered, block);
      assert forall i :: 0 <= i < |l.delivered| ==> Faithful(l, l.delivered[i], i);
      assert Faithful(l, block, |l.delivered|);
      assert tail <= block;
    }
  }

  /** The producer's send never blocks: when a block is admitted, the index channel, which
      has one cell per slot, has room. */
  lemma SendNeverBlocks(count: nat, silence: seq<int>, steps: seq<Step>, states: seq<Lane>, k: nat)
    requires Execution(count, silence, steps, states) && k < |steps| && steps[k].Enqueue?
    ensures |states[k].ready| < count
  {
    var l := states[k];
    ExecutionSound(count, silence, steps, states, k);
    assert Enabled(l, steps[k]);
    Pigeonhole(l.ready, count);
    assert FirstFree(l.slots) !in l.ready;
  }

  /** Nobody but the writer touches the slot it has borrowed. */
  lemma BorrowedSlotUntouched(count: nat, silence: seq<int>, steps: seq<Step>, states: seq<Lane>, k: nat, i: nat)
    requires Execution(count, silence, steps, states) && k < |steps|
    requires i < |states[k].slots| && states[k].slots[i].state == Borrowed
    requires !steps[k].WriteSome? && !steps[k].FinishBlock?
    ensures i < |states[k + 1].slots| && states[k + 1].slots[i] == states[k].slots[i]
  {
    ExecutionSound(count, silence, steps, states, k);
    assert Enabled(states[k], steps[k]) && states[k + 1] == Apply(states[k], steps[k]);
    hide Order;
    hide Piped;
    hide Channel;
    hide Inspected;
    hide Wiped;
    hide FirstFree;
  }

  /** Slot `slot` holds block i, which the writer has not borrowed yet. */
  ghost predicate Keeps(l: Lane, slot: nat, i: nat) {
    || (l.writer.Received? && slot == l.writer.slot && i == |l.delivered|)
    || (!l.writer.Stopped? && exists j: nat :: j < |l.ready| && l.ready[j] == slot && i == NumberOf(l, j))
  }

  /** The step finds the guard of block i void: when it is enqueued, when the watcher looks
      at its slot, or when the writer borrows it. */
  ghost predicate Voids(l: Lane, t: Step, i: nat)
    requires Enabled(l, t)
  {
    match t
    case Enqueue(_, guard) => !guard && i == |l.accepted|
    case Borrow(guard) => !guard && i == |l.delivered| && !l.closed && l.slots[l.writer.slot].state == Queued
    case Inspect(valid) => exists slot :: 0 <= slot < |l.slots| && l.slots[slot].state == Queued && !valid(slot) && Keeps(l, slot, i)
    case _ => false
  }

  lemma StepVoids(l: Lane, t: Step, i: nat)
    requires Enabled(l, t)
    ensures i in Apply(l, t).voided <==> i in l.voided || Voids(l, t, i)
  {
    hide FirstFree;
    hide Inspected;
    hide Wiped;
    if t.Inspect? { FoundExactly(l, t.valid, i); }
    hide FoundVoid;
    hide Keeps;
  }

  lemma FoundExactly(l: Lane, valid: nat -> bool, i: nat)
    ensures i in FoundVoid(l, valid) <==> Voids(l, Inspect(valid), i)
  {
    if i in FoundVoid(l, valid) {
      if l.writer.Received? && FindsVoid(l, valid, l.writer.slot) && i == |l.delivered| {
        assert Keeps(l, l.writer.slot, i);
      } else {
        var j: nat :| j < |l.ready| && FindsVoid(l, valid, l.ready[j]) && i == NumberOf(l, j);
        assert Keeps(l, l.ready[j], i);
      }
    }
  }

  /** A block is replaced exactly if some step found its guard void. */
  lemma {:induction false} VoidedExactly(count: nat, silence: seq<int>, steps: seq<Step>, states: seq<Lane>, k: nat, i: nat)
    requires Execution(count, silence, steps, states) && k < |states|
    ensures i in states[k].voided <==> exists j :: 0 <= j < k && Voids(states[j], steps[j], i)
  {
    hide Apply;
    hide Enabled;
    hide Voids;
    if k > 0 {
      VoidedExactly(count, silence, steps, states, k - 1, i);
      assert Enabled(states[k - 1], steps[k - 1]) && states[k - 1 + 1] == Apply(states[k - 1], steps[k - 1]);
      StepVoids(states[k - 1], steps[k - 1], i);
    }
  }

  // ---------------------------------------------------------------- the writer gets through

  /** What the writer does next while nothing fails: it writes whole blocks. */
  function WriterStep(l: Lane): Step {
    match l.writer
    case Waiting => Receive
    case Received(_) => Borrow(true)
    case Writing(i, sent) =>
      if i < |l.slots| && sent < |l.slots[i].bytes| then WriteSome(|l.slots[i].bytes| - sent, true, false) else FinishBlock(true)
    case Stopped => LeaveLoop
  }

  /** The lane after n steps of the writer. */
  ghost predicate Drives(l: Lane, n: nat, m: Lane)
    decreases n
  {
    if n == 0 then m == l
    else Enabled(l, WriterStep(l)) && Drives(Apply(l, WriterStep(l)), n - 1, m)
  }

  /** Writer steps still needed for the blocks in the lane. */
  function Work(l: Lane): int {
    4 * (|l.accepted| - |l.delivered|)
    - match l.writer
      case Received(_) => 1
      case Writing(i, sent) => if i < |l.slots| && sent < |l.slots[i].bytes| then 2 else 3
      case _ => 0
  }

  lemma WriterAdvances(l: Lane)
    requires Sound(l) && !l.closed && !l.writer.Stopped? && |l.delivered| < |l.accepted|
    ensures Enabled(l, WriterStep(l))
    ensures var m := Apply(l, WriterStep(l));
            && !m.closed && !m.writer.Stopped? && Work(m) < Work(l)
            && m.accepted == l.accepted && m.voided == l.voided && m.silence == l.silence
  {
    hide Piped;
    hide FirstFree;
    hide Flatten;
  }

  lemma WorkAtLeastZero(l: Lane)
    requires Sound(l)
    ensures Work(l) >= 0
  {
    hide Piped;
  }

  /** From every reachable state of a lane that is not closed, the writer alone delivers every
      accepted block, verbatim if its guard was never found void. */
  lemma {:induction false} EverythingDelivered(l: Lane) returns (n: nat, m: Lane)
    requires Sound(l) && !l.closed && !l.writer.Stopped?
    ensures Drives(l, n, m) && m.accepted == l.accepted && |m.delivered| == |l.accepted|
    ensures forall i :: 0 <= i < |m.delivered| ==> m.delivered[i] == if i in l.voided then l.silence else l.accepted[i]
    ensures m.pipe == Flatten(m.delivered)
    decreases Work(l)
  {
    hide Sound;
    hide Flatten;
    hide Apply;
    hide Enabled;
    hide Work;
    WorkAtLeastZero(l);
    SoundCount(l);
    if |l.delivered| == |l.accepted| {
      n, m := 0, l;
      Drained(l);
    } else {
      WriterAdvances(l);
      StepSound(l, WriterStep(l));
      var next := Apply(l, WriterStep(l));
      WorkAtLeastZero(next);
      var k;
      k, m := EverythingDelivered(next);
      n := k + 1;
    }
  }

  lemma SoundCount(l: Lane)
    requires Sound(l)
    ensures |l.delivered| <= |l.accepted|
  {
    hide Piped;
  }

  lemma Drained(l: Lane)
    requires Sound(l) && !l.writer.Stopped? && |l.delivered| == |l.accepted|
    ensures forall i :: 0 <= i < |l.delivered| ==> l.delivered[i] == if i in l.voided then l.silence else l.accepted[i]
    ensures l.pipe == Flatten(l.delivered)
  {
    hide Flatten;
    hide Channel;
    forall i | 0 <= i < |l.delivered| ensures l.delivered[i] == if i in l.voided then l.silence else l.accepted[i] {
      assert Faithful(l, l.delivered[i], i);
    }
    var tail :| l.pipe == Flatten(l.delivered) + tail && Partial(l, tail);
  }
}
