/** The audio mixer over whole runs: sources come, change their gain, are written early or
    late and go, and every block is the mix of what the open sources had for its times. */
module AudioProgram {
  import opened Common
  import opened ProgramTime
  import opened AudioMix

  datatype Voice = Voice(ring: Ring, left: int, right: int, muted: bool) {
    predicate Gains() { 0 <= left <= 32768 && 0 <= right <= 32768 }
  }

  /** A block that was handed on, and the time of its first sample. */
  datatype Block = Block(at: int, samples: seq<Sample>)

  datatype Mixer = Mixer(size: nat, start: nat, cursor: nat, voices: map<int, Voice>, closed: bool, out: seq<Block>)

  datatype Step =
    | AddVoice(id: int, left: int, right: int)
    | SetGain(id: int, left: int, right: int)
    | SetMuted(id: int, muted: bool)
    | WriteTo(id: int, at: int, packet: seq<Sample>)     // a refused packet closes its source
    | CloseVoice(id: int)
    | Render(denied: set<int>, late: set<int>)           // sources found without authority before and after the sum
    | FailRender(denied: set<int>)                       // the hand-off failed: the mixer closes
    | Close

  predicate Enabled(m: Mixer, t: Step) {
    !m.closed &&
    match t
    case AddVoice(id, l, r) => id !in m.voices && |m.voices| < MAX_SOURCES && Voice(FreshRing(0, 0), l, r, false).Gains()
    case SetGain(id, l, r) => id in m.voices && Voice(FreshRing(0, 0), l, r, false).Gains()
    case SetMuted(id, _) => id in m.voices
    case WriteTo(id, _, packet) => id in m.voices && forall i :: 0 <= i < |packet| ==> packet[i].Valid()
    case CloseVoice(id) => id in m.voices
    case Render(_, _) => m.cursor <= MAX_TIME - BLOCK
    case FailRender(_) => true
    case Close => true
  }

  function Open(v: map<int, Voice>, denied: set<int>): map<int, Voice> {
    v - denied
  }

  /** What the render loop reads from a ring while it clears it. */
  function Taken(r: Ring): (s: seq<Sample>)
    requires r.slots != []
  {
    var t := Take(r, BLOCK);
    if |r.played| <= |t.played| then t.played[|r.played|..] else []
  }

  function TakenSource(id: int, v: Voice): Source
    requires v.ring.slots != []
  {
    Source(id, v.left, v.right, v.muted, Taken(v.ring))
  }

  predicate Ringed(voices: map<int, Voice>) {
    forall id :: id in voices ==> voices[id].ring.slots != []
  }

  function TakenSources(voices: map<int, Voice>): set<Source>
    requires Ringed(voices)
  {
    set id | id in voices :: TakenSource(id, voices[id])
  }

  ghost function Mixed(sources: set<Source>, i: nat): Sample
    requires AllValid(sources, BLOCK) && i < BLOCK
  {
    Sample(Output(Sum(sources, BLOCK, i, false)), Output(Sum(sources, BLOCK, i, true)))
  }

  /** The block the mixer hands on; silence if a summed source has lost its authority. */
  ghost function Rendered(voices: map<int, Voice>, late: set<int>): seq<Sample>
    requires Ringed(voices)
  {
    if voices.Keys * late != {} || !AllValid(TakenSources(voices), BLOCK) then seq(BLOCK, _ => ZERO)
    else seq(BLOCK, i requires 0 <= i < BLOCK => Mixed(TakenSources(voices), i))
  }

  function Played(voices: map<int, Voice>): map<int, Voice>
    requires Ringed(voices)
  {
    map id | id in voices :: voices[id].(ring := Take(voices[id].ring, BLOCK))
  }

  ghost function Apply(m: Mixer, t: Step): Mixer
    requires Enabled(m, t) && Ringed(m.voices)
  {
    match t
    case AddVoice(id, l, r) => m.(voices := m.voices[id := Voice(FreshRing(m.size, m.cursor), l, r, false)])
    case SetGain(id, l, r) => m.(voices := m.voices[id := m.voices[id].(left := l, right := r)])
    case SetMuted(id, muted) => m.(voices := m.voices[id := m.voices[id].(muted := muted)])
    case WriteTo(id, at, packet) =>
      var v := m.voices[id];
      if Refused(v.ring, at, packet) then m.(voices := m.voices - {id})
      else m.(voices := m.voices[id := v.(ring := Write(v.ring, at, packet))])
    case CloseVoice(id) => m.(voices := m.voices - {id})
    case Render(denied, late) =>
      var open := Open(m.voices, denied);
      m.(voices := Played(open) - late, cursor := m.cursor + BLOCK, out := m.out + [Block(m.cursor, Rendered(open, late))])
    case FailRender(_) => m.(closed := true, voices := map[])
    case Close => m.(closed := true, voices := map[])
  }

  function Initial(size: nat, start: nat): Mixer {
    Mixer(size, start, start, map[], false, [])
  }

  ghost predicate Execution(size: nat, start: nat, steps: seq<Step>, states: seq<Mixer>) {
    && size >= BLOCK && |states| == |steps| + 1 && states[0] == Initial(size, start)
    && forall k :: 0 <= k < |steps| ==> Enabled(states[k], steps[k]) && Ringed(states[k].voices) && states[k + 1] == Apply(states[k], steps[k])
  }

  // ---------------------------------------------------------------- the invariant

  ghost predicate VoiceKept(v: Voice, size: nat, cursor: int) {
    && Represents(v.ring) && v.ring.cursor == cursor && |v.ring.slots| == size && v.Gains()
    && forall t :: t in v.ring.heard ==> v.ring.heard[t].Valid()
  }

  ghost predicate Kept(m: Mixer) {
    && m.size >= BLOCK
    && (forall id :: id in m.voices ==> VoiceKept(m.voices[id], m.size, m.cursor))
    && m.cursor == m.start + BLOCK * |m.out|
    && forall n :: 0 <= n < |m.out| ==> m.out[n].at == m.start + BLOCK * n
  }

  lemma FreshKept(size: nat, cursor: nat, left: int, right: int)
    requires size >= BLOCK && 0 <= left <= 32768 && 0 <= right <= 32768
    ensures VoiceKept(Voice(FreshRing(size, cursor), left, right, false), size, cursor)
  {
    FreshRepresents(size, cursor);
  }

  /** What storing a packet leaves in the time map. */
  lemma WriteKept(v: Voice, size: nat, cursor: int, at: int, packet: seq<Sample>)
    requires VoiceKept(v, size, cursor) && !Refused(v.ring, at, packet) && forall i :: 0 <= i < |packet| ==> packet[i].Valid()
    ensures v.ring.slots != [] && VoiceKept(v.(ring := Write(v.ring, at, packet)), size, cursor)
  {
    NonEmptyRing(v.ring);
    WriteRepresents(v.ring, at, packet);
    var r, end := v.ring, at + |packet|;
    var marked := r.(started := true, lastEnd := end);
    MarkedRepresents(r, end);
    StoreHeard(marked, at, packet, Min(Max(at, r.cursor), end), end);
    hide Represents;
    hide Store;
    var s := Write(r, at, packet);
    forall t | t in s.heard ensures s.heard[t].Valid() { }
  }

  lemma TakeKept(v: Voice, size: nat, cursor: int)
    requires VoiceKept(v, size, cursor)
    ensures v.ring.slots != [] && VoiceKept(v.(ring := Take(v.ring, BLOCK)), size, cursor + BLOCK)
    ensures |Taken(v.ring)| == BLOCK
    ensures forall i :: 0 <= i < BLOCK ==> Taken(v.ring)[i] == HeardAt(v.ring, cursor + i)
  {
    NonEmptyRing(v.ring);
    TakeRepresents(v.ring, BLOCK);
    hide Take;
  }

  lemma RenderKept(m: Mixer, t: Step)
    requires Kept(m) && Ringed(m.voices) && Enabled(m, t) && t.Render?
    ensures Kept(Apply(m, t))
  {
    hide VoiceKept;
    hide Rendered;
    hide Take;
    var n := Apply(m, t);
    forall id | id in n.voices ensures VoiceKept(n.voices[id], n.size, n.cursor) {
      TakeKept(m.voices[id], m.size, m.cursor);
    }
  }

  lemma StepKept(m: Mixer, t: Step)
    requires Kept(m) && Ringed(m.voices) && Enabled(m, t)
    ensures Kept(Apply(m, t))
  {
    match t
    case AddVoice(_, l, r) => FreshKept(m.size, m.cursor, l, r);
    case WriteTo(id, at, packet) => if !Refused(m.voices[id].ring, at, packet) { WriteKept(m.voices[id], m.size, m.cursor, at, packet); }
    case Render(_, _) => RenderKept(m, t);
    case _ =>
  }

  lemma {:induction false} ExecutionKept(size: nat, start: nat, steps: seq<Step>, states: seq<Mixer>, k: nat)
    requires Execution(size, start, steps, states) && k < |states|
    ensures Kept(states[k])
  {
    hide Kept;
    hide Apply;
    hide Enabled;
    if k == 0 {
      InitialKept(size, start);
    } else {
      ExecutionKept(size, start, steps, states, k - 1);
      StepKept(states[k - 1], steps[k - 1]);
    }
  }

  lemma InitialKept(size: nat, start: nat)
    requires size >= BLOCK
    ensures Kept(Initial(size, start))
  {
  }

  // ---------------------------------------------------------------- main result

  /** What a source has for the block that begins at `at`. */
  function HeardSource(id: int, v: Voice, at: int): Source {
    Source(id, v.left, v.right, v.muted, seq(BLOCK, i requires 0 <= i < BLOCK => HeardAt(v.ring, at + i)))
  }

  function HeardSources(voices: map<int, Voice>, at: int): set<Source> {
    set id | id in voices :: HeardSource(id, voices[id], at)
  }

  lemma HeardIsTaken(m: Mixer, id: int)
    requires Kept(m) && Ringed(m.voices) && id in m.voices
    ensures TakenSource(id, m.voices[id]) == HeardSource(id, m.voices[id], m.cursor)
    ensures HeardSource(id, m.voices[id], m.cursor).Valid(BLOCK)
  {
    var v := m.voices[id];
    assert VoiceKept(v, m.size, m.cursor);
    TakeKept(v, m.size, m.cursor);
    hide Taken;
    hide Represents;
    assert Taken(v.ring) == HeardSource(id, v, m.cursor).block;
  }

  lemma AllHeardIsTaken(m: Mixer, denied: set<int>)
    requires Kept(m) && Ringed(m.voices)
    ensures var open := Open(m.voices, denied);
            && Ringed(open) && TakenSources(open) == HeardSources(open, m.cursor) && AllValid(HeardSources(open, m.cursor), BLOCK)
  {
    var open := Open(m.voices, denied);
    forall id | id in open
      ensures TakenSource(id, open[id]) == HeardSource(id, open[id], m.cursor) && HeardSource(id, open[id], m.cursor).Valid(BLOCK)
    {
      HeardIsTaken(m, id);
    }
    hide TakenSource;
    hide HeardSource;
    hide Kept;
    forall s ensures s in TakenSources(open) <==> s in HeardSources(open, m.cursor) {
      if s in TakenSources(open) { var id :| id in open && s == TakenSource(id, open[id]); }
      if s in HeardSources(open, m.cursor) { var id :| id in open && s == HeardSource(id, open[id], m.cursor); }
    }
  }

  /** In every run, the block rendered at cursor c is contiguous with the blocks before it
      and has at i the clamped sum, over the sources open at that moment, of gain times what
      each has for time c + i; it is silence only when a summed source lost its authority. */
  lemma BlockIsMixOfHeard(size: nat, start: nat, steps: seq<Step>, states: seq<Mixer>, k: nat)
    requires Execution(size, start, steps, states) && k < |steps| && steps[k].Render?
    ensures var m, t := states[k], steps[k];
            var open := Open(m.voices, t.denied);
            && AllValid(HeardSources(open, m.cursor), BLOCK)
            && m.cursor == start + BLOCK * |m.out|
            && |states[k + 1].out| == |m.out| + 1 && states[k + 1].out[..|m.out|] == m.out
            && var b := states[k + 1].out[|m.out|];
               && b.at == m.cursor && |b.samples| == BLOCK
               && forall i :: 0 <= i < BLOCK ==>
                    b.samples[i] == if open.Keys * t.late != {} then ZERO else Mixed(HeardSources(open, m.cursor), i)
  {
    var m, t := states[k], steps[k];
    ExecutionKept(size, start, steps, states, k);
    StartKept(size, start, steps, states, k);
    AllHeardIsTaken(m, t.denied);
    hide Mixed;
    hide HeardSources;
    hide TakenSources;
    hide Played;
  }

  lemma {:induction false} StartKept(size: nat, start: nat, steps: seq<Step>, states: seq<Mixer>, k: nat)
    requires Execution(size, start, steps, states) && k < |states|
    ensures states[k].start == start
  {
    hide Rendered;
    hide Played;
    if k > 0 { StartKept(size, start, steps, states, k - 1); }
  }
}
