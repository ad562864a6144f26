/** All generations that share one served directory.  Each has the directory to itself, from
    empty to empty, and its own million of segment numbers. */
module HlsGenerations {
  import opened Common
  import opened HlsStage
  import opened HlsRetention
  import opened HlsLife
  import opened HlsInvalidation
  import Epoch = HlsEpoch

  datatype Generation = Generation(steps: seq<Step>, states: seq<Stage>)

  predicate PlanInRange(p: Plan, e: nat) {
    Epoch.Start(e) <= p.first && p.Last() < Epoch.Start(e) + Epoch.SPAN
  }

  predicate PlansInRange(plans: seq<Plan>, e: nat) {
    forall r :: 0 <= r < |plans| ==> PlanInRange(plans[r], e)
  }

  /** Every playlist of the generation passed its epoch check. */
  ghost predicate InGeneration(steps: seq<Step>, e: nat) {
    forall k :: 0 <= k < |steps| && steps[k].Begin? ==> PlansInRange(steps[k].plans, e)
  }

  /** A playlist that the epoch check accepts is in range. */
  lemma CheckedInRange(lines: seq<Epoch.Line>, e: nat, p: Plan)
    requires Epoch.Shape(lines) && Epoch.InEpoch(lines, e)
    requires p.first == Epoch.SequenceOf(lines) && p.count == |Epoch.Segments(lines)|
    ensures PlanInRange(p, e)
  {
    Epoch.ShapeFacts(lines);
    var i := |Epoch.Segments(lines)| - 1;
    assert Epoch.Segments(lines)[i] == Epoch.Name(Epoch.SequenceOf(lines) + i, 9);
  }

  /** Generations in order; a next one exists only after the invalidation before it ended
      without an error. */
  ghost predicate History(n: nat, maxBytes: nat, gens: seq<Generation>) {
    && |gens| <= Epoch.LIMIT
    && (forall e :: 0 <= e < |gens| ==> Execution(n, maxBytes, gens[e].steps, gens[e].states) && InGeneration(gens[e].steps, e))
    && (forall e :: 0 <= e < |gens| - 1 ==> gens[e].states[|gens[e].steps|].phase == Ended(true))
  }

  ghost predicate Ranged(s: Stage, e: nat) {
    && (forall p :: p in s.published && p.Segment? ==> Epoch.Start(e) <= p.number < Epoch.Start(e) + Epoch.SPAN)
    && PlansInRange(PlansOf(s), e)
  }

  lemma PlansStep(s: Stage, t: Step)
    requires Enabled(s, t)
    ensures PlansOf(Apply(s, t)) == PlansOf(s) || PlansOf(Apply(s, t)) == [] || (t.Begin? && PlansOf(Apply(s, t)) == t.plans)
  {
    hide AllMedia;
    hide Fits;
    hide Publishable;
  }

  lemma RangedStep(s: Stage, t: Step, e: nat)
    requires Ranged(s, e) && Enabled(s, t) && (t.Begin? ==> PlansInRange(t.plans, e))
    ensures Ranged(Apply(s, t), e)
  {
    PlansStep(s, t);
    StepServes(s, t);
    if t.Copy? || t.Touch? { NextMedia(s.phase.plans, s.phase.next); }
    hide AllMedia;
    hide Apply;
    hide Fits;
    hide Publishable;
    hide Epoch.Start;
  }

  lemma {:induction false} AlwaysRanged(n: nat, maxBytes: nat, steps: seq<Step>, states: seq<Stage>, e: nat, k: nat)
    requires Execution(n, maxBytes, steps, states) && InGeneration(steps, e) && k < |states|
    ensures Ranged(states[k], e)
  {
    hide Apply;
    hide Enabled;
    if k > 0 {
      AlwaysRanged(n, maxBytes, steps, states, e, k - 1);
      RangedStep(states[k - 1], steps[k - 1], e);
    }
  }

  /** Over all generations of a directory, a segment name stands for one content. */
  lemma SegmentNamesAreForever(n: nat, maxBytes: nat, gens: seq<Generation>, e: nat, i: nat, f: nat, j: nat, p: Path)
    requires History(n, maxBytes, gens) && e < |gens| && f < |gens| && i < |gens[e].states| && j < |gens[f].states|
    requires p.Segment? && p in gens[e].states[i].published && p in gens[f].states[j].published
    ensures e == f && gens[e].states[i].published[p].file == gens[f].states[j].published[p].file
  {
    AlwaysRanged(n, maxBytes, gens[e].steps, gens[e].states, e, i);
    AlwaysRanged(n, maxBytes, gens[f].steps, gens[f].states, f, j);
    Epoch.InRange(p.number, e);
    Epoch.InRange(p.number, f);
    if i <= j {
      NamesKeepTheirContent(n, maxBytes, gens[e].steps, gens[e].states, i, j, p);
    } else {
      NamesKeepTheirContent(n, maxBytes, gens[e].steps, gens[e].states, j, i, p);
    }
  }

  /** Generations never mix: each begins with an empty directory and leaves one. */
  lemma EmptyBetween(n: nat, maxBytes: nat, gens: seq<Generation>, e: nat)
    requires History(n, maxBytes, gens) && e + 1 < |gens|
    ensures gens[e].states[|gens[e].steps|].published == map[] && gens[e + 1].states[0].published == map[]
  {
    CleanEndServesNothing(n, maxBytes, gens[e].steps, gens[e].states, |gens[e].steps|);
  }

  /** Every generation serves a rendition's init object with its playlist. */
  lemma InitServedWithPlaylist(n: nat, maxBytes: nat, gens: seq<Generation>, e: nat, i: nat, r: nat)
    requires History(n, maxBytes, gens) && e < |gens| && i < |gens[e].states| && Serving(gens[e].states[i])
    requires Playlist(r) in gens[e].states[i].published
    ensures Init(r) in gens[e].states[i].published
  {
    NeverDangles(n, maxBytes, gens[e].steps, gens[e].states, i);
    NamesItsInit(n, maxBytes, gens[e].steps, gens[e].states, i, r);
  }

  lemma {:induction false} NamesItsInit(n: nat, maxBytes: nat, steps: seq<Step>, states: seq<Stage>, k: nat, r: nat)
    requires Execution(n, maxBytes, steps, states) && k < |states| && Playlist(r) in states[k].published
    ensures Init(r) in states[k].published[Playlist(r)].file.refs
  {
    hide Apply;
    hide Enabled;
    if k > 0 {
      var s, t := states[k - 1], steps[k - 1];
      assert Enabled(s, t) && states[k - 1 + 1] == Apply(s, t);
      if Playlist(r) in s.published { NamesItsInit(n, maxBytes, steps, states, k - 1, r); }
      ExecutionCoherent(n, maxBytes, steps, states, k - 1);
      InitStep(s, t, r);
    }
  }

  lemma InitStep(s: Stage, t: Step, r: nat)
    requires Coherent(s) && Enabled(s, t) && Playlist(r) in Apply(s, t).published
    requires Playlist(r) in s.published ==> Init(r) in s.published[Playlist(r)].file.refs
    ensures Init(r) in Apply(s, t).published[Playlist(r)].file.refs
  {
    StepServes(s, t);
    if t.Copy? || t.Touch? { NextMedia(s.phase.plans, s.phase.next); }
    if t.WritePlaylist? { WritesItsInit(s); }
    hide AllMedia;
    hide Apply;
    hide Coherent;
    hide Fits;
    hide Publishable;
  }

  lemma WritesItsInit(s: Stage)
    requires Coherent(s) && Enabled(s, WritePlaylist(false))
    ensures Init(s.phase.next) in s.phase.plans[s.phase.next].text.refs
  {
    var r := s.phase.next;
    assert Parsed(r, s.phase.plans[r]);
    MediaNamed(r, s.phase.plans[r], Init(r));
  }

  // ---------------------------------------------------------------- which names keep their content

  lemma LifeInRange(steps: seq<Step>, n: nat, e: nat)
    requires OneBegin(steps, n, Epoch.Start(e))
    ensures InGeneration(steps, e)
  {
  }

  /** A history of m generations in which generation g gives every init object content g. */
  lemma {:induction false} Lives(n: nat, m: nat) returns (gens: seq<Generation>, up: seq<nat>)
    requires Roomy(n) && m <= Epoch.LIMIT
    ensures |gens| == |up| == m && History(n, ROOM, gens)
    ensures forall g :: 0 <= g < m ==> up[g] < |gens[g].states| && Up(gens[g].states[up[g]], n, Epoch.Start(g), g)
    ensures forall g :: 0 <= g < m ==> gens[g].states[|gens[g].steps|].phase == Ended(true)
  {
    hide Up;
    hide OneBegin;
    hide InGeneration;
    gens, up := [], [];
    if m > 0 {
      gens, up := Lives(n, m - 1);
      var steps, states, k := WholeLife(n, Epoch.Start(m - 1), m - 1);
      LifeInRange(steps, n, m - 1);
      gens, up := gens + [Generation(steps, states)], up + [k];
    }
  }

  /** For every rendition and every two generations there is a history in which the init
      object returns, with its whole publication, and with different content. */
  lemma InitContentDiffers(n: nat, r: nat, e: nat, f: nat) returns (gens: seq<Generation>, i: nat, j: nat)
    requires Roomy(n) && r < n && e < f < Epoch.LIMIT
    ensures History(n, ROOM, gens) && |gens| == f + 1 && i < |gens[e].states| && j < |gens[f].states|
    ensures Up(gens[e].states[i], n, Epoch.Start(e), e) && Up(gens[f].states[j], n, Epoch.Start(f), f)
    ensures Init(r) in gens[e].states[i].published && Init(r) in gens[f].states[j].published
    ensures gens[e].states[i].published[Init(r)].file != gens[f].states[j].published[Init(r)].file
  {
    var up;
    gens, up := Lives(n, f + 1);
    i, j := up[e], up[f];
    assert Up(gens[e].states[i], n, Epoch.Start(e), e) && Up(gens[f].states[j], n, Epoch.Start(f), f);
    hide History;
    assert Object(Epoch.Start(e), 2 * r) == Init(r) && Object(Epoch.Start(f), 2 * r) == Init(r);
  }

  /** Whenever the name is visible in generation e and in generation f, in any history, it
      stands for the same file. */
  ghost predicate Guaranteed(n: nat, p: Path, e: nat, f: nat) {
    forall maxBytes: nat, gens: seq<Generation>, i: nat, j: nat ::
      && History(n, maxBytes, gens) && e < |gens| && f < |gens| && i < |gens[e].states| && j < |gens[f].states|
      && p in gens[e].states[i].published && p in gens[f].states[j].published ==>
        gens[e].states[i].published[p].file == gens[f].states[j].published[p].file
  }

  lemma GuaranteedWithin(n: nat, p: Path, e: nat)
    requires p.Init? || p.Segment?
    ensures Guaranteed(n, p, e, e)
  {
    forall maxBytes: nat, gens: seq<Generation>, i: nat, j: nat
      | History(n, maxBytes, gens) && e < |gens| && i < |gens[e].states| && j < |gens[e].states|
        && p in gens[e].states[i].published && p in gens[e].states[j].published
      ensures gens[e].states[i].published[p].file == gens[e].states[j].published[p].file
    {
      var g := gens[e];
      if i <= j {
        NamesKeepTheirContent(n, maxBytes, g.steps, g.states, i, j, p);
      } else {
        NamesKeepTheirContent(n, maxBytes, g.steps, g.states, j, i, p);
      }
    }
  }

  lemma GuaranteedSegment(n: nat, p: Path, e: nat, f: nat)
    requires p.Segment?
    ensures Guaranteed(n, p, e, f)
  {
    forall maxBytes: nat, gens: seq<Generation>, i: nat, j: nat
      | History(n, maxBytes, gens) && e < |gens| && f < |gens| && i < |gens[e].states| && j < |gens[f].states|
        && p in gens[e].states[i].published && p in gens[f].states[j].published
      ensures gens[e].states[i].published[p].file == gens[f].states[j].published[p].file
    {
      SegmentNamesAreForever(n, maxBytes, gens, e, i, f, j, p);
    }
  }

  /** A media name keeps its content between two generations, in every history, exactly when
      they are the same generation or the name is a segment's. */
  lemma ContentGuaranteedExactly(n: nat, p: Path, e: nat, f: nat)
    requires Roomy(n) && (p.Init? || p.Segment?) && p.rendition < n && e < Epoch.LIMIT && f < Epoch.LIMIT
    ensures Guaranteed(n, p, e, f) <==> e == f || p.Segment?
  {
    if p.Segment? {
      GuaranteedSegment(n, p, e, f);
    } else if e == f {
      GuaranteedWithin(n, p, e);
    } else if e < f {
      var gens, i, j := InitContentDiffers(n, p.rendition, e, f);
    } else {
      var gens, i, j := InitContentDiffers(n, p.rendition, f, e);
      hide Up;
    }
  }
}
