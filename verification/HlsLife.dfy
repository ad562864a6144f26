/** Whole lives of a generation, built step by step: it publishes every rendition once, is
    revoked and removed.  They are the witnesses for what can happen in the directory. */
module HlsLife {
  import opened Common
  import opened HlsStage

  const ROOM := 1000

  /** As many renditions as a full directory holds. */
  predicate Roomy(n: nat) {
    1 <= n && 3 * n + 1 <= MAX_FILES
  }

  function TextFor(r: nat, first: nat): File {
    File(10, 7, {Init(r), Segment(r, first)})
  }

  function PlanFor(r: nat, first: nat): Plan {
    Plan(first, 1, TextFor(r, first), "#EXTM3U")
  }

  function PlansFor(n: nat, first: nat): (plans: seq<Plan>)
    ensures |plans| == n
  {
    seq(n, r requires 0 <= r < n => PlanFor(r, first))
  }

  /** The j-th object of the publication. */
  function Object(first: nat, j: nat): Path {
    if j % 2 == 0 then Init(j / 2) else Segment(j / 2, first)
  }

  lemma MediaOne(r: nat, first: nat)
    ensures MediaOf(r, PlanFor(r, first)) == [Object(first, 2 * r), Object(first, 2 * r + 1)]
    ensures Parsed(r, PlanFor(r, first))
  {
    assert SegmentsOf(r, first, 1) == [Segment(r, first)];
    var media := MediaOf(r, PlanFor(r, first));
    assert media == [Init(r), Segment(r, first)];
    assert Names(media) == {Init(r), Segment(r, first)};
  }

  lemma {:induction false} MediaFor(n: nat, first: nat)
    ensures |AllMedia(PlansFor(n, first))| == 2 * n
    ensures forall j :: 0 <= j < 2 * n ==> AllMedia(PlansFor(n, first))[j] == Object(first, j)
  {
    if n > 0 {
      MediaFor(n - 1, first);
      MediaOne(n - 1, first);
      assert PlansFor(n, first)[..n - 1] == PlansFor(n - 1, first);
    }
  }

  lemma PublishableFor(n: nat, first: nat)
    ensures Publishable(FreshStage(n, ROOM), PlansFor(n, first))
  {
    forall r | 0 <= r < n ensures Parsed(r, PlansFor(n, first)[r]) { MediaOne(r, first); }
  }

  /** The only publication of a run is the one for `first`. */
  predicate OneBegin(steps: seq<Step>, n: nat, first: nat) {
    forall k :: 0 <= k < |steps| && steps[k].Begin? ==> steps[k].plans == PlansFor(n, first)
  }

  lemma Grown(n: nat, first: nat, steps: seq<Step>, states: seq<Stage>, t: Step) returns (more: seq<Step>, reached: seq<Stage>)
    requires Execution(n, ROOM, steps, states) && OneBegin(steps, n, first) && Enabled(states[|steps|], t)
    requires t.Begin? ==> t.plans == PlansFor(n, first)
    ensures Execution(n, ROOM, more, reached) && OneBegin(more, n, first)
    ensures more == steps + [t] && reached == states + [Apply(states[|steps|], t)]
  {
    hide Enabled;
    hide Apply;
    Extended(n, ROOM, steps, states, t);
    more, reached := steps + [t], states + [Apply(states[|steps|], t)];
  }

  // ---------------------------------------------------------------- publishing

  /** All files are of the first cycle, and every init object has the given content. */
  ghost predicate Fresh(s: Stage, n: nat, content: int) {
    && s.renditions == n && s.maxBytes == ROOM && !s.revoked && s.cycle == 1
    && (forall p :: p in s.published ==> s.published[p].seen == 1)
    && (forall r: nat :: Init(r) in s.published ==> s.published[Init(r)].file.content == content)
  }

  /** The first k objects are there and nothing else. */
  ghost predicate HasObjects(s: Stage, n: nat, first: nat, k: nat) {
    && (forall j: nat :: j < k ==> Object(first, j) in s.published)
    && (forall j: nat :: k <= j < 2 * n ==> Object(first, j) !in s.published)
  }

  /** The first r playlists are there with their texts and no other. */
  ghost predicate HasPlaylists(s: Stage, first: nat, k: nat) {
    forall r: nat :: (Playlist(r) in s.published <==> r < k) && (r < k ==> s.published[Playlist(r)].file == TextFor(r, first))
  }

  ghost predicate Holds(s: Stage, bytes: nat, files: nat) {
    Bytes(s.published) == bytes && |s.published| == files
  }

  lemma PutHolds(s: Stage, p: Path, f: File, source: Option<Source>, bytes: nat, files: nat)
    requires Holds(s, bytes, files) && p !in s.published
    ensures Holds(Commit(s, p, f, source), bytes + f.size, files + 1)
  {
    hide Bytes;
    BytesUpdate(s.published, p, Entry(f, source, s.cycle));
    assert s.published[p := Entry(f, source, s.cycle)].Keys == s.published.Keys + {p};
  }

  lemma SmallFits(s: Stage, p: Path, f: File, bytes: nat, files: nat)
    requires s.maxBytes == ROOM && Holds(s, bytes, files) && p !in s.published
    requires 1 <= f.size && bytes + f.size <= ROOM && files < MAX_FILES
    ensures Fits(s, p, f)
  {
    hide Bytes;
  }

  lemma ObjectsDiffer(first: nat, i: nat, j: nat)
    requires i != j
    ensures Object(first, i) != Object(first, j)
  {
  }

  function SourceFor(j: nat, content: int): Source {
    Source(j, 1, content)
  }

  ghost predicate Copied(s: Stage, n: nat, first: nat, content: int, k: nat) {
    && s.phase == Copying(PlansFor(n, first), k) && k <= 2 * n && Fresh(s, n, content)
    && HasObjects(s, n, first, k) && HasPlaylists(s, first, 0) && Master !in s.published && Holds(s, k, k)
  }

  lemma CopyStep(s: Stage, n: nat, first: nat, content: int, k: nat)
    requires Roomy(n) && Copied(s, n, first, content, k) && k < 2 * n
    ensures Enabled(s, Copy(SourceFor(k, content), true))
    ensures Copied(Apply(s, Copy(SourceFor(k, content), true)), n, first, content, k + 1)
  {
    MediaFor(n, first);
    var p, f := Object(first, k), File(1, content, {});
    SmallFits(s, p, f, k, k);
    PutHolds(s, p, f, Some(SourceFor(k, content)), k, k);
    forall j: nat | j != k ensures Object(first, j) != p { ObjectsDiffer(first, j, k); }
    hide AllMedia;
    hide Bytes;
    hide Fits;
    hide PlansFor;
  }

  lemma BeginStep(n: nat, first: nat, content: int)
    ensures Enabled(FreshStage(n, ROOM), Begin(PlansFor(n, first)))
    ensures Copied(Apply(FreshStage(n, ROOM), Begin(PlansFor(n, first))), n, first, content, 0)
  {
    PublishableFor(n, first);
    hide Publishable;
    hide PlansFor;
  }

  lemma {:induction false} CopyUpTo(n: nat, first: nat, content: int, k: nat) returns (steps: seq<Step>, states: seq<Stage>)
    requires Roomy(n) && k <= 2 * n
    ensures Execution(n, ROOM, steps, states) && OneBegin(steps, n, first) && Copied(states[|steps|], n, first, content, k)
  {
    hide Enabled;
    hide Apply;
    hide Copied;
    hide PlansFor;
    if k == 0 {
      BeginStep(n, first, content);
      steps, states := Grown(n, first, [], [FreshStage(n, ROOM)], Begin(PlansFor(n, first)));
    } else {
      steps, states := CopyUpTo(n, first, content, k - 1);
      CopyStep(states[|steps|], n, first, content, k - 1);
      steps, states := Grown(n, first, steps, states, Copy(SourceFor(k - 1, content), true));
    }
  }

  ghost predicate WrittenUpTo(s: Stage, n: nat, first: nat, content: int, r: nat) {
    && s.phase == Writing(PlansFor(n, first), r) && r <= n && Fresh(s, n, content)
    && HasObjects(s, n, first, 2 * n) && HasPlaylists(s, first, r) && Master !in s.published && Holds(s, 2 * n + 10 * r, 2 * n + r)
  }

  lemma StartStep(s: Stage, n: nat, first: nat, content: int)
    requires Copied(s, n, first, content, 2 * n)
    ensures Enabled(s, StartWriting) && WrittenUpTo(Apply(s, StartWriting), n, first, content, 0)
  {
    MediaFor(n, first);
    hide AllMedia;
    hide Bytes;
    hide PlansFor;
  }

  lemma PlaylistStep(s: Stage, n: nat, first: nat, content: int, r: nat)
    requires Roomy(n) && WrittenUpTo(s, n, first, content, r) && r < n
    ensures Enabled(s, WritePlaylist(true)) && WrittenUpTo(Apply(s, WritePlaylist(true)), n, first, content, r + 1)
  {
    assert PlansFor(n, first)[r] == PlanFor(r, first);
    SmallFits(s, Playlist(r), TextFor(r, first), 2 * n + 10 * r, 2 * n + r);
    PutHolds(s, Playlist(r), TextFor(r, first), None, 2 * n + 10 * r, 2 * n + r);
    hide Bytes;
    hide Fits;
    hide PlansFor;
  }

  lemma {:induction false} WriteUpTo(n: nat, first: nat, content: int, r: nat) returns (steps: seq<Step>, states: seq<Stage>)
    requires Roomy(n) && r <= n
    ensures Execution(n, ROOM, steps, states) && OneBegin(steps, n, first) && WrittenUpTo(states[|steps|], n, first, content, r)
  {
    hide Enabled;
    hide Apply;
    hide Copied;
    hide WrittenUpTo;
    hide PlansFor;
    if r == 0 {
      steps, states := CopyUpTo(n, first, content, 2 * n);
      StartStep(states[|steps|], n, first, content);
      steps, states := Grown(n, first, steps, states, StartWriting);
    } else {
      steps, states := WriteUpTo(n, first, content, r - 1);
      PlaylistStep(states[|steps|], n, first, content, r - 1);
      steps, states := Grown(n, first, steps, states, WritePlaylist(true));
    }
  }

  /** Everything is visible. */
  ghost predicate Up(s: Stage, n: nat, first: nat, content: int) {
    && Fresh(s, n, content) && HasObjects(s, n, first, 2 * n) && HasPlaylists(s, first, n) && Master in s.published
  }

  function IndexFor(n: nat): File {
    File(1, 3, set r: nat | r < n :: Playlist(r))
  }

  lemma IndexStep(s: Stage, n: nat, first: nat, content: int)
    requires Roomy(n) && WrittenUpTo(s, n, first, content, n)
    ensures Enabled(s, WriteMaster(IndexFor(n), true))
    ensures var u := Apply(s, WriteMaster(IndexFor(n), true)); Up(u, n, first, content) && u.phase == Removing(PlansFor(n, first), {})
  {
    SmallFits(s, Master, IndexFor(n), 12 * n, 3 * n);
    hide Bytes;
    hide Fits;
    hide PlansFor;
    hide AllMedia;
    hide Names;
    hide Windows;
    var u := Commit(s, Master, IndexFor(n), None);
    assert Expired(u) == {};
  }

  lemma FinishStep(s: Stage, n: nat, first: nat, content: int)
    requires Up(s, n, first, content) && s.phase == Removing(PlansFor(n, first), {})
    ensures Enabled(s, Finish) && Up(Apply(s, Finish), n, first, content) && Apply(s, Finish).phase == Idle
  {
    hide PlansFor;
  }

  /** A generation of n renditions that has published once. */
  lemma LiveGeneration(n: nat, first: nat, content: int) returns (steps: seq<Step>, states: seq<Stage>)
    requires Roomy(n)
    ensures Execution(n, ROOM, steps, states) && OneBegin(steps, n, first)
    ensures Up(states[|steps|], n, first, content) && states[|steps|].phase == Idle
  {
    hide Enabled;
    hide Apply;
    hide WrittenUpTo;
    hide Up;
    hide PlansFor;
    steps, states := WriteUpTo(n, first, content, n);
    IndexStep(states[|steps|], n, first, content);
    steps, states := Grown(n, first, steps, states, WriteMaster(IndexFor(n), true));
    FinishStep(states[|steps|], n, first, content);
    steps, states := Grown(n, first, steps, states, Finish);
  }

  // ---------------------------------------------------------------- and ending

  lemma EndSteps(s: Stage)
    requires s.phase.Idle?
    ensures Enabled(s, Revoke) && var u := Apply(s, Revoke);
            && Enabled(u, StartInvalidate)
            && Apply(u, StartInvalidate) == s.(revoked := true, phase := Invalidating(s.published.Keys, true))
  {
  }

  /** The same generation at the beginning of its invalidation. */
  lemma EndingGeneration(n: nat, first: nat, content: int) returns (steps: seq<Step>, states: seq<Stage>, k: nat)
    requires Roomy(n)
    ensures Execution(n, ROOM, steps, states) && OneBegin(steps, n, first) && k < |states| && Up(states[k], n, first, content)
    ensures states[|steps|] == states[k].(revoked := true, phase := Invalidating(states[k].published.Keys, true))
  {
    hide Enabled;
    hide Apply;
    hide Up;
    hide PlansFor;
    steps, states := LiveGeneration(n, first, content);
    k := |steps|;
    var s := states[k];
    EndSteps(s);
    steps, states := Grown(n, first, steps, states, Revoke);
    steps, states := Grown(n, first, steps, states, StartInvalidate);
  }

  lemma DiscardStep(s: Stage, p: Path)
    requires s.phase.Invalidating? && p in s.phase.todo
    ensures Enabled(s, Discard(p))
    ensures Apply(s, Discard(p)).phase == s.phase.(todo := s.phase.todo - {p}) && Apply(s, Discard(p)).published == s.published - {p}
  {
  }

  lemma LastStep(s: Stage)
    requires s.phase.Invalidating? && s.phase.todo == {}
    ensures Enabled(s, EndInvalidate) && Apply(s, EndInvalidate).phase == Ended(s.phase.clean)
  {
  }

  lemma {:induction false} DiscardAll(n: nat, first: nat, steps: seq<Step>, states: seq<Stage>) returns (more: seq<Step>, reached: seq<Stage>)
    requires Execution(n, ROOM, steps, states) && OneBegin(steps, n, first) && states[|steps|].phase.Invalidating? && states[|steps|].phase.clean
    ensures Execution(n, ROOM, more, reached) && OneBegin(more, n, first) && states <= reached && reached[|more|].phase == Ended(true)
    decreases |states[|steps|].phase.todo|
  {
    hide Enabled;
    hide Apply;
    hide PlansFor;
    var s := states[|steps|];
    if s.phase.todo == {} {
      LastStep(s);
      more, reached := Grown(n, first, steps, states, EndInvalidate);
    } else {
      var p :| p in s.phase.todo;
      DiscardStep(s, p);
      more, reached := Grown(n, first, steps, states, Discard(p));
      assert |s.phase.todo - {p}| < |s.phase.todo|;
      more, reached := DiscardAll(n, first, more, reached);
    }
  }

  /** A whole generation, from empty through everything visible to empty. */
  lemma WholeLife(n: nat, first: nat, content: int) returns (steps: seq<Step>, states: seq<Stage>, k: nat)
    requires Roomy(n)
    ensures Execution(n, ROOM, steps, states) && OneBegin(steps, n, first) && k < |states| && Up(states[k], n, first, content)
    ensures states[|steps|].phase == Ended(true)
  {
    hide Up;
    hide Execution;
    hide PlansFor;
    steps, states, k := EndingGeneration(n, first, content);
    steps, states := DiscardAll(n, first, steps, states);
  }
}
