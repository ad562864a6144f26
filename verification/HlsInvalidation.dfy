/** The end of a generation.  When its encoder stops, the served files are removed one by
    one in any order, so clients can meet a playlist that names a removed file. */
module HlsInvalidation {
  import opened Common
  import opened HlsStage
  import opened HlsLife

  // ---------------------------------------------------------------- which removals dangle

  /** A remaining file names a path that was served when the invalidation began and has
      been removed since. */
  ghost predicate NamesRemoved(before: map<Path, Entry>, after: map<Path, Entry>) {
    exists p, q :: q in after && p in after[q].file.refs && p in before && p !in after
  }

  ghost predicate Remains(before: map<Path, Entry>, after: map<Path, Entry>) {
    forall p :: p in after ==> p in before && after[p] == before[p]
  }

  lemma ShrinkStep(s: Stage, t: Step)
    requires !Serving(s) && Enabled(s, t)
    ensures Remains(s.published, Apply(s, t).published) && !Serving(Apply(s, t))
  {
    hide AllMedia;
    hide Fits;
    hide Publishable;
  }

  lemma StartShrinks(s: Stage)
    requires Enabled(s, StartInvalidate)
    ensures Apply(s, StartInvalidate).published == s.published && !Serving(Apply(s, StartInvalidate))
  {
  }

  /** From the start of the invalidation the directory only shrinks. */
  lemma {:induction false} OnlyShrinks(n: nat, maxBytes: nat, steps: seq<Step>, states: seq<Stage>, i: nat, k: nat)
    requires Execution(n, maxBytes, steps, states) && i < k < |states| && steps[i].StartInvalidate?
    ensures Remains(states[i].published, states[k].published) && !Serving(states[k])
  {
    hide Enabled;
    hide Apply;
    assert Enabled(states[k - 1], steps[k - 1]) && states[k - 1 + 1] == Apply(states[k - 1], steps[k - 1]);
    if i + 1 == k {
      StartShrinks(states[i]);
    } else {
      OnlyShrinks(n, maxBytes, steps, states, i, k - 1);
      ShrinkStep(states[k - 1], steps[k - 1]);
    }
  }

  /** During and after the invalidation the directory dangles exactly when a remaining
      playlist names a path already removed. */
  lemma DanglesExactly(n: nat, maxBytes: nat, steps: seq<Step>, states: seq<Stage>, i: nat, k: nat)
    requires Execution(n, maxBytes, steps, states) && i < k < |states| && steps[i].StartInvalidate?
    ensures !NoDangling(states[k]) <==> NamesRemoved(states[i].published, states[k].published)
  {
    OnlyShrinks(n, maxBytes, steps, states, i, k);
    NeverDangles(n, maxBytes, steps, states, i);
    assert Enabled(states[i], steps[i]);
    assert NoDangling(states[i]);
    var before, after := states[i].published, states[k].published;
    hide Execution;
    hide Enabled;
    if !NoDangling(states[k]) {
      var q :| q in after && !(after[q].file.refs <= after.Keys);
      var p :| p in after[q].file.refs && p !in after;
      assert p in before[q].file.refs && p in before;
    }
  }

  /** An invalidation that reports no error leaves nothing visible. */
  lemma CleanEndServesNothing(n: nat, maxBytes: nat, steps: seq<Step>, states: seq<Stage>, k: nat)
    requires Execution(n, maxBytes, steps, states) && k < |states| && states[k].phase == Ended(true)
    ensures states[k].published == map[]
  {
    ExecutionCoherent(n, maxBytes, steps, states, k);
    hide Execution;
  }

  // ---------------------------------------------------------------- which orders never dangle

  /** The files left after the first removals of an order. */
  function After(m: map<Path, Entry>, order: seq<Path>): map<Path, Entry> {
    m - Elements(order)
  }

  ghost predicate Whole(m: map<Path, Entry>) {
    forall q :: q in m ==> m[q].file.refs <= m.Keys
  }

  /** Every file goes no earlier than the files that name it. */
  ghost predicate NamersFirst(m: map<Path, Entry>, order: seq<Path>) {
    forall i, q :: 0 <= i < |order| && q in m && order[i] in m[q].file.refs ==> q in order[..i + 1]
  }

  /** An order of removals never leaves a dangling directory, at any point of it, exactly
      when every file goes no earlier than the files that name it. */
  lemma SafeOrderExactly(m: map<Path, Entry>, order: seq<Path>)
    requires Whole(m)
    ensures (forall j :: 0 <= j <= |order| ==> Whole(After(m, order[..j]))) <==> NamersFirst(m, order)
  {
    if forall j :: 0 <= j <= |order| ==> Whole(After(m, order[..j])) {
      forall i, q | 0 <= i < |order| && q in m && order[i] in m[q].file.refs
        ensures q in order[..i + 1]
      {
        var left := After(m, order[..i + 1]);
        assert forall x :: x in left ==> left[x] == m[x];
        assert q in left <==> q !in Elements(order[..i + 1]);
        assert order[..i + 1][i] == order[i];
        assert Whole(left);
      }
    }
    if NamersFirst(m, order) {
      forall j | 0 <= j <= |order| ensures Whole(After(m, order[..j])) { SafePrefix(m, order, j); }
    }
  }

  lemma SafePrefix(m: map<Path, Entry>, order: seq<Path>, j: nat)
    requires Whole(m) && NamersFirst(m, order) && j <= |order|
    ensures Whole(After(m, order[..j]))
  {
    var left := After(m, order[..j]);
    forall q, p | q in left && p in left[q].file.refs ensures p in left {
      assert p in m && q in m && q !in order[..j];
      forall i | 0 <= i < j ensures order[i] != p { PrefixMember(order, i + 1, j, q); }
    }
  }

  lemma PrefixMember(order: seq<Path>, i: nat, j: nat, q: Path)
    requires i <= j <= |order| && q !in order[..j]
    ensures q !in order[..i]
  {
    assert forall h :: 0 <= h < i ==> order[..i][h] == order[..j][h];
  }

  function Rank(p: Path): nat {
    match p case Master => 0 case Playlist(_) => 1 case _ => 2
  }

  /** Only a lower rank names a higher one: the index the playlists, those the media. */
  ghost predicate Layered(m: map<Path, Entry>) {
    forall q, p :: q in m && p in m[q].file.refs ==> Rank(q) < Rank(p)
  }

  lemma PutLayered(m: map<Path, Entry>, p: Path, e: Entry)
    requires Layered(m) && forall x :: x in e.file.refs ==> Rank(p) < Rank(x)
    ensures Layered(m[p := e])
  {
  }

  lemma PlaylistLayered(s: Stage)
    requires Coherent(s) && Enabled(s, WritePlaylist(false))
    ensures forall x :: x in s.phase.plans[s.phase.next].text.refs ==> Rank(x) == 2
  {
    var r := s.phase.next;
    var plan := s.phase.plans[r];
    assert Parsed(r, plan);
    forall x | x in plan.text.refs ensures Rank(x) == 2 { MediaNamed(r, plan, x); }
  }

  lemma LayeredKept(s: Stage, t: Step)
    requires Coherent(s) && Layered(s.published) && Enabled(s, t)
    ensures Layered(Apply(s, t).published)
  {
    StepServes(s, t);
    if t.WritePlaylist? { PlaylistLayered(s); }
    hide AllMedia;
    hide Apply;
    hide Coherent;
    hide Fits;
    hide Publishable;
    match t
    case Touch(_) =>
      var p := AllMedia(s.phase.plans)[s.phase.next];
      PutLayered(s.published, p, s.published[p].(seen := s.cycle));
    case Copy(current, _) =>
      PutLayered(s.published, AllMedia(s.phase.plans)[s.phase.next], Entry(File(current.size, current.content, {}), Some(current), s.cycle));
    case WritePlaylist(_) =>
      PutLayered(s.published, Playlist(s.phase.next), Entry(s.phase.plans[s.phase.next].text, None, s.cycle));
    case WriteMaster(text, _) => PutLayered(s.published, Master, Entry(text, None, s.cycle));
    case _ =>
  }

  lemma {:induction false} AlwaysLayered(n: nat, maxBytes: nat, steps: seq<Step>, states: seq<Stage>, k: nat)
    requires Execution(n, maxBytes, steps, states) && k < |states|
    ensures Layered(states[k].published)
  {
    hide Enabled;
    hide Apply;
    if k > 0 {
      AlwaysLayered(n, maxBytes, steps, states, k - 1);
      ExecutionCoherent(n, maxBytes, steps, states, k - 1);
      LayeredKept(states[k - 1], steps[k - 1]);
    }
  }

  /** Whatever was published, removing the index first, then the playlists, then the media
      would not dangle at any point. */
  lemma TopDownInvalidation(n: nat, maxBytes: nat, steps: seq<Step>, states: seq<Stage>, i: nat, order: seq<Path>, j: nat)
    requires Execution(n, maxBytes, steps, states) && i < |steps| && steps[i].StartInvalidate? && j <= |order|
    requires forall p :: p in states[i].published ==> p in order
    requires forall a, b :: 0 <= a < b < |order| ==> Rank(order[a]) <= Rank(order[b])
    ensures Whole(After(states[i].published, order[..j]))
  {
    AlwaysLayered(n, maxBytes, steps, states, i);
    NeverDangles(n, maxBytes, steps, states, i);
    assert Enabled(states[i], steps[i]);
    assert Whole(states[i].published);
    hide Execution;
    hide Enabled;
    TopDownIsSafe(states[i].published, order);
    SafePrefix(states[i].published, order, j);
  }

  /** Index first, then playlists, then media: such an order of all files never dangles. */
  lemma TopDownIsSafe(m: map<Path, Entry>, order: seq<Path>)
    requires Layered(m) && (forall p :: p in m ==> p in order)
    requires forall i, j :: 0 <= i < j < |order| ==> Rank(order[i]) <= Rank(order[j])
    ensures NamersFirst(m, order)
  {
    forall i, q | 0 <= i < |order| && q in m && order[i] in m[q].file.refs
      ensures q in order[..i + 1]
    {
      var h :| 0 <= h < |order| && order[h] == q;
      assert Rank(q) < Rank(order[i]);
      assert h < i;
      assert order[..i + 1][h] == q;
    }
  }

  // ---------------------------------------------------------------- a dangling directory

  /** Whatever the number of renditions, a client can meet a playlist of any of them that
      names a missing segment. */
  lemma CanDangle(n: nat, r: nat) returns (steps: seq<Step>, states: seq<Stage>, k: nat)
    requires Roomy(n) && r < n
    ensures Execution(n, ROOM, steps, states) && k < |states|
    ensures Playlist(r) in states[k].published && Segment(r, 0) in states[k].published[Playlist(r)].file.refs
    ensures Segment(r, 0) !in states[k].published && !NoDangling(states[k])
  {
    steps, states, k := EndingGeneration(n, 0, 1);
    var s := states[|steps|];
    assert Object(0, 2 * r + 1) == Segment(r, 0);
    assert s.published == states[k].published && Segment(r, 0) in s.published;
    DiscardStep(s, Segment(r, 0));
    hide Enabled;
    hide Apply;
    hide PlansFor;
    steps, states := Grown(n, 0, steps, states, Discard(Segment(r, 0)));
    k := |steps|;
  }
}
