/** What a generation's publications leave visible: the objects of the last three of them,
    and every media name with one content only. */
module HlsRetention {
  import opened Common
  import opened HlsStage

  /** While no publication has failed the log has one entry per finished cycle, and what
      the last three entries name was seen in their cycle or later. */
  ghost predicate Logged(s: Stage) {
    && |s.log| == s.cycle - (if s.phase.Copying? || s.phase.Writing? then 1 else 0)
    && forall i, p :: 0 <= i < |s.log| && i >= |s.log| - 3 && p in s.log[i] ==> p in s.published && s.published[p].seen > i
  }

  function PlansOf(s: Stage): seq<Plan> {
    if s.phase.Copying? || s.phase.Writing? || s.phase.Removing? then s.phase.plans else []
  }

  /** A name that left the directory lies before its rendition's window. */
  predicate Gone(s: Stage, p: Path) {
    p.Segment? && p.rendition in s.windows && p.number < s.windows[p.rendition].first
  }

  /** A visible segment lies no later than its window, or than the one being published. */
  predicate Covered(s: Stage, p: Path)
    requires p.Segment?
  {
    || (p.rendition in s.windows && p.number <= s.windows[p.rendition].last)
    || (p.rendition < |PlansOf(s)| && p.number <= PlansOf(s)[p.rendition].Last())
  }

  /** A visible media file is the first one published under its name. */
  ghost predicate NameAt(s: Stage, p: Path) {
    p in s.published && (p.Init? || p.Segment?) ==> p in s.ever && s.published[p].file == s.ever[p]
  }

  ghost predicate MediaAt(s: Stage, p: Path) {
    && (p in s.ever ==> (p.Init? || p.Segment?) && (p in s.published || Gone(s, p)))
    && (p in s.published && p.Segment? ==> Covered(s, p))
  }

  predicate FollowsAt(s: Stage, r: nat) {
    r < |PlansOf(s)| ==> s.phase.Removing? || Follows(s.windows, r, PlansOf(s)[r])
  }

  ghost predicate FollowsAll(s: Stage) {
    && (forall r: nat :: FollowsAt(s, r))
    && (forall r :: r in s.windows ==> r < s.renditions)
    && (s.phase.Removing? ==> s.windows == Windows(s.phase.plans))
  }

  ghost predicate Identified(s: Stage) {
    FollowsAll(s) && forall p :: MediaAt(s, p)
  }

  ghost predicate Clean(s: Stage) {
    && (forall p :: NameAt(s, p))
    && (Running(s) ==> Logged(s) && Identified(s))
    && (Serving(s) ==> Retained(s))
  }

  ghost predicate LoggedAt(s: Stage, i: nat, p: Path) {
    i < |s.log| && i >= |s.log| - 3 && p in s.log[i] ==> p in s.published && s.published[p].seen > i
  }

  /** What a step does to the log and the cycle. */
  lemma StepLogs(s: Stage, t: Step)
    requires Enabled(s, t)
    ensures var u := Apply(s, t);
            && u.log == (if t.WriteMaster? && t.valid then s.log + [Names(AllMedia(s.phase.plans))] else s.log)
            && u.cycle == (if t.Begin? then s.cycle + 1 else s.cycle)
  {
    hide AllMedia;
    hide Fits;
    hide Names;
  }

  /** All media of the publication were seen in this cycle when its index is written. */
  lemma JustSeen(s: Stage, p: Path)
    requires Coherent(s) && s.phase.Writing? && p in AllMedia(s.phase.plans)
    ensures p in s.published && s.published[p].seen == s.cycle && p != Master
  {
    var j :| 0 <= j < |AllMedia(s.phase.plans)| && AllMedia(s.phase.plans)[j] == p;
    NextMedia(s.phase.plans, j);
    hide AllMedia;
    hide NoDangling;
    hide Shaped;
    hide Written;
  }

  /** A step that removes nothing leaves every entry, at most marked with this cycle. */
  lemma SeenKept(s: Stage, t: Step, p: Path)
    requires Enabled(s, t) && !t.Discard? && p in s.published && (t.Remove? ==> p != t.path)
    ensures p in Apply(s, t).published
    ensures Apply(s, t).published[p].seen == s.published[p].seen || Apply(s, t).published[p].seen == s.cycle
  {
    StepServes(s, t);
    hide AllMedia;
    hide Apply;
    hide Fits;
    hide Publishable;
  }

  lemma LoggedStep(s: Stage, t: Step, i: nat, p: Path)
    requires Coherent(s) && Logged(s) && Running(s) && Enabled(s, t) && Running(Apply(s, t))
    ensures LoggedAt(Apply(s, t), i, p)
  {
    assert LoggedAt(s, i, p);
    assert |s.log| <= s.cycle && (t.WriteMaster? ==> |s.log| < s.cycle) && (t.Remove? ==> |s.log| == s.cycle);
    StepLogs(s, t);
    Continues(s, t);
    if t.Remove? { Expires(s, t.path); }
    if t.WriteMaster? && p in Names(AllMedia(s.phase.plans)) { JustSeen(s, p); }
    hide AllMedia;
    hide Coherent;
    hide Logged;
    hide Apply;
    hide Enabled;
    if p in s.published && (t.Remove? ==> p != t.path) { SeenKept(s, t, p); }
  }

  lemma Expires(s: Stage, p: Path)
    requires Coherent(s) && Enabled(s, Remove(p))
    ensures p in s.published && s.published[p].seen + 2 < s.cycle
  {
    hide AllMedia;
    hide NoDangling;
    hide Shaped;
    hide Copied;
    hide Written;
  }

  lemma LogCounts(s: Stage, t: Step)
    requires Logged(s) && Running(s) && Enabled(s, t) && Running(Apply(s, t))
    ensures var u := Apply(s, t); |u.log| == u.cycle - (if u.phase.Copying? || u.phase.Writing? then 1 else 0)
  {
    hide AllMedia;
    hide Names;
    hide Fits;
    hide Publishable;
  }

  lemma LoggedKept(s: Stage, t: Step)
    requires Coherent(s) && Logged(s) && Running(s) && Enabled(s, t) && Running(Apply(s, t))
    ensures Logged(Apply(s, t))
  {
    var u := Apply(s, t);
    LogCounts(s, t);
    hide AllMedia;
    hide Coherent;
    hide Enabled;
    hide Apply;
    forall i, p | 0 <= i < |u.log| && i >= |u.log| - 3 && p in u.log[i]
      ensures p in u.published && u.published[p].seen > i
    {
      LoggedStep(s, t, i, p);
    }
  }

  lemma FollowsKept(s: Stage, t: Step)
    requires Progress(s) && FollowsAll(s) && Enabled(s, t) && Running(s) && Running(Apply(s, t))
    ensures FollowsAll(Apply(s, t))
  {
    hide AllMedia;
    hide Copied;
    hide Written;
    var u := Apply(s, t);
    forall r: nat
      ensures FollowsAt(u, r)
    {
      assert FollowsAt(s, r);
      if t.Begin? && r < |t.plans| { assert Parsed(r, t.plans[r]); }
    }
  }

  lemma TouchAt(s: Stage, t: Step, p: Path)
    requires Identified(s) && Enabled(s, t) && t.Touch?
    ensures MediaAt(Apply(s, t), p)
  {
    assert MediaAt(s, p);
    hide AllMedia;
    hide Identified;
    var u := Apply(s, t);
    assert u.windows == s.windows && PlansOf(u) == PlansOf(s) && u.ever == s.ever;
    assert u.published.Keys == s.published.Keys;
    assert p in s.published ==> u.published[p].file == s.published[p].file;
  }

  /** An object that is copied was never published before. */
  lemma NewName(s: Stage, t: Step)
    requires Identified(s) && Enabled(s, t) && t.Copy?
    ensures AllMedia(s.phase.plans)[s.phase.next] !in s.ever
  {
    var q := AllMedia(s.phase.plans)[s.phase.next];
    NextMedia(s.phase.plans, s.phase.next);
    assert MediaAt(s, q) && FollowsAt(s, q.rendition);
    hide AllMedia;
    hide Identified;
    hide Bytes;
  }

  lemma CopyAt(s: Stage, t: Step, p: Path)
    requires Identified(s) && Enabled(s, t) && t.Copy? && Running(Apply(s, t))
    ensures MediaAt(Apply(s, t), p)
  {
    var q, u := AllMedia(s.phase.plans)[s.phase.next], Apply(s, t);
    NextMedia(s.phase.plans, s.phase.next);
    assert MediaAt(s, p) && MediaAt(s, q) && FollowsAt(s, q.rendition);
    hide AllMedia;
    hide Identified;
    hide Bytes;
    NewName(s, t);
    assert u.windows == s.windows && PlansOf(u) == PlansOf(s);
    if p != q {
      assert (p in u.published <==> p in s.published) && (p in u.ever <==> p in s.ever);
    }
  }

  lemma MasterAt(s: Stage, text: File, p: Path)
    requires Identified(s) && Shaped(s) && Enabled(s, WriteMaster(text, true)) && |s.phase.plans| == s.renditions
    ensures MediaAt(Apply(s, WriteMaster(text, true)), p)
  {
    var plans, u := s.phase.plans, Apply(s, WriteMaster(text, true));
    assert MediaAt(s, p);
    if p.Segment? { assert FollowsAt(s, p.rendition); }
    hide AllMedia;
    hide Identified;
    hide Names;
    hide Bytes;
    assert u.ever == s.ever && u.windows == Windows(plans) && PlansOf(u) == plans;
    assert p != Master ==> (p in u.published <==> p in s.published);
  }

  /** An expired media name is a segment before the window just published. */
  lemma ExpiredBefore(s: Stage, q: Path)
    requires Coherent(s) && Identified(s) && Enabled(s, Remove(q)) && (q.Init? || q.Segment?)
    ensures Gone(s, q)
  {
    var plans := s.phase.plans;
    ExpiredUnnamed(s, plans, q);
    AllMediaNamed(plans, q);
    assert MediaAt(s, q);
    assert q.rendition < s.renditions;
    hide AllMedia;
    hide Identified;
    hide NoDangling;
    hide Copied;
    hide Written;
  }

  lemma RemoveAt(s: Stage, q: Path, p: Path)
    requires Coherent(s) && Identified(s) && Enabled(s, Remove(q))
    ensures MediaAt(Apply(s, Remove(q)), p)
  {
    if q.Init? || q.Segment? { ExpiredBefore(s, q); }
    assert MediaAt(s, p);
    hide AllMedia;
    hide Identified;
    hide Coherent;
    var u := Apply(s, Remove(q));
    assert u.windows == s.windows && PlansOf(u) == PlansOf(s) && u.ever == s.ever;
    assert p != q ==> (p in u.published <==> p in s.published);
  }

  lemma QuietAt(s: Stage, t: Step, p: Path)
    requires Identified(s) && Enabled(s, t) && (t.Begin? || t.StartWriting? || t.WritePlaylist? || t.Finish? || t.Revoke?)
    requires Running(s) && Running(Apply(s, t))
    ensures MediaAt(Apply(s, t), p)
  {
    assert MediaAt(s, p);
    hide AllMedia;
    hide Identified;
  }

  lemma IdentifiedKept(s: Stage, t: Step)
    requires Coherent(s) && Identified(s) && Enabled(s, t) && Running(s) && Running(Apply(s, t))
    ensures Identified(Apply(s, t))
  {
    FollowsKept(s, t);
    Continues(s, t);
    hide MediaAt;
    hide FollowsAll;
    hide Enabled;
    hide Apply;
    forall p
      ensures MediaAt(Apply(s, t), p)
    {
      match t
      case Touch(_) => TouchAt(s, t, p);
      case Copy(_, _) => CopyAt(s, t, p);
      case WriteMaster(text, _) => WritingPlans(s, t); MasterAt(s, text, p);
      case Remove(q) => RemoveAt(s, q, p);
      case _ => QuietAt(s, t, p);
    }
  }

  /** The steps after which publishing goes on. */
  lemma Continues(s: Stage, t: Step)
    requires Enabled(s, t) && Running(s) && Running(Apply(s, t))
    ensures !t.Fail? && !t.StartInvalidate? && !t.Discard? && !t.Keep? && !t.EndInvalidate?
    ensures t.WriteMaster? ==> t.valid
  {
    hide AllMedia;
  }

  lemma WritingPlans(s: Stage, t: Step)
    requires Coherent(s) && Enabled(s, t) && t.WriteMaster?
    ensures s.phase.Writing? && |s.phase.plans| == s.renditions && Shaped(s)
  {
    hide AllMedia;
  }

  lemma NameStep(s: Stage, t: Step, p: Path)
    requires (Running(s) ==> Identified(s)) && Enabled(s, t) && NameAt(s, p)
    ensures NameAt(Apply(s, t), p)
  {
    if t.Copy? { NewName(s, t); }
    hide AllMedia;
    hide Identified;
    hide Fits;
  }

  lemma RetainedKept(s: Stage, t: Step)
    requires Enabled(s, t) && Serving(s) && Retained(s) && Serving(Apply(s, t)) && !Running(Apply(s, t))
    ensures Retained(Apply(s, t))
  {
    hide AllMedia;
    hide Fits;
    assert s.published.Keys <= Apply(s, t).published.Keys && Apply(s, t).log == s.log;
  }

  lemma CleanKept(s: Stage, t: Step)
    requires Coherent(s) && Clean(s) && Enabled(s, t)
    ensures Clean(Apply(s, t))
  {
    var u := Apply(s, t);
    forall p ensures NameAt(u, p) { NameStep(s, t, p); }
    hide Logged;
    hide Identified;
    hide Coherent;
    hide NameAt;
    hide Retained;
    if Running(u) {
      RunningBefore(s, t);
      LoggedKept(s, t);
      IdentifiedKept(s, t);
      LoggedRetained(u);
    } else if Serving(u) {
      RunningBefore(s, t);
      RetainedKept(s, t);
    }
  }

  lemma LoggedRetained(s: Stage)
    requires Logged(s)
    ensures Retained(s)
  {
  }

  /** Publishing is never resumed, and neither is serving. */
  lemma RunningBefore(s: Stage, t: Step)
    requires Enabled(s, t)
    ensures Running(Apply(s, t)) ==> Running(s)
    ensures Serving(Apply(s, t)) ==> Serving(s)
  {
    hide AllMedia;
    hide Fits;
  }

  lemma FreshClean(n: nat, maxBytes: nat)
    ensures Clean(FreshStage(n, maxBytes))
  {
  }

  lemma {:induction false} ExecutionClean(n: nat, maxBytes: nat, steps: seq<Step>, states: seq<Stage>, k: nat)
    requires Execution(n, maxBytes, steps, states) && k < |states|
    ensures Clean(states[k])
  {
    hide Clean;
    hide Coherent;
    hide Enabled;
    hide Bounded;
    if k == 0 {
      FreshClean(n, maxBytes);
    } else {
      ExecutionClean(n, maxBytes, steps, states, k - 1);
      ExecutionCoherent(n, maxBytes, steps, states, k - 1);
      CleanKept(states[k - 1], steps[k - 1]);
    }
  }

  /** The objects of the last three successful changed publications are visible after every
      single step until the invalidation begins, failed publications included. */
  lemma LastThreeRetained(n: nat, maxBytes: nat, steps: seq<Step>, states: seq<Stage>, k: nat)
    requires Execution(n, maxBytes, steps, states) && k < |states| && Serving(states[k])
    ensures Retained(states[k])
  {
    ExecutionClean(n, maxBytes, steps, states, k);
  }

  lemma EverGrows(s: Stage, t: Step)
    requires Enabled(s, t)
    ensures forall p :: p in s.ever ==> p in Apply(s, t).ever && Apply(s, t).ever[p] == s.ever[p]
  {
    hide AllMedia;
    hide Fits;
  }

  lemma {:induction false} EverKept(n: nat, maxBytes: nat, steps: seq<Step>, states: seq<Stage>, i: nat, j: nat)
    requires Execution(n, maxBytes, steps, states) && i <= j < |states|
    ensures forall p :: p in states[i].ever ==> p in states[j].ever && states[j].ever[p] == states[i].ever[p]
    decreases j
  {
    hide Apply;
    hide Enabled;
    if i < j {
      EverKept(n, maxBytes, steps, states, i, j - 1);
      EverGrows(states[j - 1], steps[j - 1]);
    }
  }

  /** A media name never returns with different content, however often it leaves and
      however far apart the two moments are. */
  lemma NamesKeepTheirContent(n: nat, maxBytes: nat, steps: seq<Step>, states: seq<Stage>, i: nat, j: nat, p: Path)
    requires Execution(n, maxBytes, steps, states) && i <= j < |states|
    requires p in states[i].published && p in states[j].published && (p.Init? || p.Segment?)
    ensures states[i].published[p].file == states[j].published[p].file
  {
    ExecutionClean(n, maxBytes, steps, states, i);
    ExecutionClean(n, maxBytes, steps, states, j);
    EverKept(n, maxBytes, steps, states, i, j);
    assert NameAt(states[i], p) && NameAt(states[j], p);
    hide Execution;
    hide Logged;
    hide Identified;
  }
}
