/** The publishing worker over the steps of the served directory. */
module HlsPublisher {
  import opened Common
  import opened HlsStage

  /** What reading one rendition's private playlist gives. */
  datatype Reading = Missing | Unreadable | Parsed(plan: Plan)

  /** `NotReady` and `Unchanged` are normal outcomes; the others before `Published` are errors. */
  datatype Outcome = Denied | InventoryFailed | NotReady | Malformed | RolledBack | Unchanged | Failed | Published

  predicate IsError(o: Outcome) {
    o.Denied? || o.InventoryFailed? || o.Malformed? || o.RolledBack? || o.Failed?
  }

  /** Everything a publication asks the world: the private objects, the fence before and
      after each rename, and whether a removal succeeds. */
  datatype World = World(
    sources: Path -> Source, before: Path -> bool, after: Path -> bool, removable: Path -> bool, master: File)

  function Texts(plans: seq<Plan>): string {
    if plans == [] then "" else Texts(plans[..|plans| - 1]) + plans[|plans| - 1].data
  }

  /** The readings of the first `n` renditions, in order: the first one that is missing,
      unreadable or behind its window decides. */
  function ReadPlans(readings: seq<Reading>, windows: map<nat, Window>): (r: (seq<Plan>, Outcome))
    ensures r.1.Published? ==> |r.0| == |readings|
    ensures r.1.Published? || r.1.NotReady? || r.1.Malformed? || r.1.RolledBack?
  {
    if readings == [] then ([], Published)
    else
      var k := |readings| - 1;
      var (plans, outcome) := ReadPlans(readings[..k], windows);
      if !outcome.Published? then (plans, outcome)
      else if readings[k].Missing? then (plans, NotReady)
      else if readings[k].Unreadable? || !HlsStage.Parsed(k, readings[k].plan) then (plans, Malformed)
      else if !Follows(windows, k, readings[k].plan) then (plans, RolledBack)
      else (plans + [readings[k].plan], Published)
  }

  /** The readings that get through are exactly a publishable set of playlists. */
  lemma {:induction false} ReadPlansPublishable(readings: seq<Reading>, s: Stage)
    requires |readings| <= s.renditions
    ensures var (plans, outcome) := ReadPlans(readings, s.windows);
            outcome.Published? <==>
              && (forall k :: 0 <= k < |readings| ==>
                    && readings[k].Parsed? && HlsStage.Parsed(k, readings[k].plan)
                    && (k in s.windows ==>
                          readings[k].plan.first >= s.windows[k].first && readings[k].plan.Last() >= s.windows[k].last))
    ensures var (plans, outcome) := ReadPlans(readings, s.windows);
            outcome.Published? ==> forall k :: 0 <= k < |readings| ==> readings[k] == Parsed(plans[k])
    ensures ReadPlans(readings, s.windows).1.Published? && |readings| == s.renditions ==>
              Publishable(s, ReadPlans(readings, s.windows).0)
  {
    hide HlsStage.Parsed;
    if readings != [] {
      var k := |readings| - 1;
      ReadPlansPublishable(readings[..k], s);
      assert forall i :: 0 <= i < k ==> readings[..k][i] == readings[i];
    }
  }

  // ---------------------------------------------------------------- when a publication succeeds

  /** What happens to an object depends on the files, the cycle and the limits only. */
  lemma SameFiles(s: Stage, u: Stage, p: Path, w: World)
    ensures s.published == u.published && s.cycle == u.cycle && s.maxBytes == u.maxBytes ==>
              (Copyable(s, p, w) <==> Copyable(u, p, w)) && CopiedOne(s, p, w).published == CopiedOne(u, p, w).published
  {
    hide Bytes;
  }

  lemma {:induction false} CopiedKeeps(s: Stage, media: seq<Path>, w: World)
    ensures CopiedAll(s, media, w) == s.(published := CopiedAll(s, media, w).published)
  {
    if media != [] { CopiedKeeps(s, media[..|media| - 1], w); }
  }

  lemma {:induction false} NotAllCopyable(s: Stage, media: seq<Path>, w: World, k: nat)
    requires k < |media| && !CopyableAll(s, media[..k + 1], w)
    ensures !CopyableAll(s, media, w)
    decreases |media| - k
  {
    hide Copyable;
    if k + 1 == |media| {
      assert media[..k + 1] == media;
    } else {
      assert media[..k + 2][..k + 1] == media[..k + 1];
      NotAllCopyable(s, media, w, k + 1);
    }
  }

  function FileOf(w: World, p: Path): File {
    File(w.sources(p).size, w.sources(p).content, {})
  }

  /** A visible object must be unchanged; a missing one must fit, with the fence before and
      after its rename. */
  ghost predicate Copyable(s: Stage, p: Path, w: World) {
    if p in s.published then s.published[p].source == Some(w.sources(p))
    else w.before(p) && Fits(s, p, FileOf(w, p)) && w.after(p)
  }

  function CopiedOne(s: Stage, p: Path, w: World): Stage {
    s.(published := if p in s.published then s.published[p := s.published[p].(seen := s.cycle)]
                    else s.published[p := Entry(FileOf(w, p), Some(w.sources(p)), s.cycle)])
  }

  function CopiedAll(s: Stage, media: seq<Path>, w: World): Stage {
    if media == [] then s else CopiedOne(CopiedAll(s, media[..|media| - 1], w), media[|media| - 1], w)
  }

  ghost predicate CopyableAll(s: Stage, media: seq<Path>, w: World) {
    media != [] ==>
      CopyableAll(s, media[..|media| - 1], w) && Copyable(CopiedAll(s, media[..|media| - 1], w), media[|media| - 1], w)
  }

  ghost predicate Writable(s: Stage, p: Path, f: File, w: World) {
    w.before(p) && Fits(s, p, f) && w.after(p)
  }

  function Wrote(s: Stage, p: Path, f: File): Stage {
    s.(published := s.published[p := Entry(f, None, s.cycle)])
  }

  function WroteAll(s: Stage, plans: seq<Plan>): Stage {
    if plans == [] then s else Wrote(WroteAll(s, plans[..|plans| - 1]), Playlist(|plans| - 1), plans[|plans| - 1].text)
  }

  ghost predicate WritableAll(s: Stage, plans: seq<Plan>, w: World) {
    plans != [] ==>
      && WritableAll(s, plans[..|plans| - 1], w)
      && Writable(WroteAll(s, plans[..|plans| - 1]), Playlist(|plans| - 1), plans[|plans| - 1].text, w)
  }

  /** The directory once everything is copied and written. */
  function Filled(s: Stage, plans: seq<Plan>, w: World): Stage {
    Wrote(WroteAll(CopiedAll(s.(cycle := s.cycle + 1), AllMedia(plans), w), plans), Master, w.master)
  }

  /** Every named object is unchanged or can be copied, every text fits in its turn, every
      fence holds, and every expired file can be removed. */
  ghost predicate Succeeds(s: Stage, plans: seq<Plan>, w: World) {
    var copied := CopiedAll(s.(cycle := s.cycle + 1), AllMedia(plans), w);
    && CopyableAll(s.(cycle := s.cycle + 1), AllMedia(plans), w)
    && WritableAll(copied, plans, w) && Writable(WroteAll(copied, plans), Master, w.master, w)
    && forall p :: p in Expired(Filled(s, plans, w)) ==> w.removable(p)
  }

  /** The served files after a publication that succeeds. */
  function Result(s: Stage, plans: seq<Plan>, w: World): map<Path, Entry> {
    Filled(s, plans, w).published - Expired(Filled(s, plans, w))
  }

  lemma SameFit(s: Stage, u: Stage, p: Path, f: File)
    ensures s.published == u.published && s.maxBytes == u.maxBytes ==> (Fits(s, p, f) <==> Fits(u, p, f))
  {
    hide Bytes;
  }

  lemma {:induction false} WroteKeeps(s: Stage, plans: seq<Plan>)
    ensures WroteAll(s, plans) == s.(published := WroteAll(s, plans).published)
  {
    if plans != [] { WroteKeeps(s, plans[..|plans| - 1]); }
  }

  lemma {:induction false} SameWrites(s: Stage, u: Stage, plans: seq<Plan>, w: World)
    requires s.published == u.published && s.cycle == u.cycle && s.maxBytes == u.maxBytes
    ensures WroteAll(s, plans).published == WroteAll(u, plans).published
    ensures WritableAll(s, plans, w) <==> WritableAll(u, plans, w)
  {
    if plans != [] {
      var init, r := plans[..|plans| - 1], |plans| - 1;
      SameWrites(s, u, init, w);
      WroteKeeps(s, init);
      WroteKeeps(u, init);
      SameFit(WroteAll(s, init), WroteAll(u, init), Playlist(r), plans[r].text);
      hide Fits;
    }
  }

  lemma {:induction false} SameCopies(s: Stage, u: Stage, media: seq<Path>, w: World)
    requires s.published == u.published && s.cycle == u.cycle && s.maxBytes == u.maxBytes
    ensures CopiedAll(s, media, w).published == CopiedAll(u, media, w).published
    ensures CopyableAll(s, media, w) <==> CopyableAll(u, media, w)
  {
    hide Copyable;
    hide CopiedOne;
    if media != [] {
      var init, p := media[..|media| - 1], media[|media| - 1];
      SameCopies(s, u, init, w);
      CopiedKeeps(s, init, w);
      CopiedKeeps(u, init, w);
      SameFiles(CopiedAll(s, init, w), CopiedAll(u, init, w), p, w);
    }
  }

  lemma {:induction false} NotAllWritable(s: Stage, plans: seq<Plan>, w: World, r: nat)
    requires r < |plans| && !WritableAll(s, plans[..r + 1], w)
    ensures !WritableAll(s, plans, w)
    decreases |plans| - r
  {
    hide Writable;
    if r + 1 == |plans| {
      assert plans[..r + 1] == plans;
    } else {
      assert plans[..r + 2][..r + 1] == plans[..r + 1];
      NotAllWritable(s, plans, w, r + 1);
    }
  }

  /** The parts of a publication, seen from its start. */
  lemma SuccessParts(start: Stage, begun: Stage, copied: Stage, filled: Stage, plans: seq<Plan>, w: World)
    requires begun.published == start.published && begun.cycle == start.cycle + 1 && begun.maxBytes == start.maxBytes
    requires CopyableAll(begun, AllMedia(plans), w) ==>
               copied.published == CopiedAll(begun, AllMedia(plans), w).published && copied.cycle == begun.cycle && copied.maxBytes == begun.maxBytes
    requires CopyableAll(begun, AllMedia(plans), w) && WritableAll(copied, plans, w) && Writable(WroteAll(copied, plans), Master, w.master, w) ==>
               filled.published == Wrote(WroteAll(copied, plans), Master, w.master).published && filled.cycle == begun.cycle
    ensures Succeeds(start, plans, w) <==>
              && CopyableAll(begun, AllMedia(plans), w) && WritableAll(copied, plans, w)
              && Writable(WroteAll(copied, plans), Master, w.master, w) && forall p :: p in Expired(filled) ==> w.removable(p)
    ensures Succeeds(start, plans, w) ==> Result(start, plans, w) == filled.published - Expired(filled)
  {
    hide AllMedia;
    hide CopyableAll;
    hide CopiedAll;
    hide WritableAll;
    hide WroteAll;
    hide Fits;
    hide Expired;
    var media, s := AllMedia(plans), start.(cycle := start.cycle + 1);
    SameCopies(s, begun, media, w);
    CopiedKeeps(s, media, w);
    if CopyableAll(begun, media, w) {
      var u := CopiedAll(s, media, w);
      SameWrites(u, copied, plans, w);
      WroteKeeps(u, plans);
      WroteKeeps(copied, plans);
      SameFit(WroteAll(u, plans), WroteAll(copied, plans), Master, w.master);
      SameExpired(Filled(start, plans, w), filled);
    }
  }

  lemma ExpiredLess(s: Stage, p: Path)
    ensures forall u: Stage :: u.published == s.published - {p} && u.cycle == s.cycle ==> Expired(u) == Expired(s) - {p}
  {
  }

  lemma SameExpired(s: Stage, u: Stage)
    ensures s.published == u.published && s.cycle == u.cycle ==> Expired(s) == Expired(u)
  {
  }

  class Publisher {
    const renditions: nat
    const maxBytes: nat
    var published: map<Path, Entry>
    var windows: map<nat, Window>
    var cycle: nat
    var last: string
    var closed: bool
    ghost var phase: Phase
    ghost var revoked: bool
    ghost var log: seq<set<Path>>
    ghost var ever: map<Path, File>
    ghost var steps: seq<Step>
    ghost var states: seq<Stage>   // the directory after every single commit and removal

    ghost function View(): Stage
      reads this
    {
      Stage(renditions, maxBytes, published, windows, cycle, phase, revoked, log, ever)
    }

    ghost predicate Valid()
      reads this
    {
      && Execution(renditions, maxBytes, steps, states) && states[|steps|] == View()
      && (closed <==> phase.Invalidating? || phase.Ended?)
    }

    constructor (renditions: nat, maxBytes: nat)
      ensures Valid() && View() == FreshStage(renditions, maxBytes)
    {
      this.renditions, this.maxBytes := renditions, maxBytes;
      published, windows, cycle, last, closed := map[], map[], 0, "", false;
      phase, revoked, log, ever := Idle, false, [], map[];
      steps, states := [], [FreshStage(renditions, maxBytes)];
    }

    /** The fields have moved from `before` by the step `t`. */
    ghost method Moved(before: Stage, t: Step)
      requires Execution(renditions, maxBytes, steps, states) && states[|steps|] == before && Enabled(before, t)
      requires before.renditions == renditions && before.maxBytes == maxBytes
      requires var u := Apply(before, t); published == u.published && windows == u.windows && cycle == u.cycle
      requires var u := Apply(before, t); closed <==> u.phase.Invalidating? || u.phase.Ended?
      modifies this`phase, this`revoked, this`log, this`ever, this`steps, this`states
      ensures Valid() && View() == Apply(before, t) && steps == old(steps) + [t]
    {
      ProfileKept(before, t);
      Extended(renditions, maxBytes, steps, states, t);
      hide Execution;
      hide Enabled;
      hide Apply;
      var u := Apply(before, t);
      phase, revoked, log, ever := u.phase, u.revoked, u.log, u.ever;
      steps, states := steps + [t], states + [u];
    }

    method FileBytes() returns (sum: nat)
      ensures sum == Bytes(published)
    {
      hide Bytes;
      var rest := published;
      sum := 0;
      while rest != map[]
        invariant sum + Bytes(rest) == Bytes(published)
        decreases |rest|
      {
        var p :| p in rest;
        BytesSplit(rest, p);
        sum := sum + rest[p].file.size;
        rest := rest - {p};
      }
      assert Bytes(rest) == 0 by { BytesEmpty(rest); }
    }

    /** Makes the file visible under its name, or refuses and changes nothing.  A fence that
        fails after the rename leaves the file visible and still reports an error. */
    method CommitFile(p: Path, f: File, source: Option<Source>, before: bool, after: bool) returns (visible: bool, ok: bool)
      modifies this`published
      ensures visible <==> !closed && before && Fits(old(View()), p, f)
      ensures ok <==> visible && after
      ensures published == if visible then old(published)[p := Entry(f, source, cycle)] else old(published)
    {
      visible, ok := false, false;
      if closed || !before { return; }
      var total := FileBytes();
      hide Bytes;
      var previous := if p in published then published[p].file.size else 0;
      if f.size < 1 || f.size > MAX_FILE || |published| >= MAX_FILES || total - previous + f.size > maxBytes { return; }
      published := published[p := Entry(f, source, cycle)];
      visible, ok := true, after;
    }

    /** The k-th object of the publication: unchanged if it is visible already, else copied. */
    method CopyMedia(plans: seq<Plan>, k: nat, w: World) returns (ok: bool)
      requires Valid() && phase == Copying(plans, k) && k < |AllMedia(plans)| && !revoked
      modifies this
      ensures Valid() && revoked == old(revoked) && last == old(last) && cycle == old(cycle)
      ensures ok <==> Copyable(old(View()), AllMedia(plans)[k], w)
      ensures ok ==> phase == Copying(plans, k + 1) && log == old(log) && published == CopiedOne(old(View()), AllMedia(plans)[k], w).published
      ensures !ok ==> phase == Copying(plans, k) || phase == Stopped
    {
      hide AllMedia;
      hide Execution;
      hide Fits;
      var p := AllMedia(plans)[k];
      var current := w.sources(p);
      ghost var before := View();
      if p in published {
        if published[p].source != Some(current) { return false; }
        published := published[p := published[p].(seen := cycle)];
        Moved(before, Touch(current));
        return true;
      }
      var visible;
      visible, ok := CommitFile(p, File(current.size, current.content, {}), Some(current), w.before(p), w.after(p));
      if visible { Moved(before, Copy(current, ok)); }
    }

    /** All referenced objects before any playlist. */
    method CopyAll(plans: seq<Plan>, w: World) returns (ok: bool)
      requires Valid() && phase == Copying(plans, 0) && !revoked
      modifies this
      ensures Valid() && !revoked && last == old(last) && cycle == old(cycle)
      ensures ok <==> CopyableAll(old(View()), AllMedia(plans), w)
      ensures ok ==> phase == Copying(plans, |AllMedia(plans)|) && log == old(log)
      ensures ok ==> published == CopiedAll(old(View()), AllMedia(plans), w).published
      ensures !ok ==> phase.Copying? || phase.Stopped?
    {
      hide Execution;
      hide AllMedia;
      hide Copyable;
      hide CopiedOne;
      var media := AllMedia(plans);
      ghost var start := View();
      var k := 0;
      while k < |media|
        invariant Valid() && k <= |media| && phase == Copying(plans, k) && !revoked && log == old(log) && last == old(last) && cycle == old(cycle)
        invariant CopyableAll(start, media[..k], w) && published == CopiedAll(start, media[..k], w).published
      {
        assert media[..k + 1][..k] == media[..k];
        ghost var sofar := CopiedAll(start, media[..k], w);
        ghost var now := View();
        CopiedKeeps(start, media[..k], w);
        SameFiles(sofar, now, media[k], w);
        ok := CopyMedia(plans, k, w);
        if !ok {
          NotAllCopyable(start, media, w, k);
          return;
        }
        k := k + 1;
      }
      assert media[..k] == media;
      ok := true;
    }

    method WriteMedia(plans: seq<Plan>, w: World) returns (ok: bool)
      requires Valid() && phase == Writing(plans, 0) && !revoked
      modifies this
      ensures Valid() && !revoked && last == old(last) && cycle == old(cycle)
      ensures ok <==> WritableAll(old(View()), plans, w)
      ensures ok ==> phase == Writing(plans, |plans|) && log == old(log) && published == WroteAll(old(View()), plans).published
      ensures !ok ==> phase.Writing? || phase.Stopped?
    {
      hide Execution;
      hide AllMedia;
      hide Fits;
      ghost var start := View();
      var r := 0;
      while r < |plans|
        invariant Valid() && r <= |plans| && phase == Writing(plans, r) && !revoked && log == old(log) && last == old(last) && cycle == old(cycle)
        invariant WritableAll(start, plans[..r], w) && published == WroteAll(start, plans[..r]).published
      {
        assert plans[..r + 1][..r] == plans[..r];
        WroteKeeps(start, plans[..r]);
        ghost var before := View();
        SameFit(WroteAll(start, plans[..r]), before, Playlist(r), plans[r].text);
        var visible;
        visible, ok := CommitFile(Playlist(r), plans[r].text, None, w.before(Playlist(r)), w.after(Playlist(r)));
        if visible { Moved(before, WritePlaylist(ok)); }
        if !ok {
          NotAllWritable(start, plans, w, r);
          return;
        }
        r := r + 1;
      }
      assert plans[..r] == plans;
      ok := true;
    }

    method WriteIndex(plans: seq<Plan>, w: World) returns (ok: bool)
      requires Valid() && phase == Writing(plans, |plans|) && !revoked
      requires w.master.refs == set r: nat | r < renditions :: Playlist(r)
      modifies this
      ensures Valid() && !revoked && cycle == old(cycle)
      ensures ok <==> Writable(old(View()), Master, w.master, w)
      ensures ok ==> phase.Removing? && phase.todo == Expired(View()) && windows == Windows(plans) && last == Texts(plans)
      ensures ok ==> log == old(log) + [Names(AllMedia(plans))] && published == Wrote(old(View()), Master, w.master).published
      ensures !ok ==> phase.Writing? || phase.Stopped?
    {
      hide Execution;
      hide AllMedia;
      hide Fits;
      hide Texts;
      ghost var before := View();
      var visible;
      visible, ok := CommitFile(Master, w.master, None, w.before(Master), w.after(Master));
      if ok {
        last := Texts(plans);
        windows := map i: nat | 0 <= i < |plans| :: Window(plans[i].first, plans[i].Last());
      }
      if visible { Moved(before, WriteMaster(w.master, ok)); }
    }

    /** Removes what the last three cycles did not name, in any order. */
    method Sweep(w: World) returns (ok: bool)
      requires Valid() && phase.Removing? && phase.todo == Expired(View())
      modifies this
      ensures Valid() && phase.Removing? && log == old(log) && windows == old(windows) && last == old(last) && revoked == old(revoked) && cycle == old(cycle)
      ensures ok <==> forall p :: p in old(Expired(View())) ==> w.removable(p)
      ensures ok ==> phase.todo == {} && published == old(published) - old(Expired(View()))
    {
      hide Execution;
      hide AllMedia;
      ghost var gone: set<Path> := {};
      ghost var all := Expired(View());
      while exists p :: p in published && published[p].seen + 2 < cycle
        invariant Valid() && phase.Removing? && phase.todo == Expired(View())
        invariant log == old(log) && windows == old(windows) && last == old(last) && revoked == old(revoked) && cycle == old(cycle)
        invariant gone <= all && published == old(published) - gone && Expired(View()) == all - gone
        invariant forall p :: p in gone ==> w.removable(p)
        decreases published.Keys
      {
        var p :| p in published && published[p].seen + 2 < cycle;
        assert p in Expired(View());
        if !w.removable(p) { return false; }
        ghost var before := View();
        published := published - {p};
        ExpiredLess(before, p);
        Moved(before, Remove(p));
        gone := gone + {p};
      }
      assert Expired(View()) == {};
      assert gone == all;
      ok := true;
    }

    /** The publication proper, once the playlists are known to have changed. */
    method PublishChanged(plans: seq<Plan>, w: World) returns (ok: bool)
      requires Valid() && phase.Idle? && !revoked && Publishable(View(), plans)
      requires w.master.refs == set r: nat | r < renditions :: Playlist(r)
      modifies this
      ensures Valid() && !revoked
      ensures ok <==> Succeeds(old(View()), plans, w)
      ensures ok ==> phase.Idle? && log == old(log) + [Names(AllMedia(plans))] && last == Texts(plans) && windows == Windows(plans)
      ensures ok ==> published == Result(old(View()), plans, w) && cycle == old(cycle) + 1
      ensures !ok ==> phase.Stopped?
    {
      hide Execution;
      hide AllMedia;
      hide Publishable;
      hide Texts;
      hide Names;
      hide Windows;
      hide Expired;
      ghost var start := View();
      BeginCycle(plans);
      ghost var begun := View();
      ok := CopyAll(plans, w);
      ghost var copied := View();
      if ok { ok := WriteAll(plans, w); }
      ghost var filled := View();
      ghost var written := ok;
      if ok { ok := Sweep(w); }
      SuccessParts(start, begun, copied, filled, plans, w);
      hide Succeeds;
      hide Result;
      EndCycle(ok);
    }

    method BeginCycle(plans: seq<Plan>)
      requires Valid() && phase.Idle? && !revoked && Publishable(View(), plans)
      modifies this
      ensures Valid() && phase == Copying(plans, 0) && !revoked && log == old(log) && last == old(last)
      ensures published == old(published) && cycle == old(cycle) + 1
    {
      hide Execution;
      hide AllMedia;
      hide Publishable;
      ghost var before := View();
      cycle := cycle + 1;
      Moved(before, Begin(plans));
    }

    method WriteAll(plans: seq<Plan>, w: World) returns (ok: bool)
      requires Valid() && phase == Copying(plans, |AllMedia(plans)|) && !revoked
      requires w.master.refs == set r: nat | r < renditions :: Playlist(r)
      modifies this
      ensures Valid() && !revoked && cycle == old(cycle)
      ensures ok <==> WritableAll(old(View()), plans, w) && Writable(WroteAll(old(View()), plans), Master, w.master, w)
      ensures ok ==> phase.Removing? && phase.todo == Expired(View()) && windows == Windows(plans) && last == Texts(plans)
      ensures ok ==> log == old(log) + [Names(AllMedia(plans))]
      ensures ok ==> published == Wrote(WroteAll(old(View()), plans), Master, w.master).published
      ensures !ok ==> phase.Writing? || phase.Stopped?
    {
      hide Execution;
      hide AllMedia;
      hide Texts;
      hide Names;
      hide Windows;
      hide Expired;
      ghost var start := View();
      Moved(View(), StartWriting);
      ghost var writing := View();
      SameWrites(start, writing, plans, w);
      hide WritableAll;
      hide WroteAll;
      ok := WriteMedia(plans, w);
      if ok {
        WroteKeeps(start, plans);
        ghost var media := View();
        SameFit(WroteAll(start, plans), media, Master, w.master);
        hide Fits;
        ok := WriteIndex(plans, w);
      }
    }

    /** Ends the publication, well or not. */
    ghost method EndCycle(ok: bool)
      requires Valid() && !phase.Idle? && Serving(View())
      requires ok ==> phase.Removing? && phase.todo == {}
      modifies this`phase, this`revoked, this`log, this`ever, this`steps, this`states
      ensures Valid() && View() == old(View()).(phase := if ok then Idle else Stopped)
    {
      hide Execution;
      hide AllMedia;
      if ok {
        Moved(View(), Finish);
      } else if !phase.Stopped? {
        Moved(View(), Fail);
      }
    }

    /** One turn of the publishing worker.  `allowed` is the fence at the start, `inventory`
        whether the private tree is within its bounds, `readings` its playlists. */
    method Publish(allowed: bool, inventory: bool, readings: seq<Reading>, w: World) returns (outcome: Outcome)
      requires Valid() && (phase.Idle? || phase.Ended?) && |readings| == renditions && (revoked ==> !allowed)
      requires w.master.refs == set r: nat | r < renditions :: Playlist(r)
      modifies this
      ensures Valid()
      ensures outcome == Denied <==> old(closed) || !allowed
      ensures outcome == InventoryFailed <==> !old(closed) && allowed && !inventory
      ensures var (plans, verdict) := ReadPlans(readings, old(windows));
              !old(closed) && allowed && inventory ==>
                if verdict != Published then outcome == verdict
                else if Texts(plans) == old(last) then outcome == Unchanged
                else outcome == if Succeeds(old(View()), plans, w) then Published else Failed
      ensures outcome == Published ==>
                var plans := ReadPlans(readings, old(windows)).0;
                && phase.Idle? && log == old(log) + [Names(AllMedia(plans))] && last == Texts(plans) && windows == Windows(plans)
                && published == Result(old(View()), plans, w)
      ensures outcome == NotReady || outcome == Unchanged ==> View() == old(View()) && last == old(last)
      ensures IsError(outcome) ==> phase.Stopped? || phase.Ended?
      ensures IsError(outcome) && outcome != Failed ==> published == old(published) && log == old(log)
    {
      hide Execution;
      hide AllMedia;
      hide Texts;
      hide Publishable;
      hide Succeeds;
      hide Result;
      if closed || !allowed {
        if !closed { Refuse(); }
        return Denied;
      }
      if !inventory {
        Refuse();
        return InventoryFailed;
      }
      ReadPlansPublishable(readings, View());
      var plans, verdict := ReadPlans(readings, windows).0, ReadPlans(readings, windows).1;
      hide ReadPlans;
      if verdict != Published {
        if verdict != NotReady { Refuse(); }
        return verdict;
      }
      if Texts(plans) == last {
        return Unchanged;
      }
      var ok := PublishChanged(plans, w);
      outcome := if ok then Published else Failed;
    }

    /** An error before anything was touched. */
    ghost method Refuse()
      requires Valid() && phase.Idle?
      modifies this`phase, this`revoked, this`log, this`ever, this`steps, this`states
      ensures Valid() && View() == old(View()).(phase := Stopped)
    {
      hide Execution;
      Moved(View(), Fail);
    }

    /** Empties the directory in any order once the fence is revoked; a file whose removal
        fails stays, and only then is the result an error. */
    method Invalidate(removable: Path -> bool) returns (clean: bool)
      requires Valid() && (phase.Idle? || phase.Stopped?)
      modifies this
      ensures Valid() && closed && phase == Ended(clean)
      ensures published == Left(old(published), {}, removable)
      ensures clean <==> forall p :: p in old(published) ==> removable(p)
      ensures clean ==> published == map[]
    {
      hide Execution;
      clean := true;
      CloseFirst();
      var todo := published.Keys;
      assert Left(published, todo, removable) == published;
      while todo != {}
        invariant Valid() && closed && phase == Invalidating(todo, clean)
        invariant todo <= old(published).Keys && published == Left(old(published), todo, removable)
        invariant clean <==> Left(old(published), todo, removable).Keys == todo
        decreases |todo|
      {
        var p :| p in todo;
        LeftStep(old(published), todo, removable, p);
        DiscardOne(p, removable(p));
        todo, clean := todo - {p}, clean && removable(p);
      }
      LeftAtEnd(old(published), removable);
      FinishInvalidation();
    }

    method FinishInvalidation()
      requires Valid() && phase.Invalidating? && phase.todo == {}
      modifies this
      ensures Valid() && closed && phase == Ended(old(phase).clean) && published == old(published)
    {
      hide Execution;
      last := "";
      Moved(View(), EndInvalidate);
    }

    /** The fence is revoked before anything is removed. */
    method CloseFirst()
      requires Valid() && (phase.Idle? || phase.Stopped?)
      modifies this
      ensures Valid() && closed && phase == Invalidating(published.Keys, true) && published == old(published)
    {
      hide Execution;
      Moved(View(), Revoke);
      ghost var before := View();
      closed := true;
      Moved(before, StartInvalidate);
    }

    method DiscardOne(p: Path, removable: bool)
      requires Valid() && phase.Invalidating? && p in phase.todo
      modifies this
      ensures Valid() && closed && phase == Invalidating(old(phase).todo - {p}, old(phase).clean && removable)
      ensures published == if removable then old(published) - {p} else old(published)
    {
      hide Execution;
      ghost var before := View();
      if removable {
        published := published - {p};
        Moved(before, Discard(p));
      } else {
        Moved(before, Keep(p));
      }
    }
  }

  /** What is left while `todo` has not been tried: that, and what could not be removed. */
  function Left(m: map<Path, Entry>, todo: set<Path>, removable: Path -> bool): map<Path, Entry> {
    map p | p in m && (p in todo || !removable(p)) :: m[p]
  }

  lemma LeftStep(m: map<Path, Entry>, todo: set<Path>, removable: Path -> bool, p: Path)
    requires p in todo && todo <= m.Keys
    ensures Left(m, todo - {p}, removable) == if removable(p) then Left(m, todo, removable) - {p} else Left(m, todo, removable)
    ensures Left(m, todo - {p}, removable).Keys == todo - {p} <==> removable(p) && Left(m, todo, removable).Keys == todo
  {
    var u := Left(m, todo, removable);
    assert todo <= u.Keys;
    if removable(p) {
      assert Left(m, todo - {p}, removable) == u - {p};
      assert (u - {p}).Keys == u.Keys - {p};
      assert u.Keys == (u.Keys - {p}) + {p} && todo == (todo - {p}) + {p};
    } else {
      assert Left(m, todo - {p}, removable) == u;
    }
  }

  lemma LeftAtEnd(m: map<Path, Entry>, removable: Path -> bool)
    ensures Left(m, {}, removable).Keys == {} <==> forall p :: p in m ==> removable(p)
  {
    if Left(m, {}, removable).Keys == {} {
      forall p | p in m ensures removable(p) { assert p !in Left(m, {}, removable).Keys; }
    }
  }
}
