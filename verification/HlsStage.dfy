/** The publisher that copies a private encoder tree into the served directory: objects
    first, then playlists, then the master playlist, then expired objects are removed; and
    the invalidation that empties the directory when its encoder stops.  The served
    directory is an owned map, and every commit and removal is one step. */
module HlsStage {
  import opened Common

  const MAX_FILE := 24 * 1024 * 1024
  const MAX_FILES := 64

  /** Every path the profile allows, by rendition. */
  datatype Path = Init(rendition: nat) | Segment(rendition: nat, number: nat) | Playlist(rendition: nat) | Master

  /** `refs` are the paths a playlist names; media files name none. */
  datatype File = File(size: nat, content: int, refs: set<Path>)

  /** The identity of a private file: inode, size and modification time. */
  datatype Source = Source(identity: int, size: nat, content: int)

  datatype Entry = Entry(file: File, source: Option<Source>, seen: nat)

  /** A parsed media playlist: consecutive segments, one to seven of them, and its text. */
  datatype Plan = Plan(first: nat, count: nat, text: File, data: string) {
    function Last(): int { first + count - 1 }
  }

  datatype Window = Window(first: nat, last: int)

  datatype Phase =
    | Idle
    | Copying(plans: seq<Plan>, next: nat)
    | Writing(plans: seq<Plan>, next: nat)
    | Removing(plans: seq<Plan>, todo: set<Path>)
    | Stopped                                        // a publication failed; none follows
    | Invalidating(todo: set<Path>, clean: bool)     // `clean`: no removal has failed
    | Ended(clean: bool)

  /** `log` holds the media of each successful changed publication and `ever` the first
      file published under each name. */
  datatype Stage = Stage(
    renditions: nat, maxBytes: nat,
    published: map<Path, Entry>, windows: map<nat, Window>, cycle: nat,
    phase: Phase, revoked: bool,
    log: seq<set<Path>>, ever: map<Path, File>)

  function FreshStage(renditions: nat, maxBytes: nat): Stage {
    Stage(renditions, maxBytes, map[], map[], 0, Idle, false, [], map[])
  }

  // ---------------------------------------------------------------- plans

  function SegmentsOf(r: nat, first: nat, count: nat): seq<Path> {
    seq(count, i requires 0 <= i => Segment(r, first + i))
  }

  function MediaOf(r: nat, p: Plan): seq<Path> {
    [Init(r)] + SegmentsOf(r, p.first, p.count)
  }

  /** All media of a publication, in copying order. */
  function AllMedia(plans: seq<Plan>): seq<Path> {
    if plans == [] then []
    else AllMedia(plans[..|plans| - 1]) + MediaOf(|plans| - 1, plans[|plans| - 1])
  }

  function Names(paths: seq<Path>): set<Path> {
    set p | p in paths
  }

  predicate Parsed(r: nat, p: Plan) {
    1 <= p.count <= 7 && p.text.refs == Names(MediaOf(r, p)) && 1 <= p.text.size <= 65536
  }

  predicate Follows(windows: map<nat, Window>, r: nat, p: Plan) {
    r in windows ==> p.first >= windows[r].first && p.Last() >= windows[r].last
  }

  predicate Publishable(s: Stage, plans: seq<Plan>) {
    |plans| == s.renditions
    && forall r :: 0 <= r < |plans| ==> Parsed(r, plans[r]) && Follows(s.windows, r, plans[r])
  }

  // ---------------------------------------------------------------- atomic actions

  ghost function Bytes(m: map<Path, Entry>): nat {
    if m == map[] then 0
    else
      var p :| p in m;
      m[p].file.size + Bytes(m - {p})
  }

  ghost predicate Fits(s: Stage, p: Path, f: File) {
    && 1 <= f.size <= MAX_FILE && |s.published| < MAX_FILES
    && Bytes(s.published) - (if p in s.published then s.published[p].file.size else 0) + f.size <= s.maxBytes
  }

  /** A rename makes the file visible under its name. */
  function Commit(s: Stage, p: Path, f: File, source: Option<Source>): Stage {
    s.(published := s.published[p := Entry(f, source, s.cycle)],
       ever := if p.Init? || p.Segment? then (if p in s.ever then s.ever else s.ever[p := f]) else s.ever)
  }

  datatype Step =
    | Begin(plans: seq<Plan>)          // the playlists have changed
    | Touch(current: Source)           // an object that is already published
    | Copy(current: Source, valid: bool)  // an object that is not; `valid`: the fence after the rename
    | StartWriting
    | WritePlaylist(valid: bool)
    | WriteMaster(text: File, valid: bool)
    | Remove(path: Path)
    | Finish
    | Fail                             // a reading, a commit, a removal or the fence failed
    | Revoke                           // the fence, at any moment
    | StartInvalidate                  // once no publication is under way
    | Discard(path: Path)
    | Keep(path: Path)                 // a removal that failed
    | EndInvalidate

  ghost predicate Enabled(s: Stage, t: Step) {
    match t
    case Begin(plans) => s.phase.Idle? && !s.revoked && Publishable(s, plans)
    case Touch(current) =>
      && s.phase.Copying? && s.phase.next < |AllMedia(s.phase.plans)|
      && var p := AllMedia(s.phase.plans)[s.phase.next];
         p in s.published && s.published[p].source == Some(current)
    case Copy(current, valid) =>
      && (valid ==> !s.revoked) && s.phase.Copying? && s.phase.next < |AllMedia(s.phase.plans)|
      && var p := AllMedia(s.phase.plans)[s.phase.next];
         p !in s.published && Fits(s, p, File(current.size, current.content, {}))
    case StartWriting => s.phase.Copying? && s.phase.next == |AllMedia(s.phase.plans)|
    case WritePlaylist(valid) =>
      && (valid ==> !s.revoked) && s.phase.Writing? && s.phase.next < |s.phase.plans|
      && Fits(s, Playlist(s.phase.next), s.phase.plans[s.phase.next].text)
    case WriteMaster(text, valid) =>
      && (valid ==> !s.revoked) && s.phase.Writing? && s.phase.next == |s.phase.plans| && Fits(s, Master, text)
      && text.refs == set r: nat | r < s.renditions :: Playlist(r)
    case Remove(p) => s.phase.Removing? && p in s.phase.todo
    case Finish => s.phase.Removing? && s.phase.todo == {}
    case Fail => Running(s)
    case Revoke => true
    case StartInvalidate => s.revoked && (s.phase.Idle? || s.phase.Stopped?)
    case Discard(p) => s.phase.Invalidating? && p in s.phase.todo
    case Keep(p) => s.phase.Invalidating? && p in s.phase.todo
    case EndInvalidate => s.phase.Invalidating? && s.phase.todo == {}
  }

  /** No publication has failed. */
  predicate Running(s: Stage) {
    s.phase.Idle? || s.phase.Copying? || s.phase.Writing? || s.phase.Removing?
  }

  /** The invalidation has not begun. */
  predicate Serving(s: Stage) {
    Running(s) || s.phase.Stopped?
  }

  function Expired(s: Stage): set<Path> {
    set p | p in s.published && s.published[p].seen + 2 < s.cycle
  }

  function Windows(plans: seq<Plan>): map<nat, Window> {
    map r: nat | 0 <= r < |plans| :: Window(plans[r].first, plans[r].Last())
  }

  function Apply(s: Stage, t: Step): Stage
    requires Enabled(s, t)
  {
    match t
    case Begin(plans) => s.(cycle := s.cycle + 1, phase := Copying(plans, 0))
    case Touch(_) =>
      var p := AllMedia(s.phase.plans)[s.phase.next];
      s.(published := s.published[p := s.published[p].(seen := s.cycle)], phase := Copying(s.phase.plans, s.phase.next + 1))
    case Copy(current, valid) =>
      var p := AllMedia(s.phase.plans)[s.phase.next];
      Commit(s, p, File(current.size, current.content, {}), Some(current))
        .(phase := if valid then Copying(s.phase.plans, s.phase.next + 1) else Stopped)
    case StartWriting => s.(phase := Writing(s.phase.plans, 0))
    case WritePlaylist(valid) =>
      var r := s.phase.next;
      Commit(s, Playlist(r), s.phase.plans[r].text, None).(phase := if valid then Writing(s.phase.plans, r + 1) else Stopped)
    case WriteMaster(text, valid) =>
      var u := Commit(s, Master, text, None);
      if !valid then u.(phase := Stopped) else
      u.(windows := Windows(s.phase.plans), log := s.log + [Names(AllMedia(s.phase.plans))],
         phase := Removing(s.phase.plans, Expired(u)))
    case Remove(p) =>
      s.(published := s.published - {p}, phase := Removing(s.phase.plans, s.phase.todo - {p}))
    case Finish => s.(phase := Idle)
    case Fail => s.(phase := Stopped)
    case Revoke => s.(revoked := true)
    case StartInvalidate => s.(phase := Invalidating(s.published.Keys, true))
    case Discard(p) => s.(published := s.published - {p}, phase := s.phase.(todo := s.phase.todo - {p}))
    case Keep(p) => s.(phase := Invalidating(s.phase.todo - {p}, false))
    case EndInvalidate => s.(phase := Ended(s.phase.clean))
  }

  ghost predicate Execution(renditions: nat, maxBytes: nat, steps: seq<Step>, states: seq<Stage>) {
    && |states| == |steps| + 1
    && states[0] == FreshStage(renditions, maxBytes)
    && forall k :: 0 <= k < |steps| ==> Enabled(states[k], steps[k]) && states[k + 1] == Apply(states[k], steps[k])
  }

  // ---------------------------------------------------------------- what is claimed of every state

  /** Everything a visible file names is visible. */
  ghost predicate NoDangling(s: Stage) {
    forall p :: p in s.published ==> s.published[p].file.refs <= s.published.Keys
  }

  /** The objects of the last three successful changed publications are visible. */
  ghost predicate Retained(s: Stage) {
    forall i :: 0 <= i < |s.log| && i >= |s.log| - 3 ==> s.log[i] <= s.published.Keys
  }

  ghost predicate Bounded(s: Stage) {
    Bytes(s.published) <= s.maxBytes && |s.published| <= MAX_FILES
  }

  // ---------------------------------------------------------------- byte accounting

  lemma {:induction false} BytesSplit(m: map<Path, Entry>, p: Path)
    requires p in m
    ensures Bytes(m) == m[p].file.size + Bytes(m - {p})
    decreases |m|
  {
    var q :| q in m && Bytes(m) == m[q].file.size + Bytes(m - {q});
    if p != q {
      BytesSplit(m - {q}, p);
      BytesSplit(m - {p}, q);
      assert m - {q} - {p} == m - {p} - {q};
    }
  }

  lemma BytesUpdate(m: map<Path, Entry>, p: Path, e: Entry)
    ensures Bytes(m[p := e]) == Bytes(m) - (if p in m then m[p].file.size else 0) + e.file.size
  {
    BytesSplit(m[p := e], p);
    assert m[p := e] - {p} == m - {p};
    if p in m { BytesSplit(m, p); } else { assert m - {p} == m; }
  }

  lemma CommitBounded(s: Stage, p: Path, f: File, source: Option<Source>)
    requires Fits(s, p, f)
    ensures Bounded(Commit(s, p, f, source))
  {
    hide Bytes;
    BytesUpdate(s.published, p, Entry(f, source, s.cycle));
    assert s.published[p := Entry(f, source, s.cycle)].Keys == s.published.Keys + {p};
  }

  lemma TouchBounded(m: map<Path, Entry>, p: Path, cycle: nat)
    requires p in m
    ensures var u := m[p := m[p].(seen := cycle)]; Bytes(u) == Bytes(m) && |u| == |m|
  {
    hide Bytes;
    BytesUpdate(m, p, m[p].(seen := cycle));
    assert m[p := m[p].(seen := cycle)].Keys == m.Keys;
  }

  lemma RemoveBounded(m: map<Path, Entry>, p: Path)
    ensures Bytes(m - {p}) <= Bytes(m) && |m - {p}| <= |m|
  {
    hide Bytes;
    if p in m { BytesSplit(m, p); } else { assert m - {p} == m; }
    assert (m - {p}).Keys == m.Keys - {p};
  }

  /** What a step does to the served files. */
  lemma StepServes(s: Stage, t: Step)
    requires Enabled(s, t)
    ensures var u := Apply(s, t);
            && u.maxBytes == s.maxBytes
            && match t
               case Touch(_) => var p := AllMedia(s.phase.plans)[s.phase.next];
                                u.published == s.published[p := s.published[p].(seen := s.cycle)]
               case Copy(current, _) =>
                 u.published == Commit(s, AllMedia(s.phase.plans)[s.phase.next], File(current.size, current.content, {}), Some(current)).published
               case WritePlaylist(_) => u.published == Commit(s, Playlist(s.phase.next), s.phase.plans[s.phase.next].text, None).published
               case WriteMaster(text, _) => u.published == Commit(s, Master, text, None).published
               case Remove(p) => u.published == s.published - {p}
               case Discard(p) => u.published == s.published - {p}
               case _ => u.published == s.published
  {
    hide AllMedia;
    hide Fits;
  }

  lemma BoundedKept(s: Stage, t: Step)
    requires Bounded(s) && Enabled(s, t)
    ensures Bounded(Apply(s, t))
  {
    StepServes(s, t);
    hide Bytes;
    hide AllMedia;
    hide Apply;
    match t
    case Touch(_) => TouchBounded(s.published, AllMedia(s.phase.plans)[s.phase.next], s.cycle);
    case Copy(current, _) =>
      CommitBounded(s, AllMedia(s.phase.plans)[s.phase.next], File(current.size, current.content, {}), Some(current));
    case WritePlaylist(_) => CommitBounded(s, Playlist(s.phase.next), s.phase.plans[s.phase.next].text, None);
    case WriteMaster(text, _) => CommitBounded(s, Master, text, None);
    case Remove(p) => RemoveBounded(s.published, p);
    case Discard(p) => RemoveBounded(s.published, p);
    case _ =>
  }

  // ---------------------------------------------------------------- media of a publication

  predicate Named(plans: seq<Plan>, p: Path) {
    match p
    case Init(r) => r < |plans|
    case Segment(r, n) => r < |plans| && plans[r].first <= n <= plans[r].Last()
    case _ => false
  }

  lemma MediaNamed(r: nat, plan: Plan, p: Path)
    ensures p in MediaOf(r, plan) <==> p == Init(r) || (p.Segment? && p.rendition == r && plan.first <= p.number <= plan.Last())
  {
    var list := SegmentsOf(r, plan.first, plan.count);
    if p.Segment? && p.rendition == r && plan.first <= p.number <= plan.Last() {
      assert list[p.number - plan.first] == p;
      assert MediaOf(r, plan)[1 + p.number - plan.first] == p;
    }
    assert MediaOf(r, plan)[0] == Init(r);
  }

  lemma {:induction false} AllMediaNamed(plans: seq<Plan>, p: Path)
    ensures p in AllMedia(plans) <==> Named(plans, p)
  {
    if plans != [] {
      AllMediaNamed(plans[..|plans| - 1], p);
      MediaNamed(|plans| - 1, plans[|plans| - 1], p);
    }
  }

  /** The media of one rendition are among the media of the publication. */
  lemma RenditionCovered(plans: seq<Plan>, r: nat)
    requires r < |plans|
    ensures Names(MediaOf(r, plans[r])) <= Names(AllMedia(plans))
  {
    forall p | p in MediaOf(r, plans[r])
      ensures p in AllMedia(plans)
    {
      MediaNamed(r, plans[r], p);
      AllMediaNamed(plans, p);
    }
  }

  // ---------------------------------------------------------------- no playlist dangles

  ghost predicate Copied(s: Stage, plans: seq<Plan>, upTo: nat)
    requires upTo <= |AllMedia(plans)|
  {
    forall i :: 0 <= i < upTo ==> AllMedia(plans)[i] in s.published && s.published[AllMedia(plans)[i]].seen == s.cycle
  }

  ghost predicate Written(s: Stage, plans: seq<Plan>, upTo: nat)
    requires upTo <= |plans|
  {
    forall r: nat :: r < upTo ==>
      Playlist(r) in s.published && s.published[Playlist(r)] == Entry(plans[r].text, None, s.cycle)
  }

  function PlaylistNames(n: nat): set<Path> {
    set r: nat | r < n :: Playlist(r)
  }

  ghost predicate ParsedAll(s: Stage, plans: seq<Plan>) {
    |plans| == s.renditions && forall r :: 0 <= r < |plans| ==> Parsed(r, plans[r])
  }

  ghost predicate Progress(s: Stage) {
    match s.phase
    case Idle => true
    case Copying(plans, k) => ParsedAll(s, plans) && k <= |AllMedia(plans)| && Copied(s, plans, k)
    case Writing(plans, r) =>
      ParsedAll(s, plans) && r <= |plans| && Copied(s, plans, |AllMedia(plans)|) && Written(s, plans, r)
    case Removing(plans, todo) =>
      && ParsedAll(s, plans) && Copied(s, plans, |AllMedia(plans)|) && Written(s, plans, |plans|)
      && Master in s.published && s.published[Master].seen == s.cycle
      && s.published[Master].file.refs == PlaylistNames(s.renditions)
      && forall p :: p in todo ==> p in s.published && s.published[p].seen + 2 < s.cycle
    case Stopped => true
    case Invalidating(todo, clean) => todo <= s.published.Keys && (clean ==> todo == s.published.Keys)
    case Ended(clean) => clean ==> s.published == map[]
  }

  /** Only playlists name other files. */
  ghost predicate Shaped(s: Stage) {
    forall p :: p in s.published ==>
      && (p.Init? || p.Segment? ==> s.published[p].file.refs == {} && p.rendition < s.renditions)
      && (p.Playlist? ==> p.rendition < s.renditions)
  }

  ghost predicate Coherent(s: Stage) {
    (Serving(s) ==> NoDangling(s)) && Shaped(s) && Progress(s)
  }

  /** The next object to copy belongs to the publication. */
  lemma NextMedia(plans: seq<Plan>, k: nat)
    requires k < |AllMedia(plans)|
    ensures Named(plans, AllMedia(plans)[k])
  {
    AllMediaNamed(plans, AllMedia(plans)[k]);
  }

  function Put(s: Stage, p: Path, e: Entry): Stage {
    s.(published := s.published[p := e])
  }

  lemma PutSafe(s: Stage, p: Path, e: Entry)
    requires NoDangling(s) && Shaped(s) && e.file.refs <= s.published.Keys
    requires p.Init? || p.Segment? ==> e.file.refs == {} && p.rendition < s.renditions
    requires p.Playlist? ==> p.rendition < s.renditions
    ensures NoDangling(Put(s, p, e)) && Shaped(Put(s, p, e))
  {
    assert Put(s, p, e).published.Keys == s.published.Keys + {p};
  }

  /** Anything committed or touched in this cycle keeps what was copied in this cycle. */
  lemma PutCopied(s: Stage, p: Path, e: Entry, plans: seq<Plan>, k: nat)
    requires k <= |AllMedia(plans)| && Copied(s, plans, k) && e.seen == s.cycle
    ensures Copied(Put(s, p, e), plans, k)
    ensures k < |AllMedia(plans)| && p == AllMedia(plans)[k] ==> Copied(Put(s, p, e), plans, k + 1)
  {
    hide AllMedia;
  }

  lemma PutWritten(s: Stage, p: Path, e: Entry, plans: seq<Plan>, r: nat)
    requires r <= |plans| && Written(s, plans, r) && (p.Playlist? ==> p.rendition >= r)
    ensures Written(Put(s, p, e), plans, r)
    ensures r < |plans| && p == Playlist(r) && e == Entry(plans[r].text, None, s.cycle) ==> Written(Put(s, p, e), plans, r + 1)
  {
  }

  lemma CopyCoherent(s: Stage, t: Step)
    requires Coherent(s) && Enabled(s, t) && (t.Touch? || t.Copy?)
    ensures Coherent(Apply(s, t))
  {
    var plans, k := s.phase.plans, s.phase.next;
    NextMedia(plans, k);
    var p := AllMedia(plans)[k];
    var e := if t.Touch? then s.published[p].(seen := s.cycle)
             else Entry(File(t.current.size, t.current.content, {}), Some(t.current), s.cycle);
    PutSafe(s, p, e);
    PutCopied(s, p, e, plans, k);
    hide AllMedia;
    hide Copied;
    hide NoDangling;
    hide Shaped;
    SameStage(Put(s, p, e), Apply(s, t), plans, k + 1);
  }

  /** Coherence speaks about the served files, the cycle and the phase only. */
  lemma SameStage(s: Stage, u: Stage, plans: seq<Plan>, k: nat)
    requires u.published == s.published && u.cycle == s.cycle && u.renditions == s.renditions
    ensures NoDangling(s) ==> NoDangling(u)
    ensures Shaped(s) ==> Shaped(u)
    ensures k <= |AllMedia(plans)| && Copied(s, plans, k) ==> Copied(u, plans, k)
    ensures k <= |plans| && Written(s, plans, k) ==> Written(u, plans, k)
  {
    hide AllMedia;
  }

  /** All that the next playlist names has been copied. */
  lemma PlaylistServed(s: Stage)
    requires Coherent(s) && Enabled(s, WritePlaylist(false))
    ensures s.phase.plans[s.phase.next].text.refs <= s.published.Keys && s.phase.next < s.renditions
  {
    var plans, r := s.phase.plans, s.phase.next;
    RenditionCovered(plans, r);
    assert Parsed(r, plans[r]);
    hide AllMedia;
    hide MediaOf;
    hide NoDangling;
    hide Shaped;
    hide Written;
    hide Fits;
    assert Names(AllMedia(plans)) <= s.published.Keys;
  }

  lemma PlaylistCoherent(s: Stage, valid: bool)
    requires Coherent(s) && Enabled(s, WritePlaylist(valid))
    ensures Coherent(Apply(s, WritePlaylist(valid)))
  {
    var plans, r := s.phase.plans, s.phase.next;
    var e, all := Entry(plans[r].text, None, s.cycle), |AllMedia(plans)|;
    PlaylistServed(s);
    PutSafe(s, Playlist(r), e);
    PutCopied(s, Playlist(r), e, plans, all);
    PutWritten(s, Playlist(r), e, plans, r);
    hide AllMedia;
    hide Copied;
    hide Written;
    hide NoDangling;
    hide Shaped;
    hide Fits;
    SameStage(Put(s, Playlist(r), e), Apply(s, WritePlaylist(valid)), plans, r + 1);
    SameStage(Put(s, Playlist(r), e), Apply(s, WritePlaylist(valid)), plans, all);
  }

  lemma MasterCoherent(s: Stage, text: File, valid: bool)
    requires Coherent(s) && Enabled(s, WriteMaster(text, valid))
    ensures Coherent(Apply(s, WriteMaster(text, valid)))
  {
    var plans, e := s.phase.plans, Entry(text, None, s.cycle);
    var all := |AllMedia(plans)|;
    assert text.refs == PlaylistNames(s.renditions);
    assert text.refs <= s.published.Keys;
    PutSafe(s, Master, e);
    PutCopied(s, Master, e, plans, all);
    PutWritten(s, Master, e, plans, |plans|);
    hide AllMedia;
    hide Copied;
    hide Written;
    hide NoDangling;
    hide Shaped;
    hide PlaylistNames;
    SameStage(Put(s, Master, e), Apply(s, WriteMaster(text, valid)), plans, |plans|);
    SameStage(Put(s, Master, e), Apply(s, WriteMaster(text, valid)), plans, all);
  }

  /** An object about to expire belongs to no publication of this cycle. */
  lemma ExpiredUnnamed(s: Stage, plans: seq<Plan>, p: Path)
    requires Copied(s, plans, |AllMedia(plans)|) && p in s.published && s.published[p].seen != s.cycle
    ensures p !in AllMedia(plans)
  {
    hide AllMedia;
  }

  /** No file of this cycle names an expired path. */
  lemma ExpiredUnreferenced(s: Stage, p: Path, q: Path)
    requires Coherent(s) && Enabled(s, Remove(p)) && q in s.published
    ensures p !in s.published[q].file.refs
  {
    var plans := s.phase.plans;
    ExpiredUnnamed(s, plans, p);
    if q.Playlist? {
      RenditionCovered(plans, q.rendition);
      assert Parsed(q.rendition, plans[q.rendition]);
      assert s.published[q].file == plans[q.rendition].text;
    }
    hide AllMedia;
    hide MediaOf;
    hide NoDangling;
    hide Copied;
  }

  lemma RemoveSafe(s: Stage, p: Path)
    requires Coherent(s) && Enabled(s, Remove(p))
    ensures NoDangling(Apply(s, Remove(p))) && Shaped(Apply(s, Remove(p)))
  {
    forall q | q in s.published
      ensures p !in s.published[q].file.refs
    {
      ExpiredUnreferenced(s, p, q);
    }
    hide Progress;
  }

  /** Removing an old path leaves what this cycle has copied and written. */
  lemma RemoveOld(s: Stage, u: Stage, p: Path, plans: seq<Plan>)
    requires u.published == s.published - {p} && u.cycle == s.cycle && p in s.published && s.published[p].seen != s.cycle
    ensures Copied(s, plans, |AllMedia(plans)|) ==> Copied(u, plans, |AllMedia(plans)|)
    ensures Written(s, plans, |plans|) ==> Written(u, plans, |plans|)
  {
    hide AllMedia;
  }

  lemma RemoveCoherent(s: Stage, p: Path)
    requires Coherent(s) && Enabled(s, Remove(p))
    ensures Coherent(Apply(s, Remove(p)))
  {
    RemoveSafe(s, p);
    RemoveOld(s, Apply(s, Remove(p)), p, s.phase.plans);
    hide AllMedia;
    hide NoDangling;
    hide Shaped;
    hide ParsedAll;
    hide Copied;
    hide Written;
    hide PlaylistNames;
  }

  /** The steps that serve no new file. */
  lemma QuietCoherent(s: Stage, t: Step)
    requires Coherent(s) && Enabled(s, t)
    requires !t.Touch? && !t.Copy? && !t.WritePlaylist? && !t.WriteMaster? && !t.Remove?
    ensures Coherent(Apply(s, t))
  {
    hide AllMedia;
    match t
    case Begin(_) =>
    case Discard(_) =>
    case Keep(_) =>
    case _ =>
  }

  lemma StepCoherent(s: Stage, t: Step)
    requires Coherent(s) && Enabled(s, t)
    ensures Coherent(Apply(s, t))
  {
    hide AllMedia;
    hide Coherent;
    hide Enabled;
    hide Apply;
    match t
    case Touch(_) => CopyCoherent(s, t);
    case Copy(_, _) => CopyCoherent(s, t);
    case WritePlaylist(valid) => PlaylistCoherent(s, valid);
    case WriteMaster(text, valid) => MasterCoherent(s, text, valid);
    case Remove(p) => RemoveCoherent(s, p);
    case _ => QuietCoherent(s, t);
  }

  lemma {:induction false} ExecutionCoherent(n: nat, maxBytes: nat, steps: seq<Step>, states: seq<Stage>, k: nat)
    requires Execution(n, maxBytes, steps, states) && k < |states|
    ensures Coherent(states[k]) && Bounded(states[k]) && states[k].renditions == n && states[k].maxBytes == maxBytes
  {
    hide Coherent;
    hide Bounded;
    hide Enabled;
    hide Apply;
    if k == 0 {
      FreshCoherent(n, maxBytes);
    } else {
      ProfileKept(states[k - 1], steps[k - 1]);
      ExecutionCoherent(n, maxBytes, steps, states, k - 1);
      StepCoherent(states[k - 1], steps[k - 1]);
      BoundedKept(states[k - 1], steps[k - 1]);
    }
  }

  lemma Extended(n: nat, maxBytes: nat, steps: seq<Step>, states: seq<Stage>, t: Step)
    requires Execution(n, maxBytes, steps, states) && Enabled(states[|steps|], t)
    ensures Execution(n, maxBytes, steps + [t], states + [Apply(states[|steps|], t)])
  {
    hide Enabled;
    hide Apply;
  }

  lemma BytesEmpty(m: map<Path, Entry>)
    requires m == map[]
    ensures Bytes(m) == 0
  {
  }

  lemma ProfileKept(s: Stage, t: Step)
    requires Enabled(s, t)
    ensures Apply(s, t).renditions == s.renditions && Apply(s, t).maxBytes == s.maxBytes
  {
    hide AllMedia;
    hide Fits;
  }

  lemma FreshCoherent(n: nat, maxBytes: nat)
    ensures Coherent(FreshStage(n, maxBytes)) && Bounded(FreshStage(n, maxBytes))
  {
  }

  /** Until the invalidation begins, no visible playlist names a missing file after any
      single commit or removal of any run; the served bytes and files always stay within
      their limits. */
  lemma NeverDangles(n: nat, maxBytes: nat, steps: seq<Step>, states: seq<Stage>, k: nat)
    requires Execution(n, maxBytes, steps, states) && k < |states|
    ensures Serving(states[k]) ==> NoDangling(states[k])
    ensures Bytes(states[k].published) <= maxBytes && |states[k].published| <= MAX_FILES
  {
    ExecutionCoherent(n, maxBytes, steps, states, k);
  }

}
