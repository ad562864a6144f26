/** When the publisher succeeds: with unchanged private files, a standing fence and room, every
    publication does, and the next one after it. */
module HlsSuccess {
  import opened Common
  import opened HlsStage
  import opened HlsPublisher

  predicate IsMedia(p: Path) {
    p.Init? || p.Segment?
  }

  /** What is visible is still what lies in the private tree. */
  ghost predicate Unchanged(published: map<Path, Entry>, w: World) {
    forall p :: p in published && IsMedia(p) ==> published[p].source == Some(w.sources(p))
  }

  /** The fence stands throughout and every removal works. */
  ghost predicate Standing(w: World) {
    forall p :: w.before(p) && w.after(p) && w.removable(p)
  }

  function Sizes(media: seq<Path>, w: World): nat {
    if media == [] then 0 else Sizes(media[..|media| - 1], w) + w.sources(media[|media| - 1]).size
  }

  function TextSizes(plans: seq<Plan>): nat {
    if plans == [] then 0 else TextSizes(plans[..|plans| - 1]) + plans[|plans| - 1].text.size
  }

  ghost predicate SizesFine(plans: seq<Plan>, w: World) {
    && (forall p :: 1 <= w.sources(p).size <= MAX_FILE) && 1 <= w.master.size <= MAX_FILE
    && forall r :: 0 <= r < |plans| ==> 1 <= plans[r].text.size <= MAX_FILE
  }

  /** There is room for everything the publication names beside what is visible. */
  ghost predicate Room(s: Stage, plans: seq<Plan>, w: World) {
    && |s.published| + |AllMedia(plans)| + |plans| < MAX_FILES
    && Bytes(s.published) + Sizes(AllMedia(plans), w) + TextSizes(plans) + w.master.size <= s.maxBytes
  }

  lemma {:induction false} MediaAreMedia(plans: seq<Plan>)
    ensures forall k :: 0 <= k < |AllMedia(plans)| ==> IsMedia(AllMedia(plans)[k])
  {
    forall k | 0 <= k < |AllMedia(plans)| ensures IsMedia(AllMedia(plans)[k]) { NextMedia(plans, k); }
  }

  ghost predicate Within(s: Stage, files: nat, bytes: nat) {
    |s.published| <= files && Bytes(s.published) <= bytes
  }

  lemma PutWithin(s: Stage, p: Path, e: Entry, files: nat, bytes: nat)
    requires Within(s, files, bytes)
    ensures Within(s.(published := s.published[p := e]), files + 1, bytes + e.file.size)
  {
    hide Bytes;
    BytesUpdate(s.published, p, e);
    assert s.published[p := e].Keys == s.published.Keys + {p};
  }

  lemma FitsWithin(s: Stage, p: Path, f: File, files: nat, bytes: nat)
    requires Within(s, files, bytes) && files < MAX_FILES && bytes + f.size <= s.maxBytes && 1 <= f.size <= MAX_FILE
    ensures Fits(s, p, f)
  {
    hide Bytes;
  }

  lemma TouchWithin(s: Stage, p: Path, cycle: nat, files: nat, bytes: nat)
    requires Within(s, files, bytes) && p in s.published
    ensures Within(s.(published := s.published[p := s.published[p].(seen := cycle)]), files, bytes)
  {
    hide Bytes;
    TouchBounded(s.published, p, cycle);
  }

  lemma {:induction false} CopiesSucceed(s: Stage, media: seq<Path>, w: World, files: nat, bytes: nat)
    requires Within(s, files, bytes) && Unchanged(s.published, w) && Standing(w) && forall k :: 0 <= k < |media| ==> IsMedia(media[k])
    requires (forall p :: 1 <= w.sources(p).size <= MAX_FILE) && files + |media| <= MAX_FILES && bytes + Sizes(media, w) <= s.maxBytes
    ensures CopyableAll(s, media, w)
    ensures Within(CopiedAll(s, media, w), files + |media|, bytes + Sizes(media, w)) && Unchanged(CopiedAll(s, media, w).published, w)
    ensures CopiedAll(s, media, w) == s.(published := CopiedAll(s, media, w).published)
  {
    hide Within;
    hide CopyableAll;
    if media == [] {
      assert CopiedAll(s, media, w) == s && Sizes(media, w) == 0;
      NoCopies(s, w);
    } else {
      var init, p := media[..|media| - 1], media[|media| - 1];
      CopiesSucceed(s, init, w, files, bytes);
      LastCopy(s, media, w);
      hide CopiedAll;
      CopySucceeds(CopiedAll(s, init, w), p, w, files + |init|, bytes + Sizes(init, w));
    }
  }

  lemma NoCopies(s: Stage, w: World)
    ensures CopyableAll(s, [], w)
  {
  }

  lemma CopySucceeds(u: Stage, p: Path, w: World, files: nat, bytes: nat)
    requires Within(u, files, bytes) && Unchanged(u.published, w) && Standing(w) && IsMedia(p)
    requires 1 <= w.sources(p).size <= MAX_FILE && files < MAX_FILES && bytes + w.sources(p).size <= u.maxBytes
    ensures Copyable(u, p, w)
    ensures Within(CopiedOne(u, p, w), files + 1, bytes + w.sources(p).size) && Unchanged(CopiedOne(u, p, w).published, w)
  {
    hide Within;
    if p in u.published {
      TouchWithin(u, p, u.cycle, files, bytes);
      WithinMore(CopiedOne(u, p, w), files, bytes, files + 1, bytes + w.sources(p).size);
    } else {
      FitsWithin(u, p, FileOf(w, p), files, bytes);
      PutWithin(u, p, Entry(FileOf(w, p), Some(w.sources(p)), u.cycle), files, bytes);
    }
    hide Fits;
  }

  lemma LastCopy(s: Stage, media: seq<Path>, w: World)
    requires media != []
    ensures var init, p := media[..|media| - 1], media[|media| - 1];
            && CopiedAll(s, media, w) == CopiedOne(CopiedAll(s, init, w), p, w)
            && (CopyableAll(s, media, w) <==> CopyableAll(s, init, w) && Copyable(CopiedAll(s, init, w), p, w))
  {
  }

  lemma WithinMore(s: Stage, files: nat, bytes: nat, files': nat, bytes': nat)
    requires Within(s, files, bytes) && files <= files' && bytes <= bytes'
    ensures Within(s, files', bytes')
  {
    hide Bytes;
  }

  lemma {:induction false} WritesSucceed(s: Stage, plans: seq<Plan>, w: World, files: nat, bytes: nat)
    requires Within(s, files, bytes) && Unchanged(s.published, w) && Standing(w)
    requires forall r :: 0 <= r < |plans| ==> 1 <= plans[r].text.size <= MAX_FILE
    requires files + |plans| <= MAX_FILES && bytes + TextSizes(plans) <= s.maxBytes
    ensures WritableAll(s, plans, w)
    ensures Within(WroteAll(s, plans), files + |plans|, bytes + TextSizes(plans)) && Unchanged(WroteAll(s, plans).published, w)
    ensures WroteAll(s, plans) == s.(published := WroteAll(s, plans).published)
    ensures forall p :: p in s.published ==> p in WroteAll(s, plans).published
    ensures forall p :: p in s.published && IsMedia(p) ==> WroteAll(s, plans).published[p] == s.published[p]
  {
    hide Within;
    hide Fits;
    if plans != [] {
      var init, r := plans[..|plans| - 1], |plans| - 1;
      WritesSucceed(s, init, w, files, bytes);
      var u, f := WroteAll(s, init), plans[r].text;
      FitsWithin(u, Playlist(r), f, files + |init|, bytes + TextSizes(init));
      PutWithin(u, Playlist(r), Entry(f, None, u.cycle), files + |init|, bytes + TextSizes(init));
    }
  }

  lemma FillSuffices(s: Stage, plans: seq<Plan>, w: World)
    requires Unchanged(s.published, w) && Standing(w) && SizesFine(plans, w) && Room(s, plans, w)
    ensures var copied := CopiedAll(s.(cycle := s.cycle + 1), AllMedia(plans), w);
            && CopyableAll(s.(cycle := s.cycle + 1), AllMedia(plans), w)
            && WritableAll(copied, plans, w) && Writable(WroteAll(copied, plans), Master, w.master, w)
            && copied.cycle == s.cycle + 1 && WroteAll(copied, plans).cycle == s.cycle + 1
            && Unchanged(WroteAll(copied, plans).published, w)
            && forall p :: p in copied.published && IsMedia(p) ==>
                 p in WroteAll(copied, plans).published && WroteAll(copied, plans).published[p] == copied.published[p]
  {
    MediaAreMedia(plans);
    assert Within(s.(cycle := s.cycle + 1), |s.published|, Bytes(s.published));
    hide AllMedia;
    hide Bytes;
    hide Within;
    hide Unchanged;
    hide CopiedAll;
    hide CopyableAll;
    hide WroteAll;
    hide WritableAll;
    FillFrom(s.(cycle := s.cycle + 1), AllMedia(plans), plans, w, |s.published|, Bytes(s.published));
    hide Writable;
  }

  lemma FillFrom(start: Stage, media: seq<Path>, plans: seq<Plan>, w: World, files: nat, bytes: nat)
    requires Within(start, files, bytes) && Unchanged(start.published, w) && Standing(w) && SizesFine(plans, w)
    requires forall k :: 0 <= k < |media| ==> IsMedia(media[k])
    requires files + |media| + |plans| < MAX_FILES && bytes + Sizes(media, w) + TextSizes(plans) + w.master.size <= start.maxBytes
    ensures CopyableAll(start, media, w)
    ensures var copied := CopiedAll(start, media, w);
            && WritableAll(copied, plans, w) && Writable(WroteAll(copied, plans), Master, w.master, w)
            && copied.cycle == start.cycle && WroteAll(copied, plans).cycle == start.cycle
            && Unchanged(WroteAll(copied, plans).published, w)
            && forall p :: p in copied.published && IsMedia(p) ==>
                 p in WroteAll(copied, plans).published && WroteAll(copied, plans).published[p] == copied.published[p]
  {
    hide Within;
    hide Unchanged;
    hide CopiedAll;
    hide CopyableAll;
    hide WroteAll;
    hide WritableAll;
    hide Fits;
    hide Sizes;
    hide TextSizes;
    CopiesSucceed(start, media, w, files, bytes);
    var copied := CopiedAll(start, media, w);
    WritesSucceed(copied, plans, w, files + |media|, bytes + Sizes(media, w));
    FitsWithin(WroteAll(copied, plans), Master, w.master, files + |media| + |plans|, bytes + Sizes(media, w) + TextSizes(plans));
  }

  /** With unchanged files, a standing fence and room, a publication succeeds, and what is
      visible afterwards is unchanged too. */
  lemma RoomSuffices(s: Stage, plans: seq<Plan>, w: World)
    requires Unchanged(s.published, w) && Standing(w) && SizesFine(plans, w) && Room(s, plans, w)
    ensures Succeeds(s, plans, w) && Unchanged(Result(s, plans, w), w)
    ensures forall k :: 0 <= k < |AllMedia(plans)| ==> AllMedia(plans)[k] in Result(s, plans, w)
  {
    hide Room;
    hide SizesFine;
    hide CopiedAll;
    hide CopyableAll;
    hide WroteAll;
    hide WritableAll;
    FillSuffices(s, plans, w);
    MediaAreMedia(plans);
    hide Fits;
    hide AllMedia;
    var media, start := AllMedia(plans), s.(cycle := s.cycle + 1);
    CopiedIsSeen(start, media, w);
    var copied := CopiedAll(start, media, w);
    var written := WroteAll(copied, plans);
    forall k | 0 <= k < |media| ensures media[k] in Result(s, plans, w) {
      assert media[k] in copied.published && IsMedia(media[k]);
      assert written.published[media[k]].seen == s.cycle + 1;
    }
  }

  lemma {:induction false} CopiedIsSeen(s: Stage, media: seq<Path>, w: World)
    ensures forall k :: 0 <= k < |media| ==> media[k] in CopiedAll(s, media, w).published && CopiedAll(s, media, w).published[media[k]].seen == s.cycle
    ensures CopiedAll(s, media, w).cycle == s.cycle
  {
    if media != [] {
      CopiedIsSeen(s, media[..|media| - 1], w);
      assert forall k :: 0 <= k < |media| - 1 ==> media[k] == media[..|media| - 1][k];
    }
  }

  /** Two publications in a row, whatever their windows share, both succeed while the private
      files stay and there is room for each; an object named by both keeps its content. */
  lemma SuccessiveSucceed(s: Stage, a: seq<Plan>, b: seq<Plan>, w: World)
    requires Unchanged(s.published, w) && Standing(w) && SizesFine(a, w) && SizesFine(b, w) && Room(s, a, w)
    requires Room(s.(published := Result(s, a, w), cycle := s.cycle + 1), b, w)
    ensures var t := s.(published := Result(s, a, w), cycle := s.cycle + 1);
            && Succeeds(s, a, w) && Succeeds(t, b, w)
            && forall p :: p in AllMedia(a) && p in AllMedia(b) ==>
                 p in Result(s, a, w) && p in Result(t, b, w) && Result(t, b, w)[p].source == Result(s, a, w)[p].source == Some(w.sources(p))
  {
    hide Room;
    hide Result;
    hide Succeeds;
    MediaAreMedia(a);
    RoomSuffices(s, a, w);
    RoomSuffices(s.(published := Result(s, a, w), cycle := s.cycle + 1), b, w);
    hide AllMedia;
  }
}
