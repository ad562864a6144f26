/** Encoder generations in the media playlists.  Each generation owns one million media
    sequence numbers; the packager checks a playlist against its generation and adds the
    discontinuity tags.  The numbers are those a client derives by sections 4.3.3.2, 4.3.3.3
    and 6.2.2 of RFC 8216. */
module HlsEpoch {
  import opened Common

  const LIMIT := 128
  const SPAN := 1_000_000

  /** The name `segment_<n>.m4s`, its number printed with `digits` digits. */
  datatype Name = Name(n: nat, digits: nat)

  /** One line by its kind; a tag with a value out of its alphabet or bounds is junk. */
  datatype Line =
    | Header | Independent | EndList | DateTime
    | Version | TargetDuration | MediaSequence(n: nat)
    | InitMap
    | Duration
    | Segment(name: Name)
    | Discontinuity | DiscontinuitySequence(n: nat)
    | Junk

  datatype Listing = Listing(lines: seq<Line>, first: nat, last: int)

  function Start(e: nat): nat {
    e * SPAN
  }

  // ---------------------------------------------------------------- the parsed shape

  function Segments(lines: seq<Line>): (r: seq<Name>)
    ensures |r| <= |lines|
  {
    if lines == [] then []
    else
      var r := Segments(lines[..|lines| - 1]);
      match lines[|lines| - 1] case Segment(name) => r + [name] case _ => r
  }

  predicate OnlyMap(lines: seq<Line>, k: int) {
    0 <= k < |lines| && forall i :: 0 <= i < |lines| ==> (lines[i].InitMap? <==> i == k)
  }

  predicate OnlySequence(lines: seq<Line>, k: int) {
    0 <= k < |lines| && forall i :: 0 <= i < |lines| ==> (lines[i].MediaSequence? <==> i == k)
  }

  /** What the parser knows after some lines; it stops at the first line it refuses. */
  datatype Scan = Refused | Scan(pending: bool, version: bool, target: bool, sequence: bool, maps: nat, media: seq<Name>)

  const START := Scan(false, false, false, false, 0, [])

  function ScanLine(s: Scan, l: Line): Scan {
    if s.Refused? then s
    else
      match l
      case Header => s
      case Independent => s
      case EndList => s
      case DateTime => s
      case Version => if s.version then Refused else s.(version := true)
      case TargetDuration => if s.target then Refused else s.(target := true)
      case MediaSequence(_) => if s.sequence then Refused else s.(sequence := true)
      case InitMap => s.(maps := s.maps + 1)
      case Duration => if s.pending then Refused else s.(pending := true)
      case Segment(name) =>
        if !s.pending || name in s.media || |s.media| >= 7 then Refused else s.(pending := false, media := s.media + [name])
      case _ => Refused
  }

  function ScanAll(lines: seq<Line>): Scan {
    if lines == [] then START else ScanLine(ScanAll(lines[..|lines| - 1]), lines[|lines| - 1])
  }

  /** The playlists the encoder's parser lets through. */
  predicate Shape(lines: seq<Line>) {
    && 0 < |lines| <= 64 && lines[0] == Header
    && var s := ScanAll(lines);
       s.Scan? && s.maps == 1 && !s.pending && s.media != [] && s.sequence && s.target
  }

  method ParsePlaylist(lines: seq<Line>) returns (r: Option<seq<Name>>)
    ensures r.Some? <==> Shape(lines)
    ensures r.Some? ==> r.value == Segments(lines)
  {
    if |lines| == 0 || |lines| > 64 || lines[0] != Header { return None; }
    var s := START;
    for k := 0 to |lines|
      invariant s == ScanAll(lines[..k])
    {
      assert lines[..k + 1][..k] == lines[..k];
      s := ScanLine(s, lines[k]);
    }
    assert lines[..|lines|] == lines;
    if s.Refused? || s.maps != 1 || s.pending || s.media == [] || !s.sequence || !s.target { return None; }
    Scanned(lines);
    r := Some(s.media);
  }

  function Maps(lines: seq<Line>): nat {
    if lines == [] then 0 else Maps(lines[..|lines| - 1]) + if lines[|lines| - 1].InitMap? then 1 else 0
  }

  lemma {:induction false} MapsFound(lines: seq<Line>)
    ensures Maps(lines) == 0 <==> forall i :: 0 <= i < |lines| ==> !lines[i].InitMap?
    ensures Maps(lines) == 1 ==> exists k :: 0 <= k < |lines| && OnlyMap(lines, k)
  {
    if lines != [] {
      var init, n := lines[..|lines| - 1], |lines| - 1;
      MapsFound(init);
      if Maps(lines) == 1 {
        if lines[n].InitMap? {
          assert OnlyMap(lines, n);
        } else {
          var k :| 0 <= k < |init| && OnlyMap(init, k);
          assert OnlyMap(lines, k);
        }
      }
    }
  }

  /** What a scan that was not refused says of the lines. */
  lemma {:induction false} Scanned(lines: seq<Line>)
    requires ScanAll(lines).Scan?
    ensures var s := ScanAll(lines);
            && s.media == Segments(lines) && |s.media| <= 7 && s.maps == Maps(lines) && Untagged(lines)
            && (!s.sequence ==> forall i :: 0 <= i < |lines| ==> !lines[i].MediaSequence?)
            && (s.sequence ==> exists k :: 0 <= k < |lines| && OnlySequence(lines, k))
  {
    if lines != [] {
      var init, n := lines[..|lines| - 1], |lines| - 1;
      Scanned(init);
      if ScanAll(lines).sequence {
        if lines[n].MediaSequence? {
          assert OnlySequence(lines, n);
        } else {
          var k :| 0 <= k < |init| && OnlySequence(init, k);
          assert OnlySequence(lines, k);
        }
      }
    }
  }

  /** A playlist that gets through has one map, one media-sequence tag and up to seven
      segments, and no discontinuity of its own. */
  lemma ShapeFacts(lines: seq<Line>)
    requires Shape(lines)
    ensures 1 <= |Segments(lines)| <= 7 && Untagged(lines)
    ensures exists k :: 0 <= k < |lines| && OnlyMap(lines, k)
    ensures exists k :: 0 <= k < |lines| && OnlySequence(lines, k)
  {
    Scanned(lines);
    MapsFound(lines);
    hide ScanAll;
  }

  // ---------------------------------------------------------------- the grammar the parser accepts

  function Count(lines: seq<Line>, kind: Line -> bool): nat {
    if lines == [] then 0 else Count(lines[..|lines| - 1], kind) + if kind(lines[|lines| - 1]) then 1 else 0
  }

  /** The duration and segment lines, in order. */
  function Beats(lines: seq<Line>): seq<Line> {
    if lines == [] then []
    else
      var b, l := Beats(lines[..|lines| - 1]), lines[|lines| - 1];
      if l.Duration? || l.Segment? then b + [l] else b
  }

  predicate Alternating(beats: seq<Line>) {
    forall i :: 0 <= i < |beats| ==> (beats[i].Duration? <==> i % 2 == 0)
  }

  predicate Known(l: Line) {
    !l.Junk? && !l.Discontinuity? && !l.DiscontinuitySequence?
  }

  const IsVersion: Line -> bool := (l: Line) => l.Version?
  const IsTarget: Line -> bool := (l: Line) => l.TargetDuration?
  const IsSequence: Line -> bool := (l: Line) => l.MediaSequence?
  const IsMap: Line -> bool := (l: Line) => l.InitMap?

  /** Lines of known kinds, none of three tags twice, a duration before each segment and only
      there, and at most seven segments, all different. */
  ghost predicate Orderly(lines: seq<Line>) {
    && (forall i :: 0 <= i < |lines| ==> Known(lines[i]))
    && Count(lines, IsVersion) <= 1 && Count(lines, IsTarget) <= 1 && Count(lines, IsSequence) <= 1
    && Alternating(Beats(lines)) && Distinct(Segments(lines)) && |Segments(lines)| <= 7
  }

  ghost predicate Agrees(s: Scan, lines: seq<Line>)
    requires s.Scan?
  {
    && Count(lines, IsVersion) == (if s.version then 1 else 0) && Count(lines, IsTarget) == (if s.target then 1 else 0)
    && Count(lines, IsSequence) == (if s.sequence then 1 else 0) && Count(lines, IsMap) == s.maps
    && (s.pending <==> |Beats(lines)| % 2 == 1) && s.media == Segments(lines)
  }

  lemma AlternatingLast(beats: seq<Line>, l: Line)
    requires l.Duration? || l.Segment?
    ensures Alternating(beats + [l]) <==> Alternating(beats) && (l.Duration? <==> |beats| % 2 == 0)
  {
    var all := beats + [l];
    assert all[|beats|] == l && forall i :: 0 <= i < |beats| ==> all[i] == beats[i];
  }

  lemma DistinctLast(names: seq<Name>, name: Name)
    ensures Distinct(names + [name]) <==> Distinct(names) && name !in names
  {
    var all := names + [name];
    assert all[|names|] == name && forall i :: 0 <= i < |names| ==> all[i] == names[i];
    if Distinct(all) {
      forall i, j | 0 <= i < j < |names| ensures names[i] != names[j] { assert all[i] != all[j]; }
      forall i | 0 <= i < |names| ensures names[i] != name { assert all[i] != all[|names|]; }
    }
  }

  /** What one more line does to order, by its kind. */
  lemma OrderlyLast(lines: seq<Line>)
    requires lines != []
    ensures var init, l := lines[..|lines| - 1], lines[|lines| - 1];
            Orderly(lines) <==>
              && Orderly(init) && Known(l)
              && (l.Version? ==> Count(init, IsVersion) == 0) && (l.TargetDuration? ==> Count(init, IsTarget) == 0)
              && (l.MediaSequence? ==> Count(init, IsSequence) == 0)
              && (l.Duration? ==> |Beats(init)| % 2 == 0)
              && (l.Segment? ==> |Beats(init)| % 2 == 1 && l.name !in Segments(init) && |Segments(init)| < 7)
  {
    var init, l := lines[..|lines| - 1], lines[|lines| - 1];
    if l.Duration? || l.Segment? { AlternatingLast(Beats(init), l); }
    if l.Segment? { DistinctLast(Segments(init), l.name); }
    hide Alternating;
    assert forall i :: 0 <= i < |init| ==> lines[i] == init[i];
  }

  lemma AgreesLast(s: Scan, lines: seq<Line>)
    requires lines != [] && s.Scan? && Agrees(s, lines[..|lines| - 1]) && ScanLine(s, lines[|lines| - 1]).Scan?
    ensures Agrees(ScanLine(s, lines[|lines| - 1]), lines)
  {
  }

  lemma {:induction false} ScanExactly(lines: seq<Line>)
    ensures ScanAll(lines).Scan? <==> Orderly(lines)
    ensures ScanAll(lines).Scan? ==> Agrees(ScanAll(lines), lines)
  {
    if lines != [] {
      var init, l := lines[..|lines| - 1], lines[|lines| - 1];
      ScanExactly(init);
      OrderlyLast(lines);
      var s := ScanAll(init);
      if s.Scan? && ScanLine(s, l).Scan? { AgreesLast(s, lines); }
      hide Orderly;
      hide Count;
      hide Beats;
      hide Segments;
    }
  }

  /** The parser's loop accepts exactly this grammar: a header, lines in order, one map, one
      media sequence, one target duration, one to seven different segments and a duration for
      each. */
  lemma ShapeExactly(lines: seq<Line>)
    ensures Shape(lines) <==>
              && 0 < |lines| <= 64 && lines[0] == Header && Orderly(lines)
              && Count(lines, IsMap) == 1 && Count(lines, IsSequence) == 1 && Count(lines, IsTarget) == 1
              && |Beats(lines)| % 2 == 0 && Segments(lines) != []
  {
    ScanExactly(lines);
    hide ScanAll;
    hide Orderly;
    hide Count;
    hide Beats;
    hide Segments;
  }

  predicate Untagged(lines: seq<Line>) {
    forall i :: 0 <= i < |lines| ==> !lines[i].Discontinuity? && !lines[i].DiscontinuitySequence?
  }

  /** The value of the media-sequence tag; the last one, should there be several. */
  function SequenceOf(lines: seq<Line>): nat {
    if lines == [] then 0
    else match lines[|lines| - 1]
         case MediaSequence(n) => n
         case _ => SequenceOf(lines[..|lines| - 1])
  }

  predicate InEpoch(lines: seq<Line>, e: nat) {
    && Start(e) <= SequenceOf(lines) < Start(e) + SPAN
    && forall i :: 0 <= i < |Segments(lines)| ==>
      Segments(lines)[i] == Name(SequenceOf(lines) + i, 9) && SequenceOf(lines) + i < Start(e) + SPAN
  }

  // ---------------------------------------------------------------- the tags that are added

  /** The first segment of a later generation carries the discontinuity; once it has left
      the window its count stays in the sequence tag. */
  function Tags(l: Line, e: nat, first: bool): seq<Line> {
    if e == 0 || !l.InitMap? then [l]
    else if first then [DiscontinuitySequence(e - 1), Discontinuity, l]
    else [DiscontinuitySequence(e), l]
  }

  function Tagged(lines: seq<Line>, e: nat, first: bool): seq<Line> {
    if lines == [] then [] else Tagged(lines[..|lines| - 1], e, first) + Tags(lines[|lines| - 1], e, first)
  }

  function Published(lines: seq<Line>, e: nat): seq<Line> {
    if e == 0 then lines else Tagged(lines, e, SequenceOf(lines) == Start(e))
  }

  method CheckEpoch(e: nat, lines: seq<Line>, media: seq<Name>) returns (ok: bool, sequence: nat)
    requires media == Segments(lines)
    ensures sequence == SequenceOf(lines) && (ok <==> InEpoch(lines, e))
  {
    sequence := 0;
    for k := 0 to |lines|
      invariant sequence == SequenceOf(lines[..k])
    {
      assert lines[..k + 1][..k] == lines[..k];
      if lines[k].MediaSequence? { sequence := lines[k].n; }
    }
    assert lines[..|lines|] == lines;
    hide SequenceOf;
    if sequence < Start(e) || sequence >= Start(e) + SPAN { return false, sequence; }
    hide Segments;
    for i := 0 to |media|
      invariant forall j :: 0 <= j < i ==> media[j] == Name(sequence + j, 9) && sequence + j < Start(e) + SPAN
    {
      if media[i].n != sequence + i || media[i].n >= Start(e) + SPAN || media[i].digits != 9 { return false, sequence; }
    }
    ok := true;
  }

  method AddTags(lines: seq<Line>, e: nat, first: bool) returns (out: seq<Line>)
    ensures out == Tagged(lines, e, first)
  {
    out := [];
    for k := 0 to |lines|
      invariant out == Tagged(lines[..k], e, first)
    {
      assert lines[..k + 1][..k] == lines[..k];
      out := out + Tags(lines[k], e, first);
    }
    assert lines[..|lines|] == lines;
  }

  /** `fits` says that the tagged text stays within 65536 bytes. */
  method Playlist(e: nat, lines: seq<Line>, fits: bool) returns (r: Option<Listing>)
    ensures r.Some? <==> e < LIMIT && Shape(lines) && InEpoch(lines, e) && (e == 0 || fits)
    ensures r.Some? ==> r.value.lines == Published(lines, e)
    ensures r.Some? ==> Segments(lines) != [] && r.value.first == Segments(lines)[0].n && r.value.last == Segments(lines)[|Segments(lines)| - 1].n
  {
    if e >= LIMIT { return None; }
    var media := ParsePlaylist(lines);
    if media.None? { return None; }
    ShapeFacts(lines);
    hide Shape;
    var ok, sequence := CheckEpoch(e, lines, media.value);
    if !ok { return None; }
    var last := sequence + |media.value| - 1;
    if e == 0 { return Some(Listing(lines, sequence, last)); }
    var out := AddTags(lines, e, sequence == Start(e));
    if !fits { return None; }
    r := Some(Listing(out, sequence, last));
  }

  // ---------------------------------------------------------------- what a client reads

  /** A segment with the two numbers a client gives it. */
  datatype Numbered = Numbered(name: Name, media: nat, discontinuity: nat)

  datatype Reader = Reader(media: nat, discontinuity: nat, seen: seq<Numbered>)

  function ReadLine(r: Reader, l: Line): Reader {
    match l
    case MediaSequence(n) => r.(media := n)
    case DiscontinuitySequence(n) => r.(discontinuity := n)
    case Discontinuity => r.(discontinuity := r.discontinuity + 1)
    case Segment(name) => r.(media := r.media + 1, seen := r.seen + [Numbered(name, r.media, r.discontinuity)])
    case _ => r
  }

  /** Reading from the top; without their tags both numbers begin at zero. */
  function Read(lines: seq<Line>): Reader {
    if lines == [] then Reader(0, 0, []) else ReadLine(Read(lines[..|lines| - 1]), lines[|lines| - 1])
  }

  /** Both numbers are functions of the segment's name alone. */
  predicate Canonical(s: Numbered) {
    s.media == s.name.n && s.discontinuity == s.name.n / SPAN
  }

  predicate Stable(lines: seq<Line>) {
    forall i :: 0 <= i < |Read(lines).seen| ==> Canonical(Read(lines).seen[i])
  }

  predicate MapLeads(lines: seq<Line>) {
    forall i, j :: 0 <= i < |lines| && 0 <= j < |lines| && lines[i].InitMap? && lines[j].Segment? ==> i < j
  }

  predicate SequenceLeads(lines: seq<Line>) {
    forall i, j :: 0 <= i < |lines| && 0 <= j < |lines| && lines[i].MediaSequence? && lines[j].Segment? ==> i < j
  }

  /** No segment stands below the media-sequence tag. */
  predicate SequenceTrails(lines: seq<Line>) {
    forall i, j :: 0 <= i < |lines| && 0 <= j < |lines| && lines[i].MediaSequence? && lines[j].Segment? ==> j < i
  }

  lemma {:induction false} ReadAppend(a: seq<Line>, b: seq<Line>)
    ensures Read(a + b) == ReadAll(Read(a), b)
  {
    hide ReadLine;
    if b == [] {
      assert a + b == a;
    } else {
      ReadAppend(a, b[..|b| - 1]);
      assert (a + b)[..|a + b| - 1] == a + b[..|b| - 1];
    }
  }

  function ReadAll(r: Reader, lines: seq<Line>): Reader {
    if lines == [] then r else ReadLine(ReadAll(r, lines[..|lines| - 1]), lines[|lines| - 1])
  }

  /** What the added tags do to a reader. */
  lemma ReadTags(r: Reader, l: Line, e: nat, first: bool)
    requires !l.Discontinuity? && !l.DiscontinuitySequence?
    ensures ReadAll(r, Tags(l, e, first)) == ReadTagged(r, l, e)
  {
    assert forall x: Line :: [x][..0] == [];
    if e > 0 && l.InitMap? {
      var t := Tags(l, e, first);
      assert t[..|t| - 1][..|t| - 2] == t[..|t| - 2];
      assert first ==> t[..2][..1] == [t[0]] && t[..1][..0] == [];
      assert ReadAll(r, []) == r;
      assert ReadAll(r, [t[0]]) == ReadLine(r, t[0]);
    }
  }

  lemma {:induction false} SegmentsPresent(lines: seq<Line>)
    ensures Segments(lines) == [] <==> forall i :: 0 <= i < |lines| ==> !lines[i].Segment?
  {
    if lines != [] { SegmentsPresent(lines[..|lines| - 1]); }
  }

  lemma {:induction false} SequenceFound(lines: seq<Line>, m: nat)
    requires OnlySequence(lines, m)
    ensures SequenceOf(lines) == lines[m].n
  {
    if m < |lines| - 1 { SequenceFound(lines[..|lines| - 1], m); }
  }

  function Min(a: int, b: int): int {
    if a < b then a else b
  }

  function ReadTagged(r: Reader, l: Line, e: nat): Reader {
    if e > 0 && l.InitMap? then r.(discontinuity := e) else ReadLine(r, l)
  }

  // ---------------------------------------------------------------- media sequence numbers

  /** The media numbers after the first `k` lines; `m` is the place of the tag.  Above the
      tag a client counts from zero, and the tag starts the count anew. */
  ghost predicate MediaUpTo(lines: seq<Line>, k: nat, m: nat, r: Reader)
    requires k <= |lines| && m < |lines| && lines[m].MediaSequence?
  {
    var names, above := Segments(lines[..k]), |Segments(lines[..m])|;
    && |r.seen| == |names|
    && (forall i :: 0 <= i < |names| ==> r.seen[i].name == names[i])
    && (if k <= m then
          r.media == |names| && forall i :: 0 <= i < |names| ==> r.seen[i].media == i
        else
          && r.media == lines[m].n + |names| - above && |names| >= above
          && forall i :: 0 <= i < |names| ==> r.seen[i].media == if i < above then i else lines[m].n + i - above)
  }

  lemma MediaStep(lines: seq<Line>, e: nat, k: nat, m: nat, r: Reader)
    requires OnlySequence(lines, m) && Untagged(lines) && 0 < k <= |lines| && MediaUpTo(lines, k - 1, m, r)
    ensures MediaUpTo(lines, k, m, ReadTagged(r, lines[k - 1], e))
  {
    var l := lines[k - 1];
    assert lines[..k][..k - 1] == lines[..k - 1];
    assert Segments(lines[..k]) == Segments(lines[..k - 1]) + if l.Segment? then [l.name] else [];
    assert l.MediaSequence? <==> k - 1 == m;
    hide Segments;
    hide OnlySequence;
  }

  // ---------------------------------------------------------------- discontinuity numbers

  /** The discontinuity numbers after the first `k` lines; `q` is the place of the map. */
  ghost predicate BreaksUpTo(lines: seq<Line>, e: nat, k: nat, q: nat, r: Reader)
    requires k <= |lines| && q < |lines|
  {
    var names := Segments(lines[..k]);
    && r.discontinuity == (if q < k then e else 0)
    && |r.seen| == |names|
    && (forall i :: 0 <= i < |names| ==> r.seen[i].discontinuity == 0 || r.seen[i].discontinuity == e)
    && (MapLeads(lines) ==> forall i :: 0 <= i < |names| ==> r.seen[i].discontinuity == e)
    && (Segments(lines[..Min(k, q)]) != [] ==> names != [] && r.seen[0].discontinuity == 0)
  }

  lemma BreaksStep(lines: seq<Line>, e: nat, k: nat, q: nat, r: Reader)
    requires OnlyMap(lines, q) && Untagged(lines) && 0 < k <= |lines| && BreaksUpTo(lines, e, k - 1, q, r)
    ensures BreaksUpTo(lines, e, k, q, ReadTagged(r, lines[k - 1], e))
  {
    var l := lines[k - 1];
    assert lines[..k][..k - 1] == lines[..k - 1];
    assert Segments(lines[..k]) == Segments(lines[..k - 1]) + if l.Segment? then [l.name] else [];
    assert l.InitMap? <==> k - 1 == q;
    assert lines[q].InitMap?;
    assert l.Segment? && MapLeads(lines) ==> q < k - 1;
    hide Segments;
    hide OnlyMap;
    hide MapLeads;
  }

  // ---------------------------------------------------------------- the whole playlist

  lemma {:induction false} ReadPrefix(lines: seq<Line>, e: nat, first: bool, k: nat, m: nat, q: nat)
    requires Untagged(lines) && OnlySequence(lines, m) && OnlyMap(lines, q) && k <= |lines|
    ensures MediaUpTo(lines, k, m, Read(Tagged(lines[..k], e, first)))
    ensures BreaksUpTo(lines, e, k, q, Read(Tagged(lines[..k], e, first)))
  {
    assert lines[m].MediaSequence? && q < |lines|;
    hide MediaUpTo;
    hide BreaksUpTo;
    hide OnlySequence;
    hide OnlyMap;
    hide Segments;
    hide Tagged;
    hide Read;
    hide ReadTagged;
    if k == 0 {
      ReadNothing(lines, e, first, m, q);
    } else {
      ReadPrefix(lines, e, first, k - 1, m, q);
      assert lines[..k][..k - 1] == lines[..k - 1];
      ReadNext(lines[..k], e, first);
      var r := Read(Tagged(lines[..k - 1], e, first));
      MediaStep(lines, e, k, m, r);
      BreaksStep(lines, e, k, q, r);
    }
  }

  lemma ReadNext(lines: seq<Line>, e: nat, first: bool)
    requires lines != [] && var l := lines[|lines| - 1]; !l.Discontinuity? && !l.DiscontinuitySequence?
    ensures Read(Tagged(lines, e, first)) == ReadTagged(Read(Tagged(lines[..|lines| - 1], e, first)), lines[|lines| - 1], e)
  {
    var l, prior := lines[|lines| - 1], Tagged(lines[..|lines| - 1], e, first);
    ReadAppend(prior, Tags(l, e, first));
    ReadTags(Read(prior), l, e, first);
    assert Tagged(lines, e, first) == prior + Tags(l, e, first);
    hide Read;
    hide Tags;
    hide Tagged;
  }

  lemma ReadNothing(lines: seq<Line>, e: nat, first: bool, m: nat, q: nat)
    requires q < |lines| && m < |lines| && lines[m].MediaSequence?
    ensures MediaUpTo(lines, 0, m, Read(Tagged(lines[..0], e, first)))
    ensures BreaksUpTo(lines, e, 0, q, Read(Tagged(lines[..0], e, first)))
  {
  }

  lemma {:induction false} TaggedZero(lines: seq<Line>, first: bool)
    ensures Tagged(lines, 0, first) == lines
  {
    if lines != [] { TaggedZero(lines[..|lines| - 1], first); }
  }

  lemma PublishedReads(lines: seq<Line>, e: nat, m: nat, q: nat)
    requires Untagged(lines) && OnlyMap(lines, q) && OnlySequence(lines, m)
    ensures MediaUpTo(lines, |lines|, m, Read(Published(lines, e)))
    ensures BreaksUpTo(lines, e, |lines|, q, Read(Published(lines, e)))
  {
    assert lines[m].MediaSequence?;
    hide MediaUpTo;
    hide BreaksUpTo;
    ReadPrefix(lines, e, SequenceOf(lines) == Start(e), |lines|, m, q);
    assert lines[..|lines|] == lines;
    if e == 0 { TaggedZero(lines, SequenceOf(lines) == Start(e)); }
  }

  lemma MapLeadsExactly(lines: seq<Line>, q: nat)
    requires OnlyMap(lines, q)
    ensures MapLeads(lines) <==> Segments(lines[..q]) == []
  {
    SegmentsPresent(lines[..q]);
    hide Segments;
    assert lines[q].InitMap?;
  }

  /** The segments grow with the lines, and only by segment lines. */
  lemma {:induction false} SegmentsGrow(lines: seq<Line>, m: nat, k: nat)
    requires m <= k <= |lines|
    ensures |Segments(lines[..m])| <= |Segments(lines[..k])|
    ensures |Segments(lines[..m])| == |Segments(lines[..k])| <==> forall i :: m <= i < k ==> !lines[i].Segment?
  {
    if m < k {
      SegmentsGrow(lines, m, k - 1);
      assert lines[..k][..k - 1] == lines[..k - 1];
    }
  }

  lemma SequencePlace(lines: seq<Line>, m: nat)
    requires OnlySequence(lines, m)
    ensures SequenceLeads(lines) <==> Segments(lines[..m]) == []
    ensures SequenceTrails(lines) <==> |Segments(lines[..m])| == |Segments(lines)|
  {
    SegmentsPresent(lines[..m]);
    SegmentsGrow(lines, m, |lines|);
    assert lines[..|lines|] == lines;
    hide Segments;
    assert lines[m].MediaSequence?;
  }

  /** Where the header must stand for a client to number the segments by their names. */
  predicate WellPlaced(lines: seq<Line>, e: nat) {
    && (e == 0 || MapLeads(lines))
    && (SequenceLeads(lines) || (SequenceOf(lines) == 0 && SequenceTrails(lines)))
  }

  predicate RightMedia(seen: seq<Numbered>) {
    forall i :: 0 <= i < |seen| ==> seen[i].media == seen[i].name.n
  }

  predicate RightBreaks(seen: seq<Numbered>, e: nat) {
    forall i :: 0 <= i < |seen| ==> seen[i].discontinuity == e
  }

  lemma MediaExactly(lines: seq<Line>, e: nat, m: nat, r: Reader)
    requires OnlySequence(lines, m) && InEpoch(lines, e) && Segments(lines) != [] && MediaUpTo(lines, |lines|, m, r)
    ensures RightMedia(r.seen) <==> SequenceLeads(lines) || (SequenceOf(lines) == 0 && SequenceTrails(lines))
  {
    SequencePlace(lines, m);
    SequenceFound(lines, m);
    assert lines[..|lines|] == lines;
    var names, above := Segments(lines), |Segments(lines[..m])|;
    assert forall i :: 0 <= i < |names| ==> names[i].n == SequenceOf(lines) + i;
    hide Segments;
    hide SequenceOf;
    hide OnlySequence;
    hide InEpoch;
    hide SequenceLeads;
    hide SequenceTrails;
    if above > 0 {
      assert r.seen[0].name.n == SequenceOf(lines) && r.seen[0].media == 0;
      if above < |names| { assert r.seen[above].name.n == SequenceOf(lines) + above && r.seen[above].media == SequenceOf(lines); }
    }
  }

  lemma BreaksExactly(lines: seq<Line>, e: nat, q: nat, r: Reader)
    requires OnlyMap(lines, q) && BreaksUpTo(lines, e, |lines|, q, r)
    ensures RightBreaks(r.seen, e) <==> e == 0 || MapLeads(lines)
  {
    MapLeadsExactly(lines, q);
    assert lines[..|lines|] == lines;
    assert Min(|lines|, q) == q;
    hide Segments;
    hide MapLeads;
    if e != 0 && !MapLeads(lines) { assert r.seen[0].discontinuity == 0; }
  }

  /** In a published playlist every segment has the media sequence of its name and the
      discontinuity number of its generation, exactly when its header is well placed. */
  lemma NumbersAreStable(lines: seq<Line>, e: nat)
    requires Shape(lines) && InEpoch(lines, e)
    ensures |Read(Published(lines, e)).seen| == |Segments(lines)|
    ensures forall i :: 0 <= i < |Segments(lines)| ==> Read(Published(lines, e)).seen[i].name == Segments(lines)[i]
    ensures Stable(Published(lines, e)) <==> WellPlaced(lines, e)
  {
    ShapeFacts(lines);
    hide Shape;
    var m :| 0 <= m < |lines| && OnlySequence(lines, m);
    var q :| 0 <= q < |lines| && OnlyMap(lines, q);
    var r := Read(Published(lines, e));
    PublishedReads(lines, e, m, q);
    MediaExactly(lines, e, m, r);
    BreaksExactly(lines, e, q, r);
    assert lines[..|lines|] == lines;
    assert forall i :: 0 <= i < |Segments(lines)| ==> Start(e) <= Segments(lines)[i].n < Start(e) + SPAN;
    hide Segments;
    hide Published;
    hide Read;
    hide SequenceOf;
    hide MapLeads;
    hide SequenceLeads;
    hide SequenceTrails;
    hide BreaksUpTo;
    hide Shape;
    hide InEpoch;
    CanonicalExactly(r.seen, e);
  }

  lemma CanonicalExactly(seen: seq<Numbered>, e: nat)
    requires forall i :: 0 <= i < |seen| ==> Start(e) <= seen[i].name.n < Start(e) + SPAN
    ensures (forall i :: 0 <= i < |seen| ==> Canonical(seen[i])) <==> RightMedia(seen) && RightBreaks(seen, e)
  {
    forall i | 0 <= i < |seen| ensures seen[i].name.n / SPAN == e { InRange(seen[i].name.n, e); }
  }

  lemma InRange(n: nat, e: nat)
    requires Start(e) <= n < Start(e) + SPAN
    ensures n / SPAN == e
  {
  }

  /** What the packager publishes for generation `e` and a client numbers as it should. */
  ghost predicate Accepted(lines: seq<Line>, e: nat) {
    e < LIMIT && Shape(lines) && InEpoch(lines, e) && WellPlaced(lines, e)
  }

  /** A segment has the same two numbers in every playlist of every generation that lists it. */
  lemma SegmentKeepsItsNumbers(a: seq<Line>, e: nat, b: seq<Line>, f: nat, i: nat, j: nat)
    requires Accepted(a, e) && Accepted(b, f)
    requires i < |Segments(a)| && j < |Segments(b)| && Segments(a)[i] == Segments(b)[j]
    ensures i < |Read(Published(a, e)).seen| && j < |Read(Published(b, f)).seen|
    ensures Read(Published(a, e)).seen[i] == Read(Published(b, f)).seen[j]
  {
    NumbersAreStable(a, e);
    NumbersAreStable(b, f);
    hide Read;
    hide Published;
    hide Segments;
    hide Shape;
    hide InEpoch;
    hide WellPlaced;
    assert Canonical(Read(Published(a, e)).seen[i]) && Canonical(Read(Published(b, f)).seen[j]);
  }

  /** Generations never share a number, and a later one only ever adds later numbers. */
  lemma GenerationsRise(a: seq<Line>, e: nat, b: seq<Line>, f: nat, i: nat, j: nat)
    requires Shape(a) && InEpoch(a, e) && Shape(b) && InEpoch(b, f) && e < f
    requires i < |Segments(a)| && j < |Segments(b)|
    ensures Segments(a)[i].n < Segments(b)[j].n && Segments(a)[i] != Segments(b)[j]
    ensures Segments(a)[i].n / SPAN == e && Segments(b)[j].n / SPAN == f
  {
    hide Segments;
    hide SequenceOf;
    hide Shape;
    assert Start(e) <= Segments(a)[i].n < Start(e) + SPAN;
    assert Start(f) <= Segments(b)[j].n < Start(f) + SPAN;
  }

  /** The parser does not ask for the map to come first; below the segments it fails them. */
  lemma MapBelowSegments()
    ensures var lines := [Header, TargetDuration, MediaSequence(SPAN), Duration, Segment(Name(SPAN, 9)), InitMap];
            Shape(lines) && InEpoch(lines, 1) && SequenceLeads(lines) && !Stable(Published(lines, 1))
  {
    var lines := [Header, TargetDuration, MediaSequence(SPAN), Duration, Segment(Name(SPAN, 9)), InitMap];
    SixLines(Header, TargetDuration, MediaSequence(SPAN), Duration, Segment(Name(SPAN, 9)), InitMap);
    SequenceFound(lines, 2);
    assert lines[5].InitMap? && lines[4].Segment? && !MapLeads(lines);
    assert Shape(lines) && InEpoch(lines, 1) && SequenceLeads(lines);
    NumbersAreStable(lines, 1);
  }

  /** Nor does it ask for the media-sequence tag to come first, even in the first generation. */
  lemma SequenceBelowSegments()
    ensures var lines := [Header, TargetDuration, InitMap, Duration, Segment(Name(5, 9)), MediaSequence(5)];
            Shape(lines) && InEpoch(lines, 0) && MapLeads(lines) && !Stable(Published(lines, 0))
  {
    var lines := [Header, TargetDuration, InitMap, Duration, Segment(Name(5, 9)), MediaSequence(5)];
    SixLines(Header, TargetDuration, InitMap, Duration, Segment(Name(5, 9)), MediaSequence(5));
    SequenceFound(lines, 5);
    assert lines[5].MediaSequence? && lines[4].Segment? && !SequenceLeads(lines);
    assert Shape(lines) && InEpoch(lines, 0) && MapLeads(lines);
    NumbersAreStable(lines, 0);
  }

  /** The scan of six lines, line by line. */
  lemma SixLines(a: Line, b: Line, c: Line, d: Line, e: Line, f: Line)
    ensures ScanAll([a, b, c, d, e, f]) ==
            ScanLine(ScanLine(ScanLine(ScanLine(ScanLine(ScanLine(START, a), b), c), d), e), f)
    ensures ScanAll([a, b, c, d, e, f]).Scan? ==> Segments([a, b, c, d, e, f]) == ScanAll([a, b, c, d, e, f]).media
  {
    var lines := [a, b, c, d, e, f];
    assert lines[..5] == [a, b, c, d, e] && [a, b, c, d, e][..4] == [a, b, c, d] && [a, b, c, d][..3] == [a, b, c];
    assert [a, b, c][..2] == [a, b] && [a, b][..1] == [a] && [a][..0] == [];
    hide ScanLine;
    assert ScanAll([]) == START && ScanAll([a]) == ScanLine(START, a);
    assert ScanAll([a, b]) == ScanLine(ScanAll([a]), b) && ScanAll([a, b, c]) == ScanLine(ScanAll([a, b]), c);
    assert ScanAll([a, b, c, d]) == ScanLine(ScanAll([a, b, c]), d) && ScanAll([a, b, c, d, e]) == ScanLine(ScanAll([a, b, c, d]), e);
    if ScanAll(lines).Scan? { Scanned(lines); }
  }
}
