/** Framing of Opus packets (section 3.2 of RFC 6716): the packager's duration parser
    against a printer of structured packets, and the timeline that trims pre-skip. */
module OpusPacket {
  import opened Common
  import opened ProgramTime

  const MAX_PACKET := 65535
  const MAX_FRAME := 1275
  const MAX_SAMPLES := 5760

  predicate IsBytes(p: seq<int>) {
    forall i :: 0 <= i < |p| ==> 0 <= p[i] < 256
  }

  // ---------------------------------------------------------------- the parser

  function FrameSamples(config: nat): nat
    requires config < 32
  {
    if config < 12 then [480, 960, 1920, 2880][config % 4]
    else if config < 16 then [480, 960][config % 2]
    else [120, 240, 480, 960][config % 4]
  }

  /** Reads the padding length that starts at `offset`; 255 announces another byte. */
  function SkipPadding(p: seq<int>, offset: nat, padding: nat, end: nat): (r: Option<(nat, nat)>)
    requires end <= |p| && IsBytes(p)
    ensures r.Some? ==> offset < r.value.0 <= end && r.value.1 <= end - r.value.0
    decreases end - offset
  {
    if offset >= end then None
    else
      var n := p[offset];
      var more := padding + if n == 255 then 254 else n;
      if more > end - (offset + 1) then None
      else if n != 255 then Some((offset + 1, more))
      else SkipPadding(p, offset + 1, more, end)
  }

  /** Reads `count` explicit frame lengths and adds them up. */
  function ReadLengths(p: seq<int>, offset: nat, end: nat, count: nat): (r: Option<(nat, nat)>)
    requires end <= |p| && IsBytes(p) && offset <= end
    ensures r.Some? ==> offset <= r.value.0 <= end
    decreases count
  {
    if count == 0 then Some((offset, 0))
    else if offset >= end then None
    else if p[offset] < 252 then Added(p[offset], ReadLengths(p, offset + 1, end, count - 1))
    else if offset + 1 >= end then None
    else Added(p[offset] + p[offset + 1] * 4, ReadLengths(p, offset + 2, end, count - 1))
  }

  function Added(length: nat, rest: Option<(nat, nat)>): Option<(nat, nat)> {
    if rest.None? then None else Some((rest.value.0, length + rest.value.1))
  }

  function Body(p: seq<int>, samples: nat, count: nat, offset: nat, end: nat, vbr: bool): Option<nat>
    requires offset <= end <= |p| && IsBytes(p)
  {
    if count < 1 || count > 48 || samples * count > MAX_SAMPLES then None
    else if !vbr then
      if (end - offset) % count != 0 || (end - offset) / count > MAX_FRAME then None else Some(samples * count)
    else
      var lengths := ReadLengths(p, offset, end, count - 1);
      if lengths.None? then None
      else
        var remaining := end - lengths.value.0 - lengths.value.1;
        if remaining < 0 || remaining > MAX_FRAME then None else Some(samples * count)
  }

  function Samples(p: seq<int>): Option<nat>
    requires IsBytes(p)
  {
    if |p| == 0 || |p| > MAX_PACKET then None
    else
      var samples := FrameSamples(p[0] / 8);
      match p[0] % 4
      case 0 => Body(p, samples, 1, 1, |p|, false)
      case 1 => Body(p, samples, 2, 1, |p|, false)
      case 2 => Body(p, samples, 2, 1, |p|, true)
      case _ =>
        if |p| < 2 then None
        else
          var count, vbr, padded := p[1] % 64, p[1] / 128 == 1, p[1] / 64 % 2 == 1;
          if !padded then Body(p, samples, count, 2, |p|, vbr)
          else
            var skipped := SkipPadding(p, 2, 0, |p|);
            if skipped.None? then None
            else Body(p, samples, count, skipped.value.0, |p| - skipped.value.1, vbr)
  }

  method ScanPadding(p: seq<int>) returns (r: Option<(nat, nat)>)
    requires IsBytes(p) && |p| >= 2
    ensures r == SkipPadding(p, 2, 0, |p|)
  {
    var offset: nat, padding: nat := 2, 0;
    while true
      invariant offset <= |p|
      invariant SkipPadding(p, 2, 0, |p|) == SkipPadding(p, offset, padding, |p|)
      decreases |p| - offset
    {
      if offset >= |p| {
        return None;
      }
      var n := p[offset];
      offset := offset + 1;
      padding := padding + if n == 255 then 254 else n;
      if padding > |p| - offset {
        return None;
      }
      if n != 255 {
        return Some((offset, padding));
      }
    }
  }

  method ScanLengths(p: seq<int>, start: nat, end: nat, count: nat) returns (r: Option<(nat, nat)>)
    requires start <= end <= |p| && IsBytes(p)
    ensures r == ReadLengths(p, start, end, count)
  {
    var offset: nat, specified: nat := start, 0;
    for i := 0 to count
      invariant offset <= end
      invariant ReadLengths(p, start, end, count) == Added(specified, ReadLengths(p, offset, end, count - i))
    {
      if offset >= end {
        return None;
      }
      var length := p[offset];
      offset := offset + 1;
      if length >= 252 {
        if offset >= end {
          return None;
        }
        length := length + p[offset] * 4;
        offset := offset + 1;
      }
      specified := specified + length;
    }
    r := Some((offset, specified));
  }

  /** The parser as the code runs it. */
  method SourceOpusSamples(p: seq<int>) returns (r: Option<nat>)
    requires IsBytes(p)
    ensures r == Samples(p)
  {
    hide SkipPadding;
    hide ReadLengths;
    if |p| == 0 || |p| > MAX_PACKET {
      return None;
    }
    var samples := FrameSamples(p[0] / 8);
    var count: nat, offset: nat, end: nat, vbr := 1, 1, |p|, false;
    if p[0] % 4 == 1 {
      count := 2;
    } else if p[0] % 4 == 2 {
      count, vbr := 2, true;
    } else if p[0] % 4 == 3 {
      if |p| < 2 {
        return None;
      }
      count, offset, vbr := p[1] % 64, 2, p[1] / 128 == 1;
      if p[1] / 64 % 2 == 1 {
        var skipped := ScanPadding(p);
        if skipped.None? {
          return None;
        }
        offset, end := skipped.value.0, |p| - skipped.value.1;
      }
    }
    assert Samples(p) == Body(p, samples, count, offset, end, vbr);
    hide Samples;
    if count < 1 || count > 48 || samples * count > MAX_SAMPLES {
      return None;
    }
    if !vbr {
      if (end - offset) % count != 0 || (end - offset) / count > MAX_FRAME {
        return None;
      }
    } else {
      var lengths := ScanLengths(p, offset, end, count - 1);
      if lengths.None? {
        return None;
      }
      var remaining := end - lengths.value.0 - lengths.value.1;
      if remaining < 0 || remaining > MAX_FRAME {
        return None;
      }
    }
    r := Some(samples * count);
  }

  // ---------------------------------------------------------------- structured packets

  /** Padding: `runs` bytes of 255, a last length byte below 255, then the filler. */
  datatype Padding = Padding(runs: nat, last: nat, filler: seq<int>)

  datatype Framing =
    | Single(frame: seq<int>)
    | PairEqual(first: seq<int>, second: seq<int>)
    | PairSized(first: seq<int>, second: seq<int>)
    | Several(vbr: bool, frames: seq<seq<int>>, padding: Option<Padding>)

  datatype Packet = Packet(config: nat, stereo: bool, framing: Framing)

  function FramesOf(f: Framing): seq<seq<int>> {
    match f
    case Single(a) => [a]
    case PairEqual(a, b) => [a, b]
    case PairSized(a, b) => [a, b]
    case Several(_, frames, _) => frames
  }

  predicate EqualSizes(frames: seq<seq<int>>) {
    forall i :: 0 <= i < |frames| ==> |frames[i]| == |frames[0]|
  }

  predicate WellFormed(k: Packet) {
    var frames := FramesOf(k.framing);
    && k.config < 32 && 1 <= |frames| <= 48
    && (forall i :: 0 <= i < |frames| ==> |frames[i]| <= MAX_FRAME && IsBytes(frames[i]))
    && FrameSamples(k.config) * |frames| <= MAX_SAMPLES
    && (k.framing.PairEqual? || (k.framing.Several? && !k.framing.vbr) ==> EqualSizes(frames))
    && (k.framing.Several? && k.framing.padding.Some? ==>
          var pad := k.framing.padding.value;
          pad.last < 255 && |pad.filler| == 254 * pad.runs + pad.last && IsBytes(pad.filler))
  }

  function PrintLength(n: nat): seq<int>
    requires n <= MAX_FRAME
  {
    if n < 252 then [n] else [252 + n % 4, (n - 252) / 4]
  }

  predicate Lengths(lengths: seq<nat>) {
    forall i :: 0 <= i < |lengths| ==> lengths[i] <= MAX_FRAME
  }

  function PrintLengths(lengths: seq<nat>): seq<int>
    requires Lengths(lengths)
  {
    if lengths == [] then [] else PrintLength(lengths[0]) + PrintLengths(lengths[1..])
  }

  function Concat(frames: seq<seq<int>>): seq<int> {
    if frames == [] then [] else frames[0] + Concat(frames[1..])
  }

  function SizesOf(frames: seq<seq<int>>): (r: seq<nat>)
    ensures |r| == |frames| && forall i :: 0 <= i < |r| ==> r[i] == |frames[i]|
  {
    if frames == [] then [] else [|frames[0]|] + SizesOf(frames[1..])
  }

  function Sum(lengths: seq<nat>): nat {
    if lengths == [] then 0 else lengths[0] + Sum(lengths[1..])
  }

  function Repeat(b: int, n: nat): (r: seq<int>)
    ensures |r| == n
  {
    seq(n, _ => b)
  }

  function PrintPadding(pad: Padding): seq<int> {
    Repeat(255, pad.runs) + [pad.last]
  }

  function Toc(k: Packet, code: nat): int {
    k.config * 8 + (if k.stereo then 4 else 0) + code
  }

  function Print(k: Packet): seq<int>
    requires WellFormed(k)
  {
    match k.framing
    case Single(a) => [Toc(k, 0)] + FrameText([a], false)
    case PairEqual(a, b) => [Toc(k, 1)] + FrameText([a, b], false)
    case PairSized(a, b) => [Toc(k, 2)] + FrameText([a, b], true)
    case Several(vbr, frames, padding) =>
      [Toc(k, 3), CountByte(k.framing)]
      + (if padding.Some? then PrintPadding(padding.value) else [])
      + FrameText(frames, vbr)
      + (if padding.Some? then padding.value.filler else [])
  }

  // ---------------------------------------------------------------- pieces, both ways

  lemma {:induction false} SkipPrinted(p: seq<int>, offset: nat, padding: nat, end: nat, runs: nat, last: nat)
    requires IsBytes(p) && offset + runs < end <= |p| && p[offset + runs] == last < 255
    requires forall j :: offset <= j < offset + runs ==> p[j] == 255
    requires padding + 254 * runs + last <= end - (offset + runs + 1)
    ensures SkipPadding(p, offset, padding, end) == Some((offset + runs + 1, padding + 254 * runs + last))
    decreases runs
  {
    if runs > 0 { SkipPrinted(p, offset + 1, padding + 254, end, runs - 1, last); }
  }

  lemma {:induction false} SkipFound(p: seq<int>, offset: nat, padding: nat, end: nat) returns (runs: nat, last: nat)
    requires IsBytes(p) && end <= |p| && SkipPadding(p, offset, padding, end).Some?
    ensures offset + runs < end && p[offset + runs] == last < 255
    ensures forall j :: offset <= j < offset + runs ==> p[j] == 255
    ensures SkipPadding(p, offset, padding, end) == Some((offset + runs + 1, padding + 254 * runs + last))
    decreases end - offset
  {
    if p[offset] != 255 {
      runs, last := 0, p[offset];
    } else {
      runs, last := SkipFound(p, offset + 1, padding + 254, end);
      runs := runs + 1;
    }
  }

  lemma LengthRoundTrip(n: nat)
    requires n <= MAX_FRAME
    ensures var b := PrintLength(n);
            && IsBytes(b)
            && (if b[0] < 252 then |b| == 1 && b[0] == n else |b| == 2 && b[0] + b[1] * 4 == n)
  {
  }

  lemma {:induction false} ReadPrinted(p: seq<int>, offset: nat, end: nat, lengths: seq<nat>)
    requires IsBytes(p) && Lengths(lengths) && offset + |PrintLengths(lengths)| <= end <= |p|
    requires p[offset..offset + |PrintLengths(lengths)|] == PrintLengths(lengths)
    ensures ReadLengths(p, offset, end, |lengths|) == Some((offset + |PrintLengths(lengths)|, Sum(lengths)))
    decreases |lengths|
  {
    hide IsBytes;
    hide PrintLength;
    hide ReadLengths;
    if lengths == [] {
      ReadNone(p, offset, end);
    } else {
      var b, rest := PrintLength(lengths[0]), PrintLengths(lengths[1..]);
      assert PrintLengths(lengths) == b + rest;
      SliceSplit(p, offset, b, rest);
      ReadOne(p, offset, end, |lengths|, lengths[0]);
      ReadPrinted(p, offset + |b|, end, lengths[1..]);
    }
  }

  lemma ReadNone(p: seq<int>, offset: nat, end: nat)
    requires IsBytes(p) && offset <= end <= |p|
    ensures ReadLengths(p, offset, end, 0) == Some((offset, 0))
  {
  }

  lemma SliceSplit(p: seq<int>, offset: nat, b: seq<int>, rest: seq<int>)
    requires offset + |b + rest| <= |p| && p[offset..offset + |b + rest|] == b + rest
    ensures p[offset..offset + |b|] == b && p[offset + |b|..offset + |b| + |rest|] == rest
  {
    var all := p[offset..offset + |b + rest|];
    assert all[..|b|] == b && all[|b|..] == rest;
  }

  lemma ReadOne(p: seq<int>, offset: nat, end: nat, count: nat, n: nat)
    requires IsBytes(p) && n <= MAX_FRAME && count > 0 && offset + |PrintLength(n)| <= end <= |p|
    requires p[offset..offset + |PrintLength(n)|] == PrintLength(n)
    ensures ReadLengths(p, offset, end, count) == Added(n, ReadLengths(p, offset + |PrintLength(n)|, end, count - 1))
  {
    var b := PrintLength(n);
    LengthRoundTrip(n);
    assert p[offset] == p[offset..offset + |b|][0];
    if |b| == 2 { assert p[offset + 1] == p[offset..offset + |b|][1]; }
  }

  lemma LengthUnique(b: int, c: int)
    requires 252 <= b < 256 && 0 <= c < 256
    ensures b + c * 4 <= MAX_FRAME && PrintLength(b + c * 4) == [b, c]
  {
  }

  lemma OneFound(p: seq<int>, offset: nat, end: nat, count: nat) returns (n: nat)
    requires IsBytes(p) && offset <= end <= |p| && count > 0 && ReadLengths(p, offset, end, count).Some?
    ensures n <= MAX_FRAME && offset + |PrintLength(n)| <= end
    ensures p[offset..offset + |PrintLength(n)|] == PrintLength(n)
    ensures ReadLengths(p, offset, end, count) == Added(n, ReadLengths(p, offset + |PrintLength(n)|, end, count - 1))
  {
    if p[offset] < 252 {
      n := p[offset];
    } else {
      LengthUnique(p[offset], p[offset + 1]);
      n := p[offset] + p[offset + 1] * 4;
    }
  }

  lemma {:induction false} ReadFound(p: seq<int>, offset: nat, end: nat, count: nat) returns (lengths: seq<nat>)
    requires IsBytes(p) && offset <= end <= |p| && ReadLengths(p, offset, end, count).Some?
    ensures |lengths| == count && Lengths(lengths)
    ensures ReadLengths(p, offset, end, count) == Some((offset + |PrintLengths(lengths)|, Sum(lengths)))
    ensures offset + |PrintLengths(lengths)| <= end
    ensures p[offset..offset + |PrintLengths(lengths)|] == PrintLengths(lengths)
    decreases count
  {
    if count == 0 {
      lengths := [];
    } else {
      hide IsBytes;
      hide PrintLength;
      hide ReadLengths;
      var n := OneFound(p, offset, end, count);
      var next := offset + |PrintLength(n)|;
      hide PrintLengths;
      hide Sum;
      var rest := ReadFound(p, next, end, count - 1);
      lengths := [n] + rest;
      LengthsCons(n, rest);
      SliceJoin(p, offset, next, next + |PrintLengths(rest)|);
    }
  }

  lemma LengthsCons(n: nat, rest: seq<nat>)
    requires n <= MAX_FRAME && Lengths(rest)
    ensures Lengths([n] + rest) && PrintLengths([n] + rest) == PrintLength(n) + PrintLengths(rest)
    ensures Sum([n] + rest) == n + Sum(rest)
  {
    assert ([n] + rest)[1..] == rest;
    hide PrintLength;
  }

  lemma SliceJoin(p: seq<int>, a: nat, b: nat, c: nat)
    requires a <= b <= c <= |p|
    ensures p[a..c] == p[a..b] + p[b..c]
  {
  }

  lemma {:induction false} SumOfSizes(frames: seq<seq<int>>)
    ensures Sum(SizesOf(frames)) == |Concat(frames)|
  {
    if frames != [] {
      SumOfSizes(frames[1..]);
      assert SizesOf(frames)[1..] == SizesOf(frames[1..]);
    }
  }

  lemma {:induction false} SumSnoc(lengths: seq<nat>, last: nat)
    ensures Sum(lengths + [last]) == Sum(lengths) + last
  {
    if lengths != [] {
      SumSnoc(lengths[1..], last);
      assert (lengths + [last])[1..] == lengths[1..] + [last];
    }
  }

  lemma {:induction false} SumEqual(lengths: seq<nat>, n: nat)
    requires forall i :: 0 <= i < |lengths| ==> lengths[i] == n
    ensures Sum(lengths) == |lengths| * n
  {
    if lengths != [] {
      SumEqual(lengths[1..], n);
      assert (|lengths| - 1) * n + n == |lengths| * n;
    }
  }

  /** Cuts data into frames of the given sizes. */
  function Cut(data: seq<int>, sizes: seq<nat>): (r: seq<seq<int>>)
    requires Sum(sizes) == |data|
    ensures |r| == |sizes| && Concat(r) == data
    ensures forall i :: 0 <= i < |r| ==> |r[i]| == sizes[i]
  {
    if sizes == [] then []
    else
      var r := [data[..sizes[0]]] + Cut(data[sizes[0]..], sizes[1..]);
      assert r[1..] == Cut(data[sizes[0]..], sizes[1..]);
      r
  }

  lemma {:induction false} CutBytes(data: seq<int>, sizes: seq<nat>, i: nat)
    requires Sum(sizes) == |data| && IsBytes(data) && i < |sizes|
    ensures IsBytes(Cut(data, sizes)[i])
  {
    if i > 0 { CutBytes(data[sizes[0]..], sizes[1..], i - 1); }
  }

  // ---------------------------------------------------------------- frames, both ways

  predicate FrameSet(frames: seq<seq<int>>) {
    1 <= |frames| <= 48 && forall i :: 0 <= i < |frames| ==> |frames[i]| <= MAX_FRAME && IsBytes(frames[i])
  }

  function Explicit(frames: seq<seq<int>>): seq<nat>
    requires frames != []
  {
    SizesOf(frames[..|frames| - 1])
  }

  /** What stands between the header and the padding. */
  function FrameText(frames: seq<seq<int>>, vbr: bool): seq<int>
    requires FrameSet(frames)
  {
    (if vbr then PrintLengths(Explicit(frames)) else []) + Concat(frames)
  }

  lemma SizesSplit(frames: seq<seq<int>>)
    requires frames != []
    ensures |Concat(frames)| == Sum(Explicit(frames)) + |frames[|frames| - 1]|
  {
    hide Sum;
    hide SizesOf;
    hide Concat;
    SumOfSizes(frames);
    SumSnoc(Explicit(frames), |frames[|frames| - 1]|);
    assert SizesOf(frames) == Explicit(frames) + [|frames[|frames| - 1]|];
  }

  lemma BodyPrinted(p: seq<int>, samples: nat, frames: seq<seq<int>>, offset: nat, end: nat, vbr: bool)
    requires IsBytes(p) && offset <= end <= |p| && FrameSet(frames) && samples * |frames| <= MAX_SAMPLES
    requires vbr || EqualSizes(frames)
    requires p[offset..end] == FrameText(frames, vbr)
    ensures Body(p, samples, |frames|, offset, end, vbr) == Some(samples * |frames|)
  {
    if vbr { SizedPrinted(p, frames, offset, end); } else { EqualPrinted(frames, offset, end); }
    hide FrameText;
    hide ReadLengths;
    hide Explicit;
  }

  lemma SizedPrinted(p: seq<int>, frames: seq<seq<int>>, offset: nat, end: nat)
    requires IsBytes(p) && offset <= end <= |p| && FrameSet(frames) && p[offset..end] == FrameText(frames, true)
    ensures var lengths := ReadLengths(p, offset, end, |frames| - 1);
            lengths.Some? && end - lengths.value.0 - lengths.value.1 == |frames[|frames| - 1]|
  {
    hide ReadLengths;
    hide Sum;
    hide Concat;
    hide PrintLengths;
    hide IsBytes;
    var lengths := Explicit(frames);
    SliceHead(p, offset, end, PrintLengths(lengths), Concat(frames));
    ReadPrinted(p, offset, end, lengths);
    SizesSplit(frames);
    hide Explicit;
  }

  lemma SliceHead(p: seq<int>, a: nat, b: nat, text: seq<int>, rest: seq<int>)
    requires a <= b <= |p| && p[a..b] == text + rest
    ensures a + |text| <= b && b - a == |text| + |rest| && p[a..a + |text|] == text
  {
    assert p[a..a + |text|] == p[a..b][..|text|];
  }

  lemma EqualPrinted(frames: seq<seq<int>>, offset: nat, end: nat)
    requires offset <= end && FrameSet(frames) && EqualSizes(frames) && end - offset == |FrameText(frames, false)|
    ensures (end - offset) % |frames| == 0 && (end - offset) / |frames| == |frames[0]|
  {
    hide Sum;
    hide SizesOf;
    SumOfSizes(frames);
    SumEqual(SizesOf(frames), |frames[0]|);
    assert end - offset == |frames| * |frames[0]|;
    DivUnique(end - offset, |frames|, |frames[0]|, 0);
  }

  lemma BodyFound(p: seq<int>, samples: nat, count: nat, offset: nat, end: nat, vbr: bool) returns (frames: seq<seq<int>>)
    requires IsBytes(p) && offset <= end <= |p| && Body(p, samples, count, offset, end, vbr).Some?
    ensures FrameSet(frames) && |frames| == count && (vbr || EqualSizes(frames))
    ensures p[offset..end] == FrameText(frames, vbr)
    ensures Body(p, samples, count, offset, end, vbr) == Some(samples * count) && samples * count <= MAX_SAMPLES
  {
    if vbr {
      frames := SizedFound(p, count, offset, end);
    } else {
      frames := EqualFound(p, count, offset, end);
    }
  }

  lemma SizedFound(p: seq<int>, count: nat, offset: nat, end: nat) returns (frames: seq<seq<int>>)
    requires IsBytes(p) && offset <= end <= |p| && 1 <= count <= 48
    requires var lengths := ReadLengths(p, offset, end, count - 1);
             lengths.Some? && 0 <= end - lengths.value.0 - lengths.value.1 <= MAX_FRAME
    ensures FrameSet(frames) && |frames| == count
    ensures p[offset..end] == FrameText(frames, true)
  {
    hide ReadLengths;
    hide PrintLengths;
    var lengths := ReadFound(p, offset, end, count - 1);
    var start := offset + |PrintLengths(lengths)|;
    SliceJoin(p, offset, start, end);
    frames := LastFound(p[start..end], lengths);
    hide Explicit;
    hide Concat;
  }

  /** Text cut by all sizes but the last, which is what is left. */
  lemma LastFound(text: seq<int>, lengths: seq<nat>) returns (frames: seq<seq<int>>)
    requires IsBytes(text) && Lengths(lengths) && |lengths| < 48 && 0 <= |text| - Sum(lengths) <= MAX_FRAME
    ensures FrameSet(frames) && |frames| == |lengths| + 1 && Explicit(frames) == lengths && Concat(frames) == text
  {
    var last: nat := |text| - Sum(lengths);
    SumSnoc(lengths, last);
    var sizes := lengths + [last];
    frames := Cut(text, sizes);
    forall i | 0 <= i < |frames|
      ensures |frames[i]| <= MAX_FRAME && IsBytes(frames[i])
    {
      CutBytes(text, sizes, i);
    }
    assert Explicit(frames) == lengths;
  }

  lemma EqualFound(p: seq<int>, count: nat, offset: nat, end: nat) returns (frames: seq<seq<int>>)
    requires IsBytes(p) && offset <= end <= |p| && 1 <= count <= 48
    requires (end - offset) % count == 0 && (end - offset) / count <= MAX_FRAME
    ensures FrameSet(frames) && |frames| == count && EqualSizes(frames)
    ensures p[offset..end] == FrameText(frames, false)
  {
    var size := (end - offset) / count;
    var sizes := seq(count, _ => size);
    SumEqual(sizes, size);
    assert count * size == end - offset;
    frames := Cut(p[offset..end], sizes);
    forall i | 0 <= i < |frames|
      ensures |frames[i]| <= MAX_FRAME && IsBytes(frames[i])
    {
      CutBytes(p[offset..end], sizes, i);
    }
  }

  // ---------------------------------------------------------------- whole packets, both ways

  lemma {:induction false} ConcatBytes(frames: seq<seq<int>>)
    requires forall i :: 0 <= i < |frames| ==> IsBytes(frames[i])
    ensures IsBytes(Concat(frames))
  {
    if frames != [] { ConcatBytes(frames[1..]); }
  }

  lemma {:induction false} LengthsBytes(lengths: seq<nat>)
    requires Lengths(lengths)
    ensures IsBytes(PrintLengths(lengths))
  {
    if lengths != [] {
      LengthRoundTrip(lengths[0]);
      LengthsBytes(lengths[1..]);
      hide PrintLength;
    }
  }

  lemma FrameTextBytes(frames: seq<seq<int>>, vbr: bool)
    requires FrameSet(frames)
    ensures IsBytes(FrameText(frames, vbr))
  {
    ConcatBytes(frames);
    LengthsBytes(Explicit(frames));
    hide Concat;
    hide PrintLengths;
    hide Explicit;
  }

  lemma TocReads(k: Packet, code: nat)
    requires k.config < 32 && code < 4
    ensures var b := Toc(k, code); 0 <= b < 256 && b / 8 == k.config && b % 4 == code && (b / 4 % 2 == 1 <==> k.stereo)
  {
  }

  /** Codes 0 to 2: a table-of-contents byte and the frames. */
  lemma ShortPrinted(k: Packet)
    requires WellFormed(k) && !k.framing.Several? && |Print(k)| <= MAX_PACKET
    ensures IsBytes(Print(k)) && Samples(Print(k)) == Some(FrameSamples(k.config) * |FramesOf(k.framing)|)
  {
    var frames, p := FramesOf(k.framing), Print(k);
    var code := if k.framing.Single? then 0 else if k.framing.PairEqual? then 1 else 2;
    TocReads(k, code);
    FrameTextBytes(frames, code == 2);
    assert p[1..|p|] == FrameText(frames, code == 2);
    assert code == 0 ==> EqualSizes(frames);
    BodyPrinted(p, FrameSamples(k.config), frames, 1, |p|, code == 2);
    hide Body;
    hide FrameText;
    hide Toc;
    hide FrameSamples;
  }

  function CountByte(f: Framing): int
    requires f.Several?
  {
    (if f.vbr then 128 else 0) + (if f.padding.Some? then 64 else 0) + |f.frames|
  }

  lemma CountReads(f: Framing)
    requires f.Several? && |f.frames| <= 48
    ensures var b := CountByte(f);
            0 <= b < 256 && b % 64 == |f.frames| && (b / 128 == 1 <==> f.vbr) && (b / 64 % 2 == 1 <==> f.padding.Some?)
  {
  }

  /** Code 3 without padding. */
  lemma PlainPrinted(k: Packet)
    requires WellFormed(k) && k.framing.Several? && k.framing.padding.None? && |Print(k)| <= MAX_PACKET
    ensures IsBytes(Print(k)) && Samples(Print(k)) == Some(FrameSamples(k.config) * |k.framing.frames|)
  {
    var frames, p := k.framing.frames, Print(k);
    TocReads(k, 3);
    CountReads(k.framing);
    FrameTextBytes(frames, k.framing.vbr);
    assert p[0] == Toc(k, 3) && p[1] == CountByte(k.framing);
    assert p[2..|p|] == FrameText(frames, k.framing.vbr);
    BodyPrinted(p, FrameSamples(k.config), frames, 2, |p|, k.framing.vbr);
    hide Body;
    hide FrameText;
    hide Toc;
    hide CountByte;
    hide FrameSamples;
  }

  /** Code 3 with padding: where each part of the printed packet lies. */
  lemma PaddedLayout(k: Packet)
    requires WellFormed(k) && k.framing.Several? && k.framing.padding.Some?
    ensures var p, pad, text := Print(k), k.framing.padding.value, FrameText(k.framing.frames, k.framing.vbr);
            var start := 2 + pad.runs + 1;
            && |p| == start + |text| + |pad.filler|
            && p[0] == Toc(k, 3) && p[1] == CountByte(k.framing)
            && (forall j :: 2 <= j < 2 + pad.runs ==> p[j] == 255) && p[2 + pad.runs] == pad.last
            && p[start..start + |text|] == text && p[start + |text|..] == pad.filler
            && IsBytes(p)
  {
    var p, pad, text := Print(k), k.framing.padding.value, FrameText(k.framing.frames, k.framing.vbr);
    TocReads(k, 3);
    CountReads(k.framing);
    FrameTextBytes(k.framing.frames, k.framing.vbr);
    hide FrameText;
    hide FrameSamples;
    var head := [Toc(k, 3), CountByte(k.framing)] + PrintPadding(pad);
    assert p == head + text + pad.filler;
    assert |head| == 2 + pad.runs + 1 && IsBytes(head);
    hide Toc;
    hide CountByte;
    assert IsBytes(head + text);
  }

  lemma PaddedPrinted(k: Packet)
    requires WellFormed(k) && k.framing.Several? && k.framing.padding.Some? && |Print(k)| <= MAX_PACKET
    ensures IsBytes(Print(k)) && Samples(Print(k)) == Some(FrameSamples(k.config) * |k.framing.frames|)
  {
    var frames, p, pad := k.framing.frames, Print(k), k.framing.padding.value;
    PaddedLayout(k);
    TocReads(k, 3);
    CountReads(k.framing);
    hide Print;
    hide Body;
    hide FrameText;
    hide SkipPadding;
    hide Toc;
    hide CountByte;
    hide FrameSamples;
    hide Samples;
    hide IsBytes;
    SkipPrinted(p, 2, 0, |p|, pad.runs, pad.last);
    PaddedSamples(p);
    BodyPrinted(p, FrameSamples(k.config), frames, 3 + pad.runs, |p| - |pad.filler|, k.framing.vbr);
  }

  lemma PaddedSamples(p: seq<int>)
    requires IsBytes(p) && 2 <= |p| <= MAX_PACKET && p[0] % 4 == 3 && p[1] / 64 % 2 == 1 && SkipPadding(p, 2, 0, |p|).Some?
    ensures var skipped := SkipPadding(p, 2, 0, |p|).value;
            && skipped.0 <= |p| - skipped.1
            && Samples(p) == Body(p, FrameSamples(p[0] / 8), p[1] % 64, skipped.0, |p| - skipped.1, p[1] / 128 == 1)
  {
    hide Body;
    hide FrameSamples;
  }

  /** Every well-formed packet that fits is accepted, with its exact duration. */
  lemma PrintedIsAccepted(k: Packet)
    requires WellFormed(k) && |Print(k)| <= MAX_PACKET
    ensures IsBytes(Print(k)) && Samples(Print(k)) == Some(FrameSamples(k.config) * |FramesOf(k.framing)|)
  {
    hide Print;
    hide Samples;
    if !k.framing.Several? {
      ShortPrinted(k);
    } else if k.framing.padding.None? {
      PlainPrinted(k);
    } else {
      PaddedPrinted(k);
    }
  }

  function PacketWith(b: int, framing: Framing): Packet
    requires 0 <= b < 256
  {
    Packet(b / 8, b / 4 % 2 == 1, framing)
  }

  lemma TocWrites(b: int, framing: Framing)
    requires 0 <= b < 256
    ensures Toc(PacketWith(b, framing), b % 4) == b && PacketWith(b, framing).config < 32
  {
  }

  lemma ShortFound(p: seq<int>) returns (k: Packet)
    requires IsBytes(p) && Samples(p).Some? && p[0] % 4 != 3
    ensures WellFormed(k) && Print(k) == p && Samples(p) == Some(FrameSamples(k.config) * |FramesOf(k.framing)|)
  {
    var code := p[0] % 4;
    var frames := BodyFound(p, FrameSamples(p[0] / 8), if code == 0 then 1 else 2, 1, |p|, code == 2);
    var framing := if code == 0 then Single(frames[0])
                   else if code == 1 then PairEqual(frames[0], frames[1]) else PairSized(frames[0], frames[1]);
    k := PacketWith(p[0], framing);
    assert FramesOf(framing) == frames;
    TocWrites(p[0], framing);
    hide FrameText;
    hide FrameSamples;
    hide Body;
    hide Toc;
    assert Print(k) == [p[0]] + FrameText(frames, code == 2);
    assert p == [p[0]] + p[1..|p|];
  }

  lemma CountWrites(b: int, frames: seq<seq<int>>, padding: Option<Padding>)
    requires 0 <= b < 256 && b % 64 == |frames| && (b / 64 % 2 == 1 <==> padding.Some?)
    ensures CountByte(Several(b / 128 == 1, frames, padding)) == b
  {
  }

  lemma PlainFound(p: seq<int>) returns (k: Packet)
    requires IsBytes(p) && Samples(p).Some? && p[0] % 4 == 3 && |p| >= 2 && p[1] / 64 % 2 == 0
    ensures WellFormed(k) && Print(k) == p && Samples(p) == Some(FrameSamples(k.config) * |FramesOf(k.framing)|)
  {
    var vbr := p[1] / 128 == 1;
    var frames := BodyFound(p, FrameSamples(p[0] / 8), p[1] % 64, 2, |p|, vbr);
    var framing := Several(vbr, frames, None);
    k := PacketWith(p[0], framing);
    TocWrites(p[0], framing);
    CountWrites(p[1], frames, None);
    assert CountByte(framing) == p[1];
    hide FrameText;
    hide FrameSamples;
    hide Body;
    hide Toc;
    assert Print(k) == [p[0], p[1]] + FrameText(frames, vbr);
    assert p == [p[0], p[1]] + p[2..|p|];
  }

  lemma PaddedFound(p: seq<int>) returns (k: Packet)
    requires IsBytes(p) && Samples(p).Some? && p[0] % 4 == 3 && |p| >= 2 && p[1] / 64 % 2 == 1
    ensures WellFormed(k) && Print(k) == p && Samples(p) == Some(FrameSamples(k.config) * |FramesOf(k.framing)|)
  {
    var vbr := p[1] / 128 == 1;
    var runs, last := SkipFound(p, 2, 0, |p|);
    var start := 3 + runs;
    var end := |p| - (254 * runs + last);
    var frames := BodyFound(p, FrameSamples(p[0] / 8), p[1] % 64, start, end, vbr);
    var padding := Some(Padding(runs, last, p[end..]));
    var framing := Several(vbr, frames, padding);
    k := PacketWith(p[0], framing);
    TocWrites(p[0], framing);
    CountWrites(p[1], frames, padding);
    hide SkipPadding;
    hide FrameText;
    hide FrameSamples;
    hide Body;
    hide Toc;
    assert WellFormed(k);
    PaddedText(p, k, start, end);
  }

  lemma PaddedText(p: seq<int>, k: Packet, start: nat, end: nat)
    requires WellFormed(k) && k.framing.Several? && k.framing.padding.Some?
    requires start <= end <= |p| && start == 3 + k.framing.padding.value.runs
    requires p[0] == Toc(k, 3) && p[1] == CountByte(k.framing) && p[start - 1] == k.framing.padding.value.last
    requires forall j :: 2 <= j < start - 1 ==> p[j] == 255
    requires p[start..end] == FrameText(k.framing.frames, k.framing.vbr) && p[end..] == k.framing.padding.value.filler
    ensures Print(k) == p
  {
    hide FrameText;
    hide Toc;
    hide CountByte;
    hide FrameSamples;
    var head := [Toc(k, 3), CountByte(k.framing)] + PrintPadding(k.framing.padding.value);
    assert p[..start] == head;
    assert p == p[..start] + p[start..end] + p[end..];
  }

  /** Every accepted byte string is the printing of some well-formed packet, and the
      reported duration is that packet's. */
  lemma AcceptedIsPrinted(p: seq<int>) returns (k: Packet)
    requires IsBytes(p) && Samples(p).Some?
    ensures WellFormed(k) && Print(k) == p
    ensures Samples(p) == Some(FrameSamples(k.config) * |FramesOf(k.framing)|)
    ensures Samples(p).value <= MAX_SAMPLES
  {
    if p[0] % 4 != 3 {
      k := ShortFound(p);
    } else if p[1] / 64 % 2 == 0 {
      k := PlainFound(p);
    } else {
      k := PaddedFound(p);
    }
    hide Print;
    hide Samples;
  }

  // ---------------------------------------------------------------- pre-skip and spans

  const WRAP32 := 0x1_0000_0000

  datatype Timeline = Timeline(preSkip: int, started: bool, last: nat, previousSize: nat)

  datatype Span = Span(timestamp: nat, samples: nat)

  /** The unsigned 32-bit distance from one timestamp to a later one. */
  function Gap(from: nat, to: nat): nat {
    (to - from) % WRAP32
  }

  predicate Rejected(t: Timeline, timestamp: nat, samples: int) {
    || samples < 120 || samples > MAX_SAMPLES || samples % 120 != 0 || t.preSkip < 0 || t.preSkip > 48000
    || (t.started && (Gap(t.last, timestamp) < t.previousSize || Gap(t.last, timestamp) > 48000 * 600))
  }

  function Accept(t: Timeline, timestamp: nat, samples: int): (Timeline, Option<Span>) {
    if Rejected(t, timestamp, samples) then (t, None)
    else
      var skipped := if t.preSkip < samples then t.preSkip else samples;
      (Timeline(t.preSkip - skipped, true, timestamp, samples),
       Some(Span((timestamp + skipped) % WRAP32, samples - skipped)))
  }

  class OpusTimeline {
    var preSkip: int
    var started: bool
    var last: nat
    var previousSize: nat

    ghost function View(): Timeline
      reads this
    {
      Timeline(preSkip, started, last, previousSize)
    }

    constructor (preSkip: int)
      ensures View() == Timeline(preSkip, false, 0, 0)
    {
      this.preSkip, started, last, previousSize := preSkip, false, 0, 0;
    }

    method AcceptPacket(timestamp: nat, samples: int) returns (span: Option<Span>)
      modifies this
      ensures (View(), span) == Accept(old(View()), timestamp, samples)
    {
      if samples < 120 || samples > MAX_SAMPLES || samples % 120 != 0 || preSkip < 0 || preSkip > 48000 {
        return None;
      }
      if started {
        var gap := Gap(last, timestamp);
        if gap < previousSize || gap > 48000 * 600 {
          return None;
        }
      }
      started, last, previousSize := true, timestamp, samples;
      var skipped := if preSkip < samples then preSkip else samples;
      preSkip := preSkip - skipped;
      span := Some(Span((timestamp + skipped) % WRAP32, samples - skipped));
    }
  }

  datatype Decoded = Decoded(timestamp: nat, samples: int)

  /** A run of packets: the timeline, the samples accepted and handed on, and the unwrapped
      positions at which the last packet began and the handed-on audio ends. */
  datatype Played = Played(timeline: Timeline, accepted: nat, handed: nat, position: int, end: int)

  function PlayOne(r: Played, p: Decoded): Played {
    var (t, span) := Accept(r.timeline, p.timestamp, p.samples);
    if span.None? then r
    else
      var position := if r.timeline.started then r.position + Gap(r.timeline.last, p.timestamp) else p.timestamp;
      Played(t, r.accepted + p.samples, r.handed + span.value.samples, position, position + p.samples)
  }

  function Play(preSkip: int, packets: seq<Decoded>): Played {
    if packets == [] then Played(Timeline(preSkip, false, 0, 0), 0, 0, 0, 0)
    else PlayOne(Play(preSkip, packets[..|packets| - 1]), packets[|packets| - 1])
  }

  /** Pre-skip has removed exactly min(preSkip, everything accepted), and positions agree
      with the 32-bit timestamps. */
  predicate Exact(preSkip: nat, r: Played) {
    && r.accepted - r.handed == (if preSkip < r.accepted then preSkip else r.accepted)
    && r.timeline.preSkip == preSkip - (r.accepted - r.handed)
    && (r.timeline.started ==> r.position % WRAP32 == r.timeline.last && r.end == r.position + r.timeline.previousSize)
    && (!r.timeline.started ==> r.accepted == 0)
    && r.timeline.last < WRAP32
  }

  lemma GapAdvances(position: int, last: nat, timestamp: nat)
    requires position % WRAP32 == last && timestamp < WRAP32
    ensures (position + Gap(last, timestamp)) % WRAP32 == timestamp
  {
  }

  lemma PlayOneExact(preSkip: nat, r: Played, p: Decoded)
    requires preSkip <= 48000 && Exact(preSkip, r) && p.timestamp < WRAP32
    ensures Exact(preSkip, PlayOne(r, p))
  {
    if r.timeline.started { GapAdvances(r.position, r.timeline.last, p.timestamp); }
    hide Gap;
  }

  /** Over any run, pre-skip removes exactly min(preSkip, everything accepted). */
  lemma {:induction false} PreSkipExact(preSkip: nat, packets: seq<Decoded>)
    requires preSkip <= 48000 && forall i :: 0 <= i < |packets| ==> packets[i].timestamp < WRAP32
    ensures Exact(preSkip, Play(preSkip, packets))
  {
    if packets != [] {
      hide Exact;
      hide PlayOne;
      PreSkipExact(preSkip, packets[..|packets| - 1]);
      PlayOneExact(preSkip, Play(preSkip, packets[..|packets| - 1]), packets[|packets| - 1]);
    }
  }

  /** The next span starts no earlier than everything handed on before it ends. */
  lemma SpansNeverOverlap(preSkip: nat, packets: seq<Decoded>, p: Decoded)
    requires preSkip <= 48000 && p.timestamp < WRAP32
    requires forall i :: 0 <= i < |packets| ==> packets[i].timestamp < WRAP32
    requires var r := Play(preSkip, packets); r.timeline.started && Accept(r.timeline, p.timestamp, p.samples).1.Some?
    ensures var r, s := Play(preSkip, packets), Play(preSkip, packets + [p]);
            var span := Accept(r.timeline, p.timestamp, p.samples).1.value;
            var start := s.end - span.samples;
            start >= r.end && start % WRAP32 == span.timestamp
  {
    PreSkipExact(preSkip, packets);
    assert (packets + [p])[..|packets|] == packets;
    assert Play(preSkip, packets + [p]) == PlayOne(Play(preSkip, packets), p);
    hide Play;
    SpanAfter(preSkip, Play(preSkip, packets), p);
    hide Accept;
  }

  lemma SpanAfter(preSkip: nat, r: Played, p: Decoded)
    requires preSkip <= 48000 && Exact(preSkip, r) && p.timestamp < WRAP32 && r.timeline.started
    requires Accept(r.timeline, p.timestamp, p.samples).1.Some?
    ensures var span := Accept(r.timeline, p.timestamp, p.samples).1.value;
            var start := PlayOne(r, p).end - span.samples;
            start >= r.end && start % WRAP32 == span.timestamp
  {
    var x := r.position + Gap(r.timeline.last, p.timestamp);
    GapAdvances(r.position, r.timeline.last, p.timestamp);
    hide Gap;
    var skipped := if r.timeline.preSkip < p.samples then r.timeline.preSkip else p.samples;
    ShiftWrap(x, p.timestamp, skipped);
  }

  lemma ShiftWrap(position: int, timestamp: nat, skipped: nat)
    requires position % WRAP32 == timestamp
    ensures (position + skipped) % WRAP32 == (timestamp + skipped) % WRAP32
  {
  }

  lemma GapUnique(position: int, last: nat, timestamp: nat, x: int)
    requires position % WRAP32 == last && x % WRAP32 == timestamp && position <= x < position + WRAP32
    ensures x == position + Gap(last, timestamp)
  {
  }

  /** In unwrapped time: a packet of whole frames is taken exactly when its timestamp can be
      read as a moment at or after the end of the audio so far and at most ten minutes after
      the start of the last packet. */
  lemma TakenExactly(preSkip: nat, packets: seq<Decoded>, p: Decoded)
    requires preSkip <= 48000 && p.timestamp < WRAP32
    requires forall i :: 0 <= i < |packets| ==> packets[i].timestamp < WRAP32
    ensures var r := Play(preSkip, packets);
            Accept(r.timeline, p.timestamp, p.samples).1.Some? <==>
              && 120 <= p.samples <= 5760 && p.samples % 120 == 0
              && (r.timeline.started ==> exists x :: x % WRAP32 == p.timestamp && r.end <= x <= r.position + 28_800_000)
  {
    PreSkipExact(preSkip, packets);
    var r := Play(preSkip, packets);
    hide Play;
    if r.timeline.started {
      var x := r.position + Gap(r.timeline.last, p.timestamp);
      GapAdvances(r.position, r.timeline.last, p.timestamp);
      forall y | y % WRAP32 == p.timestamp && r.position <= y <= r.position + 28_800_000 ensures y == x {
        GapUnique(r.position, r.timeline.last, p.timestamp, y);
      }
      hide Gap;
    }
  }
}
