/** The two grids of a program on its 48-kHz clock: audio blocks of 960 samples and
    video frames at a fixed rate, quantised to one sample. */
module ProgramTime {
  import opened Common

  const RATE := 48000
  const BLOCK := 960
  const MAX_TIME := 0x7fff_ffff_ffff_ffff - 48000

  predicate ValidRate(fps: int) { 1 <= fps <= 60 }

  /** Frame `index` relative to the start of the program, by quotient and remainder. */
  function FrameTime(index: nat, fps: int): int
    requires ValidRate(fps)
  {
    index / fps * RATE + index % fps * RATE / fps
  }

  /** The scheduler's checked form: none when the frame lies beyond the time budget. */
  function VideoTime(index: int, fps: int, start: int): Option<int> {
    if index < 0 || !ValidRate(fps) || start < 0 || start > MAX_TIME then None
    else if index / fps > (MAX_TIME - start) / RATE then None
    else
      var at := start + FrameTime(index, fps);
      if at <= MAX_TIME then Some(at) else None
  }

  lemma ProductAtLeast(a: int, d: int)
    requires a >= 1 && d > 0
    ensures a * d >= d
  {
    assert a * d == (a - 1) * d + d;
  }

  lemma DivUnique(n: int, d: int, q: int, r: int)
    requires d > 0 && 0 <= r < d && n == q * d + r
    ensures n / d == q && n % d == r
  {
    var p := n / d;
    assert n == p * d + n % d;
    assert (p - q) * d == p * d - q * d;
    assert (q - p) * d == q * d - p * d;
    if p > q { ProductAtLeast(p - q, d); }
    if p < q { ProductAtLeast(q - p, d); }
  }

  lemma DivShift(x: int, y: int, d: int)
    requires d > 0
    ensures (x * d + y) / d == x + y / d
  {
    assert x * d + y == (x + y / d) * d + y % d;
    DivUnique(x * d + y, d, x + y / d, y % d);
  }

  /** No cumulative drift: the split arithmetic is the exact rounded-down product. */
  lemma FrameTimeExact(index: nat, fps: int)
    requires ValidRate(fps)
    ensures FrameTime(index, fps) == index * RATE / fps
  {
    var q, r := index / fps, index % fps;
    assert index == q * fps + r;
    calc {
      index * RATE;
      (q * fps + r) * RATE;
      q * RATE * fps + r * RATE;
    }
    DivShift(q * RATE, r * RATE, fps);
  }

  lemma DivSuperadditive(x: nat, y: nat, d: int)
    requires d > 0
    ensures x / d + y / d <= (x + y) / d <= x / d + y / d + 1
  {
    var q, r := x / d + y / d, x % d + y % d;
    assert x + y == q * d + r;
    if r < d {
      DivUnique(x + y, d, q, r);
    } else {
      assert (q + 1) * d == q * d + d;
      DivUnique(x + y, d, q + 1, r - d);
    }
  }

  /** Frames are at least 800 samples apart and at most one second and one sample. */
  lemma FrameSpacing(index: nat, fps: int)
    requires ValidRate(fps)
    ensures 800 <= FrameTime(index + 1, fps) - FrameTime(index, fps) <= RATE + 1
  {
    FrameTimeExact(index, fps);
    FrameTimeExact(index + 1, fps);
    assert (index + 1) * RATE == index * RATE + RATE;
    DivSuperadditive(index * RATE, RATE, fps);
    assert 800 <= RATE / fps <= RATE;
  }

  lemma {:induction false} FrameDistance(i: nat, j: nat, fps: int)
    requires ValidRate(fps) && i <= j
    ensures FrameTime(j, fps) >= FrameTime(i, fps) + 800 * (j - i)
    decreases j - i
  {
    hide FrameTime;
    if i < j {
      FrameDistance(i, j - 1, fps);
      FrameSpacing(j - 1, fps);
    }
  }

  lemma FrameTimeMonotone(i: nat, j: nat, fps: int)
    requires ValidRate(fps)
    ensures i < j <==> FrameTime(i, fps) < FrameTime(j, fps)
  {
    hide FrameTime;
    if i < j { FrameDistance(i, j, fps); } else { FrameDistance(j, i, fps); }
  }

  /** The grid repeats every second: the reason a rebase to a whole second is exact. */
  lemma FrameTimeShift(seconds: nat, index: nat, fps: int)
    requires ValidRate(fps)
    ensures FrameTime(seconds * fps + index, fps) == seconds * RATE + FrameTime(index, fps)
  {
    FrameTimeExact(index, fps);
    FrameTimeExact(seconds * fps + index, fps);
    assert (seconds * fps + index) * RATE == seconds * RATE * fps + index * RATE;
    DivShift(seconds * RATE, index * RATE, fps);
  }

  lemma FrameTimeWhole(index: nat, fps: int)
    requires ValidRate(fps)
    ensures FrameTime(index, fps) >= index / fps * RATE
  {
    assert index % fps * RATE / fps >= 0;
  }

  /** The checked form answers exactly on the frames within the time budget. */
  lemma VideoTimeDefined(index: nat, fps: int, start: nat)
    requires ValidRate(fps) && start <= MAX_TIME
    ensures VideoTime(index, fps, start) ==
            if start + index * RATE / fps <= MAX_TIME then Some(start + index * RATE / fps) else None
  {
    FrameTimeExact(index, fps);
    FrameTimeWhole(index, fps);
    hide FrameTime;
  }
}
