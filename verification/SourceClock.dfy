/** Sender-report clock of one media source: modular RTP and NTP time (section 6.4.1 of
    RFC 3550) mapped to program samples by one affine map per generation, with an
    outlier quarantine.  This is the non-adaptive clock. */
module SourceClock {
  import opened Common

  const RATE := 48000
  const WRAP32 := 0x1_0000_0000
  const WRAP64 := 0x1_0000_0000_0000_0000
  const SECOND := 1_000_000_000
  const TIMEOUT := 12 * SECOND
  const MAX_EPOCH := WRAP64 - 1
  const MAX_REPORTS := 65535

  // ---------------------------------------------------------------- machine arithmetic

  /** Division that truncates toward zero. */
  function Quot(a: int, b: int): int
    requires b > 0
  {
    if a >= 0 then a / b else -(-a / b)
  }

  function Rem(a: int, b: int): int
    requires b > 0
  {
    a - Quot(a, b) * b
  }

  /** The signed reading of a wrapped difference. */
  function Signed(d: int, wrap: int): int
    requires wrap > 0
  {
    var m := d % wrap;
    if m < wrap / 2 then m else m - wrap
  }

  function NtpSamples(ntp: int, reference: int): int {
    var delta := Signed(ntp - reference, WRAP64);
    Quot(delta, WRAP32) * RATE + Quot(Rem(delta, WRAP32) * RATE, WRAP32)
  }

  lemma QuotSplit(delta: int)
    ensures Quot(delta, WRAP32) * RATE + Quot(Rem(delta, WRAP32) * RATE, WRAP32) == Quot(delta * RATE, WRAP32)
  {
    var n := if delta >= 0 then delta else -delta;
    assert n * RATE == n / WRAP32 * RATE * WRAP32 + n % WRAP32 * RATE;
    assert n * RATE / WRAP32 == n / WRAP32 * RATE + n % WRAP32 * RATE / WRAP32;
  }

  /** The overflow-free split equals the exact truncated product. */
  lemma NtpSamplesExact(ntp: int, reference: int)
    ensures NtpSamples(ntp, reference) == Quot(Signed(ntp - reference, WRAP64) * RATE, WRAP32)
  {
    QuotSplit(Signed(ntp - reference, WRAP64));
  }

  /** A wrapped difference recovers every true difference below half the range. */
  lemma SignedRecovers(x: int, y: int)
    requires -(WRAP32 / 2) <= x - y < WRAP32 / 2
    ensures Signed(x % WRAP32 - y % WRAP32, WRAP32) == x - y
  {
  }

  lemma QuotMonotone(a: int, b: int, d: int)
    requires d == RATE || d == 90000
    requires a <= b
    ensures Quot(a, d) <= Quot(b, d)
  {
  }

  // ---------------------------------------------------------------- publisher reference

  /** The shared placement of one publisher's clocks; times are nanoseconds. */
  datatype Publisher = Publisher(
    start: int, last: int, delay: int, closed: bool,
    anchored: bool, referenceNtp: int, referenceSample: int, referenceAt: int)

  function DurationSamples(d: int): int {
    Quot(d, SECOND) * RATE + Quot(Rem(d, SECOND) * RATE, SECOND)
  }

  function Read(p: Publisher, now: int): (Publisher, Option<int>) {
    if p.closed then (p, None)
    else if now < p.start || now < p.last then (p.(closed := true), None)
    else (p.(last := now), Some(now))
  }

  function Place(p: Publisher, ntp: int, now: int): (Publisher, Option<(int, int)>) {
    var (q, time) := Read(p, now);
    if time.None? || ntp == 0 then (q, None)
    else
      var r := if q.anchored then q
               else q.(anchored := true, referenceNtp := ntp, referenceAt := now,
                       referenceSample := DurationSamples(now - q.start) + q.delay);
      var delta := NtpSamples(ntp, r.referenceNtp);
      var error := delta - DurationSamples(now - r.referenceAt);
      if error < -96000 || error > 96000 || r.referenceSample + delta < 0 then (r, None)
      else (r, Some((r.referenceSample + delta, now)))
  }

  /** Placement is anchored once and then exact in NTP time, and never more than two
      seconds away from arrival. */
  lemma PlacementExact(p: Publisher, ntp: int, now: int)
    requires Place(p, ntp, now).1.Some?
    ensures var (q, placed) := Place(p, ntp, now);
            && q.anchored && !q.closed && q.last == now == placed.value.1
            && (p.anchored ==> q.referenceNtp == p.referenceNtp && q.referenceSample == p.referenceSample && q.referenceAt == p.referenceAt)
            && placed.value.0 == q.referenceSample + Quot(Signed(ntp - q.referenceNtp, WRAP64) * RATE, WRAP32)
            && -96000 <= placed.value.0 - q.referenceSample - DurationSamples(now - q.referenceAt) <= 96000
  {
    NtpSamplesExact(ntp, Place(p, ntp, now).0.referenceNtp);
    hide NtpSamples;
    hide DurationSamples;
    hide Quot;
    hide Signed;
  }

  /** And it is refused exactly when the program's clock is closed or goes back, there is no
      NTP time, or the sender's clock and the arrival are more than two seconds apart. */
  lemma PlacedExactly(p: Publisher, ntp: int, now: int)
    ensures Place(p, ntp, now).1.Some? <==>
              && !p.closed && now >= p.start && now >= p.last && ntp != 0
              && if !p.anchored then DurationSamples(now - p.start) + p.delay >= 0
                 else
                   var distance := Quot(Signed(ntp - p.referenceNtp, WRAP64) * RATE, WRAP32);
                   -96000 <= distance - DurationSamples(now - p.referenceAt) <= 96000 && p.referenceSample + distance >= 0
  {
    hide NtpSamples;
    hide DurationSamples;
    hide Quot;
    hide Signed;
    NtpSamplesExact(ntp, p.referenceNtp);
    AtOnce(ntp);
    assert now - now == 0;
  }

  /** No time passes between a moment and itself. */
  lemma AtOnce(ntp: int)
    ensures NtpSamples(ntp, ntp) == 0 && DurationSamples(0) == 0
  {
    assert Signed(ntp - ntp, WRAP64) == 0;
    hide Signed;
  }

  // ---------------------------------------------------------------- the media clock

  datatype Report = Report(ssrc: int, ntp: int, rtp: int)

  datatype Media = Media(
    ssrc: int, rate: int, bound: bool, boundAt: int,
    first: Report, last: Report, lastReportAt: int,
    anchor: int, elapsedRtp: int, reports: nat,
    uncertain: bool, uncertainAt: int, outliers: nat, recovery: nat, epoch: nat,
    closed: bool, failure: int)

  const NO_REPORT := Report(0, 0, 0)

  function FreshMedia(): Media {
    Media(0, 0, false, 0, NO_REPORT, NO_REPORT, 0, 0, 0, 0, false, 0, 0, 0, 0, false, 0)
  }

  function Close(m: Media): Media {
    if m.closed then m
    else m.(closed := true, first := NO_REPORT, last := NO_REPORT, anchor := 0, elapsedRtp := 0, reports := 0,
            uncertain := false, uncertainAt := 0, outliers := 0, recovery := 0)
  }

  function Fail(m: Media, reason: int): Media {
    Close(if m.closed then m else m.(failure := reason))
  }

  /** `now` is the publisher's reading; `None` when the publisher is closed. */
  function Bind(m: Media, ssrc: int, rate: int, now: Option<int>): Media {
    if m.closed || now.None? || (rate != 48000 && rate != 90000) || (m.bound && (m.ssrc != ssrc || m.rate != rate)) then
      Fail(m, 1)
    else if m.bound then m
    else m.(bound := true, ssrc := ssrc, rate := rate, boundAt := now.value)
  }

  /** Only a bound clock, at one of the two RTP rates, ever accepts a report. */
  predicate Wired(m: Media) {
    && (m.bound ==> m.rate == 48000 || m.rate == 90000)
    && (m.reports > 0 ==> m.bound)
  }

  predicate Expired(m: Media, now: int) {
    var deadline := if m.reports > 0 then m.lastReportAt else m.boundAt;
    (m.bound && now - deadline >= TIMEOUT) || (m.uncertain && now - m.uncertainAt >= TIMEOUT)
  }

  predicate Live(m: Media, now: Option<int>) {
    !m.closed && now.Some? && !Expired(m, now.value)
  }

  function Current(m: Media, now: Option<int>): Media {
    if m.closed || now.None? then Fail(m, 2)
    else if Expired(m, now.value) then Fail(m, 3)
    else m
  }

  /** How a report compares with the last accepted one. */
  datatype Measure = Stale | Consistent(rtpDelta: int) | Outlier | Discontinuity

  function MeasureReport(m: Media, r: Report): Measure
    requires m.rate > 0
  {
    var delta := Signed(r.ntp - m.last.ntp, WRAP64);
    if delta < 0 || (delta == 0 && r.rtp == m.last.rtp) then Stale
    else
      var ntpSamples := NtpSamples(r.ntp, m.last.ntp);
      var rtpDelta := Signed(r.rtp - m.last.rtp, WRAP32);
      var skew := Quot(rtpDelta * RATE, m.rate) - ntpSamples;
      var tolerance := (if m.rate == RATE then 960 else 96) + Quot(ntpSamples, 200);
      var invalidShape := delta == 0 || rtpDelta <= 0 || ntpSamples <= 0 || ntpSamples > 12 * RATE;
      if !invalidShape && -tolerance <= skew <= tolerance then Consistent(rtpDelta)
      else if !invalidShape && -4800 <= skew <= 4800 then Outlier
      else Discontinuity
  }

  function Quarantine(m: Media, now: int): Media {
    if m.outliers >= 2 || (!m.uncertain && m.epoch == MAX_EPOCH) then Fail(m, 5)
    else
      var q := if m.uncertain then m else m.(epoch := m.epoch + 1, uncertainAt := now);
      q.(uncertain := true, recovery := 0, outliers := m.outliers + 1)
  }

  function Accept(m: Media, r: Report, rtpDelta: int, sample: int, at: int): Media {
    var a := if m.reports == 0 then m.(first := r, anchor := sample) else m;
    var recovered := m.uncertain && m.recovery == 1;
    a.(last := r, lastReportAt := at, elapsedRtp := m.elapsedRtp + rtpDelta, outliers := 0,
       uncertain := m.uncertain && !recovered,
       recovery := if m.uncertain && !recovered then m.recovery + 1 else 0,
       uncertainAt := if recovered then 0 else m.uncertainAt,
       reports := if m.reports < MAX_REPORTS then m.reports + 1 else m.reports)
  }

  /** The publisher's placement of a report that passed the measurement. */
  function Settle(m: Media, r: Report, rtpDelta: int, placed: Option<(int, int)>): Media
    requires m.rate > 0
  {
    if placed.None? then Fail(m, 6)
    else
      var (sample, at) := placed.value;
      var predicted := m.anchor + Quot((m.elapsedRtp + rtpDelta) * RATE, m.rate);
      if m.reports > 0 && (predicted - sample > 4800 || sample - predicted > 4800) then Fail(m, 7)
      else Accept(m, r, rtpDelta, sample, at)
  }

  /** `now` and `placed` are the publisher's answers, whatever they are. */
  function OnReport(m: Media, r: Report, now: Option<int>, placed: Option<(int, int)>): Media
    requires Wired(m)
  {
    var c := Current(m, now);
    if c.closed || !c.bound || r.ssrc != c.ssrc || r.ntp == 0 then Fail(c, 4)
    else if c.reports == 0 then Settle(c, r, 0, placed)
    else
      match MeasureReport(c, r)
      case Stale => c
      case Outlier => Quarantine(c, now.value)
      case Discontinuity => Fail(c, 5)
      case Consistent(rtpDelta) => Settle(c, r, rtpDelta, placed)
  }

  function Map(m: Media, timestamp: int, now: Option<int>): (Media, Option<int>)
    requires Wired(m)
  {
    var c := Current(m, now);
    if c.closed || c.reports < 2 || c.uncertain then (c, None)
    else
      var distance := Signed(timestamp - c.last.rtp, WRAP32);
      if distance < -c.rate * 12 || distance > c.rate * 12 then (c, None)
      else
        var sample := c.anchor + Quot((c.elapsedRtp + distance) * RATE, c.rate);
        (c, if sample >= 0 then Some(sample) else None)
  }

  class MediaClock {
    var ssrc: int
    var rate: int
    var bound: bool
    var boundAt: int
    var first: Report
    var last: Report
    var lastReportAt: int
    var anchor: int
    var elapsedRtp: int
    var reports: nat
    var uncertain: bool
    var uncertainAt: int
    var outliers: nat
    var recovery: nat
    var epoch: nat
    var closed: bool
    var failure: int

    function View(): Media
      reads this
    {
      Media(ssrc, rate, bound, boundAt, first, last, lastReportAt, anchor, elapsedRtp, reports,
            uncertain, uncertainAt, outliers, recovery, epoch, closed, failure)
    }

    constructor ()
      ensures View() == FreshMedia()
    {
      ssrc, rate, bound, boundAt, first, last, lastReportAt := 0, 0, false, 0, NO_REPORT, NO_REPORT, 0;
      anchor, elapsedRtp, reports, uncertain, uncertainAt := 0, 0, 0, false, 0;
      outliers, recovery, epoch, closed, failure := 0, 0, 0, false, 0;
    }

    method FailClock(reason: int)
      modifies this
      ensures View() == Fail(old(View()), reason)
    {
      if !closed { failure := reason; }
      CloseClock();
    }

    method CloseClock()
      modifies this
      ensures View() == Close(old(View()))
    {
      if closed { return; }
      closed := true;
      WipeMeasurements();
    }

    method WipeMeasurements()
      modifies this`first, this`last, this`anchor, this`elapsedRtp, this`reports,
               this`uncertain, this`uncertainAt, this`outliers, this`recovery
      ensures first == last == NO_REPORT && anchor == elapsedRtp == uncertainAt == 0 && !uncertain
      ensures reports == outliers == recovery == 0
    {
      first, last, anchor, reports, elapsedRtp := NO_REPORT, NO_REPORT, 0, 0, 0;
      uncertain, outliers, recovery, uncertainAt := false, 0, 0, 0;
    }

    method BindSource(source: int, clockRate: int, now: Option<int>)
      modifies this
      ensures View() == Bind(old(View()), source, clockRate, now)
    {
      if closed || now.None? || (clockRate != 48000 && clockRate != 90000) || (bound && (ssrc != source || rate != clockRate)) {
        FailClock(1);
        return;
      }
      if !bound {
        bound, ssrc, rate, boundAt := true, source, clockRate, now.value;
      }
    }

    method CheckCurrent(now: Option<int>) returns (live: bool)
      modifies this
      ensures View() == Current(old(View()), now) && live == Live(old(View()), now)
    {
      if closed || now.None? {
        FailClock(2);
        return false;
      }
      var deadline := boundAt;
      if reports > 0 {
        deadline := lastReportAt;
      }
      if (bound && now.value - deadline >= TIMEOUT) || (uncertain && now.value - uncertainAt >= TIMEOUT) {
        FailClock(3);
        return false;
      }
      live := true;
    }

    method EnterQuarantine(observedAt: int)
      modifies this
      ensures View() == Quarantine(old(View()), observedAt)
    {
      if outliers < 2 {
        if !uncertain {
          if epoch == MAX_EPOCH {
            FailClock(5);
            return;
          }
          epoch, uncertainAt := epoch + 1, observedAt;
        }
        uncertain, recovery, outliers := true, 0, outliers + 1;
        return;
      }
      FailClock(5);
    }

    method AcceptReport(r: Report, rtpDelta: int, sample: int, at: int)
      requires Counted(View())
      modifies this
      ensures View() == Accept(old(View()), r, rtpDelta, sample, at)
    {
      if reports == 0 {
        first, anchor := r, sample;
      }
      CountRecovery();
      StoreReport(r, rtpDelta, at);
    }

    method StoreReport(r: Report, rtpDelta: int, at: int)
      modifies this`last, this`lastReportAt, this`elapsedRtp, this`outliers, this`reports
      ensures last == r && lastReportAt == at && elapsedRtp == old(elapsedRtp) + rtpDelta && outliers == 0
      ensures reports == if old(reports) < MAX_REPORTS then old(reports) + 1 else old(reports)
    {
      last, lastReportAt, elapsedRtp, outliers := r, at, elapsedRtp + rtpDelta, 0;
      if reports < MAX_REPORTS {
        reports := reports + 1;
      }
    }

    /** The second report in a row that is accepted lifts the quarantine. */
    method CountRecovery()
      modifies this`uncertain, this`recovery, this`uncertainAt
      ensures var lifted := old(uncertain) && old(recovery) == 1;
              && uncertain == (old(uncertain) && !lifted)
              && recovery == (if lifted then 0 else if old(uncertain) then old(recovery) + 1 else old(recovery))
              && uncertainAt == if lifted then 0 else old(uncertainAt)
    {
      if uncertain {
        recovery := recovery + 1;
        if recovery == 2 {
          uncertain, recovery, uncertainAt := false, 0, 0;
        }
      }
    }

    method SettleReport(r: Report, rtpDelta: int, placed: Option<(int, int)>)
      requires Counted(View()) && rate > 0
      modifies this
      ensures View() == Settle(old(View()), r, rtpDelta, placed)
    {
      hide Quot;
      if placed.None? {
        FailClock(6);
        return;
      }
      var sample, at := placed.value.0, placed.value.1;
      if reports > 0 {
        var predicted := anchor + Quot((elapsedRtp + rtpDelta) * RATE, rate);
        if predicted - sample > 4800 || sample - predicted > 4800 {
          FailClock(7);
          return;
        }
      }
      AcceptReport(r, rtpDelta, sample, at);
    }

    method SourceSenderReport(r: Report, now: Option<int>, placed: Option<(int, int)>)
      requires Wired(View()) && Counted(View())
      modifies this
      ensures View() == OnReport(old(View()), r, now, placed)
    {
      hide MeasureReport;
      hide Expired;
      hide Settle;
      hide Quarantine;
      var live := CheckCurrent(now);
      if !live || !bound || r.ssrc != ssrc || r.ntp == 0 {
        FailClock(4);
        return;
      }
      if reports == 0 {
        SettleReport(r, 0, placed);
        return;
      }
      match MeasureReport(View(), r)
      case Stale =>
      case Outlier => EnterQuarantine(now.value);
      case Discontinuity => FailClock(5);
      case Consistent(rtpDelta) => SettleReport(r, rtpDelta, placed);
    }

    method MapTimestamp(timestamp: int, now: Option<int>) returns (sample: Option<int>)
      requires Wired(View())
      modifies this
      ensures (View(), sample) == Map(old(View()), timestamp, now)
    {
      hide Expired;
      hide Quot;
      hide Signed;
      var live := CheckCurrent(now);
      if !live || reports < 2 || uncertain {
        return None;
      }
      var distance := Signed(timestamp - last.rtp, WRAP32);
      if distance < -rate * 12 || distance > rate * 12 {
        return None;
      }
      var at := anchor + Quot((elapsedRtp + distance) * RATE, rate);
      sample := if at >= 0 then Some(at) else None;
    }
  }

  /** `recovery` counts the reports accepted since the last outlier of a quarantine. */
  predicate Counted(m: Media) {
    if m.uncertain then m.recovery < 2 else m.recovery == 0
  }

  // ---------------------------------------------------------------- runs of one generation

  /** Reports carry the sender's true position; `rtp` is that position modulo 2^32. */
  datatype Event =
    | BindTo(ssrc: int, rate: int, now: Option<int>)
    | Arrive(ssrc: int, ntp: int, position: int, now: Option<int>, placed: Option<(int, int)>)
    | Query(now: Option<int>)
    | Shut

  function ReportOf(e: Event): Report
    requires e.Arrive?
  {
    Report(e.ssrc, e.ntp, e.position % WRAP32)
  }

  function Next(m: Media, e: Event): (r: Media)
    requires Wired(m)
    ensures Wired(r)
  {
    match e
    case BindTo(ssrc, rate, now) => Bind(m, ssrc, rate, now)
    case Arrive(_, _, _, now, placed) => OnReport(m, ReportOf(e), now, placed)
    case Query(now) => Current(m, now)
    case Shut => Close(m)
  }

  // the rules for a report, in its own numbers

  /** How far the report is from the last accepted one: by the sender's wall clock, in
      samples, and by its RTP clock, in ticks. */
  function NtpDistance(m: Media, r: Report): int {
    Quot(Signed(r.ntp - m.last.ntp, WRAP64) * RATE, WRAP32)
  }

  function RtpDistance(m: Media, r: Report): int {
    Signed(r.rtp - m.last.rtp, WRAP32)
  }

  /** By how many samples the two clocks disagree. */
  function Deviation(m: Media, r: Report): int
    requires m.rate > 0
  {
    Quot(RtpDistance(m, r) * 48000, m.rate) - NtpDistance(m, r)
  }

  /** Twenty milliseconds for audio, two for video, and half a percent. */
  function Allowance(rate: int, distance: int): int {
    (if rate == 48000 then 960 else 96) + distance / 200
  }

  predicate Repeated(m: Media, r: Report) {
    Signed(r.ntp - m.last.ntp, WRAP64) < 0 || (Signed(r.ntp - m.last.ntp, WRAP64) == 0 && r.rtp == m.last.rtp)
  }

  /** Both clocks moved on, by at most twelve seconds. */
  predicate WellSpaced(m: Media, r: Report) {
    0 < NtpDistance(m, r) <= 576000 && RtpDistance(m, r) > 0
  }

  predicate Fitting(m: Media, r: Report)
    requires m.rate > 0
  {
    var allowance := Allowance(m.rate, NtpDistance(m, r));
    WellSpaced(m, r) && -allowance <= Deviation(m, r) <= allowance
  }

  /** Too far off to be accepted, and within a tenth of a second. */
  predicate Outlying(m: Media, r: Report)
    requires m.rate > 0
  {
    WellSpaced(m, r) && !Fitting(m, r) && -4800 <= Deviation(m, r) <= 4800
  }

  /** The measurement is exactly these rules. */
  lemma MeasuredExactly(m: Media, r: Report)
    requires m.rate == 48000 || m.rate == 90000
    ensures MeasureReport(m, r).Consistent? <==> Fitting(m, r)
    ensures MeasureReport(m, r).Consistent? ==> MeasureReport(m, r).rtpDelta == RtpDistance(m, r)
    ensures MeasureReport(m, r).Outlier? <==> Outlying(m, r)
    ensures MeasureReport(m, r).Stale? <==> Repeated(m, r)
  {
    NtpSamplesExact(r.ntp, m.last.ntp);
    hide NtpSamples;
    hide Signed;
  }

  /** The report reaches a live clock that is bound to its source. */
  predicate Heard(m: Media, e: Event) {
    e.Arrive? && Live(m, e.now) && m.bound && e.ssrc == m.ssrc && e.ntp != 0
  }

  /** The program's placement of the report agrees with the map within a tenth of a second. */
  predicate Agrees(m: Media, e: Event)
    requires e.Arrive? && e.placed.Some? && m.rate > 0
  {
    -4800 <= m.anchor + Quot((m.elapsedRtp + RtpDistance(m, ReportOf(e))) * RATE, m.rate) - e.placed.value.0 <= 4800
  }

  /** The report becomes the last accepted one. */
  predicate Accepts(m: Media, e: Event)
    requires Wired(m)
  {
    && Heard(m, e) && e.placed.Some?
    && (m.reports == 0 || (Fitting(m, ReportOf(e)) && Agrees(m, e)))
  }

  /** The report puts the clock into quarantine, or keeps it there. */
  predicate Rejects(m: Media, e: Event)
    requires Wired(m)
  {
    && Heard(m, e) && m.reports > 0 && Outlying(m, ReportOf(e))
    && m.outliers < 2 && (m.uncertain || m.epoch != MAX_EPOCH)
  }

  /** True sender positions of the first and the last accepted report. */
  datatype Trail = Trail(first: int, last: int)

  function Follow(m: Media, t: Trail, e: Event): Trail
    requires Wired(m)
  {
    if !Accepts(m, e) then t else Trail(if m.reports == 0 then e.position else t.first, e.position)
  }

  datatype State = State(media: Media, trail: Trail)

  /** A sender whose clock does not jump by six hours between accepted reports. */
  predicate Steady(s: State, e: Event)
    requires Wired(s.media)
  {
    Accepts(s.media, e) && s.media.reports > 0 ==>
      -(WRAP32 / 2) <= e.position - s.trail.last < WRAP32 / 2
  }

  ghost predicate Run(events: seq<Event>, states: seq<State>) {
    && |states| == |events| + 1
    && states[0].media == FreshMedia()
    && forall k :: 0 <= k < |events| ==>
         && Wired(states[k].media) && Steady(states[k], events[k])
         && states[k + 1] == State(Next(states[k].media, events[k]), Follow(states[k].media, states[k].trail, events[k]))
  }

  /** What every run keeps: the clock's elapsed RTP time is the sender's true distance. */
  predicate Tracks(s: State) {
    var m := s.media;
    && Wired(m)
    && (m.closed ==> m.reports == 0)
    && (m.reports > 0 ==>
          && m.first.rtp == s.trail.first % WRAP32
          && m.last.rtp == s.trail.last % WRAP32
          && m.elapsedRtp == s.trail.last - s.trail.first)
    && (m.reports == 0 ==> m.elapsedRtp == 0)
    && Counted(m) && (m.uncertain ==> m.reports > 0)
  }

  /** What becomes of a report, by its own numbers: it is accepted, it quarantines the
      clock, it is ignored as a repetition, or it ends the generation; each exactly when the
      rules say so. */
  lemma ReportOutcome(m: Media, e: Event)
    requires Wired(m) && e.Arrive?
    ensures var n := Next(m, e);
            && (Accepts(m, e) ==>
                  n == Accept(m, ReportOf(e), if m.reports == 0 then 0 else RtpDistance(m, ReportOf(e)), e.placed.value.0, e.placed.value.1))
            && (Rejects(m, e) ==> n == Quarantine(m, e.now.value))
            && !(Accepts(m, e) && Rejects(m, e))
            && (!Accepts(m, e) && !Rejects(m, e) ==>
                  if Heard(m, e) && m.reports > 0 && Repeated(m, ReportOf(e)) then n == m else n.closed)
  {
    if m.bound { MeasuredExactly(m, ReportOf(e)); }
    hide MeasureReport;
    hide Expired;
    hide Quot;
    hide Signed;
  }

  lemma ConsistentDelta(m: Media, t: Trail, e: Event)
    requires Wired(m) && Accepts(m, e) && m.reports > 0 && m.last.rtp == t.last % WRAP32 && Steady(State(m, t), e)
    ensures RtpDistance(m, ReportOf(e)) == e.position - t.last
  {
    SignedRecovers(e.position, t.last);
    hide Quot;
  }

  lemma ClosedByReport(m: Media, e: Event)
    requires Wired(m) && e.Arrive? && (m.closed ==> m.reports == 0 && m.elapsedRtp == 0 && !m.uncertain && m.recovery == 0)
    ensures var n := Next(m, e); Wired(n) && (n.closed ==> n.reports == 0 && n.elapsedRtp == 0 && !n.uncertain && n.recovery == 0)
    ensures var n := Next(m, e); n.rate == m.rate && n.bound == m.bound
  {
    hide MeasureReport;
    hide Expired;
    hide Quot;
  }

  lemma NextTracks(s: State, e: Event)
    requires Tracks(s) && Steady(s, e)
    ensures Tracks(State(Next(s.media, e), Follow(s.media, s.trail, e)))
  {
    hide Expired;
    hide Quot;
    hide NtpSamples;
    hide Signed;
    hide MeasureReport;
    if e.Arrive? {
      ReportOutcome(s.media, e);
      ClosedByReport(s.media, e);
      if Accepts(s.media, e) && s.media.reports > 0 { ConsistentDelta(s.media, s.trail, e); }
      hide OnReport;
      hide Next;
    }
  }

  lemma {:induction false} RunTracks(events: seq<Event>, states: seq<State>, k: nat)
    requires Run(events, states) && k < |states|
    ensures Tracks(states[k])
  {
    if k > 0 {
      RunTracks(events, states, k - 1);
      NextTracks(states[k - 1], events[k - 1]);
    }
  }

  /** The affine map: for every true position X near the last accepted report, whatever
      was accepted, rejected or repeated before and across any number of 32-bit wraps. */
  lemma MapAffine(s: State, x: int, now: Option<int>)
    requires Tracks(s) && -(WRAP32 / 2) <= x - s.trail.last < WRAP32 / 2
    ensures var m := s.media;
            var ready := Live(m, now) && m.reports >= 2 && !m.uncertain && -m.rate * 12 <= x - s.trail.last <= m.rate * 12;
            Map(m, x % WRAP32, now).1 ==
              if !ready then None
              else var sample := m.anchor + Quot((x - s.trail.first) * RATE, m.rate);
                   if sample >= 0 then Some(sample) else None
  {
    SignedRecovers(x, s.trail.last);
    hide Quot;
    hide Signed;
    hide Expired;
  }

  lemma FixedOnce(s: State, e: Event)
    requires Tracks(s) && Steady(s, e) && s.media.reports > 0
    ensures var n := Next(s.media, e);
            n.closed || (&& n.first == s.media.first && n.anchor == s.media.anchor && n.rate == s.media.rate
                         && n.reports >= s.media.reports && Follow(s.media, s.trail, e).first == s.trail.first)
  {
    if e.Arrive? {
      ReportOutcome(s.media, e);
      hide MeasureReport;
      hide OnReport;
    }
  }

  lemma ClosedForever(m: Media, e: Event)
    requires Wired(m) && m.closed
    ensures Next(m, e) == m
  {
  }

  /** Anchor, rate and origin never move within a generation. */
  lemma {:induction false} MapFixed(events: seq<Event>, states: seq<State>, i: nat, j: nat)
    requires Run(events, states) && i <= j < |states| && states[i].media.reports > 0 && !states[j].media.closed
    ensures var a, b := states[i], states[j];
            b.media.anchor == a.media.anchor && b.media.rate == a.media.rate && b.trail.first == a.trail.first && b.media.reports > 0
    decreases j
  {
    hide Next;
    hide Follow;
    hide Tracks;
    hide Accepts;
    if i < j {
      var mid, e := states[j - 1], events[j - 1];
      assert states[j - 1 + 1] == State(Next(mid.media, e), Follow(mid.media, mid.trail, e));
      RunTracks(events, states, j - 1);
      if mid.media.closed { ClosedForever(mid.media, e); }
      MapFixed(events, states, i, j - 1);
      FixedOnce(mid, e);
    }
  }

  /** Any two timestamps mapped at any two moments of a run keep the sender's order, and
      equal positions map to equal samples. */
  lemma MapMonotoneAcrossRun(events: seq<Event>, states: seq<State>, i: nat, j: nat,
                             x: int, y: int, nowI: Option<int>, nowJ: Option<int>)
    requires Run(events, states) && i < |states| && j < |states|
    requires -(WRAP32 / 2) <= x - states[i].trail.last < WRAP32 / 2
    requires -(WRAP32 / 2) <= y - states[j].trail.last < WRAP32 / 2
    requires Wired(states[i].media) && Wired(states[j].media)
    requires Map(states[i].media, x % WRAP32, nowI).1.Some? && Map(states[j].media, y % WRAP32, nowJ).1.Some?
    requires x <= y
    ensures Map(states[i].media, x % WRAP32, nowI).1.value <= Map(states[j].media, y % WRAP32, nowJ).1.value
    ensures x == y ==> Map(states[i].media, x % WRAP32, nowI).1 == Map(states[j].media, y % WRAP32, nowJ).1
  {
    var a, b := states[i], states[j];
    hide Quot;
    hide Next;
    RunTracks(events, states, i);
    RunTracks(events, states, j);
    MapAffine(a, x, nowI);
    MapAffine(b, y, nowJ);
    if i <= j { MapFixed(events, states, i, j); } else { MapFixed(events, states, j, i); }
    QuotMonotone((x - a.trail.first) * RATE, (y - a.trail.first) * RATE, a.media.rate);
    hide Map;
  }

  // ---------------------------------------------------------------- the width of the arithmetic

  const MAX_INT64 := 0x7fff_ffff_ffff_ffff

  /** The furthest one accepted report can move the clock, in RTP ticks: twelve seconds, the
      tolerance, and the rounding of one sample, at 90 kHz. */
  const MAX_DELTA := 1_087_202

  lemma DeltaBounded(m: Media, r: Report)
    requires (m.rate == 48000 || m.rate == 90000) && MeasureReport(m, r).Consistent?
    ensures 0 < MeasureReport(m, r).rtpDelta <= MAX_DELTA
  {
    hide NtpSamples;
    hide Signed;
  }

  lemma ElapsedStep(s: State, e: Event)
    requires Tracks(s) && Steady(s, e) && s.media.elapsedRtp >= 0
    ensures var n := Next(s.media, e);
            0 <= n.elapsedRtp <= s.media.elapsedRtp + if Accepts(s.media, e) && s.media.reports > 0 then MAX_DELTA else 0
  {
    hide Expired;
    if e.Arrive? {
      ReportOutcome(s.media, e);
      if Accepts(s.media, e) && s.media.reports > 0 { DeltaBounded(s.media, ReportOf(e)); }
      hide MeasureReport;
      hide Quot;
    }
  }

  /** Reports accepted among the first k events. */
  ghost function AcceptedReports(events: seq<Event>, states: seq<State>, k: nat): nat
    requires Run(events, states) && k <= |events|
  {
    if k == 0 then 0 else AcceptedReports(events, states, k - 1) + if Accepts(states[k - 1].media, events[k - 1]) then 1 else 0
  }

  lemma {:induction false} ElapsedBounded(events: seq<Event>, states: seq<State>, k: nat)
    requires Run(events, states) && k <= |events|
    ensures 0 <= states[k].media.elapsedRtp <= AcceptedReports(events, states, k) * MAX_DELTA
  {
    hide Next;
    hide Accepts;
    if k > 0 {
      ElapsedBounded(events, states, k - 1);
      RunTracks(events, states, k - 1);
      ElapsedStep(states[k - 1], events[k - 1]);
      hide Tracks;
    }
  }

  /** For a generation of up to 176 million accepted reports, which at one report a second is
      more than five years, the product of the map stays inside 64 bits. */
  lemma MapFitsInt64(events: seq<Event>, states: seq<State>, k: nat, distance: int)
    requires Run(events, states) && k <= |events| && AcceptedReports(events, states, k) <= 176_000_000
    requires -12 * 90000 <= distance <= 12 * 90000
    ensures -MAX_INT64 <= (states[k].media.elapsedRtp + distance) * RATE <= MAX_INT64
  {
    ElapsedBounded(events, states, k);
  }
}
