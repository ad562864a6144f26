/** The quarantine automaton of the sender-report clock over whole runs. */
module Quarantine {
  import opened Common
  import opened SourceClock

  // ---------------------------------------------------------------- the automaton

  /** The step takes the clock from certain to uncertain. */
  predicate Enters(m: Media, e: Event)
    requires Wired(m)
  {
    !m.uncertain && Next(m, e).uncertain
  }

  /** Each entry into quarantine advances the epoch by exactly one; nothing else moves it. */
  lemma EpochStep(s: State, e: Event)
    requires Tracks(s) && Steady(s, e)
    ensures Next(s.media, e).epoch == s.media.epoch + if Enters(s.media, e) then 1 else 0
    ensures Enters(s.media, e) ==> Rejects(s.media, e)
  {
    if e.Arrive? {
      ReportOutcome(s.media, e);
      hide MeasureReport;
      if Next(s.media, e).closed { ClosedKeepsEpoch(s.media, e); }
    }
  }

  lemma ClosedKeepsEpoch(m: Media, e: Event)
    requires Wired(m) && Next(m, e).closed
    ensures Next(m, e).epoch == m.epoch && !Enters(m, e)
  {
    hide MeasureReport;
    hide Expired;
  }

  function Entries(events: seq<Event>, states: seq<State>, k: nat): nat
    requires k <= |events| && |states| == |events| + 1
    requires forall i :: 0 <= i < k ==> Wired(states[i].media)
  {
    if k == 0 then 0
    else Entries(events, states, k - 1) + if Enters(states[k - 1].media, events[k - 1]) then 1 else 0
  }

  /** The epoch is the number of quarantines so far. */
  lemma {:induction false} EpochCountsQuarantines(events: seq<Event>, states: seq<State>, k: nat)
    requires Run(events, states) && k < |states|
    ensures states[k].media.epoch == Entries(events, states, k)
  {
    hide Next;
    hide Tracks;
    hide Follow;
    if k > 0 {
      EpochCountsQuarantines(events, states, k - 1);
      RunTracks(events, states, k - 1);
      EpochStep(states[k - 1], events[k - 1]);
    }
  }

  lemma {:induction false} EpochMonotone(events: seq<Event>, states: seq<State>, i: nat, j: nat)
    requires Run(events, states) && i <= j < |states|
    ensures states[i].media.epoch <= states[j].media.epoch
    decreases j
  {
    hide Next;
    hide Tracks;
    hide Follow;
    if i < j {
      EpochMonotone(events, states, i, j - 1);
      RunTracks(events, states, j - 1);
      EpochStep(states[j - 1], events[j - 1]);
    }
  }

  /** A rejected measurement never extends freshness nor advances the RTP state. */
  lemma RejectionFreezes(m: Media, e: Event)
    requires Wired(m) && Rejects(m, e)
    ensures var n := Next(m, e);
            && n.uncertain && n.recovery == 0
            && n.last == m.last && n.lastReportAt == m.lastReportAt && n.elapsedRtp == m.elapsedRtp
            && n.anchor == m.anchor && n.first == m.first && n.reports == m.reports
            && (m.uncertain ==> n.uncertainAt == m.uncertainAt && n.epoch == m.epoch)
    ensures forall now :: m.uncertain && Expired(m, now) ==> Expired(Next(m, e), now)
  {
    ReportOutcome(m, e);
    hide MeasureReport;
    hide OnReport;
  }

  /** The clock maps timestamps. */
  predicate Ready(m: Media) {
    !m.closed && m.bound && m.reports >= 2 && !m.uncertain
  }

  /** Between a and b nothing was rejected. */
  ghost predicate Undisturbed(events: seq<Event>, states: seq<State>, a: nat, b: nat)
    requires Run(events, states) && b <= |events|
  {
    forall c :: a < c < b ==> !Rejects(states[c].media, events[c])
  }

  ghost predicate TwoAccepted(events: seq<Event>, states: seq<State>, i: nat, k: nat)
    requires Run(events, states) && k <= |events|
  {
    exists a, b :: i < a < b < k && Accepts(states[a].media, events[a]) && Accepts(states[b].media, events[b])
                   && Undisturbed(events, states, a, b)
  }

  ghost predicate OneAccepted(events: seq<Event>, states: seq<State>, i: nat, k: nat)
    requires Run(events, states) && k <= |events|
  {
    exists a :: i < a < k && Accepts(states[a].media, events[a]) && Undisturbed(events, states, a, k)
  }

  /** One step of the automaton while it is uncertain. */
  lemma UncertainStep(s: State, e: Event)
    requires Tracks(s) && Steady(s, e) && s.media.uncertain && !Next(s.media, e).closed
    ensures var n := Next(s.media, e);
            && (Accepts(s.media, e) && s.media.recovery == 1 ==> !n.uncertain)
            && (Accepts(s.media, e) && s.media.recovery == 0 ==> n.uncertain && n.recovery == 1)
            && (Rejects(s.media, e) ==> n.uncertain && n.recovery == 0)
            && (!Accepts(s.media, e) && !Rejects(s.media, e) ==> n.uncertain && n.recovery == s.media.recovery)
            && !(Accepts(s.media, e) && Rejects(s.media, e)) && s.media.recovery < 2
  {
    if e.Arrive? {
      ReportOutcome(s.media, e);
      hide MeasureReport;
      hide OnReport;
    }
  }

  /** What an uncertain clock remembers of the run since the outlier at i. */
  ghost predicate Recovering(events: seq<Event>, states: seq<State>, i: nat, k: nat)
    requires Run(events, states) && k <= |events|
  {
    var m := states[k].media;
    || m.closed
    || TwoAccepted(events, states, i, k)
    || (m.uncertain && (m.recovery == 1 ==> OneAccepted(events, states, i, k)))
  }

  lemma TwoAcceptedLater(events: seq<Event>, states: seq<State>, i: nat, k: nat)
    requires Run(events, states) && k < |events| && TwoAccepted(events, states, i, k)
    ensures TwoAccepted(events, states, i, k + 1)
  {
    hide Accepts;
    hide Rejects;
    var a, b :| i < a < b < k && Accepts(states[a].media, events[a]) && Accepts(states[b].media, events[b])
                && Undisturbed(events, states, a, b);
  }

  lemma OneAcceptedLater(events: seq<Event>, states: seq<State>, i: nat, k: nat)
    requires Run(events, states) && k < |events| && OneAccepted(events, states, i, k)
    requires !Rejects(states[k].media, events[k])
    ensures if Accepts(states[k].media, events[k]) then TwoAccepted(events, states, i, k + 1)
            else OneAccepted(events, states, i, k + 1)
  {
    hide Accepts;
    hide Rejects;
    var a :| i < a < k && Accepts(states[a].media, events[a]) && Undisturbed(events, states, a, k);
    assert Undisturbed(events, states, a, k + 1);
  }

  lemma RecoveringStep(events: seq<Event>, states: seq<State>, i: nat, k: nat)
    requires Run(events, states) && i < k < |events| && Recovering(events, states, i, k)
    ensures Recovering(events, states, i, k + 1)
  {
    var s, e := states[k], events[k];
    hide Next;
    hide Accepts;
    hide Rejects;
    hide TwoAccepted;
    hide Tracks;
    RunTracks(events, states, k);
    assert states[k + 1].media == Next(s.media, e);
    if s.media.closed {
      ClosedForever(s.media, e);
    } else if TwoAccepted(events, states, i, k) {
      TwoAcceptedLater(events, states, i, k);
    } else if !states[k + 1].media.closed {
      UncertainStep(s, e);
      if s.media.recovery == 1 && !Rejects(s.media, e) {
        OneAcceptedLater(events, states, i, k);
      } else if Accepts(s.media, e) {
        assert Undisturbed(events, states, k, k + 1);
      }
    }
  }

  lemma {:induction false} RecoveringRun(events: seq<Event>, states: seq<State>, i: nat, k: nat)
    requires Run(events, states) && i < k <= |events| && Rejects(states[i].media, events[i])
    ensures Recovering(events, states, i, k)
    decreases k
  {
    if k == i + 1 {
      RunTracks(events, states, i);
      RejectionFreezes(states[i].media, events[i]);
      hide Next;
    } else {
      RecoveringRun(events, states, i, k - 1);
      RecoveringStep(events, states, i, k - 1);
    }
  }

  /** After an outlier nothing maps until two reports were accepted with no outlier
      between them, in every run. */
  lemma ReadyNeedsTwoReports(events: seq<Event>, states: seq<State>, i: nat, k: nat)
    requires Run(events, states) && i < k <= |events| && Rejects(states[i].media, events[i])
    requires Ready(states[k].media)
    ensures TwoAccepted(events, states, i, k)
  {
    RecoveringRun(events, states, i, k);
  }

  /** The quarantine is over, or half over. */
  predicate HalfLifted(m: Media) {
    m.closed || !m.uncertain || m.recovery == 1
  }

  lemma CertainStep(s: State, e: Event)
    requires Tracks(s) && Steady(s, e) && !s.media.uncertain && !Rejects(s.media, e)
    ensures !Next(s.media, e).uncertain
  {
    EpochStep(s, e);
  }

  lemma HalfLiftedStep(s: State, e: Event)
    requires Tracks(s) && Steady(s, e) && !Rejects(s.media, e)
    ensures HalfLifted(s.media) || Accepts(s.media, e) ==> HalfLifted(Next(s.media, e))
    ensures HalfLifted(s.media) && Accepts(s.media, e) ==> Next(s.media, e).closed || !Next(s.media, e).uncertain
  {
    hide Accepts;
    hide Rejects;
    if s.media.closed {
      ClosedForever(s.media, e);
    } else if !s.media.uncertain {
      CertainStep(s, e);
    } else if !Next(s.media, e).closed {
      hide Next;
      UncertainStep(s, e);
    }
    hide Next;
  }

  lemma {:induction false} HalfLiftedRun(events: seq<Event>, states: seq<State>, a: nat, k: nat)
    requires Run(events, states) && a < k <= |events| && Accepts(states[a].media, events[a]) && Undisturbed(events, states, a, k)
    requires !Rejects(states[a].media, events[a])
    ensures HalfLifted(states[k].media)
    decreases k
  {
    hide Accepts;
    hide Rejects;
    hide Next;
    hide Follow;
    hide Tracks;
    hide Steady;
    hide HalfLifted;
    if k > a + 1 { HalfLiftedRun(events, states, a, k - 1); }
    RunTracks(events, states, k - 1);
    HalfLiftedStep(states[k - 1], events[k - 1]);
  }

  lemma AcceptedStaysOpen(m: Media, e: Event)
    requires Wired(m) && Accepts(m, e)
    ensures !Rejects(m, e) && !Next(m, e).closed
  {
    ReportOutcome(m, e);
    hide Next;
  }

  /** And two are enough: with the second of two accepted reports and no outlier between
      them, the quarantine is over, in every run. */
  lemma TwoReportsSuffice(events: seq<Event>, states: seq<State>, a: nat, b: nat)
    requires Run(events, states) && a < b < |events| && Undisturbed(events, states, a, b)
    requires Accepts(states[a].media, events[a]) && Accepts(states[b].media, events[b])
    ensures Wired(states[b + 1].media) && !states[b + 1].media.uncertain && !states[b + 1].media.closed
  {
    hide Accepts;
    hide Rejects;
    hide Next;
    hide Follow;
    hide Tracks;
    hide Steady;
    AcceptedStaysOpen(states[a].media, events[a]);
    AcceptedStaysOpen(states[b].media, events[b]);
    HalfLiftedRun(events, states, a, b);
    RunTracks(events, states, b);
    HalfLiftedStep(states[b], events[b]);
  }

  // ---------------------------------------------------------------- deadlines

  /** No report was accepted since event i. */
  ghost predicate NoneSince(events: seq<Event>, states: seq<State>, i: nat, k: nat)
    requires Run(events, states) && k <= |events|
  {
    forall j :: i < j < k ==> !Accepts(states[j].media, events[j])
  }

  /** At `at` came the last report that was accepted, or if there was none the clock was bound. */
  ghost predicate HeardAt(events: seq<Event>, states: seq<State>, k: nat, at: int)
    requires Run(events, states) && k <= |events|
  {
    exists i :: 0 <= i < k && NoneSince(events, states, i, k) && HeardBy(states[k].media.reports > 0, states[i].media, events[i], at)
  }

  predicate HeardBy(reported: bool, m: Media, e: Event, at: int)
    requires Wired(m)
  {
    if reported then Accepts(m, e) && e.placed.value.1 == at else e.BindTo? && e.now == Some(at) && !m.bound
  }

  /** The present quarantine began at `at`. */
  ghost predicate BeganAt(events: seq<Event>, states: seq<State>, k: nat, at: int)
    requires Run(events, states) && k <= |events|
  {
    exists i :: && 0 <= i < k && (forall j :: i < j < k ==> !Enters(states[j].media, events[j]))
                && Enters(states[i].media, events[i]) && events[i].now == Some(at)
  }

  lemma HeardStep(s: State, e: Event)
    requires Tracks(s) && Steady(s, e) && !Next(s.media, e).closed
    ensures var m, n := s.media, Next(s.media, e);
            && !m.closed && m.reports <= n.reports
            && (Accepts(m, e) ==> n.reports > 0 && n.lastReportAt == e.placed.value.1 && n.bound)
            && (!Accepts(m, e) ==> n.lastReportAt == m.lastReportAt && n.reports == m.reports)
            && (m.bound ==> n.boundAt == m.boundAt && n.bound)
            && (!m.bound && n.bound ==> e.BindTo? && e.now == Some(n.boundAt))
            && (Enters(m, e) ==> e.now == Some(n.uncertainAt))
            && (m.uncertain && n.uncertain ==> n.uncertainAt == m.uncertainAt)
  {
    if s.media.closed { ClosedForever(s.media, e); }
    if e.Arrive? {
      ReportOutcome(s.media, e);
      hide MeasureReport;
      hide OnReport;
    }
    hide Expired;
  }

  lemma HeardLater(events: seq<Event>, states: seq<State>, k: nat, at: int)
    requires Run(events, states) && k < |events| && HeardAt(events, states, k, at)
    requires !Accepts(states[k].media, events[k]) && states[k + 1].media.reports == states[k].media.reports
    ensures HeardAt(events, states, k + 1, at)
  {
    hide Accepts;
    hide Next;
    hide Steady;
    hide Follow;
    hide HeardBy;
    var i :| 0 <= i < k && NoneSince(events, states, i, k) && HeardBy(states[k].media.reports > 0, states[i].media, events[i], at);
    assert NoneSince(events, states, i, k + 1);
  }

  lemma HeardNow(events: seq<Event>, states: seq<State>, k: nat, at: int)
    requires Run(events, states) && k < |events| && HeardBy(states[k + 1].media.reports > 0, states[k].media, events[k], at)
    ensures HeardAt(events, states, k + 1, at)
  {
    hide Next;
    hide Steady;
    hide Follow;
    hide HeardBy;
    assert NoneSince(events, states, k, k + 1);
  }

  lemma BeganLater(events: seq<Event>, states: seq<State>, k: nat, at: int)
    requires Run(events, states) && k < |events| && BeganAt(events, states, k, at) && !Enters(states[k].media, events[k])
    ensures BeganAt(events, states, k + 1, at)
  {
    hide Enters;
    hide Next;
    hide Steady;
    hide Follow;
  }

  /** The deadlines a clock keeps are those of its events. */
  ghost predicate Deadlines(events: seq<Event>, states: seq<State>, k: nat)
    requires Run(events, states) && k <= |events|
  {
    var m := states[k].media;
    && (m.bound ==> HeardAt(events, states, k, if m.reports > 0 then m.lastReportAt else m.boundAt))
    && (m.uncertain ==> BeganAt(events, states, k, m.uncertainAt))
  }

  lemma DeadlineStep(events: seq<Event>, states: seq<State>, k: nat)
    requires Run(events, states) && k < |events| && !states[k + 1].media.closed && Tracks(states[k]) && Deadlines(events, states, k)
    ensures Deadlines(events, states, k + 1)
  {
    var s, e := states[k], events[k];
    HeardStep(s, e);
    hide Accepts;
    hide Next;
    hide Steady;
    hide Follow;
    hide Tracks;
    hide HeardAt;
    var m, n := s.media, states[k + 1].media;
    if n.bound {
      if m.bound && !Accepts(m, e) { HeardLater(events, states, k, if m.reports > 0 then m.lastReportAt else m.boundAt); }
      else { HeardNow(events, states, k, if n.reports > 0 then n.lastReportAt else n.boundAt); }
    }
    if n.uncertain {
      if m.uncertain { BeganLater(events, states, k, m.uncertainAt); } else { BeganNow(events, states, k, n.uncertainAt); }
    }
    hide BeganAt;
  }

  lemma BeganNow(events: seq<Event>, states: seq<State>, k: nat, at: int)
    requires Run(events, states) && k < |events| && Enters(states[k].media, events[k]) && events[k].now == Some(at)
    requires events[k].Arrive?
    ensures BeganAt(events, states, k + 1, at)
  {
    hide Enters;
    hide Next;
    hide Steady;
    hide Follow;
  }

  lemma {:induction false} DeadlinesKept(events: seq<Event>, states: seq<State>, k: nat)
    requires Run(events, states) && k < |states| && !states[k].media.closed
    ensures Deadlines(events, states, k)
  {
    hide Accepts;
    hide Next;
    hide Steady;
    hide Follow;
    hide Tracks;
    hide Deadlines;
    if k == 0 {
      NoDeadlines(events, states);
    } else {
      RunTracks(events, states, k - 1);
      if states[k - 1].media.closed { StaysClosed(events, states, k - 1); } else {
        DeadlinesKept(events, states, k - 1);
        DeadlineStep(events, states, k - 1);
      }
    }
  }

  lemma NoDeadlines(events: seq<Event>, states: seq<State>)
    requires Run(events, states)
    ensures Deadlines(events, states, 0)
  {
    hide Next;
  }

  lemma StaysClosed(events: seq<Event>, states: seq<State>, k: nat)
    requires Run(events, states) && k < |events| && states[k].media.closed
    ensures states[k + 1].media.closed
  {
    ClosedForever(states[k].media, events[k]);
  }

  /** A clock lapses exactly twelve seconds after the last accepted report, or after its
      binding if there was none, and exactly twelve seconds into a quarantine. */
  lemma LapsesExactly(events: seq<Event>, states: seq<State>, k: nat, now: int) returns (heard: int, began: int)
    requires Run(events, states) && k < |states| && !states[k].media.closed
    ensures var m := states[k].media;
            && (m.bound ==> HeardAt(events, states, k, heard)) && (m.uncertain ==> BeganAt(events, states, k, began))
            && (Expired(m, now) <==> (m.bound && now - heard >= 12_000_000_000) || (m.uncertain && now - began >= 12_000_000_000))
  {
    var m := states[k].media;
    heard, began := if m.reports > 0 then m.lastReportAt else m.boundAt, m.uncertainAt;
    DeadlinesKept(events, states, k);
    hide HeardAt;
    hide BeganAt;
  }

  // ---------------------------------------------------------------- a clock comes up

  /** A clock that was bound at `boundAt` and has accepted one report, placed at `sample`. */
  function Started(ssrc: int, rate: int, boundAt: int, r: Report, sample: int, at: int): Media {
    FreshMedia().(bound := true, ssrc := ssrc, rate := rate, boundAt := boundAt, first := r, last := r, lastReportAt := at,
                  anchor := sample, reports := 1)
  }

  /** At either rate, a binding and two placed reports that fit, each in time, bring a fresh
      clock up: it maps the second report's timestamp by the first one's placement. */
  lemma ClockComesUp(ssrc: int, rate: int, boundAt: int, a: Event, b: Event)
    requires rate == 48000 || rate == 90000
    requires a.Arrive? && a.ssrc == ssrc && a.ntp != 0 && a.now.Some? && a.placed.Some? && a.now.value - boundAt < 12_000_000_000
    requires b.Arrive? && b.ssrc == ssrc && b.ntp != 0 && b.now.Some? && b.placed.Some?
    requires b.now.value - a.placed.value.1 < 12_000_000_000 && b.now.value - b.placed.value.1 < 12_000_000_000
    requires var m := Started(ssrc, rate, boundAt, ReportOf(a), a.placed.value.0, a.placed.value.1);
             Fitting(m, ReportOf(b)) && Agrees(m, b)
    ensures var up := Next(Next(Next(FreshMedia(), BindTo(ssrc, rate, Some(boundAt))), a), b);
            var sample := a.placed.value.0 + Quot(Signed(b.position - a.position, WRAP32) * RATE, rate);
            && Ready(up) && up.rate == rate && up.epoch == 0
            && Map(up, ReportOf(b).rtp, b.now).1 == if sample >= 0 then Some(sample) else None
  {
    hide Quot;
    var m := Started(ssrc, rate, boundAt, ReportOf(a), a.placed.value.0, a.placed.value.1);
    var bound := Next(FreshMedia(), BindTo(ssrc, rate, Some(boundAt)));
    ReportOutcome(bound, a);
    ReportOutcome(m, b);
    assert Next(bound, a) == m;
    SignedOfRests(b.position, a.position);
    assert Signed(0, WRAP32) == 0;
    hide MeasureReport;
    hide OnReport;
    hide Signed;
  }

  lemma SignedOfRests(x: int, y: int)
    ensures Signed(x % WRAP32 - y % WRAP32, WRAP32) == Signed(x - y, WRAP32)
  {
    assert (x % WRAP32 - y % WRAP32) % WRAP32 == (x - y) % WRAP32;
  }
}
