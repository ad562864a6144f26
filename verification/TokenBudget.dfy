/** One transport budget: a request bucket and a byte bucket refilled from a clock. */
module TokenBudget {
  import opened Common

  const MAX_SAFE := 0x1f_ffff_ffff_ffff

  /** Rates are per second, times are milliseconds, balances are reals. */
  datatype Rates = Rates(requests: real, bytes: real, burst: real) {
    predicate Valid() {
      requests > 0.0 && bytes > 0.0 && burst > 0.0
    }
  }

  datatype Bucket = Bucket(rates: Rates, requests: real, bytes: real, last: Option<real>, closed: bool)

  function FreshBucket(rates: Rates): Bucket {
    Bucket(rates, rates.requests, rates.burst, None, false)
  }

  function Min(x: real, y: real): real {
    if x <= y then x else y
  }

  /** What a rate per second yields between two times. */
  function Gain(rate: real, from: real, to: real): real {
    (to - from) / 1000.0 * rate
  }

  /** A balance topped up to its cap. */
  function Topped(cap: real, balance: real, rate: real, last: Option<real>, now: real): real {
    Min(cap, balance + if last.None? then 0.0 else Gain(rate, last.value, now))
  }

  /** The balances that a refill at `now` would leave. */
  datatype Level = Level(requests: real, bytes: real)

  function LevelAt(b: Bucket, now: real): Level {
    Level(Topped(b.rates.requests, b.requests, b.rates.requests, b.last, now),
          Topped(b.rates.burst, b.bytes, b.rates.bytes, b.last, now))
  }

  /** `None` is a clock that threw or returned no finite number. */
  predicate Readable(b: Bucket, clock: Option<real>) {
    !b.closed && clock.Some? && clock.value >= 0.0 && (b.last.Some? ==> clock.value >= b.last.value)
  }

  function Refill(b: Bucket, clock: Option<real>): Bucket {
    if Readable(b, clock) then
      var level := LevelAt(b, clock.value);
      b.(requests := level.requests, bytes := level.bytes, last := clock)
    else b.(closed := true)
  }

  predicate SafeAmount(amount: int) {
    0 <= amount <= MAX_SAFE
  }

  class HlsBudget {
    const rates: Rates
    var requests: real
    var bytes: real
    var last: Option<real>
    var closed: bool

    ghost function View(): Bucket
      reads this
    {
      Bucket(rates, requests, bytes, last, closed)
    }

    constructor (rates: Rates)
      ensures View() == FreshBucket(rates)
    {
      this.rates := rates;
      requests, bytes, last, closed := rates.requests, rates.burst, None, false;
    }

    method RefillNow(clock: Option<real>) returns (ok: bool)
      modifies this
      ensures View() == Refill(old(View()), clock) && ok == Readable(old(View()), clock)
    {
      if closed {
        return false;
      }
      if clock.None? || clock.value < 0.0 || (last.Some? && clock.value < last.value) {
        closed := true;
        return false;
      }
      var elapsed := if last.None? then 0.0 else (clock.value - last.value) / 1000.0;
      last := clock;
      requests := Min(rates.requests, requests + elapsed * rates.requests);
      bytes := Min(rates.burst, bytes + elapsed * rates.bytes);
      ok := true;
    }

    method Request(clock: Option<real>) returns (ok: bool)
      modifies this
      ensures ok <==> Readable(old(View()), clock) && LevelAt(old(View()), clock.value).requests >= 1.0
      ensures var r := Refill(old(View()), clock); View() == if ok then r.(requests := r.requests - 1.0) else r
    {
      var read := RefillNow(clock);
      if !read || requests < 1.0 {
        return false;
      }
      requests := requests - 1.0;
      ok := true;
    }

    method Bytes(amount: int, clock: Option<real>) returns (ok: bool)
      modifies this
      ensures ok <==> SafeAmount(amount) && Readable(old(View()), clock) && amount as real <= LevelAt(old(View()), clock.value).bytes
      ensures !SafeAmount(amount) ==> View() == old(View())
      ensures SafeAmount(amount) ==>
                var r := Refill(old(View()), clock); View() == if ok then r.(bytes := r.bytes - amount as real) else r
    {
      if !SafeAmount(amount) {
        return false;
      }
      var read := RefillNow(clock);
      if !read || amount as real > bytes {
        return false;
      }
      bytes := bytes - amount as real;
      ok := true;
    }

    method Full(clock: Option<real>) returns (full: bool)
      modifies this
      ensures View() == Refill(old(View()), clock)
      ensures full <==> Readable(old(View()), clock) && requests == rates.requests && bytes == rates.burst
    {
      var read := RefillNow(clock);
      full := read && requests == rates.requests && bytes == rates.burst;
    }
  }

  // ---------------------------------------------------------------- laws of refilling

  predicate Sane(b: Bucket, now: real) {
    && b.rates.Valid() && !b.closed
    && 0.0 <= b.requests <= b.rates.requests && 0.0 <= b.bytes <= b.rates.burst
    && (b.last.Some? ==> 0.0 <= b.last.value <= now)
  }

  lemma GainAdds(rate: real, from: real, mid: real, to: real)
    requires rate > 0.0 && from <= mid <= to
    ensures Gain(rate, from, mid) >= 0.0 && Gain(rate, mid, to) >= 0.0
    ensures Gain(rate, from, mid) + Gain(rate, mid, to) == Gain(rate, from, to)
  {
    var x, y := (mid - from) / 1000.0, (to - mid) / 1000.0;
    assert (to - from) / 1000.0 == x + y;
    assert x * rate + y * rate == (x + y) * rate;
  }

  /** Topping up twice is topping up once. */
  lemma ToppedTwice(cap: real, balance: real, rate: real, last: real, early: real, late: real)
    requires rate > 0.0 && last <= early <= late
    ensures Topped(cap, Topped(cap, balance, rate, Some(last), early), rate, Some(early), late)
            == Topped(cap, balance, rate, Some(last), late)
  {
    GainAdds(rate, last, early, late);
    hide Gain;
  }

  lemma ToppedFull(cap: real, rate: real, early: real, late: real)
    requires rate > 0.0 && early <= late
    ensures Topped(cap, cap, rate, Some(early), late) == cap
  {
    GainAdds(rate, early, early, late);
    hide Gain;
  }

  lemma ToppedBounds(cap: real, balance: real, rate: real, last: Option<real>, now: real)
    requires rate > 0.0 && 0.0 <= balance <= cap && (last.Some? ==> last.value <= now)
    ensures balance <= Topped(cap, balance, rate, last, now) <= cap
    ensures last.Some? ==> Topped(cap, balance, rate, last, now) <= balance + Gain(rate, last.value, now)
  {
    if last.Some? { GainAdds(rate, last.value, last.value, now); }
    hide Gain;
  }

  function FullLevel(rates: Rates): Level {
    Level(rates.requests, rates.burst)
  }

  /** The level at a later time, from the level at an earlier one. */
  function Grown(level: Level, rates: Rates, early: real, late: real): Level {
    Level(Topped(rates.requests, level.requests, rates.requests, Some(early), late),
          Topped(rates.burst, level.bytes, rates.bytes, Some(early), late))
  }

  /** A bucket is used only after its first refill; until then it is full. */
  predicate Usable(b: Bucket, now: real) {
    Sane(b, now) && (b.last.None? ==> b == FreshBucket(b.rates))
  }

  lemma LevelGrows(b: Bucket, early: real, late: real)
    requires Usable(b, early) && early <= late
    ensures LevelAt(b, late) == Grown(LevelAt(b, early), b.rates, early, late)
  {
    var r := b.rates;
    hide Gain;
    if b.last.Some? {
      ToppedTwice(r.requests, b.requests, r.requests, b.last.value, early, late);
      ToppedTwice(r.burst, b.bytes, r.bytes, b.last.value, early, late);
    } else {
      ToppedFull(r.requests, r.requests, early, late);
      ToppedFull(r.burst, r.bytes, early, late);
    }
    hide Topped;
  }

  /** Refilling early is unobservable: only the level at the time of use matters. */
  lemma RefillUnobservable(b: Bucket, early: real, late: real)
    requires Usable(b, early) && 0.0 <= early <= late
    ensures Usable(Refill(b, Some(early)), early)
    ensures LevelAt(Refill(b, Some(early)), late) == LevelAt(b, late)
  {
    ToppedBounds(b.rates.requests, b.requests, b.rates.requests, b.last, early);
    ToppedBounds(b.rates.burst, b.bytes, b.rates.bytes, b.last, early);
    LevelGrows(b, early, late);
    hide Topped;
  }

  /** A full bucket stays full, so a fresh one cannot be told from an old full one. */
  lemma FullStaysFull(rates: Rates, early: real, late: real)
    requires rates.Valid() && early <= late
    ensures Grown(FullLevel(rates), rates, early, late) == FullLevel(rates)
  {
    ToppedFull(rates.requests, rates.requests, early, late);
    ToppedFull(rates.burst, rates.bytes, early, late);
    hide Topped;
  }
}
