/** Admission cadence of encoder replacements: at least a second apart and at most
    eight a minute, kept in a fixed array that is compacted in place. */
module RolloverBudget {

  const SECOND := 1_000_000_000
  const MINUTE := 60 * SECOND
  const LIMIT := 8

  /** Times are nanoseconds; 0 is the zero time, which no real start has. */
  datatype Budget = Budget(starts: seq<int>, last: nat)

  /** The starts after `bound`, in order. */
  function After(starts: seq<int>, bound: int): (r: seq<int>)
    ensures |r| <= |starts|
  {
    if starts == [] then []
    else
      var rest := After(starts[..|starts| - 1], bound);
      if starts[|starts| - 1] > bound then rest + [starts[|starts| - 1]] else rest
  }

  lemma AfterEmpty(starts: seq<int>, bound: int)
    requires starts == []
    ensures After(starts, bound) == []
  {
  }

  lemma AfterStep(starts: seq<int>, i: nat, bound: int)
    requires i < |starts|
    ensures After(starts[..i + 1], bound) ==
            After(starts[..i], bound) + (if starts[i] > bound then [starts[i]] else [])
  {
    assert starts[..i + 1][..i] == starts[..i];
  }

  lemma AfterAppend(starts: seq<int>, x: int, bound: int)
    ensures After(starts + [x], bound) == After(starts, bound) + (if x > bound then [x] else [])
  {
    assert (starts + [x])[..|starts|] == starts;
  }

  /** The earliest admissible start for a request at `now`. */
  function Earliest(b: Budget, now: nat): nat {
    if b.last != 0 && now < b.last + SECOND then b.last + SECOND else now
  }

  predicate Rejected(b: Budget, now: nat) {
    now == 0 || (b.last != 0 && now < b.last)
  }

  /** The new state, and the granted start if there is one. */
  function Reserve(b: Budget, now: nat): (Budget, seq<int>) {
    if Rejected(b, now) then (b, [])
    else
      var at := Earliest(b, now);
      var kept := After(b.starts, at - MINUTE);
      if |kept| == LIMIT then (b.(starts := kept), []) else (Budget(kept + [at], at), [at])
  }

  class RolloverBudget {
    const slots: array<int>
    var count: nat
    var last: nat

    ghost predicate Valid()
      reads this, slots
    {
      slots.Length == LIMIT && count <= LIMIT
    }

    ghost function View(): Budget
      requires Valid()
      reads this, slots
    {
      Budget(slots[..count], last)
    }

    constructor ()
      ensures Valid() && fresh(slots) && View() == Budget([], 0)
    {
      slots := new int[LIMIT];
      count, last := 0, 0;
    }

    /** Moves the starts after `bound` to the front, in order. */
    method Compact(bound: int) returns (kept: nat)
      requires Valid()
      modifies slots
      ensures kept <= count && slots[..kept] == After(old(slots[..count]), bound)
    {
      hide After;
      ghost var before := slots[..count];
      assert After(before[..0], bound) == [] by { AfterEmpty(before[..0], bound); }
      kept := 0;
      for i := 0 to count
        invariant kept <= i
        invariant slots[..kept] == After(before[..i], bound)
        invariant forall k :: i <= k < count ==> slots[k] == before[k]
      {
        AfterStep(before, i, bound);
        if slots[i] > bound {
          slots[kept] := slots[i];
          kept := kept + 1;
          assert slots[..kept] == slots[..kept - 1] + [before[i]];
        }
      }
      assert before[..count] == before;
    }

    method ReserveStart(now: nat) returns (delay: int, ok: bool)
      requires Valid()
      modifies this, slots
      ensures Valid()
      ensures View() == Reserve(old(View()), now).0
      ensures ok <==> Reserve(old(View()), now).1 != []
      ensures ok ==> Reserve(old(View()), now).1 == [now + delay] && 0 <= delay <= SECOND
      ensures !ok ==> delay == 0
    {
      hide After;
      if now == 0 || (last != 0 && now < last) {
        return 0, false;
      }
      var at := now;
      if last != 0 && at < last + SECOND {
        at := last + SECOND;
      }
      var kept := Compact(at - MINUTE);
      count := kept;
      if kept == LIMIT {
        return 0, false;
      }
      slots[kept], last, count := at, at, kept + 1;
      assert slots[..count] == slots[..kept] + [at];
      return at - now, true;
    }
  }

  // ---------------------------------------------------------------- every run of requests

  /** The state after a run of requests, and every start granted so far. */
  function Run(requests: seq<nat>): (r: (Budget, seq<int>)) {
    if requests == [] then (Budget([], 0), [])
    else
      var (b, granted) := Run(requests[..|requests| - 1]);
      var (b', more) := Reserve(b, requests[|requests| - 1]);
      (b', granted + more)
  }

  predicate Spaced(granted: seq<int>) {
    forall i, j :: 0 <= i < j < |granted| ==> granted[j] >= granted[i] + SECOND
  }

  ghost predicate Faithful(b: Budget, granted: seq<int>) {
    && Spaced(granted)
    && (forall i :: 0 <= i < |granted| ==> granted[i] > 0)
    && |b.starts| <= LIMIT
    && (granted == [] ==> b == Budget([], 0))
    && (granted != [] ==> b.last == granted[|granted| - 1] && b.starts == After(granted, b.last - MINUTE))
  }

  lemma {:induction false} AfterTwice(starts: seq<int>, low: int, high: int)
    requires low <= high
    ensures After(After(starts, low), high) == After(starts, high)
  {
    if starts != [] {
      var init, x := starts[..|starts| - 1], starts[|starts| - 1];
      AfterTwice(init, low, high);
      if x > low {
        var kept := After(init, low);
        assert (kept + [x])[..|kept|] == kept;
      }
    }
  }

  lemma {:induction false} AfterAll(starts: seq<int>, bound: int)
    ensures |After(starts, bound)| == |starts| <==> forall i :: 0 <= i < |starts| ==> starts[i] > bound
    ensures (forall i :: 0 <= i < |starts| ==> starts[i] > bound) ==> After(starts, bound) == starts
  {
    if starts != [] {
      AfterAll(starts[..|starts| - 1], bound);
      assert starts == starts[..|starts| - 1] + [starts[|starts| - 1]];
    }
  }

  /** A suffix that lies wholly after the bound is kept wholly. */
  lemma {:induction false} AfterSuffix(starts: seq<int>, bound: int, from: nat)
    requires from <= |starts| && forall i :: from <= i < |starts| ==> starts[i] > bound
    ensures |After(starts, bound)| >= |starts| - from
  {
    if from < |starts| {
      AfterSuffix(starts[..|starts| - 1], bound, from);
    }
  }

  lemma SpacedAppend(granted: seq<int>, at: int)
    requires Spaced(granted) && (granted != [] ==> at >= granted[|granted| - 1] + SECOND)
    ensures Spaced(granted + [at])
  {
    var all := granted + [at];
    forall i, j | 0 <= i < j < |all|
      ensures all[j] >= all[i] + SECOND
    {
      if j == |granted| && i < j - 1 {
        assert granted[j - 1] >= granted[i] + SECOND;
      }
    }
  }

  lemma GrantFaithful(b: Budget, granted: seq<int>, at: nat)
    requires Faithful(b, granted) && at > 0 && |After(b.starts, at - MINUTE)| < LIMIT
    requires granted != [] ==> at >= b.last + SECOND
    ensures Faithful(Budget(After(b.starts, at - MINUTE) + [at], at), granted + [at])
  {
    hide After;
    SpacedAppend(granted, at);
    hide Spaced;
    AfterAppend(granted, at, at - MINUTE);
    if granted == [] {
      AfterEmpty(granted, at - MINUTE);
    } else {
      AfterTwice(granted, b.last - MINUTE, at - MINUTE);
    }
    assert After(b.starts, at - MINUTE) + [at] == After(granted + [at], at - MINUTE);
  }

  lemma ReserveFaithful(b: Budget, granted: seq<int>, now: nat)
    requires Faithful(b, granted)
    ensures Faithful(Reserve(b, now).0, granted + Reserve(b, now).1)
  {
    hide After;
    var at := Earliest(b, now);
    assert granted + [] == granted;
    if !Rejected(b, now) {
      if |After(b.starts, at - MINUTE)| == LIMIT {
        AfterAll(b.starts, at - MINUTE);   // a refusal drops nothing
      } else {
        GrantFaithful(b, granted, at);
      }
    }
  }

  lemma {:induction false} RunFaithful(requests: seq<nat>)
    ensures Faithful(Run(requests).0, Run(requests).1)
  {
    if requests != [] {
      var init := requests[..|requests| - 1];
      RunFaithful(init);
      ReserveFaithful(Run(init).0, Run(init).1, requests[|requests| - 1]);
    }
  }

  /** Over any run of requests, granted starts are at least a second apart. */
  lemma StartsSpaced(requests: seq<nat>)
    ensures Spaced(Run(requests).1)
  {
    RunFaithful(requests);
  }

  /** No window of sixty seconds holds more than eight granted starts: the ninth is at
      least a minute after the first, at any place in any run. */
  lemma {:induction false} AtMostEightPerMinute(requests: seq<nat>, i: nat)
    requires i + LIMIT < |Run(requests).1|
    ensures Run(requests).1[i + LIMIT] - Run(requests).1[i] >= MINUTE
  {
    hide After;
    var (b, granted) := Run(requests);
    var init := requests[..|requests| - 1];
    RunFaithful(requests);
    if i + LIMIT < |Run(init).1| {
      AtMostEightPerMinute(init, i);
    } else {
      assert granted[i + LIMIT] == b.last;
      if granted[i] > b.last - MINUTE {
        AfterSuffix(granted, b.last - MINUTE, i);
      }
    }
  }

  /** The array forgets nothing that matters: a valid request is refused exactly when
      eight granted starts lie within the minute before its earliest start. */
  lemma RefusedExactly(requests: seq<nat>, now: nat)
    requires !Rejected(Run(requests).0, now)
    ensures var (b, granted) := Run(requests);
            Reserve(b, now).1 == [] <==> |After(granted, Earliest(b, now) - MINUTE)| >= LIMIT
  {
    hide After;
    RunFaithful(requests);
    var (b, granted) := Run(requests);
    var bound := Earliest(b, now) - MINUTE;
    if granted == [] {
      AfterEmpty(granted, bound);
    } else {
      AfterTwice(granted, b.last - MINUTE, bound);
    }
  }

  lemma AfterCount(granted: seq<int>, bound: int)
    requires Spaced(granted)
    ensures |After(granted, bound)| >= LIMIT <==> |granted| >= LIMIT && granted[|granted| - LIMIT] > bound
  {
    if |granted| >= LIMIT && granted[|granted| - LIMIT] > bound {
      AfterSuffix(granted, bound, |granted| - LIMIT);
    } else if |granted| >= LIMIT {
      AfterPrefix(granted, bound, |granted| - LIMIT + 1);
    }
  }

  /** A prefix that lies wholly before the bound is dropped wholly. */
  lemma {:induction false} AfterPrefix(starts: seq<int>, bound: int, to: nat)
    requires to <= |starts| && forall i :: 0 <= i < to ==> starts[i] <= bound
    ensures |After(starts, bound)| <= |starts| - to
  {
    if starts != [] { AfterPrefix(starts[..|starts| - 1], bound, if to == |starts| then to - 1 else to); }
  }

  /** A start at `at` comes no sooner than asked and a second after the one before it. */
  predicate Admissible(granted: seq<int>, now: nat, at: int) {
    at >= now && (granted != [] ==> at >= granted[|granted| - 1] + SECOND)
  }

  /** The rule in terms of the granted starts alone: a request whose time has not gone back is
      granted the earliest start that keeps the distance, unless eight starts lie in the
      minute before that one. */
  lemma GrantedExactly(requests: seq<nat>, now: nat, at: int)
    requires Admissible(Run(requests).1, now, at)
    requires forall x :: Admissible(Run(requests).1, now, x) ==> at <= x
    ensures var (b, granted) := Run(requests);
            Reserve(b, now).1 ==
              if now > 0 && (granted != [] ==> now >= granted[|granted| - 1])
                 && (|granted| >= LIMIT ==> at - granted[|granted| - LIMIT] >= MINUTE) then [at] else []
  {
    hide After;
    RunFaithful(requests);
    var (b, granted) := Run(requests);
    assert Admissible(granted, now, Earliest(b, now));
    assert at == Earliest(b, now);
    if !Rejected(b, now) {
      RefusedExactly(requests, now);
      AfterCount(granted, at - MINUTE);
    }
    hide Run;
  }
}
