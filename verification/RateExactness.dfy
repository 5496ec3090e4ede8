/** How far back a clock reading may be for the rate bounds to hold, exactly. The source reads the clock
    before it takes the lock, so readings may reach the table out of order
    (`accept_address` of services/gateway/src/protection.rs). */
module RateExactness {
  import opened RateWindow

  // ---------------------------------------------------------------------------------------------
  // How far back a reading may be: runs that break the bounds.

  function Repeat<T>(x: T, k: nat): (r: seq<T>)
    ensures |r| == k && forall y :: y in r ==> y == x
  {
    if k == 0 then [] else [x] + Repeat(x, k - 1)
  }

  lemma {:induction false} RunAppend(h: History, rate: nat, a: seq<Call>, b: seq<Call>)
    ensures Run(h, rate, a + b) == Run(Run(h, rate, a), rate, b)
    decreases |a|
  {
    if a == [] {
      assert a + b == b;
    } else {
      assert (a + b)[0] == a[0] && (a + b)[1..] == a[1..] + b;
      RunAppend(Record(h, rate, a[0]), rate, a[1..], b);
    }
  }

  lemma {:induction false} SteadyAppend(a: seq<Call>, b: seq<Call>, top: nat, back: nat)
    requires Steady(a, top, back) && Steady(b, TopOf(a, top), back)
    ensures Steady(a + b, top, back) && TopOf(a + b, top) == TopOf(b, TopOf(a, top))
    decreases |a|
  {
    if a == [] {
      assert a + b == b;
    } else {
      assert (a + b)[0] == a[0] && (a + b)[1..] == a[1..] + b;
      SteadyAppend(a[1..], b, Max(top, a[0].now), back);
    }
  }

  lemma {:induction false} SteadyRepeat(call: Call, k: nat, top: nat, back: nat)
    requires top <= call.now + back
    ensures Steady(Repeat(call, k), top, back)
    ensures TopOf(Repeat(call, k), top) == if k == 0 then top else Max(top, call.now)
  {
    if k > 0 {
      assert Repeat(call, k)[1..] == Repeat(call, k - 1);
      SteadyRepeat(call, k - 1, Max(top, call.now), back);
    }
  }

  lemma {:induction false} SteadyWider(calls: seq<Call>, top: nat, back: nat, wider: nat)
    requires Steady(calls, top, back) && back <= wider
    ensures Steady(calls, top, wider)
    decreases |calls|
  {
    if calls != [] { SteadyWider(calls[1..], Max(top, calls[0].now), back, wider); }
  }

  lemma {:induction false} CountRepeat(grants: seq<Grant>, g: Grant, k: nat, p: Grant -> bool)
    ensures Count(grants + Repeat(g, k), p) == Count(grants, p) + if p(g) then k else 0
    decreases k
  {
    if k == 0 {
      assert grants + [] == grants;
    } else {
      assert grants + Repeat(g, k) == grants + [g] + Repeat(g, k - 1);
      CountRepeat(grants + [g], g, k - 1, p);
      CountAppend(grants, g, p);
    }
  }

  /** A call that opens a new window. */
  lemma Opens(h: History, rate: nat, call: Call, p: Table)
    requires rate >= 1 && p == Pruned(h.table, call.now) && |p| < ADDRESS_CAPACITY
    requires call.address in p ==> Age(call.now, p[call.address].started) >= SECOND
    ensures Record(h, rate, call)
         == History(p[call.address := Window(call.now, 1)], h.grants + [Grant(call.address, call.now, call.now)])
  {
  }

  /** No window is old enough to be pruned. */
  predicate Young(t: Table, now: nat) {
    forall a :: a in t ==> Age(now, t[a].started) < 2 * SECOND
  }

  lemma YoungStays(t: Table, now: nat)
    requires Young(t, now)
    ensures Pruned(t, now) == t
  {
  }

  /** The state after `k` more grants in the open window of the call's address. */
  function Filled(h: History, call: Call, k: nat): History
    requires call.address in h.table
  {
    var w := h.table[call.address];
    History(h.table[call.address := w.(requests := w.requests + k)],
            h.grants + Repeat(Grant(call.address, call.now, w.started), k))
  }

  lemma FilledTwice(h: History, call: Call, k: nat)
    requires call.address in h.table && k >= 1
    ensures Filled(Filled(h, call, 1), call, k - 1) == Filled(h, call, k)
  {
    var w, a := h.table[call.address], call.address;
    var g := Grant(a, call.now, w.started);
    assert Repeat(g, k) == [g] + Repeat(g, k - 1);
    assert h.grants + Repeat(g, 1) + Repeat(g, k - 1) == h.grants + Repeat(g, k);
    var one := w.(requests := w.requests + 1);
    assert h.table[a := one][a := w.(requests := w.requests + k)] == h.table[a := w.(requests := w.requests + k)];
  }

  lemma FillsOne(h: History, rate: nat, call: Call)
    requires Young(h.table, call.now) && call.address in h.table
    requires Age(call.now, h.table[call.address].started) < SECOND && h.table[call.address].requests < rate
    ensures Record(h, rate, call) == Filled(h, call, 1) && Young(Filled(h, call, 1).table, call.now)
  {
    YoungStays(h.table, call.now);
    var g := Grant(call.address, call.now, h.table[call.address].started);
    assert Repeat(g, 1) == [g];
  }

  /** Calls that an open window still has room for. */
  lemma {:induction false} Fills(h: History, rate: nat, call: Call, k: nat)
    requires Young(h.table, call.now) && call.address in h.table
    requires Age(call.now, h.table[call.address].started) < SECOND && h.table[call.address].requests + k <= rate
    ensures Run(h, rate, Repeat(call, k)) == Filled(h, call, k)
    decreases k
  {
    if k == 0 {
      assert h.table[call.address := h.table[call.address]] == h.table && h.grants + [] == h.grants;
    } else {
      FillsOne(h, rate, call);
      var calls := Repeat(call, k);
      assert calls[0] == call && calls[1..] == Repeat(call, k - 1);
      Fills(Filled(h, call, 1), rate, call, k - 1);
      FilledTwice(h, call, k);
    }
  }

  /** The state after a call opened a window in table `p`, which then got `k` grants in all. */
  function Opened(h: History, call: Call, k: nat, p: Table): History {
    History(p[call.address := Window(call.now, k)], h.grants + Repeat(Grant(call.address, call.now, call.now), k))
  }

  lemma OpenedFilled(h: History, call: Call, k: nat, p: Table)
    requires k >= 1
    ensures Filled(Opened(h, call, 1, p), call, k - 1) == Opened(h, call, k, p)
  {
    var a, g := call.address, Grant(call.address, call.now, call.now);
    assert Repeat(g, k) == [g] + Repeat(g, k - 1);
    assert h.grants + Repeat(g, 1) + Repeat(g, k - 1) == h.grants + Repeat(g, k);
    assert p[a := Window(call.now, 1)][a := Window(call.now, k)] == p[a := Window(call.now, k)];
  }

  /** A burst of calls that opens a window and fills it with `k` grants. */
  lemma OpensAndFills(h: History, rate: nat, call: Call, k: nat, p: Table)
    requires 1 <= k <= rate && p == Pruned(h.table, call.now) && |p| < ADDRESS_CAPACITY
    requires call.address in p ==> Age(call.now, p[call.address].started) >= SECOND
    ensures Run(h, rate, Repeat(call, k)) == Opened(h, call, k, p)
  {
    var first, calls := Opened(h, call, 1, p), Repeat(call, k);
    assert Record(h, rate, call) == first by {
      Opens(h, rate, call, p);
      assert Repeat(Grant(call.address, call.now, call.now), 1) == [Grant(call.address, call.now, call.now)];
    }
    assert Young(first.table, call.now);
    assert calls[0] == call && calls[1..] == Repeat(call, k - 1);
    Fills(first, rate, call, k - 1);
    OpenedFilled(h, call, k, p);
  }

  function WindowBreaker(rate: nat, a: Address, b: Address, s: nat, t: nat): seq<Call> {
    Repeat(Call(a, s), rate) + [Call(b, t)] + Repeat(Call(a, s), rate)
  }

  /** For any rate and any two readings at least two seconds apart, the later of which reaches the lock
      first, one window start is granted twice the rate: the window was pruned in between. */
  lemma ClockOrderIsNeeded(rate: nat, a: Address, b: Address, s: nat, t: nat)
    requires rate >= 1 && a != b && s + 2 * SECOND <= t
    ensures Count(Run(NOTHING, rate, WindowBreaker(rate, a, b, s, t)).grants, InWindow(a, s)) == 2 * rate
    ensures Steady(WindowBreaker(rate, a, b, s, t), 0, t - s)
  {
    var burst, mid := Repeat(Call(a, s), rate), [Call(b, t)];
    var g, k := Grant(a, s, s), Grant(b, t, t);
    var g1 := [] + Repeat(g, rate);
    var h2 := History(map[b := Window(t, 1)], g1 + [k]);
    BreakerFirst(rate, a, b, s, t, g1);
    BreakerSecond(rate, a, b, s, t, h2);
    RunAppend(NOTHING, rate, burst, mid);
    RunAppend(NOTHING, rate, burst + mid, burst);
    var p := InWindow(a, s);
    CountRepeat([], g, rate, p);
    CountAppend(g1, k, p);
    CountRepeat(g1 + [k], g, rate, p);
    BreakerIsSteady(rate, a, b, s, t);
  }

  lemma BreakerFirst(rate: nat, a: Address, b: Address, s: nat, t: nat, g1: seq<Grant>)
    requires rate >= 1 && a != b && s + 2 * SECOND <= t && g1 == [] + Repeat(Grant(a, s, s), rate)
    ensures Run(Run(NOTHING, rate, Repeat(Call(a, s), rate)), rate, [Call(b, t)])
         == History(map[b := Window(t, 1)], g1 + [Grant(b, t, t)])
  {
    var h := History(map[a := Window(s, rate)], g1);
    assert Run(NOTHING, rate, Repeat(Call(a, s), rate)) == h by { OpensAndFills(NOTHING, rate, Call(a, s), rate, map[]); }
    assert Pruned(h.table, t) == map[];
    Opens(h, rate, Call(b, t), map[]);
    var one := [Call(b, t)];
    assert Run(h, rate, one) == Run(Record(h, rate, one[0]), rate, []);
  }

  lemma BreakerSecond(rate: nat, a: Address, b: Address, s: nat, t: nat, h: History)
    requires rate >= 1 && a != b && s <= t && h.table == map[b := Window(t, 1)]
    ensures Run(h, rate, Repeat(Call(a, s), rate)).grants == h.grants + Repeat(Grant(a, s, s), rate)
  {
    YoungStays(h.table, s);
    OpensAndFills(h, rate, Call(a, s), rate, h.table);
  }

  lemma BreakerIsSteady(rate: nat, a: Address, b: Address, s: nat, t: nat)
    requires rate >= 1 && s <= t
    ensures Steady(WindowBreaker(rate, a, b, s, t), 0, t - s)
  {
    var burst, mid, back := Repeat(Call(a, s), rate), [Call(b, t)], t - s;
    SteadyRepeat(Call(a, s), rate, 0, back);
    assert mid == Repeat(Call(b, t), 1);
    SteadyRepeat(Call(b, t), 1, s, back);
    SteadyAppend(burst, mid, 0, back);
    SteadyRepeat(Call(a, s), rate, t, back);
    SteadyAppend(burst + mid, burst, 0, back);
  }

  /** The bound per window holds in every run whose readings are at most `back` behind. */
  ghost predicate WindowHolds(rate: nat, back: nat) {
    forall calls, a, s :: Steady(calls, 0, back) ==> Count(Run(NOTHING, rate, calls).grants, InWindow(a, s)) <= rate
  }

  lemma {:induction false} NoRateNoGrants(h: History, calls: seq<Call>)
    ensures Run(h, 0, calls).grants == h.grants
    decreases |calls|
  {
    if calls != [] { NoRateNoGrants(Record(h, 0, calls[0]), calls[1..]); }
  }

  /** It does so exactly when no reading may be two seconds or more behind, whatever the rate. */
  lemma WindowHoldsExactly(rate: nat, back: nat)
    ensures WindowHolds(rate, back) <==> rate == 0 || back < 2 * SECOND
  {
    if rate == 0 || back < 2 * SECOND {
      forall calls, a, s | Steady(calls, 0, back)
        ensures Count(Run(NOTHING, rate, calls).grants, InWindow(a, s)) <= rate
      {
        if rate == 0 { NoRateNoGrants(NOTHING, calls); } else { WindowBound(rate, calls, back, a, s); }
      }
    } else {
      WindowFails(rate, back, "a", "b", 0, 2 * SECOND);
    }
  }

  lemma WindowFails(rate: nat, back: nat, a: Address, b: Address, s: nat, t: nat)
    requires rate >= 1 && a != b && s + 2 * SECOND <= t <= s + back
    ensures !WindowHolds(rate, back)
  {
    var calls := WindowBreaker(rate, a, b, s, t);
    assert Count(Run(NOTHING, rate, calls).grants, InWindow(a, s)) > rate by { ClockOrderIsNeeded(rate, a, b, s, t); }
    assert Steady(calls, 0, back) by {
      BreakerIsSteady(rate, a, b, s, t);
      SteadyWider(calls, 0, t - s, back);
    }
    WindowBroken(rate, back, calls, a, s);
  }

  lemma WindowBroken(rate: nat, back: nat, calls: seq<Call>, a: Address, s: nat)
    requires Steady(calls, 0, back) && Count(Run(NOTHING, rate, calls).grants, InWindow(a, s)) > rate
    ensures !WindowHolds(rate, back)
  {
  }

  // ---------------------------------------------------------------------------------------------
  // Twice the rate in a second, exactly.

  /** In every run whose readings are at most `back` behind, a closed second has at most twice the rate. */
  ghost predicate TwiceHolds(rate: nat, back: nat) {
    forall calls, a, from :: Steady(calls, 0, back) ==>
      Count(Run(NOTHING, rate, calls).grants, InInterval(a, from)) <= 2 * rate
  }

  /** A window that opens at the start, is filled late, is followed by a full one, and then by a third
      one that counts readings `d` before its start. */
  function SecondBreaker(rate: nat, a: Address, d: nat): seq<Call>
    requires rate >= 1 && d <= SECOND
  {
    Repeat(Call(a, 0), 1) + Repeat(Call(a, SECOND - d), rate - 1) + Repeat(Call(a, SECOND), rate)
    + Repeat(Call(a, 2 * SECOND), 1) + Repeat(Call(a, 2 * SECOND - d), rate - 1)
  }

  function BreakerGrants(rate: nat, a: Address, d: nat): seq<Grant>
    requires rate >= 1 && d <= SECOND
  {
    [] + Repeat(Grant(a, 0, 0), 1) + Repeat(Grant(a, SECOND - d, 0), rate - 1) + Repeat(Grant(a, SECOND, SECOND), rate)
    + Repeat(Grant(a, 2 * SECOND, 2 * SECOND), 1) + Repeat(Grant(a, 2 * SECOND - d, 2 * SECOND), rate - 1)
  }

  /** A state in which only address `a` has a window. */
  function Single(a: Address, started: nat, requests: nat, grants: seq<Grant>): History {
    History(map[a := Window(started, requests)], grants)
  }

  lemma SingleFills(a: Address, rate: nat, started: nat, requests: nat, now: nat, k: nat, grants: seq<Grant>)
    requires requests + k <= rate && now < started + SECOND
    ensures Run(Single(a, started, requests, grants), rate, Repeat(Call(a, now), k))
         == Single(a, started, requests + k, grants + Repeat(Grant(a, now, started), k))
  {
    var h := Single(a, started, requests, grants);
    Fills(h, rate, Call(a, now), k);
    assert h.table[a := Window(started, requests + k)] == map[a := Window(started, requests + k)];
  }

  lemma SingleOpens(a: Address, rate: nat, started: nat, requests: nat, now: nat, k: nat, grants: seq<Grant>)
    requires 1 <= k <= rate && started + SECOND <= now < started + 2 * SECOND
    ensures Run(Single(a, started, requests, grants), rate, Repeat(Call(a, now), k))
         == Single(a, now, k, grants + Repeat(Grant(a, now, now), k))
  {
    var h := Single(a, started, requests, grants);
    var t := h.table;
    assert Pruned(t, now) == t by { YoungStays(t, now); }
    assert |t| == 1;
    assert Run(h, rate, Repeat(Call(a, now), k)) == Opened(h, Call(a, now), k, t) by {
      OpensAndFills(h, rate, Call(a, now), k, t);
    }
    assert t[a := Window(now, k)] == map[a := Window(now, k)];
  }

  /** The first three bursts. */
  lemma BreakerStarts(rate: nat, a: Address, d: nat) returns (calls: seq<Call>, grants: seq<Grant>)
    requires rate >= 1 && 1 <= d <= SECOND
    ensures calls == Repeat(Call(a, 0), 1) + Repeat(Call(a, SECOND - d), rate - 1) + Repeat(Call(a, SECOND), rate)
    ensures grants == [] + Repeat(Grant(a, 0, 0), 1) + Repeat(Grant(a, SECOND - d, 0), rate - 1)
                      + Repeat(Grant(a, SECOND, SECOND), rate)
    ensures Run(NOTHING, rate, calls) == Single(a, SECOND, rate, grants)
  {
    var c1, c2, c3 := Repeat(Call(a, 0), 1), Repeat(Call(a, SECOND - d), rate - 1), Repeat(Call(a, SECOND), rate);
    var g1: seq<Grant> := [] + Repeat(Grant(a, 0, 0), 1);
    var g2 := g1 + Repeat(Grant(a, SECOND - d, 0), rate - 1);
    assert Run(NOTHING, rate, c1) == Single(a, 0, 1, g1) by { OpensAndFills(NOTHING, rate, Call(a, 0), 1, map[]); }
    SingleFills(a, rate, 0, 1, SECOND - d, rate - 1, g1);
    SingleOpens(a, rate, 0, rate, SECOND, rate, g2);
    RunAppend(NOTHING, rate, c1, c2);
    RunAppend(NOTHING, rate, c1 + c2, c3);
    calls, grants := c1 + c2 + c3, g2 + Repeat(Grant(a, SECOND, SECOND), rate);
  }

  lemma BreakerRuns(rate: nat, a: Address, d: nat)
    requires rate >= 1 && 1 <= d <= SECOND
    ensures Run(NOTHING, rate, SecondBreaker(rate, a, d)).grants == BreakerGrants(rate, a, d)
  {
    var c4, c5 := Repeat(Call(a, 2 * SECOND), 1), Repeat(Call(a, 2 * SECOND - d), rate - 1);
    var calls, g3 := BreakerStarts(rate, a, d);
    var g4 := g3 + Repeat(Grant(a, 2 * SECOND, 2 * SECOND), 1);
    SingleOpens(a, rate, SECOND, rate, 2 * SECOND, 1, g3);
    SingleFills(a, rate, 2 * SECOND, 1, 2 * SECOND - d, rate - 1, g4);
    RunAppend(NOTHING, rate, calls, c4);
    RunAppend(NOTHING, rate, calls + c4, c5);
  }

  lemma SecondBreakerIsSteady(rate: nat, a: Address, d: nat)
    requires rate >= 1 && 1 <= d <= SECOND
    ensures Steady(SecondBreaker(rate, a, d), 0, d)
  {
    var c1, c2, c3 := Repeat(Call(a, 0), 1), Repeat(Call(a, SECOND - d), rate - 1), Repeat(Call(a, SECOND), rate);
    var c4, c5 := Repeat(Call(a, 2 * SECOND), 1), Repeat(Call(a, 2 * SECOND - d), rate - 1);
    SteadyRepeat(Call(a, 0), 1, 0, d);
    SteadyRepeat(Call(a, SECOND - d), rate - 1, 0, d);
    SteadyAppend(c1, c2, 0, d);
    SteadyRepeat(Call(a, SECOND), rate, TopOf(c1 + c2, 0), d);
    SteadyAppend(c1 + c2, c3, 0, d);
    SteadyRepeat(Call(a, 2 * SECOND), 1, SECOND, d);
    SteadyAppend(c1 + c2 + c3, c4, 0, d);
    SteadyRepeat(Call(a, 2 * SECOND - d), rate - 1, 2 * SECOND, d);
    SteadyAppend(c1 + c2 + c3 + c4, c5, 0, d);
  }

  /** A step back by any `d` up to a second puts grants of three windows into one closed second. */
  lemma ThreeWindowsInASecond(rate: nat, a: Address, d: nat)
    requires rate >= 1 && 1 <= d <= SECOND
    ensures Steady(SecondBreaker(rate, a, d), 0, d)
    ensures Count(Run(NOTHING, rate, SecondBreaker(rate, a, d)).grants, InInterval(a, SECOND - d))
         == 3 * rate - (if d == SECOND then 1 else 2)
  {
    SecondBreakerIsSteady(rate, a, d);
    BreakerRuns(rate, a, d);
    BreakerCount(rate, a, d);
  }

  lemma BreakerCount(rate: nat, a: Address, d: nat)
    requires rate >= 1 && 1 <= d <= SECOND
    ensures Count(BreakerGrants(rate, a, d), InInterval(a, SECOND - d)) == 3 * rate - (if d == SECOND then 1 else 2)
  {
    var p := InInterval(a, SECOND - d);
    var g1: seq<Grant> := [] + Repeat(Grant(a, 0, 0), 1);
    var g2 := g1 + Repeat(Grant(a, SECOND - d, 0), rate - 1);
    var g3 := g2 + Repeat(Grant(a, SECOND, SECOND), rate);
    var g4 := g3 + Repeat(Grant(a, 2 * SECOND, 2 * SECOND), 1);
    CountRepeat([], Grant(a, 0, 0), 1, p);
    CountRepeat(g1, Grant(a, SECOND - d, 0), rate - 1, p);
    CountRepeat(g2, Grant(a, SECOND, SECOND), rate, p);
    CountRepeat(g3, Grant(a, 2 * SECOND, 2 * SECOND), 1, p);
    CountRepeat(g4, Grant(a, 2 * SECOND - d, 2 * SECOND), rate - 1, p);
  }

  const HALF: nat := 500_000_000

  /** At rate one: an address whose window is pruned twice by another one's later readings. */
  function PruningBreaker(a: Address, b: Address): seq<Call> {
    [Call(a, 0)] + [Call(b, 2 * SECOND)] + [Call(a, HALF)] + [Call(b, HALF + 2 * SECOND)] + [Call(a, SECOND)]
  }

  lemma RunOne(h: History, rate: nat, calls: seq<Call>, call: Call)
    ensures Run(h, rate, calls + [call]) == Record(Run(h, rate, calls), rate, call)
  {
    RunAppend(h, rate, calls, [call]);
    var last := Run(h, rate, calls);
    assert Run(last, rate, [call]) == Run(Record(last, rate, call), rate, []);
  }

  /** The grants and the table as the run goes on; `b` keeps its one window throughout. */
  function AfterFirst(a: Address): History {
    History(map[a := Window(0, 1)], [Grant(a, 0, 0)])
  }

  function AfterPruning(b: Address, grants: seq<Grant>): History {
    History(map[b := Window(2 * SECOND, 1)], grants)
  }

  lemma FirstAndPruned(a: Address, b: Address)
    requires a != b
    ensures Record(NOTHING, 1, Call(a, 0)) == AfterFirst(a)
    ensures Record(AfterFirst(a), 1, Call(b, 2 * SECOND))
         == AfterPruning(b, [Grant(a, 0, 0)] + [Grant(b, 2 * SECOND, 2 * SECOND)])
  {
    Opens(NOTHING, 1, Call(a, 0), map[]);
    assert NOTHING.grants + [Grant(a, 0, 0)] == [Grant(a, 0, 0)];
    assert Pruned(AfterFirst(a).table, 2 * SECOND) == map[];
    Opens(AfterFirst(a), 1, Call(b, 2 * SECOND), map[]);
  }

  /** An older reading of `a` opens a window beside that of `b`. */
  lemma OpensBeside(a: Address, b: Address, now: nat, grants: seq<Grant>)
    requires a != b && now < 2 * SECOND
    ensures Record(AfterPruning(b, grants), 1, Call(a, now))
         == History(map[b := Window(2 * SECOND, 1), a := Window(now, 1)], grants + [Grant(a, now, now)])
  {
    var t := AfterPruning(b, grants).table;
    YoungStays(t, now);
    Opens(AfterPruning(b, grants), 1, Call(a, now), t);
  }

  /** And a call of `b` two seconds later is refused and prunes it. */
  lemma RefusedPrunes(a: Address, b: Address, now: nat, grants: seq<Grant>)
    requires a != b && now < SECOND
    ensures Record(History(map[b := Window(2 * SECOND, 1), a := Window(now, 1)], grants), 1, Call(b, now + 2 * SECOND))
         == AfterPruning(b, grants)
  {
    var t: Table := map[b := Window(2 * SECOND, 1), a := Window(now, 1)];
    var p := AfterPruning(b, grants).table;
    assert Pruned(t, now + 2 * SECOND) == p;
    assert p[b := p[b]] == p;
  }

  lemma RunOfFive(h: History, rate: nat, c1: Call, c2: Call, c3: Call, c4: Call, c5: Call)
    ensures Run(h, rate, [c1] + [c2] + [c3] + [c4] + [c5])
         == Record(Record(Record(Record(Record(h, rate, c1), rate, c2), rate, c3), rate, c4), rate, c5)
  {
    assert [] + [c1] == [c1];
    RunOne(h, rate, [], c1);
    RunOne(h, rate, [c1], c2);
    RunOne(h, rate, [c1] + [c2], c3);
    RunOne(h, rate, [c1] + [c2] + [c3], c4);
    RunOne(h, rate, [c1] + [c2] + [c3] + [c4], c5);
  }

  lemma PrunedTwice(a: Address, b: Address)
    requires a != b
    ensures Count(Run(NOTHING, 1, PruningBreaker(a, b)).grants, InInterval(a, 0)) == 3
  {
    var late := Call(b, 2 * SECOND);
    var later := Call(b, HALF + 2 * SECOND);
    RunOfFive(NOTHING, 1, Call(a, 0), late, Call(a, HALF), later, Call(a, SECOND));
    var g2 := [Grant(a, 0, 0)] + [Grant(b, 2 * SECOND, 2 * SECOND)];
    var g3 := g2 + [Grant(a, HALF, HALF)];
    var h2 := AfterPruning(b, g2);
    assert Record(Record(NOTHING, 1, Call(a, 0)), 1, late) == h2 by { FirstAndPruned(a, b); }
    assert Record(Record(h2, 1, Call(a, HALF)), 1, later) == AfterPruning(b, g3) by {
      OpensBeside(a, b, HALF, g2);
      RefusedPrunes(a, b, HALF, g3);
    }
    assert Record(AfterPruning(b, g3), 1, Call(a, SECOND)).grants == g3 + [Grant(a, SECOND, SECOND)] by {
      OpensBeside(a, b, SECOND, g3);
    }
    ThreeCount(a, b);
  }

  lemma ThreeCount(a: Address, b: Address)
    requires a != b
    ensures Count([Grant(a, 0, 0)] + [Grant(b, 2 * SECOND, 2 * SECOND)] + [Grant(a, HALF, HALF)] + [Grant(a, SECOND, SECOND)],
                  InInterval(a, 0)) == 3
  {
    var p, k := InInterval(a, 0), Grant(b, 2 * SECOND, 2 * SECOND);
    var g1 := [Grant(a, 0, 0)];
    assert [] + g1 == g1;
    CountAppend([], Grant(a, 0, 0), p);
    CountAppend(g1, k, p);
    CountAppend(g1 + [k], Grant(a, HALF, HALF), p);
    CountAppend(g1 + [k] + [Grant(a, HALF, HALF)], Grant(a, SECOND, SECOND), p);
  }

  lemma PruningBreakerIsSteady(a: Address, b: Address)
    ensures Steady(PruningBreaker(a, b), 0, SECOND + HALF)
  {
    var back := SECOND + HALF;
    var calls := PruningBreaker(a, b);
    assert calls[1..][1..][1..][1..][1..] == [];
    assert Steady(calls[1..][1..][1..][1..], 2 * SECOND + HALF, back);
    assert Steady(calls[1..][1..][1..], 2 * SECOND, back);
    assert Steady(calls[1..][1..], 2 * SECOND, back);
    assert Steady(calls[1..], 0, back);
  }

  /** A grant of a window at another reading than its start. */
  function Late(address: Address, started: nat): Grant -> bool {
    (g: Grant) => g.address == address && g.started == started && g.now != started
  }

  /** Every window was opened by a grant at its start, so a window has fewer late grants than grants. */
  ghost predicate OpenersOk(h: History, rate: nat) {
    && (forall a :: a in h.table && rate >= 1 ==> h.table[a].requests >= 1)
    && (forall a, s :: LateOk(h.grants, a, s))
  }

  ghost predicate LateOk(grants: seq<Grant>, a: Address, s: nat) {
    Count(grants, Late(a, s)) == 0 || Count(grants, Late(a, s)) < Count(grants, InWindow(a, s))
  }

  lemma LateStep(grants: seq<Grant>, g: Grant, a: Address, s: nat)
    requires LateOk(grants, a, s) && (Count(grants, InWindow(g.address, g.started)) == 0 ==> g.now == g.started)
    ensures LateOk(grants + [g], a, s)
  {
    CountAppend(grants, g, Late(a, s));
    CountAppend(grants, g, InWindow(a, s));
  }

  lemma RecordKeepsOpeners(h: History, rate: nat, top: nat, back: nat, call: Call)
    requires back < 2 * SECOND && Inv(h, rate, top, back) && top <= call.now + back && OpenersOk(h, rate)
    ensures OpenersOk(Record(h, rate, call), rate)
  {
    var p := h.(table := Pruned(h.table, call.now));
    if !FullFor(p.table, call.address) {
      PrunedKeepsInv(h, rate, top, back, call.now);
      CurrentWindowOk(p, rate, Max(top, call.now), back, call);
      var g, z := GrantOf(p.table, call), Record(h, rate, call);
      if Decide(p.table, rate, call).0 {
        forall a, s
          ensures LateOk(z.grants, a, s)
        {
          LateStep(h.grants, g, a, s);
        }
      }
    }
  }

  lemma {:induction false} RunKeepsOpeners(h: History, rate: nat, top: nat, back: nat, calls: seq<Call>)
    requires back < 2 * SECOND && Inv(h, rate, top, back) && Steady(calls, top, back) && OpenersOk(h, rate)
    ensures OpenersOk(Run(h, rate, calls), rate)
    decreases |calls|
  {
    if calls != [] {
      RecordKeepsInv(h, rate, top, back, calls[0]);
      RecordKeepsOpeners(h, rate, top, back, calls[0]);
      RunKeepsOpeners(Record(h, rate, calls[0]), rate, Max(top, calls[0].now), back, calls[1..]);
    }
  }

  lemma {:induction false} CountSome(grants: seq<Grant>, p: Grant -> bool, g: Grant)
    requires g in grants && p(g)
    ensures Count(grants, p) >= 1
  {
    var n := |grants| - 1;
    if grants[n] != g {
      assert g in grants[..n];
      CountSome(grants[..n], p, g);
    }
  }

  /** At rate one every grant opens its window, and windows are more than half a second apart. */
  lemma RateOneHolds(grants: seq<Grant>, back: nat, a: Address, from: nat)
    requires back < SECOND + HALF && GrantsOk(grants, 1, back) && forall s :: LateOk(grants, a, s)
    ensures Count(grants, InInterval(a, from)) <= 2
  {
    forall g | Hits(grants, a, from, g)
      ensures g.now == g.started
    {
      assert LateOk(grants, a, g.started) && Count(grants, InWindow(a, g.started)) <= 1;
      if g.now != g.started { CountSome(grants, Late(a, g.started), g); }
    }
    var s, t := 0, 0;
    if g :| Hits(grants, a, from, g) {
      s, t := g.started, g.started;
      if h :| Hits(grants, a, from, h) && h.started != s {
        t := h.started;
        forall k | Hits(grants, a, from, k)
          ensures k.started == s || k.started == t
        {
          assert Apart(g.started, h.started, Gap(back)) && Apart(g.started, k.started, Gap(back)) && Apart(h.started, k.started, Gap(back));
        }
      }
    }
    assert forall k :: k in grants && InInterval(a, from)(k) ==> Hits(grants, a, from, k);
    CountSplits(grants, a, from, s, t, t);
  }

  /** What a window that starts at `v` adds to a closed second: only late grants, if it starts outside. */
  function Share(grants: seq<Grant>, a: Address, from: nat, v: nat): nat {
    if Inside(v, from) then Count(grants, InWindow(a, v)) else Count(grants, Late(a, v))
  }

  lemma {:induction false} CountShares(grants: seq<Grant>, a: Address, from: nat, s: nat, t: nat, u: nat)
    requires forall g :: g in grants && InInterval(a, from)(g) ==> g.started == s || g.started == t || g.started == u
    ensures Count(grants, InInterval(a, from))
         <= Share(grants, a, from, s) + Share(grants, a, from, t) + if u == t then 0 else Share(grants, a, from, u)
  {
    if grants != [] { CountShares(grants[..|grants| - 1], a, from, s, t, u); }
  }

  /** A window with a grant in the closed second can start only here. */
  predicate Near(v: nat, from: nat, back: nat) {
    from < v + SECOND && v <= from + SECOND + back
  }

  predicate Inside(v: nat, from: nat) {
    from <= v <= from + SECOND
  }

  lemma OneInside(s: nat, t: nat, u: nat, from: nat, back: nat)
    requires back < SECOND && Near(s, from, back) && Near(t, from, back) && Near(u, from, back)
    requires s != t && t != u && s != u && Apart(s, t, SECOND) && Apart(s, u, SECOND) && Apart(t, u, SECOND)
    ensures !(Inside(s, from) && Inside(t, from)) && !(Inside(s, from) && Inside(u, from)) && !(Inside(t, from) && Inside(u, from))
  {
  }

  /** At rate two, with readings less than a second behind, at most one of three windows starts inside. */
  lemma RateTwoHolds(grants: seq<Grant>, back: nat, a: Address, from: nat)
    requires back < SECOND && GrantsOk(grants, 2, back) && forall s :: LateOk(grants, a, s)
    ensures Count(grants, InInterval(a, from)) <= 4
  {
    forall g | g in grants
      ensures GrantOk(g, SECOND)
    {
      assert GrantOk(g, back);
    }
    var s, t, u := ThreeWindows(grants, a, from);
    CountShares(grants, a, from, s, t, u);
    ShareBound(grants, back, a, from, s);
    ShareBound(grants, back, a, from, t);
    ShareBound(grants, back, a, from, u);
    if s != t && t != u {
      var g, h, k :| Hits(grants, a, from, g) && Hits(grants, a, from, h) && Hits(grants, a, from, k)
        && g.started == s && h.started == t && k.started == u && s != u;
      HitsNear(grants, back, a, from, g, h);
      HitsNear(grants, back, a, from, g, k);
      HitsNear(grants, back, a, from, h, k);
      OneInside(s, t, u, from, back);
    }
  }

  lemma ShareBound(grants: seq<Grant>, back: nat, a: Address, from: nat, v: nat)
    requires back < SECOND && GrantsOk(grants, 2, back) && forall s :: LateOk(grants, a, s)
    ensures Share(grants, a, from, v) <= if Inside(v, from) then 2 else 1
  {
    assert LateOk(grants, a, v) && Count(grants, InWindow(a, v)) <= 2;
  }

  lemma HitsNear(grants: seq<Grant>, back: nat, a: Address, from: nat, g: Grant, h: Grant)
    requires back < SECOND && GrantsOk(grants, 2, back) && Hits(grants, a, from, g) && Hits(grants, a, from, h)
    ensures Near(g.started, from, back) && Near(h.started, from, back) && Apart(g.started, h.started, SECOND)
  {
    assert GrantOk(g, back) && GrantOk(h, back);
  }

  predicate TwiceAllowed(rate: nat, back: nat) {
    rate == 0 || back == 0 || (rate == 1 && back < SECOND + HALF) || (rate == 2 && back < SECOND)
  }

  /** The bound of twice the rate in a closed second holds in every run with readings at most `back`
      behind exactly when: the rate is 0; or readings do not go back at all; or the rate is 1 and they go
      back by less than one and a half seconds; or the rate is 2 and they go back by less than one. */
  lemma TwiceHoldsExactly(rate: nat, back: nat)
    ensures TwiceHolds(rate, back) <==> TwiceAllowed(rate, back)
  {
    if TwiceAllowed(rate, back) {
      forall calls, a, from | Steady(calls, 0, back)
        ensures Count(Run(NOTHING, rate, calls).grants, InInterval(a, from)) <= 2 * rate
      {
        TwiceIfAllowed(rate, back, calls, a, from);
      }
    } else {
      TwiceFails(rate, back);
    }
  }

  lemma TwiceIfAllowed(rate: nat, back: nat, calls: seq<Call>, a: Address, from: nat)
    requires TwiceAllowed(rate, back) && Steady(calls, 0, back)
    ensures Count(Run(NOTHING, rate, calls).grants, InInterval(a, from)) <= 2 * rate
  {
    if rate == 0 {
      NoRateNoGrants(NOTHING, calls);
    } else if back == 0 {
      SteadyWider(calls, 0, 0, SECOND);
      RateBound(rate, calls, a, 0, from);
    } else {
      InitOk(rate, back);
      RunKeepsInv(NOTHING, rate, 0, back, calls);
      RunKeepsOpeners(NOTHING, rate, 0, back, calls);
      var grants := Run(NOTHING, rate, calls).grants;
      if rate == 1 { RateOneHolds(grants, back, a, from); } else { RateTwoHolds(grants, back, a, from); }
    }
  }

  lemma TwiceFails(rate: nat, back: nat)
    requires !TwiceAllowed(rate, back)
    ensures !TwiceHolds(rate, back)
  {
    if rate == 1 {
      PrunedTwice("a", "b");
      PruningBreakerIsSteady("a", "b");
      SteadyWider(PruningBreaker("a", "b"), 0, SECOND + HALF, back);
    } else {
      var d := if rate == 2 then SECOND else 1;
      ThreeWindowsInASecond(rate, "a", d);
      SteadyWider(SecondBreaker(rate, "a", d), 0, d, back);
    }
  }
}
