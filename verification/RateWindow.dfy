/** The fixed-window request rate limit per address (`accept_address` of
    services/gateway/src/protection.rs). Times are nanoseconds of one monotonic clock. */
module RateWindow {
  import opened Common

  const ADDRESS_CAPACITY: nat := 4096
  const SECOND: nat := 1_000_000_000

  type Address = string

  datatype Window = Window(started: nat, requests: nat)

  type Table = map<Address, Window>

  datatype Call = Call(address: Address, now: nat)

  /** How long a window has been open; an earlier clock reading counts as no time. */
  function Age(now: nat, started: nat): nat {
    if now < started then 0 else now - started
  }

  function Pruned(t: Table, now: nat): (p: Table)
    ensures forall a :: a in p <==> a in t && Age(now, t[a].started) < 2 * SECOND
    ensures forall a :: a in p ==> p[a] == t[a]
  {
    t - (set a | a in t && Age(now, t[a].started) >= 2 * SECOND)
  }

  predicate FullFor(t: Table, address: Address) {
    address !in t && |t| >= ADDRESS_CAPACITY
  }

  /** The window that counts a call: the open one of the address, else a new one. */
  function CurrentWindow(t: Table, call: Call): Window {
    if call.address in t && Age(call.now, t[call.address].started) < SECOND then t[call.address]
    else Window(call.now, 0)
  }

  /** The decision in a table that has room, and the table after it. */
  function Decide(t: Table, rate: nat, call: Call): (bool, Table) {
    var w := CurrentWindow(t, call);
    if w.requests >= rate then (false, t[call.address := w])
    else (true, t[call.address := w.(requests := w.requests + 1)])
  }

  function Accept(t: Table, rate: nat, call: Call): (bool, Table) {
    var p := Pruned(t, call.now);
    if FullFor(p, call.address) then (false, p) else Decide(p, rate, call)
  }

  /** The limiter, updated in place. */
  class Limiter {
    const rate: nat
    var addresses: Table

    constructor (rate: nat)
      ensures this.rate == rate && addresses == map[]
    {
      this.rate := rate;
      addresses := map[];
    }

    method AcceptAddress(address: Address, now: nat) returns (accepted: bool)
      modifies this`addresses
      ensures (accepted, addresses) == Accept(old(addresses), rate, Call(address, now))
    {
      addresses := addresses - (set a | a in addresses && Age(now, addresses[a].started) >= 2 * SECOND);
      if address !in addresses && |addresses| >= ADDRESS_CAPACITY { return false; }
      ghost var pruned := addresses;
      if address !in addresses {
        addresses := addresses[address := Window(now, 0)];
      }
      if Age(now, addresses[address].started) >= SECOND {
        addresses := addresses[address := Window(now, 0)];
      }
      var window := addresses[address];
      assert addresses == pruned[address := CurrentWindow(pruned, Call(address, now))];
      if window.requests >= rate { return false; }
      addresses := addresses[address := window.(requests := window.requests + 1)];
      assert addresses == pruned[address := window.(requests := window.requests + 1)];
      return true;
    }
  }

  // ---------------------------------------------------------------------------------------------
  // Clock readings. The clock is read before the lock is taken, so readings may reach the table out of
  // order.

  function Max(a: nat, b: nat): nat {
    if a < b then b else a
  }

  /** No reading is more than `back` behind an earlier one or behind `top`. */
  ghost predicate Steady(calls: seq<Call>, top: nat, back: nat)
    decreases |calls|
  {
    calls != [] ==> top <= calls[0].now + back && Steady(calls[1..], Max(top, calls[0].now), back)
  }

  /** The readings do not go back. */
  ghost predicate Monotone(calls: seq<Call>, top: nat) {
    Steady(calls, top, 0)
  }

  /** The highest reading so far. */
  function TopOf(calls: seq<Call>, top: nat): nat
    decreases |calls|
  {
    if calls == [] then top else TopOf(calls[1..], Max(top, calls[0].now))
  }

  // ---------------------------------------------------------------------------------------------
  // Pruning changes no decision.

  /** The decisions of the limiter. */
  function Decisions(t: Table, rate: nat, calls: seq<Call>): seq<bool>
    decreases |calls|
  {
    if calls == [] then []
    else
      var (ok, next) := Accept(t, rate, calls[0]);
      [ok] + Decisions(next, rate, calls[1..])
  }

  predicate NeverFull(t: Table, rate: nat, calls: seq<Call>)
    decreases |calls|
  {
    calls != [] ==>
      && !FullFor(Pruned(t, calls[0].now), calls[0].address)
      && NeverFull(Accept(t, rate, calls[0]).1, rate, calls[1..])
  }

  /** The decisions of a table that is never pruned and never full. */
  function UnprunedDecisions(t: Table, rate: nat, calls: seq<Call>): seq<bool>
    decreases |calls|
  {
    if calls == [] then []
    else
      var (ok, next) := Decide(t, rate, calls[0]);
      [ok] + UnprunedDecisions(next, rate, calls[1..])
  }

  /** `p` is `f` without windows that were two seconds old or older at the highest reading. */
  ghost predicate Shadows(p: Table, f: Table, top: nat) {
    && p.Keys <= f.Keys
    && (forall a :: a in p ==> p[a] == f[a])
    && (forall a :: a in f && a !in p ==> f[a].started + 2 * SECOND <= top)
  }

  lemma ShadowStep(p: Table, f: Table, rate: nat, call: Call, top: nat)
    requires Shadows(p, f, top) && top <= call.now + SECOND
    ensures var q := Pruned(p, call.now);
            && Decide(q, rate, call).0 == Decide(f, rate, call).0
            && Shadows(Decide(q, rate, call).1, Decide(f, rate, call).1, Max(top, call.now))
  {
    var q := Pruned(p, call.now);
    assert Shadows(q, f, Max(top, call.now));
    assert CurrentWindow(q, call) == CurrentWindow(f, call);
  }

  /** A pruned table decides as one that is never pruned, while no reading is more than a second behind
      an earlier one and no call finds the table full. */
  lemma {:induction false} PruningChangesNothing(p: Table, f: Table, rate: nat, calls: seq<Call>, top: nat)
    requires Shadows(p, f, top) && Steady(calls, top, SECOND) && NeverFull(p, rate, calls)
    ensures Decisions(p, rate, calls) == UnprunedDecisions(f, rate, calls)
    decreases |calls|
  {
    if calls != [] {
      var call, next := calls[0], Max(top, calls[0].now);
      ShadowStep(p, f, rate, call, top);
      PruningChangesNothing(Decide(Pruned(p, call.now), rate, call).1, Decide(f, rate, call).1, rate, calls[1..], next);
    }
  }

  // ---------------------------------------------------------------------------------------------
  // The rate bound.

  /** An accepted call, with the start of the window that counted it. */
  datatype Grant = Grant(address: Address, now: nat, started: nat)

  datatype History = History(table: Table, grants: seq<Grant>)

  const NOTHING := History(map[], [])

  function GrantOf(t: Table, call: Call): Grant {
    Grant(call.address, call.now, CurrentWindow(t, call).started)
  }

  function Record(h: History, rate: nat, call: Call): History {
    var (ok, next) := Accept(h.table, rate, call);
    History(next, if ok then h.grants + [GrantOf(Pruned(h.table, call.now), call)] else h.grants)
  }

  function Run(h: History, rate: nat, calls: seq<Call>): History
    decreases |calls|
  {
    if calls == [] then h else Run(Record(h, rate, calls[0]), rate, calls[1..])
  }

  /** How many of the grants satisfy `p`. */
  function Count(grants: seq<Grant>, p: Grant -> bool): nat {
    if grants == [] then 0
    else Count(grants[..|grants| - 1], p) + if p(grants[|grants| - 1]) then 1 else 0
  }

  function InWindow(address: Address, started: nat): Grant -> bool {
    (g: Grant) => g.address == address && g.started == started
  }

  function InInterval(address: Address, from: nat): Grant -> bool {
    (g: Grant) => g.address == address && from <= g.now <= from + SECOND
  }

  lemma CountAppend(grants: seq<Grant>, g: Grant, p: Grant -> bool)
    ensures Count(grants + [g], p) == Count(grants, p) + if p(g) then 1 else 0
  {
    assert (grants + [g])[..|grants|] == grants;
  }

  lemma {:induction false} CountNone(grants: seq<Grant>, p: Grant -> bool)
    requires forall g :: g in grants ==> !p(g)
    ensures Count(grants, p) == 0
  {
    if grants != [] { CountNone(grants[..|grants| - 1], p); }
  }

  /** The distance two windows of one address keep, when readings are at most `back` behind: a second, or
      less when a pruned window can be followed by an older reading. */
  function Gap(back: nat): nat
    requires back < 2 * SECOND
  {
    Min(SECOND, 2 * SECOND - back)
  }

  predicate Apart(a: nat, b: nat, gap: nat) {
    a == b || a + gap <= b || b + gap <= a
  }

  /** A grant lies before the end of its window, and at most `back` before its start. */
  predicate GrantOk(g: Grant, back: nat) {
    g.started <= g.now + back && g.now < g.started + SECOND
  }

  ghost predicate Spaced(grants: seq<Grant>, gap: nat) {
    forall g, h :: g in grants && h in grants && g.address == h.address ==> Apart(g.started, h.started, gap)
  }

  /** No window of `address` was granted that is later than `started`, or closer before it than `gap`. */
  ghost predicate Past(grants: seq<Grant>, address: Address, started: nat, gap: nat) {
    forall g :: g in grants && g.address == address ==> g.started == started || g.started + gap <= started
  }

  ghost predicate OpenOk(grants: seq<Grant>, rate: nat, a: Address, w: Window, gap: nat) {
    w.requests <= rate && Past(grants, a, w.started, gap) && Count(grants, InWindow(a, w.started)) == w.requests
  }

  ghost predicate ClosedOk(grants: seq<Grant>, a: Address, top: nat) {
    forall g :: g in grants && g.address == a ==> g.started + 2 * SECOND <= top
  }

  ghost predicate WindowOk(h: History, rate: nat, a: Address, top: nat, gap: nat) {
    if a in h.table then h.table[a].started <= top && OpenOk(h.grants, rate, a, h.table[a], gap)
    else ClosedOk(h.grants, a, top)
  }

  ghost predicate GrantsOk(grants: seq<Grant>, rate: nat, back: nat)
    requires back < 2 * SECOND
  {
    && (forall g :: g in grants ==> GrantOk(g, back))
    && Spaced(grants, Gap(back))
    && (forall a, s :: Count(grants, InWindow(a, s)) <= rate)
  }

  ghost predicate Inv(h: History, rate: nat, top: nat, back: nat)
    requires back < 2 * SECOND
  {
    && GrantsOk(h.grants, rate, back)
    && (forall a :: WindowOk(h, rate, a, top, Gap(back)))
    && |h.table| <= ADDRESS_CAPACITY
  }

  lemma InitOk(rate: nat, back: nat)
    requires back < 2 * SECOND
    ensures Inv(NOTHING, rate, 0, back)
  {
  }

  lemma PrunedKeepsInv(h: History, rate: nat, top: nat, back: nat, now: nat)
    requires back < 2 * SECOND && Inv(h, rate, top, back)
    ensures Inv(h.(table := Pruned(h.table, now)), rate, Max(top, now), back)
  {
    var p := h.(table := Pruned(h.table, now));
    assert h.table.Keys == p.table.Keys + (h.table.Keys - p.table.Keys);
    forall a
      ensures WindowOk(p, rate, a, Max(top, now), Gap(back))
    {
      assert WindowOk(h, rate, a, top, Gap(back));
    }
  }

  /** The window that counts a call is the open one or keeps its distance from all granted ones. */
  lemma CurrentWindowOk(h: History, rate: nat, top: nat, back: nat, call: Call)
    requires back < 2 * SECOND && Inv(h, rate, top, back) && call.now <= top <= call.now + back
    ensures var w := CurrentWindow(h.table, call);
            && w.started <= top && GrantOk(GrantOf(h.table, call), back)
            && OpenOk(h.grants, rate, call.address, w, Gap(back))
  {
    var w, a := CurrentWindow(h.table, call), call.address;
    assert WindowOk(h, rate, a, top, Gap(back));
    if !(a in h.table && w == h.table[a]) {
      assert Past(h.grants, a, call.now, Gap(back)) && forall g :: g in h.grants && g.address == a ==> g.started < call.now;
      CountNone(h.grants, InWindow(a, call.now));
    }
  }

  /** Granting one more call in a window that has room. */
  lemma GrantKeepsGrants(grants: seq<Grant>, rate: nat, back: nat, g: Grant)
    requires back < 2 * SECOND && GrantsOk(grants, rate, back) && GrantOk(g, back)
    requires Past(grants, g.address, g.started, Gap(back)) && Count(grants, InWindow(g.address, g.started)) < rate
    ensures GrantsOk(grants + [g], rate, back)
  {
    forall a, s
      ensures Count(grants + [g], InWindow(a, s)) <= rate
    {
      CountAppend(grants, g, InWindow(a, s));
    }
  }

  /** The window of the grant counts it. */
  lemma GrantKeepsOwnWindow(grants: seq<Grant>, rate: nat, g: Grant, w: Window, gap: nat)
    requires OpenOk(grants, rate, g.address, w, gap) && w.started == g.started && w.requests < rate
    ensures OpenOk(grants + [g], rate, g.address, w.(requests := w.requests + 1), gap)
  {
    CountAppend(grants, g, InWindow(g.address, w.started));
  }

  /** The window of another address does not see it. */
  lemma GrantKeepsOtherWindow(grants: seq<Grant>, rate: nat, g: Grant, a: Address, w: Window, gap: nat)
    requires a != g.address && OpenOk(grants, rate, a, w, gap)
    ensures OpenOk(grants + [g], rate, a, w, gap)
  {
    CountAppend(grants, g, InWindow(a, w.started));
  }

  lemma DecideKeepsWindow(h: History, rate: nat, top: nat, gap: nat, call: Call, a: Address)
    requires WindowOk(h, rate, a, top, gap) && CurrentWindow(h.table, call).started <= top
    requires OpenOk(h.grants, rate, call.address, CurrentWindow(h.table, call), gap)
    ensures var (ok, next) := Decide(h.table, rate, call);
            WindowOk(History(next, if ok then h.grants + [GrantOf(h.table, call)] else h.grants), rate, a, top, gap)
  {
    var w, g := CurrentWindow(h.table, call), GrantOf(h.table, call);
    if w.requests < rate {
      if a == call.address {
        GrantKeepsOwnWindow(h.grants, rate, g, w, gap);
      } else if a in h.table {
        GrantKeepsOtherWindow(h.grants, rate, g, a, h.table[a], gap);
      }
    }
  }

  lemma DecideKeepsInv(h: History, rate: nat, top: nat, back: nat, call: Call)
    requires back < 2 * SECOND && Inv(h, rate, top, back) && call.now <= top <= call.now + back
    requires !FullFor(h.table, call.address)
    ensures var (ok, next) := Decide(h.table, rate, call);
            Inv(History(next, if ok then h.grants + [GrantOf(h.table, call)] else h.grants), rate, top, back)
  {
    CurrentWindowOk(h, rate, top, back, call);
    var (ok, next) := Decide(h.table, rate, call);
    assert |next| <= ADDRESS_CAPACITY by {
      assert next.Keys == h.table.Keys + {call.address};
    }
    if ok { GrantKeepsGrants(h.grants, rate, back, GrantOf(h.table, call)); }
    var z := History(next, if ok then h.grants + [GrantOf(h.table, call)] else h.grants);
    forall a
      ensures WindowOk(z, rate, a, top, Gap(back))
    {
      DecideKeepsWindow(h, rate, top, Gap(back), call, a);
    }
  }

  lemma RecordKeepsInv(h: History, rate: nat, top: nat, back: nat, call: Call)
    requires back < 2 * SECOND && Inv(h, rate, top, back) && top <= call.now + back
    ensures Inv(Record(h, rate, call), rate, Max(top, call.now), back)
  {
    PrunedKeepsInv(h, rate, top, back, call.now);
    var p := h.(table := Pruned(h.table, call.now));
    if !FullFor(p.table, call.address) { DecideKeepsInv(p, rate, Max(top, call.now), back, call); }
  }

  lemma {:induction false} RunKeepsInv(h: History, rate: nat, top: nat, back: nat, calls: seq<Call>)
    requires back < 2 * SECOND && Inv(h, rate, top, back) && Steady(calls, top, back)
    ensures Inv(Run(h, rate, calls), rate, TopOf(calls, top), back)
    decreases |calls|
  {
    if calls != [] {
      RecordKeepsInv(h, rate, top, back, calls[0]);
      RunKeepsInv(Record(h, rate, calls[0]), rate, Max(top, calls[0].now), back, calls[1..]);
    }
  }

  /** In every reachable state a call is granted exactly when there is room for its address and the
      window that counts it has fewer than `rate` grants. */
  lemma GrantedExactly(rate: nat, calls: seq<Call>, call: Call, back: nat)
    requires back < 2 * SECOND && Steady(calls, 0, back) && TopOf(calls, 0) <= call.now + back
    ensures var h := Run(NOTHING, rate, calls);
            var pruned := Pruned(h.table, call.now);
            Accept(h.table, rate, call).0
            <==> !FullFor(pruned, call.address)
                 && Count(h.grants, InWindow(call.address, CurrentWindow(pruned, call).started)) < rate
  {
    InitOk(rate, back);
    RunKeepsInv(NOTHING, rate, 0, back, calls);
    var h, top := Run(NOTHING, rate, calls), TopOf(calls, 0);
    PrunedKeepsInv(h, rate, top, back, call.now);
    CurrentWindowOk(h.(table := Pruned(h.table, call.now)), rate, Max(top, call.now), back, call);
  }

  /** The bound per window: as long as no reading is two seconds or more behind an earlier one, no window
      start gets more than `rate` grants, and the table stays bounded. */
  lemma WindowBound(rate: nat, calls: seq<Call>, back: nat, address: Address, started: nat)
    requires back < 2 * SECOND && Steady(calls, 0, back)
    ensures var h := Run(NOTHING, rate, calls);
            Count(h.grants, InWindow(address, started)) <= rate && |h.table| <= ADDRESS_CAPACITY
  {
    InitOk(rate, back);
    RunKeepsInv(NOTHING, rate, 0, back, calls);
  }

  /** Grants within one second of each other come from at most two windows, when readings do not go back. */
  lemma TwoWindows(grants: seq<Grant>, address: Address, from: nat) returns (s: nat, t: nat)
    requires Spaced(grants, SECOND) && forall g :: g in grants ==> GrantOk(g, 0)
    ensures forall g :: g in grants && InInterval(address, from)(g) ==> g.started == s || g.started == t
  {
    s, t := 0, 0;
    if g :| g in grants && InInterval(address, from)(g) {
      s, t := g.started, g.started;
      if h :| h in grants && InInterval(address, from)(h) && h.started != s {
        t := h.started;
        forall k | k in grants && InInterval(address, from)(k)
          ensures k.started == s || k.started == t
        {
          assert GrantOk(g, 0) && GrantOk(h, 0) && GrantOk(k, 0);
          assert Apart(g.started, h.started, SECOND) && Apart(g.started, k.started, SECOND) && Apart(h.started, k.started, SECOND);
        }
      }
    }
  }

  ghost predicate Hits(grants: seq<Grant>, a: Address, from: nat, g: Grant) {
    g in grants && InInterval(a, from)(g)
  }

  /** And from at most three, when no reading is more than a second behind an earlier one. */
  lemma ThreeWindows(grants: seq<Grant>, address: Address, from: nat) returns (s: nat, t: nat, u: nat)
    requires Spaced(grants, SECOND) && forall g :: g in grants ==> GrantOk(g, SECOND)
    ensures forall g :: g in grants && InInterval(address, from)(g) ==> g.started == s || g.started == t || g.started == u
    ensures s == t ==> t == u
    ensures s != t && t != u ==>
              exists g, h, k :: Hits(grants, address, from, g) && Hits(grants, address, from, h) && Hits(grants, address, from, k)
                && g.started == s && h.started == t && k.started == u && s != u
  {
    s, t, u := 0, 0, 0;
    if g :| g in grants && InInterval(address, from)(g) {
      s, t, u := g.started, g.started, g.started;
      if h :| h in grants && InInterval(address, from)(h) && h.started != s {
        t, u := h.started, h.started;
        if k :| k in grants && InInterval(address, from)(k) && k.started != s && k.started != t {
          u := k.started;
          assert Hits(grants, address, from, g) && Hits(grants, address, from, h) && Hits(grants, address, from, k);
          forall l | l in grants && InInterval(address, from)(l)
            ensures l.started == s || l.started == t || l.started == u
          {
            assert GrantOk(g, SECOND) && GrantOk(h, SECOND) && GrantOk(k, SECOND) && GrantOk(l, SECOND);
            assert Apart(g.started, h.started, SECOND) && Apart(g.started, k.started, SECOND) && Apart(h.started, k.started, SECOND);
            assert Apart(g.started, l.started, SECOND) && Apart(h.started, l.started, SECOND) && Apart(k.started, l.started, SECOND);
          }
        }
      }
    }
  }

  lemma {:induction false} CountSplits(grants: seq<Grant>, address: Address, from: nat, s: nat, t: nat, u: nat)
    requires forall g :: g in grants && InInterval(address, from)(g) ==> g.started == s || g.started == t || g.started == u
    ensures Count(grants, InInterval(address, from))
         <= Count(grants, InWindow(address, s)) + Count(grants, InWindow(address, t))
            + if u == t then 0 else Count(grants, InWindow(address, u))
  {
    if grants != [] { CountSplits(grants[..|grants| - 1], address, from, s, t, u); }
  }

  /** The rate bound: over every run with a clock that does not go back an address gets at most `rate`
      grants per window and at most twice that in any closed interval of one second. With readings up to
      a second behind it is at most three times the rate. */
  lemma RateBound(rate: nat, calls: seq<Call>, address: Address, started: nat, from: nat)
    requires Steady(calls, 0, SECOND)
    ensures var h := Run(NOTHING, rate, calls);
            && Count(h.grants, InWindow(address, started)) <= rate
            && Count(h.grants, InInterval(address, from)) <= 3 * rate
            && (Monotone(calls, 0) ==> Count(h.grants, InInterval(address, from)) <= 2 * rate)
            && |h.table| <= ADDRESS_CAPACITY
  {
    InitOk(rate, SECOND);
    RunKeepsInv(NOTHING, rate, 0, SECOND, calls);
    var h := Run(NOTHING, rate, calls);
    var s, t, u := ThreeWindows(h.grants, address, from);
    CountSplits(h.grants, address, from, s, t, u);
    if Monotone(calls, 0) {
      InitOk(rate, 0);
      RunKeepsInv(NOTHING, rate, 0, 0, calls);
      var v, w := TwoWindows(h.grants, address, from);
      CountSplits(h.grants, address, from, v, w, w);
    }
  }
}
