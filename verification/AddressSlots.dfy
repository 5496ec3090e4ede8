/** The per-address semaphores of the public request limit and their eviction
    (the address-slot section of services/gateway/src/protection.rs). A lookup holds the table lock, and looks
    at the entries of a full table one by one. Permits and references are taken and dropped without that
    lock, so the steps of other requests may come between any two of these. */
module AddressSlots {
  import opened Common

  const ADDRESS_CAPACITY: nat := 4096

  type Address = string
  type Semaphore = nat

  /** A request that has a reference to a semaphore: before it tries for a permit, while it holds one, and
      after the permit went back, or was refused, but before the reference is dropped. */
  datatype Request =
    | Looking(address: Address, sem: Semaphore)
    | Holds(address: Address, sem: Semaphore)
    | Leaving(address: Address, sem: Semaphore)

  /** The lookup that holds the table lock: for request `r`, with the entries it has yet to look at. */
  datatype Scan = Scan(r: nat, address: Address, todo: set<Address>)

  datatype Slots = Slots(
    limit: nat,                         // per_address_concurrency
    table: map<Address, Semaphore>,
    available: map<Semaphore, nat>,     // free permits of every semaphore made so far
    owner: map<Semaphore, Address>,     // the address each semaphore was made for
    next: Semaphore,
    requests: map<nat, Request>,
    lock: Option<Scan>)

  datatype Step =
    | Lock(r: nat, address: Address)  // begin a lookup
    | Look(a: Address)                // look at one entry, and evict it if it is idle
    | Finish                          // refuse, or find or make the semaphore
    | Acquire(r: nat)
    | Release(r: nat)
    | DropRef(r: nat)

  function Init(limit: nat): Slots {
    Slots(limit, map[], map[], map[], 0, map[], None)
  }

  /** Some request has a reference besides the table's own: `Arc::strong_count(slot) > 1`. */
  predicate Referenced(requests: map<nat, Request>, sem: Semaphore) {
    exists r :: r in requests && requests[r].sem == sem
  }

  /** There is no entry for the address, and no room for one. */
  predicate NeedsRoom(table: map<Address, Semaphore>, address: Address) {
    address !in table && |table| >= ADDRESS_CAPACITY
  }

  function Next(y: Slots, step: Step): Slots {
    match step
    case Lock(r, address) =>
      if y.lock.Some? || r in y.requests then y
      else y.(lock := Some(Scan(r, address, if NeedsRoom(y.table, address) then y.table.Keys else {})))
    case Look(a) =>
      if y.lock.None? || a !in y.lock.value.todo || a !in y.table then y
      else
        y.(table := if Referenced(y.requests, y.table[a]) then y.table else y.table - {a},
           lock := Some(y.lock.value.(todo := y.lock.value.todo - {a})))
    case Finish =>
      if y.lock.None? || y.lock.value.todo != {} then y
      else if NeedsRoom(y.table, y.lock.value.address) then y.(lock := None)
      else Joined(y.(lock := None), y.lock.value.r, y.lock.value.address)
    case Acquire(r) =>
      if r !in y.requests || !y.requests[r].Looking? || y.requests[r].sem !in y.available then y
      else
        var Looking(address, sem) := y.requests[r];
        if y.available[sem] == 0 then Moved(y, r, Some(Leaving(address, sem)), 0)
        else Moved(y, r, Some(Holds(address, sem)), y.available[sem] - 1)
    case Release(r) =>
      if r !in y.requests || !y.requests[r].Holds? || y.requests[r].sem !in y.available then y
      else
        var Holds(address, sem) := y.requests[r];
        Moved(y, r, Some(Leaving(address, sem)), y.available[sem] + 1)
    case DropRef(r) =>
      if r !in y.requests || !y.requests[r].Leaving? || y.requests[r].sem !in y.available then y
      else Moved(y, r, None, y.available[y.requests[r].sem])
  }

  /** Request `r` gets a reference to the semaphore of the address, which is made if it is missing. */
  function Joined(y: Slots, r: nat, address: Address): Slots {
    var x := if address in y.table then y else Entered(y, address);
    x.(requests := x.requests[r := Looking(address, x.table[address])])
  }

  function Entered(y: Slots, address: Address): Slots {
    y.(table := y.table[address := y.next], available := y.available[y.next := y.limit],
       owner := y.owner[y.next := address], next := y.next + 1)
  }

  /** Request `r` becomes `q`, or ends, and its semaphore is left with `free` permits. */
  function Moved(y: Slots, r: nat, q: Option<Request>, free: nat): Slots
    requires r in y.requests
  {
    y.(available := y.available[y.requests[r].sem := free], requests := Changed(y.requests, r, q))
  }

  function Changed(requests: map<nat, Request>, r: nat, q: Option<Request>): map<nat, Request> {
    if q.None? then requests - {r} else requests[r := q.value]
  }

  function Run(y: Slots, steps: seq<Step>): Slots
    decreases |steps|
  {
    if steps == [] then y else Run(Next(y, steps[0]), steps[1..])
  }

  // ---------------------------------------------------------------------------------------------
  // The invariant.

  function HoldsPermitOf(sem: Semaphore): Request -> bool {
    (q: Request) => q.Holds? && q.sem == sem
  }

  function InFlightAt(address: Address): Request -> bool {
    (q: Request) => q.Holds? && q.address == address
  }

  /** Every outstanding reference for an address is to the semaphore now in the table. */
  ghost predicate RefsAreCurrent(y: Slots) {
    forall r :: r in y.requests ==>
      y.requests[r].address in y.table && y.table[y.requests[r].address] == y.requests[r].sem
  }

  predicate OwnedBy(y: Slots, sem: Semaphore, a: Address) {
    sem in y.owner && y.owner[sem] == a
  }

  /** Each entry holds a semaphore of its own, and a new one is fresh. */
  ghost predicate TableOk(y: Slots) {
    && |y.table| <= ADDRESS_CAPACITY
    && (forall a :: a in y.table ==> y.table[a] < y.next && OwnedBy(y, y.table[a], a))
  }

  /** Free permits and held permits of a semaphore in the table make up the limit. */
  ghost predicate PermitsConserved(y: Slots) {
    forall a :: a in y.table ==> Balanced(y, y.table[a])
  }

  ghost predicate Balanced(y: Slots, sem: Semaphore) {
    sem in y.available && y.available[sem] + Holding(y.requests, HoldsPermitOf(sem)) == y.limit
  }

  /** The lookup under way is for a new request, and evicts only to make room for its address. */
  ghost predicate LockOk(y: Slots) {
    y.lock.Some? ==>
      && y.lock.value.r !in y.requests && y.lock.value.todo <= y.table.Keys
      && (y.lock.value.todo != {} ==> y.lock.value.address !in y.table)
  }

  /** What holds of the table and its semaphores, whether or not a lookup is under way. */
  ghost predicate SlotsOk(y: Slots) {
    RefsAreCurrent(y) && TableOk(y) && PermitsConserved(y)
  }

  ghost predicate Inv(y: Slots) {
    SlotsOk(y) && LockOk(y)
  }

  /** Changing one request and its own semaphore leaves every other semaphore balanced. */
  lemma OthersBalanced(y: Slots, z: Slots, r: nat, q: Option<Request>, sem: Semaphore, other: Semaphore)
    requires Balanced(y, other) && other != sem && z.limit == y.limit
    requires other in z.available && z.available[other] == y.available[other]
    requires r in y.requests ==> y.requests[r].sem == sem
    requires q.Some? ==> q.value.sem == sem
    requires z.requests == if q.None? then y.requests - {r} else y.requests[r := q.value]
    ensures Balanced(z, other)
  {
    var p := HoldsPermitOf(other);
    if q.Some? {
      HoldingUpdate(y.requests, r, q.value, p);
    } else if r in y.requests {
      HoldingRemove(y.requests, r, p);
    } else {
      assert y.requests - {r} == y.requests;
    }
  }

  lemma ConservedAfterChange(y: Slots, z: Slots, r: nat, q: Option<Request>, sem: Semaphore)
    requires PermitsConserved(y) && z.limit == y.limit && z.requests == Changed(y.requests, r, q)
    requires (r in y.requests ==> y.requests[r].sem == sem) && (q.Some? ==> q.value.sem == sem)
    requires forall a :: a in z.table && z.table[a] != sem ==>
               && a in y.table && z.table[a] == y.table[a]
               && y.table[a] in y.available && y.table[a] in z.available && z.available[y.table[a]] == y.available[y.table[a]]
    requires Balanced(z, sem)
    ensures PermitsConserved(z)
  {
    forall a | a in z.table && z.table[a] != sem
      ensures Balanced(z, z.table[a])
    {
      assert Balanced(y, y.table[a]);
      OthersBalanced(y, z, r, q, sem, z.table[a]);
    }
  }

  lemma NobodyHoldsUnreferenced(requests: map<nat, Request>, sem: Semaphore)
    requires !Referenced(requests, sem)
    ensures Holding(requests, HoldsPermitOf(sem)) == 0
  {
    assert Where(requests, HoldsPermitOf(sem)) == {};
  }

  /** An idle entry can go: nobody has a reference to its semaphore. */
  lemma EvictKeepsSlots(y: Slots, a: Address)
    requires SlotsOk(y) && a in y.table && !Referenced(y.requests, y.table[a])
    ensures SlotsOk(y.(table := y.table - {a}))
  {
    var z := y.(table := y.table - {a});
    assert |z.table| <= |y.table| by {
      assert z.table.Keys <= y.table.Keys;
      CardinalityOfSubset(z.table.Keys, y.table.Keys);
    }
    forall r | r in y.requests
      ensures y.requests[r].address in z.table
    {
      assert Referenced(y.requests, y.requests[r].sem);
    }
    forall other | other in z.table
      ensures Balanced(z, z.table[other])
    {
      assert Balanced(y, y.table[other]);
    }
  }

  lemma CardinalityOfSubset<T>(a: set<T>, b: set<T>)
    requires a <= b
    ensures |a| <= |b|
  {
    assert b == a + (b - a);
  }

  /** A lookup of an address in the table adds a reference to its semaphore. */
  lemma JoinKeepsSlots(y: Slots, r: nat, address: Address)
    requires SlotsOk(y) && r !in y.requests && address in y.table
    ensures SlotsOk(y.(requests := y.requests[r := Looking(address, y.table[address])]))
  {
    var sem := y.table[address];
    var q := Looking(address, sem);
    var z := y.(requests := y.requests[r := q]);
    assert Balanced(y, sem);
    HoldingUpdate(y.requests, r, q, HoldsPermitOf(sem));
    ConservedAfterChange(y, z, r, Some(q), sem);
  }

  lemma EnterKeepsTable(y: Slots, address: Address)
    requires TableOk(y) && address !in y.table && |y.table| < ADDRESS_CAPACITY
    ensures TableOk(Entered(y, address))
  {
    var z := Entered(y, address);
    assert |z.table| == |y.table| + 1 by {
      assert z.table.Keys == y.table.Keys + {address};
    }
  }

  /** A lookup of a new address makes a semaphore that nobody refers to yet. */
  lemma EnterKeepsSlots(y: Slots, address: Address)
    requires SlotsOk(y) && address !in y.table && |y.table| < ADDRESS_CAPACITY
    ensures SlotsOk(Entered(y, address))
  {
    var z := Entered(y, address);
    EnterKeepsTable(y, address);
    assert forall r :: r in y.requests ==> y.requests[r].sem < y.next;
    NobodyHoldsUnreferenced(y.requests, y.next);
    assert Balanced(z, y.next);
    forall a | a in y.table
      ensures Balanced(z, y.table[a])
    {
      assert Balanced(y, y.table[a]) && y.table[a] < y.next;
    }
  }

  lemma JoinedKeepsSlots(y: Slots, r: nat, address: Address)
    requires SlotsOk(y) && r !in y.requests && !NeedsRoom(y.table, address)
    ensures SlotsOk(Joined(y, r, address))
  {
    if address in y.table {
      JoinKeepsSlots(y, r, address);
    } else {
      EnterKeepsSlots(y, address);
      JoinKeepsSlots(Entered(y, address), r, address);
    }
  }

  /** Whether a lookup is under way does not matter for the table and its semaphores. */
  lemma LockIsApart(y: Slots, lock: Option<Scan>)
    ensures SlotsOk(y.(lock := lock)) <==> SlotsOk(y)
  {
    var z := y.(lock := lock);
    assert forall sem :: Balanced(z, sem) <==> Balanced(y, sem);
    assert forall sem, a :: OwnedBy(z, sem, a) <==> OwnedBy(y, sem, a);
  }

  lemma LookKeepsInv(y: Slots, a: Address)
    requires Inv(y)
    ensures Inv(Next(y, Look(a)))
  {
    if y.lock.Some? && a in y.lock.value.todo {
      var z := Next(y, Look(a));
      if !Referenced(y.requests, y.table[a]) { EvictKeepsSlots(y, a); }
      LockIsApart(y.(table := z.table), z.lock);
    }
  }

  lemma FinishKeepsInv(y: Slots)
    requires Inv(y)
    ensures Inv(Next(y, Finish))
  {
    LockIsApart(y, None);
    if y.lock.Some? && !NeedsRoom(y.table, y.lock.value.address) {
      JoinedKeepsSlots(y.(lock := None), y.lock.value.r, y.lock.value.address);
    }
  }

  /** A request moves between phases at its semaphore, which stays balanced. */
  lemma MoveKeepsSlots(y: Slots, r: nat, q: Option<Request>, free: nat)
    requires SlotsOk(y) && r in y.requests
    requires q.Some? ==> q.value.sem == y.requests[r].sem && q.value.address == y.requests[r].address
    requires y.requests[r].sem in y.available
    requires free + (if q.Some? && q.value.Holds? then 1 else 0)
          == y.available[y.requests[r].sem] + (if y.requests[r].Holds? then 1 else 0)
    ensures SlotsOk(Moved(y, r, q, free))
  {
    var sem, z := y.requests[r].sem, Moved(y, r, q, free);
    assert Balanced(y, sem);
    if q.Some? { HoldingUpdate(y.requests, r, q.value, HoldsPermitOf(sem)); }
    else { HoldingRemove(y.requests, r, HoldsPermitOf(sem)); }
    ConservedAfterChange(y, z, r, q, sem);
  }

  lemma AcquireKeepsInv(y: Slots, r: nat)
    requires Inv(y)
    ensures Inv(Next(y, Acquire(r)))
  {
    if r in y.requests && y.requests[r].Looking? {
      var q, free := y.requests[r], FreeOf(y, r);
      if free == 0 {
        MoveKeepsSlots(y, r, Some(Leaving(q.address, q.sem)), 0);
      } else {
        MoveKeepsSlots(y, r, Some(Holds(q.address, q.sem)), free - 1);
      }
    }
  }

  lemma ReleaseKeepsInv(y: Slots, r: nat)
    requires Inv(y)
    ensures Inv(Next(y, Release(r)))
  {
    if r in y.requests && y.requests[r].Holds? {
      var q, free := y.requests[r], FreeOf(y, r);
      MoveKeepsSlots(y, r, Some(Leaving(q.address, q.sem)), free + 1);
    }
  }

  lemma DropRefKeepsInv(y: Slots, r: nat)
    requires Inv(y)
    ensures Inv(Next(y, DropRef(r)))
  {
    if r in y.requests && y.requests[r].Leaving? {
      MoveKeepsSlots(y, r, None, FreeOf(y, r));
    }
  }

  /** The free permits of the semaphore a request refers to. */
  ghost function FreeOf(y: Slots, r: nat): (free: nat)
    requires Inv(y) && r in y.requests
    ensures y.requests[r].sem in y.available && free == y.available[y.requests[r].sem]
  {
    assert Balanced(y, y.table[y.requests[r].address]);
    y.available[y.requests[r].sem]
  }

  /** In any reachable state a try for a permit succeeds exactly while the address is below its limit. */
  lemma AcquireSucceedsBelowLimit(y: Slots, r: nat)
    requires Inv(y) && r in y.requests && y.requests[r].Looking?
    ensures var q := y.requests[r];
            var below := Holding(y.requests, InFlightAt(q.address)) < y.limit;
            Next(y, Acquire(r)).requests
            == y.requests[r := if below then Holds(q.address, q.sem) else Leaving(q.address, q.sem)]
  {
    var free := FreeOf(y, r);
    assert Balanced(y, y.table[y.requests[r].address]);
    InFlightIsHeld(y, y.requests[r].address);
  }

  lemma InFlightIsHeld(y: Slots, address: Address)
    requires Inv(y) && address in y.table
    ensures Holding(y.requests, InFlightAt(address)) == Holding(y.requests, HoldsPermitOf(y.table[address]))
  {
    assert Where(y.requests, InFlightAt(address)) == Where(y.requests, HoldsPermitOf(y.table[address]));
  }

  lemma NextKeepsInv(y: Slots, step: Step)
    requires Inv(y)
    ensures Inv(Next(y, step))
  {
    match step
    case Lock(r, address) => LockIsApart(y, Next(y, step).lock);
    case Look(a) => LookKeepsInv(y, a);
    case Finish => FinishKeepsInv(y);
    case Acquire(r) => AcquireKeepsInv(y, r);
    case Release(r) => ReleaseKeepsInv(y, r);
    case DropRef(r) => DropRefKeepsInv(y, r);
  }

  lemma NextKeepsLimit(y: Slots, step: Step)
    ensures Next(y, step).limit == y.limit
  {
  }

  lemma {:induction false} RunKeepsInv(y: Slots, steps: seq<Step>)
    requires Inv(y)
    ensures Inv(Run(y, steps)) && Run(y, steps).limit == y.limit
    decreases |steps|
  {
    if steps != [] {
      NextKeepsInv(y, steps[0]);
      NextKeepsLimit(y, steps[0]);
      RunKeepsInv(Next(y, steps[0]), steps[1..]);
    }
  }

  /** Eviction never weakens the limit: in every interleaving each reference is to the semaphore in
      the table, an address has at most `limit` requests in flight, and the table stays bounded. */
  lemma EvictionKeepsTheLimit(limit: nat, steps: seq<Step>, address: Address)
    ensures var y := Run(Init(limit), steps);
            && RefsAreCurrent(y)
            && Holding(y.requests, InFlightAt(address)) <= limit
            && |y.table| <= ADDRESS_CAPACITY
  {
    RunKeepsInv(Init(limit), steps);
    var y := Run(Init(limit), steps);
    if address in y.table {
      assert Balanced(y, y.table[address]);
      InFlightIsHeld(y, address);
    } else {
      assert Where(y.requests, InFlightAt(address)) == {};
    }
  }

  // ---------------------------------------------------------------------------------------------
  // Refusals.

  /** The lookup under way has looked at every entry, and there is still no room. */
  predicate Refuses(y: Slots) {
    y.lock.Some? && y.lock.value.todo == {} && NeedsRoom(y.table, y.lock.value.address)
  }

  predicate UnderWay(y: Slots, a: Address) {
    exists r :: r in y.requests && y.requests[r].address == a
  }

  /** The states that a run goes through, the first one and the one after each step. */
  ghost predicate IsTrace(y: Slots, steps: seq<Step>, states: seq<Slots>) {
    && |states| == |steps| + 1 && states[0] == y
    && forall i :: 0 <= i < |steps| ==> Follows(steps, states, i)
  }

  ghost predicate Follows(steps: seq<Step>, states: seq<Slots>, i: int) {
    0 <= i < |steps| && i + 1 < |states| && states[i + 1] == Next(states[i], steps[i])
  }

  lemma {:induction false} TraceIsRun(y: Slots, steps: seq<Step>, states: seq<Slots>, n: nat)
    requires IsTrace(y, steps, states) && n <= |steps|
    ensures states[n] == Run(y, steps[..n])
  {
    if n > 0 {
      TraceIsRun(y, steps, states, n - 1);
      assert steps[..n] == steps[..n - 1] + [steps[n - 1]];
      RunOne(y, steps[..n - 1], steps[n - 1]);
      assert Follows(steps, states, n - 1);
    }
  }

  lemma TraceKeepsInv(y: Slots, steps: seq<Step>, states: seq<Slots>, n: nat)
    requires Inv(y) && IsTrace(y, steps, states) && n <= |steps|
    ensures Inv(states[n])
  {
    TraceIsRun(y, steps, states, n);
    RunKeepsInv(y, steps[..n]);
  }

  lemma {:induction false} RunAppend(y: Slots, a: seq<Step>, b: seq<Step>)
    ensures Run(y, a + b) == Run(Run(y, a), b)
    decreases |a|
  {
    if a == [] {
      assert a + b == b;
    } else {
      assert (a + b)[0] == a[0] && (a + b)[1..] == a[1..] + b;
      RunAppend(Next(y, a[0]), a[1..], b);
    }
  }

  lemma RunOne(y: Slots, steps: seq<Step>, step: Step)
    ensures Run(y, steps + [step]) == Next(Run(y, steps), step)
  {
    RunAppend(y, steps, [step]);
    assert Run(Run(y, steps), [step]) == Run(Next(Run(y, steps), step), []);
  }

  /** At step `i` the entry of `a` was looked at, and a request of `a` was under way. */
  ghost predicate BusyLook(steps: seq<Step>, states: seq<Slots>, i: int, a: Address) {
    0 <= i < |steps| && i < |states| && steps[i] == Look(a) && UnderWay(states[i], a)
  }

  /** The lock was held from state `i` to state `n`. */
  ghost predicate LockedSince(states: seq<Slots>, i: int, n: int) {
    0 <= i && n < |states| && forall j :: i <= j <= n ==> states[j].lock.Some?
  }

  /** The lookup under way in state `n` has looked at the entry of `a` while a request of `a` was under way. */
  ghost predicate LookedBusy(steps: seq<Step>, states: seq<Slots>, n: int, a: Address) {
    exists i :: i < n && BusyLook(steps, states, i, a) && LockedSince(states, i, n)
  }

  lemma LookedBusyStays(steps: seq<Step>, states: seq<Slots>, n: nat, a: Address)
    requires n + 1 < |states| && LookedBusy(steps, states, n, a) && states[n + 1].lock.Some?
    ensures LookedBusy(steps, states, n + 1, a)
  {
    var i :| i < n && BusyLook(steps, states, i, a) && LockedSince(states, i, n);
    assert LockedSince(states, i, n + 1);
  }

  lemma LookedNow(steps: seq<Step>, states: seq<Slots>, n: nat, a: Address)
    requires n + 1 < |states| && BusyLook(steps, states, n, a) && states[n].lock.Some? && states[n + 1].lock.Some?
    ensures LookedBusy(steps, states, n + 1, a)
  {
    assert LockedSince(states, n, n + 1);
  }

  /** An entry that is looked at and stays has a request of its address under way. */
  lemma KeptIsUnderWay(y: Slots, a: Address)
    requires Inv(y) && a in y.table && Referenced(y.requests, y.table[a])
    ensures UnderWay(y, a)
  {
    var r :| r in y.requests && y.requests[r].sem == y.table[a];
    assert OwnedBy(y, y.table[a], a) && OwnedBy(y, y.table[a], y.requests[r].address);
  }

  /** The lookup under way has looked at the entry and kept it. */
  predicate Kept(y: Slots, a: Address) {
    y.lock.Some? && a in y.table && a !in y.lock.value.todo
  }

  predicate StillFull(y: Slots) {
    y.lock.Some? && NeedsRoom(y.table, y.lock.value.address)
  }

  /** What the lookup under way has done so far: it has room, or every entry that it has kept was busy. */
  ghost predicate ScanOk(steps: seq<Step>, states: seq<Slots>, n: nat)
    requires n < |states|
  {
    StillFull(states[n]) ==> forall a :: Kept(states[n], a) ==> LookedBusy(steps, states, n, a)
  }

  /** What one step adds to the kept entries of a lookup that still has no room: nothing, or the busy entry
      it looks at. A lookup begins with none. */
  lemma KeptGrows(y: Slots, step: Step, a: Address)
    requires Inv(y) && StillFull(Next(y, step)) && Kept(Next(y, step), a)
    ensures StillFull(y)
    ensures Kept(y, a) || (step == Look(a) && UnderWay(y, a))
  {
    if step.Look? {
      LookKeeps(y, step.a, a);
    }
  }

  lemma LookKeeps(y: Slots, b: Address, a: Address)
    requires Inv(y) && StillFull(Next(y, Look(b))) && Kept(Next(y, Look(b)), a)
    ensures StillFull(y) && (Kept(y, a) || (a == b && UnderWay(y, a)))
  {
    var z := Next(y, Look(b));
    assert z.table.Keys <= y.table.Keys;
    CardinalityOfSubset(z.table.Keys, y.table.Keys);
    if a == b && !Kept(y, a) { KeptIsUnderWay(y, a); }
  }

  lemma ScanStep(steps: seq<Step>, states: seq<Slots>, n: nat)
    requires Follows(steps, states, n)
    requires Inv(states[n]) && ScanOk(steps, states, n)
    ensures ScanOk(steps, states, n + 1)
  {
    var y, z := states[n], states[n + 1];
    if StillFull(z) {
      forall a | Kept(z, a)
        ensures LookedBusy(steps, states, n + 1, a)
      {
        KeptGrows(y, steps[n], a);
        if Kept(y, a) { LookedBusyStays(steps, states, n, a); } else { LookedNow(steps, states, n, a); }
      }
    }
  }

  lemma {:induction false} ScanHistory(y: Slots, steps: seq<Step>, states: seq<Slots>, n: nat)
    requires Inv(y) && y.lock.None? && IsTrace(y, steps, states) && n <= |steps|
    ensures ScanOk(steps, states, n)
  {
    if n > 0 {
      ScanHistory(y, steps, states, n - 1);
      ScanNext(y, steps, states, n - 1);
    }
  }

  lemma ScanNext(y: Slots, steps: seq<Step>, states: seq<Slots>, n: nat)
    requires Inv(y) && IsTrace(y, steps, states) && n < |steps| && ScanOk(steps, states, n)
    ensures ScanOk(steps, states, n + 1)
  {
    TraceKeepsInv(y, steps, states, n);
    ScanStep(steps, states, n);
  }

  lemma InitOk(limit: nat)
    ensures Inv(Init(limit))
  {
  }

  /** Idle entries do not lock out an address: in every interleaving a lookup is refused only if the table is
      full and each entry was busy when the lookup looked at it. */
  lemma RefusalMeansAllBusy(limit: nat, steps: seq<Step>, states: seq<Slots>, n: nat)
    requires IsTrace(Init(limit), steps, states) && n <= |steps| && Refuses(states[n])
    ensures |states[n].table| == ADDRESS_CAPACITY
    ensures forall a :: a in states[n].table ==> LookedBusy(steps, states, n, a)
  {
    InitOk(limit);
    ScanHistory(Init(limit), steps, states, n);
    assert |states[n].table| <= ADDRESS_CAPACITY by { TraceKeepsInv(Init(limit), steps, states, n); }
    assert forall a :: a in states[n].table ==> Kept(states[n], a);
  }

  // ---------------------------------------------------------------------------------------------
  // A refusal with an idle entry.

  /** Each of the first `k` addresses is looked up by its own request. */
  function Fill(k: nat): seq<Step> {
    if k == 0 then [] else Fill(k - 1) + [Lock(k - 1, Numbered(k - 1))] + [Finish]
  }

  /** The table holds just the first `k` addresses, each with a request that looks at its semaphore. */
  ghost predicate Filled(y: Slots, k: nat) {
    && y.lock.None? && |y.table| == k && y.next == k
    && (forall a :: a in y.table ==> |a| < k)
    && (forall r :: r in y.requests ==> r < k)
    && (forall i: nat :: i < k ==> FilledAt(y, i))
  }

  ghost predicate FilledAt(y: Slots, i: nat) {
    && Numbered(i) in y.table && y.table[Numbered(i)] == i && i in y.available
    && i in y.requests && y.requests[i] == Looking(Numbered(i), i)
  }

  lemma FillOne(y: Slots, k: nat)
    requires Filled(y, k) && k < ADDRESS_CAPACITY
    ensures Filled(Next(Next(y, Lock(k, Numbered(k))), Finish), k + 1)
  {
    var a := Numbered(k);
    assert a !in y.table && k !in y.requests;
    LockAndFinish(y, k, a);
    FilledMore(y, k);
  }

  lemma FilledMore(y: Slots, k: nat)
    requires Filled(y, k)
    ensures Filled(Entered(y, Numbered(k)).(requests := y.requests[k := Looking(Numbered(k), k)]), k + 1)
  {
    var z := Entered(y, Numbered(k)).(requests := y.requests[k := Looking(Numbered(k), k)]);
    assert |z.table| == k + 1 by {
      assert Numbered(k) !in y.table && z.table.Keys == y.table.Keys + {Numbered(k)};
    }
    forall i: nat | i < k + 1
      ensures FilledAt(z, i)
    {
      if i < k {
        assert FilledAt(y, i);
        FilledStays(y, k, i);
      }
    }
  }

  lemma LockAndFinish(y: Slots, r: nat, a: Address)
    requires y.lock.None? && a !in y.table && r !in y.requests && |y.table| < ADDRESS_CAPACITY
    ensures Next(Next(y, Lock(r, a)), Finish) == Entered(y, a).(requests := y.requests[r := Looking(a, y.next)])
  {
  }

  lemma FilledStays(y: Slots, k: nat, i: nat)
    requires FilledAt(y, i) && i < k && y.next == k
    ensures FilledAt(Entered(y, Numbered(k)).(requests := y.requests[k := Looking(Numbered(k), k)]), i)
  {
    assert |Numbered(i)| != |Numbered(k)|;
  }

  lemma {:induction false} FillWorks(limit: nat, k: nat)
    requires k <= ADDRESS_CAPACITY
    ensures Filled(Run(Init(limit), Fill(k)), k)
  {
    if k > 0 {
      FillWorks(limit, k - 1);
      var before, lock := Fill(k - 1), Lock(k - 1, Numbered(k - 1));
      RunOne(Init(limit), before, lock);
      RunOne(Init(limit), before + [lock], Finish);
      FillOne(Run(Init(limit), before), k - 1);
    }
  }

  /** Looking at busy entries keeps them all. */
  lemma {:induction false} LooksKeep(y: Slots, k: nat)
    requires y.lock.Some? && y.lock.value.todo <= y.table.Keys
    requires forall i: nat :: i < k ==> FilledAt(y, i)
    ensures Run(y, LookAll(k)) == y.(lock := Some(y.lock.value.(todo := y.lock.value.todo - NumberedBelow(k))))
  {
    if k == 0 {
      assert y.lock.value.todo - NumberedBelow(0) == y.lock.value.todo;
    } else {
      LooksKeep(y, k - 1);
      var a, x := Numbered(k - 1), Run(y, LookAll(k - 1));
      RunOne(y, LookAll(k - 1), Look(a));
      assert FilledAt(y, k - 1) && Referenced(y.requests, y.table[a]);
      assert NumberedBelow(k) == NumberedBelow(k - 1) + {a};
      assert y.lock.value.todo - NumberedBelow(k) == y.lock.value.todo - NumberedBelow(k - 1) - {a};
      if a !in x.lock.value.todo { assert x.lock.value.todo - {a} == x.lock.value.todo; }
    }
  }

  function LookAll(k: nat): seq<Step> {
    if k == 0 then [] else LookAll(k - 1) + [Look(Numbered(k - 1))]
  }

  function NumberedBelow(k: nat): set<Address> {
    if k == 0 then {} else NumberedBelow(k - 1) + {Numbered(k - 1)}
  }

  lemma {:induction false} NumberedMeaning(k: nat, i: nat)
    requires i < k
    ensures Numbered(i) in NumberedBelow(k)
  {
    if i < k - 1 { NumberedMeaning(k - 1, i); }
  }

  lemma {:induction false} NumberedCount(k: nat)
    ensures |NumberedBelow(k)| == k && forall a :: a in NumberedBelow(k) ==> |a| < k
  {
    if k > 0 {
      NumberedCount(k - 1);
      assert Numbered(k - 1) !in NumberedBelow(k - 1);
    }
  }

  /** A full table holds just the first addresses. */
  lemma FilledKeys(y: Slots, k: nat)
    requires Filled(y, k)
    ensures y.table.Keys <= NumberedBelow(k)
  {
    NumberedCount(k);
    assert NumberedBelow(k) <= y.table.Keys by { BelowInTable(y, k, k); }
    var keys, below := y.table.Keys, NumberedBelow(k);
    assert |keys| == k && keys == below + (keys - below);
  }

  lemma {:induction false} BelowInTable(y: Slots, k: nat, n: nat)
    requires Filled(y, k) && n <= k
    ensures NumberedBelow(n) <= y.table.Keys
  {
    if n > 0 {
      BelowInTable(y, k, n - 1);
      assert FilledAt(y, n - 1);
    }
  }

  /** The first request comes and goes. */
  lemma FirstLeaves(y: Slots)
    requires 0 in y.requests && y.requests[0].Looking? && y.requests[0].sem in y.available
    ensures var z := Run(y, [Acquire(0)] + [Release(0)] + [DropRef(0)]);
            z.requests == y.requests - {0} && z.table == y.table && z.lock == y.lock
  {
    var x := Next(y, Acquire(0));
    var w := Next(x, Release(0));
    assert w.requests == y.requests[0 := w.requests[0]] && w.requests[0].Leaving?;
    assert y.requests[0 := w.requests[0]] - {0} == y.requests - {0};
    RunOne(y, [], Acquire(0));
    assert [] + [Acquire(0)] == [Acquire(0)];
    RunOne(y, [Acquire(0)], Release(0));
    RunOne(y, [Acquire(0)] + [Release(0)], DropRef(0));
  }

  function Refusal(): seq<Step> {
    var n := ADDRESS_CAPACITY;
    Fill(n) + [Lock(n, Numbered(n))] + LookAll(n) + ([Acquire(0)] + [Release(0)] + [DropRef(0)])
  }

  /** So an entry may be idle when the refusal comes, whatever the limit: its request left after the lookup
      had looked at it. */
  lemma IdleEntryCanRefuse(limit: nat)
    ensures var y := Run(Init(limit), Refusal());
            Refuses(y) && Numbered(0) in y.table && !UnderWay(y, Numbered(0))
  {
    var n, i := ADDRESS_CAPACITY, Init(limit);
    var lock, leave := Lock(n, Numbered(n)), [Acquire(0)] + [Release(0)] + [DropRef(0)];
    FillWorks(limit, n);
    var y := Run(i, Fill(n));
    var x := Next(y, lock);
    RunOne(i, Fill(n), lock);
    RunAppend(i, Fill(n) + [lock], LookAll(n));
    RunAppend(i, Fill(n) + [lock] + LookAll(n), leave);
    LooksThrough(y, x, n);
    var z := Run(x, LookAll(n));
    assert FilledAt(y, 0);
    FirstLeaves(z);
    forall r | r in y.requests && r != 0
      ensures y.requests[r].address != Numbered(0)
    {
      assert FilledAt(y, r);
    }
  }

  lemma LooksThrough(y: Slots, x: Slots, n: nat)
    requires Filled(y, n) && n >= ADDRESS_CAPACITY && x == Next(y, Lock(n, Numbered(n)))
    ensures Run(x, LookAll(n)) == x.(lock := Some(Scan(n, Numbered(n), {}))) && NeedsRoom(x.table, Numbered(n))
    ensures x.table == y.table && x.requests == y.requests && x.available == y.available
  {
    assert Numbered(n) !in y.table && n !in y.requests;
    forall i: nat | i < n
      ensures FilledAt(x, i)
    {
      assert FilledAt(y, i);
    }
    LooksKeep(x, n);
    FilledKeys(y, n);
    assert x.lock.value.todo - NumberedBelow(n) == {};
  }

  // ---------------------------------------------------------------------------------------------
  // The table and its semaphores, updated in place.

  /** The table after a lookup made room, if it had to, and nothing else happened meanwhile. */
  function Retained(y: Slots, address: Address): map<Address, Semaphore> {
    if NeedsRoom(y.table, address) then y.table - (set a | a in y.table && !Referenced(y.requests, y.table[a]))
    else y.table
  }

  /** A lookup that no other step interrupts. */
  function Lookup(y: Slots, r: nat, address: Address): Slots {
    var x := y.(table := Retained(y, address));
    if NeedsRoom(x.table, address) then x else Joined(x, r, address)
  }

  function Looks(entries: seq<Address>): seq<Step> {
    if entries == [] then [] else [Look(entries[0])] + Looks(entries[1..])
  }

  /** The idle ones of the entries that are looked at. */
  function Idle(y: Slots, seen: set<Address>): set<Address>
    requires y.lock.Some?
  {
    set a | a in seen && a in y.lock.value.todo && a in y.table && !Referenced(y.requests, y.table[a])
  }

  /** The state after the given entries were looked at. */
  function Evicted(y: Slots, seen: set<Address>): Slots
    requires y.lock.Some?
  {
    y.(table := y.table - Idle(y, seen), lock := Some(y.lock.value.(todo := y.lock.value.todo - seen)))
  }

  lemma EvictNone(y: Slots)
    requires y.lock.Some?
    ensures Evicted(y, {}) == y
  {
    assert Idle(y, {}) == {} && y.table - {} == y.table;
    assert y.lock.value.todo - {} == y.lock.value.todo;
  }

  lemma EvictOne(y: Slots, seen: set<Address>, a: Address)
    requires y.lock.Some? && y.lock.value.todo <= y.table.Keys
    ensures Next(Evicted(y, seen), Look(a)) == Evicted(y, seen + {a})
  {
    var x, todo := Evicted(y, seen), y.lock.value.todo;
    if a in todo && a !in seen {
      assert a in x.table && x.table[a] == y.table[a];
      assert todo - seen - {a} == todo - (seen + {a});
      if Referenced(y.requests, y.table[a]) {
        assert Idle(y, seen + {a}) == Idle(y, seen);
      } else {
        assert Idle(y, seen + {a}) == Idle(y, seen) + {a};
        assert y.table - Idle(y, seen) - {a} == y.table - (Idle(y, seen) + {a});
      }
    } else {
      assert todo - seen == todo - (seen + {a}) && Idle(y, seen + {a}) == Idle(y, seen);
    }
  }

  function Entries(entries: seq<Address>): set<Address> {
    set a | a in entries
  }

  lemma {:induction false} LooksEvict(y: Slots, seen: set<Address>, entries: seq<Address>)
    requires y.lock.Some? && y.lock.value.todo <= y.table.Keys
    ensures Run(Evicted(y, seen), Looks(entries)) == Evicted(y, seen + Entries(entries))
    decreases |entries|
  {
    if entries == [] {
      assert seen + Entries(entries) == seen;
    } else {
      var first, rest, steps := entries[0], entries[1..], Looks(entries);
      assert steps[0] == Look(first) && steps[1..] == Looks(rest);
      EvictOne(y, seen, first);
      LooksEvict(y, seen + {first}, rest);
      assert seen + {first} + Entries(rest) == seen + Entries(entries);
    }
  }

  /** The steps of a lookup, with no other in between, come to that: in whatever order it looks at the
      entries. */
  lemma LookupIsItsSteps(y: Slots, r: nat, address: Address, entries: seq<Address>)
    requires y.lock.None? && r !in y.requests && y.table.Keys <= Entries(entries)
    ensures Run(y, [Lock(r, address)] + Looks(entries) + [Finish]) == Lookup(y, r, address)
  {
    var steps := [Lock(r, address)] + Looks(entries);
    var x := y.(table := Retained(y, address), lock := Some(Scan(r, address, {})));
    assert Run(y, steps) == x by { LooksLeave(y, r, address, entries); }
    RunOne(y, steps, Finish);
    FinishIsLookup(y, r, address);
  }

  lemma LooksLeave(y: Slots, r: nat, address: Address, entries: seq<Address>)
    requires y.lock.None? && r !in y.requests && y.table.Keys <= Entries(entries)
    ensures Run(y, [Lock(r, address)] + Looks(entries))
         == y.(table := Retained(y, address), lock := Some(Scan(r, address, {})))
  {
    RunFirst(y, Lock(r, address), Looks(entries));
    LooksEvictAll(Next(y, Lock(r, address)), entries);
    LooksRetain(y, r, address, Entries(entries));
  }

  lemma RunFirst(y: Slots, step: Step, rest: seq<Step>)
    ensures Run(y, [step] + rest) == Run(Next(y, step), rest)
  {
    assert ([step] + rest)[1..] == rest;
  }

  lemma LooksEvictAll(x: Slots, entries: seq<Address>)
    requires x.lock.Some? && x.lock.value.todo <= x.table.Keys
    ensures Run(x, Looks(entries)) == Evicted(x, Entries(entries))
  {
    EvictNone(x);
    LooksEvict(x, {}, entries);
    assert {} + Entries(entries) == Entries(entries);
  }

  lemma FinishIsLookup(y: Slots, r: nat, address: Address)
    requires y.lock.None?
    ensures Next(y.(table := Retained(y, address), lock := Some(Scan(r, address, {}))), Finish) == Lookup(y, r, address)
  {
  }

  lemma LooksRetain(y: Slots, r: nat, address: Address, seen: set<Address>)
    requires y.lock.None? && r !in y.requests && y.table.Keys <= seen
    ensures var x := Next(y, Lock(r, address));
            Evicted(x, seen) == y.(table := Retained(y, address), lock := Some(Scan(r, address, {})))
  {
    if NeedsRoom(y.table, address) {
      EvictAll(y.(lock := Some(Scan(r, address, y.table.Keys))), seen);
    } else {
      EvictNothing(y.(lock := Some(Scan(r, address, {}))), seen);
    }
  }

  lemma EvictAll(x: Slots, seen: set<Address>)
    requires x.lock.Some? && x.lock.value.todo == x.table.Keys && x.table.Keys <= seen
    ensures Evicted(x, seen) == x.(table := x.table - (set a | a in x.table && !Referenced(x.requests, x.table[a])),
                                   lock := Some(x.lock.value.(todo := {})))
  {
    assert Idle(x, seen) == set a | a in x.table && !Referenced(x.requests, x.table[a]);
    assert x.table.Keys - seen == {};
  }

  lemma EvictNothing(x: Slots, seen: set<Address>)
    requires x.lock.Some? && x.lock.value.todo == {}
    ensures Evicted(x, seen) == x
  {
    assert Idle(x, seen) == {} && x.table - {} == x.table;
    assert x.lock.value.todo - seen == x.lock.value.todo;
  }

  class SlotTable {
    const limit: nat
    var table: map<Address, Semaphore>
    var available: map<Semaphore, nat>
    var owner: map<Semaphore, Address>
    var next: Semaphore
    var requests: map<nat, Request>

    ghost function View(): Slots
      reads this
    {
      Slots(limit, table, available, owner, next, requests, None)
    }

    constructor (limit: nat)
      ensures View() == Init(limit)
    {
      this.limit := limit;
      table, available, owner, next, requests := map[], map[], map[], 0, map[];
    }

    /** Find or make the semaphore of an address, evicting idle entries of a full table first. */
    method LookupSlot(r: nat, address: Address) returns (ok: bool)
      requires r !in requests
      modifies this
      ensures View() == Lookup(old(View()), r, address)
      ensures ok <==> !NeedsRoom(Retained(old(View()), address), address)
    {
      if address !in table && |table| >= ADDRESS_CAPACITY {
        table := table - (set a | a in table && !Referenced(requests, table[a]));
      }
      if address !in table && |table| >= ADDRESS_CAPACITY { return false; }
      if address !in table {
        table := table[address := next];
        available := available[next := limit];
        owner := owner[next := address];
        next := next + 1;
      }
      requests := requests[r := Looking(address, table[address])];
      return true;
    }

    /** Take a permit, if one is free. */
    method TryAcquire(r: nat) returns (ok: bool)
      requires r in requests && requests[r].Looking? && requests[r].sem in available
      modifies this`available, this`requests
      ensures View() == Next(old(View()), Acquire(r))
      ensures r in requests && (ok <==> requests[r].Holds?)
    {
      var Looking(address, sem) := requests[r];
      if available[sem] == 0 {
        assert available[sem := 0] == available;
        requests := requests[r := Leaving(address, sem)];
        return false;
      }
      available := available[sem := available[sem] - 1];
      requests := requests[r := Holds(address, sem)];
      return true;
    }

    /** Give the permit back; the reference to the semaphore goes in a later step. */
    method ReleasePermit(r: nat)
      requires r in requests && requests[r].Holds? && requests[r].sem in available
      modifies this`available, this`requests
      ensures View() == Next(old(View()), Release(r))
    {
      var Holds(address, sem) := requests[r];
      available := available[sem := available[sem] + 1];
      requests := requests[r := Leaving(address, sem)];
    }

    /** Drop the reference. */
    method DropReference(r: nat)
      requires r in requests && requests[r].Leaving? && requests[r].sem in available
      modifies this`requests
      ensures View() == Next(old(View()), DropRef(r))
    {
      assert available[requests[r].sem := available[requests[r].sem]] == available;
      requests := requests - {r};
    }
  }
}
