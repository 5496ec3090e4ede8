/** The gateway's copy of the key registry, fed by pulled and pushed snapshots alike
    (services/gateway/src/api_keys.rs and services/gateway/src/key_registry.rs). */
module KeyStore {
  import opened Common
  import opened Json

  const SNAPSHOT_SCHEMA: string := "confidential.ai/key-registry-snapshot/v1"
  const MAX_SNAPSHOT_KEYS: nat := 10_000

  datatype Row = Row(id: string, keyHash: string, pepperFingerprint: string, createdAt: string, revokedAt: Option<string>)

  datatype Push = Push(schemaVersion: string, environment: string, revision: int, pepperFingerprint: string, keys: seq<Row>)

  datatype CachedKey = CachedKey(id: string, hash: Bytes, revoked: bool)

  datatype Snapshot = Snapshot(revision: int, appliedAt: int, keys: seq<CachedKey>, mismatches: nat)

  datatype SnapshotError = Invalid | StaleRevision | PepperMismatch(expected: string, received: string)

  datatype PushResult = PushResult(revision: int, cachedRevision: int, accepted: nat, skipped: nat, applied: bool)

  datatype Decision = Apply | AlreadyHeld | Refuse

  /** What is fixed for one store; timestamps, base64 and the keyed hash are parameters. */
  datatype Config = Config(
    environment: string, fingerprint: string,
    timestampOk: string -> bool, decode: string -> Option<Bytes>, keyedHash: string -> Bytes)

  // ---------------------------------------------------------------------------------------------
  // The rules of the contract.

  function RevisionDecision(cached: Option<int>, revision: int): Decision {
    var held := if cached.Some? then cached.value else 0;
    if revision > held then Apply
    else if revision == held && cached.Some? then AlreadyHeld
    else Refuse
  }

  predicate ValidPush(cfg: Config, push: Push) {
    && push.schemaVersion == SNAPSHOT_SCHEMA
    && (cfg.environment == "" || push.environment == cfg.environment)
    && push.revision >= 1
    && |push.keys| <= MAX_SNAPSHOT_KEYS
  }

  predicate PepperMatches(cfg: Config, push: Push) {
    push.pepperFingerprint == "" || push.pepperFingerprint == cfg.fingerprint
  }

  predicate RowParses(cfg: Config, row: Row) {
    && cfg.timestampOk(row.createdAt)
    && (row.revokedAt.Some? ==> cfg.timestampOk(row.revokedAt.value))
    && cfg.decode(row.keyHash).Some?
  }

  function Ours(cfg: Config): Row -> bool {
    (row: Row) => row.pepperFingerprint == cfg.fingerprint
  }

  function Others(cfg: Config): Row -> bool {
    (row: Row) => row.pepperFingerprint != cfg.fingerprint
  }

  function CachedKeyOf(cfg: Config, row: Row): CachedKey {
    CachedKey(row.id, if cfg.decode(row.keyHash).Some? then cfg.decode(row.keyHash).value else [], row.revokedAt.Some?)
  }

  function CachedKeys(cfg: Config, rows: seq<Row>): (keys: seq<CachedKey>)
    ensures |keys| == |rows|
    ensures forall i :: 0 <= i < |rows| ==> keys[i] == CachedKeyOf(cfg, rows[i])
  {
    if rows == [] then [] else [CachedKeyOf(cfg, rows[0])] + CachedKeys(cfg, rows[1..])
  }

  lemma {:induction false} CachedKeysAppend(cfg: Config, rows: seq<Row>, row: Row)
    ensures CachedKeys(cfg, rows + [row]) == CachedKeys(cfg, rows) + [CachedKeyOf(cfg, row)]
  {
    assert forall i :: 0 <= i <= |rows| ==>
      CachedKeys(cfg, rows + [row])[i] == (CachedKeys(cfg, rows) + [CachedKeyOf(cfg, row)])[i];
  }

  /** A snapshot parses when every row does; its keys are the rows with the gateway's pepper. */
  function Parsed(cfg: Config, push: Push, now: int): Snapshot {
    Snapshot(push.revision, now, CachedKeys(cfg, Filter(Ours(cfg), push.keys)), |Filter(Others(cfg), push.keys)|)
  }

  predicate Parses(cfg: Config, push: Push) {
    forall row :: row in push.keys ==> RowParses(cfg, row)
  }

  /** A push is read as a whole: the snapshot of all its rows, or none when some row is invalid. */
  method Parse(cfg: Config, push: Push, now: int) returns (r: Result<Snapshot, SnapshotError>)
    ensures r == if Parses(cfg, push) then Ok(Parsed(cfg, push, now)) else Err(Invalid)
  {
    var keys: seq<CachedKey>, mismatches: nat := [], 0;
    for i := 0 to |push.keys|
      invariant forall row :: row in push.keys[..i] ==> RowParses(cfg, row)
      invariant keys == CachedKeys(cfg, Filter(Ours(cfg), push.keys[..i]))
      invariant mismatches == |Filter(Others(cfg), push.keys[..i])|
    {
      var row := push.keys[i];
      assert row in push.keys && (Parses(cfg, push) ==> RowParses(cfg, row));
      if !cfg.timestampOk(row.createdAt) { return Err(Invalid); }
      if row.revokedAt.Some? && !cfg.timestampOk(row.revokedAt.value) { return Err(Invalid); }
      var hash := cfg.decode(row.keyHash);
      if hash.None? { return Err(Invalid); }
      assert push.keys[..i + 1] == push.keys[..i] + [row];
      FilterSnoc(Ours(cfg), push.keys[..i], row);
      FilterSnoc(Others(cfg), push.keys[..i], row);
      if row.pepperFingerprint != cfg.fingerprint {
        mismatches := mismatches + 1;
        continue;
      }
      CachedKeysAppend(cfg, Filter(Ours(cfg), push.keys[..i]), row);
      keys := keys + [CachedKey(row.id, hash.value, row.revokedAt.Some?)];
    }
    assert push.keys[..|push.keys|] == push.keys;
    return Ok(Snapshot(push.revision, now, keys, mismatches));
  }

  /** Accepted and skipped rows are all the rows. */
  lemma {:induction false} RowsAreCounted(cfg: Config, rows: seq<Row>)
    ensures |Filter(Ours(cfg), rows)| + |Filter(Others(cfg), rows)| == |rows|
  {
    if rows != [] { RowsAreCounted(cfg, rows[1..]); }
  }

  // ---------------------------------------------------------------------------------------------
  // Applying a snapshot.

  function ApplyTo(cfg: Config, held: Option<Snapshot>, push: Push, now: int)
    : (Result<PushResult, SnapshotError>, Option<Snapshot>)
  {
    if !ValidPush(cfg, push) then (Err(Invalid), held)
    else if !PepperMatches(cfg, push) then (Err(PepperMismatch(cfg.fingerprint, push.pepperFingerprint)), held)
    else
      match RevisionDecision(if held.Some? then Some(held.value.revision) else None, push.revision)
      case Refuse => (Err(StaleRevision), held)
      case AlreadyHeld =>
        (Ok(PushResult(push.revision, push.revision, 0, 0, false)), Some(held.value.(appliedAt := now)))
      case Apply =>
        if !Parses(cfg, push) then (Err(Invalid), held)
        else
          var snapshot := Parsed(cfg, push, now);
          (Ok(PushResult(push.revision, push.revision, |snapshot.keys|, snapshot.mismatches, true)), Some(snapshot))
  }

  class Store {
    const cfg: Config
    var snapshot: Option<Snapshot>

    constructor (cfg: Config)
      ensures this.cfg == cfg && snapshot == None
    {
      this.cfg := cfg;
      snapshot := None;
    }

    method ApplyPush(push: Push, now: int) returns (r: Result<PushResult, SnapshotError>)
      modifies this`snapshot
      ensures (r, snapshot) == ApplyTo(cfg, old(snapshot), push, now)
      ensures r.Err? ==> snapshot == old(snapshot)
      ensures r.Ok? && r.value.applied ==> r.value.accepted + r.value.skipped == |push.keys|
    {
      if !ValidPush(cfg, push) { return Err(Invalid); }
      if !PepperMatches(cfg, push) { return Err(PepperMismatch(cfg.fingerprint, push.pepperFingerprint)); }
      var decision := RevisionDecision(if snapshot.Some? then Some(snapshot.value.revision) else None, push.revision);
      match decision {
        case Refuse => return Err(StaleRevision);
        case AlreadyHeld =>
          snapshot := Some(snapshot.value.(appliedAt := now));
          return Ok(PushResult(push.revision, push.revision, 0, 0, false));
        case Apply =>
          RowsAreCounted(cfg, push.keys);
          var parsed := Parse(cfg, push, now);
          if parsed.Err? { return Err(parsed.error); }
          snapshot := Some(parsed.value);
          return Ok(PushResult(push.revision, push.revision, |parsed.value.keys|, parsed.value.mismatches, true));
      }
    }

    /** The id of the first cached key with the hash of `value` and the given revocation state. */
    method Find(value: string, revoked: bool) returns (r: Option<string>)
      ensures r.Some? <==> snapshot.Some? && exists k :: k in snapshot.value.keys && Fits(cfg, k, value, revoked)
      ensures r.Some? ==> exists i :: IsFirstFit(cfg, snapshot.value.keys, value, revoked, i) && r.value == snapshot.value.keys[i].id
    {
      if snapshot.None? { return None; }
      var keys := snapshot.value.keys;
      for i := 0 to |keys|
        invariant forall j :: 0 <= j < i ==> !Fits(cfg, keys[j], value, revoked)
      {
        if keys[i].revoked == revoked && keys[i].hash == cfg.keyedHash(value) {
          assert keys[i] in keys && IsFirstFit(cfg, keys, value, revoked, i);
          return Some(keys[i].id);
        }
      }
      return None;
    }
  }

  predicate IsFirstFit(cfg: Config, keys: seq<CachedKey>, value: string, revoked: bool, i: int) {
    0 <= i < |keys| && Fits(cfg, keys[i], value, revoked) && forall j :: 0 <= j < i ==> !Fits(cfg, keys[j], value, revoked)
  }

  predicate Fits(cfg: Config, key: CachedKey, value: string, revoked: bool) {
    key.revoked == revoked && key.hash == cfg.keyedHash(value)
  }

  // ---------------------------------------------------------------------------------------------
  // Convergence.

  predicate Acceptable(cfg: Config, push: Push) {
    ValidPush(cfg, push) && PepperMatches(cfg, push) && Parses(cfg, push)
  }

  /** A snapshot that arrives, by either way, with the time it does. */
  type Arrival = (Push, int)

  function Run(cfg: Config, held: Option<Snapshot>, arrivals: seq<Arrival>): Option<Snapshot>
    decreases |arrivals|
  {
    if arrivals == [] then held
    else Run(cfg, ApplyTo(cfg, held, arrivals[0].0, arrivals[0].1).1, arrivals[1..])
  }

  /** The store holds what the snapshot `push` says. */
  ghost predicate HoldsPush(cfg: Config, held: Option<Snapshot>, push: Push) {
    held.Some? && held.value == Parsed(cfg, push, held.value.appliedAt)
  }

  /** The first acceptable snapshot with the highest revision among `arrivals`. */
  ghost predicate Wins(cfg: Config, arrivals: seq<Arrival>, w: int) {
    && 0 <= w < |arrivals| && Acceptable(cfg, arrivals[w].0)
    && (forall i :: 0 <= i < |arrivals| && Acceptable(cfg, arrivals[i].0) ==>
          arrivals[i].0.revision <= arrivals[w].0.revision && (i < w ==> arrivals[i].0.revision < arrivals[w].0.revision))
  }

  /** The revision a store holds, zero when it holds none. */
  function HeldRevision(held: Option<Snapshot>): int {
    if held.Some? then held.value.revision else 0
  }

  lemma {:induction false} RevisionNeverDecreases(cfg: Config, held: Option<Snapshot>, arrivals: seq<Arrival>)
    requires HeldRevision(held) >= 0
    ensures HeldRevision(Run(cfg, held, arrivals)) >= HeldRevision(held)
    ensures held.Some? ==> Run(cfg, held, arrivals).Some?
    decreases |arrivals|
  {
    if arrivals != [] {
      RevisionNeverDecreases(cfg, ApplyTo(cfg, held, arrivals[0].0, arrivals[0].1).1, arrivals[1..]);
    }
  }

  /** Once a store holds a revision, snapshots of no higher revision change nothing but the time. */
  lemma {:induction false} LowerRevisionsChangeNothing(cfg: Config, held: Option<Snapshot>, push: Push, arrivals: seq<Arrival>)
    requires HoldsPush(cfg, held, push) && push.revision >= 1
    requires forall a :: a in arrivals && Acceptable(cfg, a.0) ==> a.0.revision <= push.revision
    ensures HoldsPush(cfg, Run(cfg, held, arrivals), push)
    decreases |arrivals|
  {
    if arrivals != [] {
      LowerRevisionsChangeNothing(cfg, ApplyTo(cfg, held, arrivals[0].0, arrivals[0].1).1, push, arrivals[1..]);
    }
  }

  lemma {:induction false} WinnerIsHeld(cfg: Config, held: Option<Snapshot>, arrivals: seq<Arrival>, w: int)
    requires Wins(cfg, arrivals, w) && 0 <= HeldRevision(held) < arrivals[w].0.revision
    ensures HoldsPush(cfg, Run(cfg, held, arrivals), arrivals[w].0)
    decreases |arrivals|
  {
    var next, rest := ApplyTo(cfg, held, arrivals[0].0, arrivals[0].1).1, arrivals[1..];
    if w == 0 {
      assert forall a :: a in rest && Acceptable(cfg, a.0) ==> a.0.revision <= arrivals[0].0.revision;
      LowerRevisionsChangeNothing(cfg, next, arrivals[0].0, rest);
    } else {
      assert forall i :: 0 <= i < |rest| ==> rest[i] == arrivals[i + 1];
      WinnerIsHeld(cfg, next, rest, w - 1);
    }
  }

  lemma {:induction false} NothingAcceptable(cfg: Config, held: Option<Snapshot>, arrivals: seq<Arrival>)
    requires held.None? && forall a :: a in arrivals ==> !Acceptable(cfg, a.0)
    ensures Run(cfg, held, arrivals).None?
    decreases |arrivals|
  {
    if arrivals != [] { NothingAcceptable(cfg, held, arrivals[1..]); }
  }

  lemma {:induction false} WinnerExists(cfg: Config, arrivals: seq<Arrival>) returns (w: int)
    requires exists a :: a in arrivals && Acceptable(cfg, a.0)
    ensures Wins(cfg, arrivals, w)
    decreases |arrivals|
  {
    var n := |arrivals| - 1;
    var front, last := arrivals[..n], arrivals[n];
    assert arrivals == front + [last];
    if exists a :: a in front && Acceptable(cfg, a.0) {
      w := WinnerExists(cfg, front);
      assert forall i :: 0 <= i < n ==> front[i] == arrivals[i];
      if Acceptable(cfg, last.0) && last.0.revision > front[w].0.revision { w := n; }
    } else {
      w := n;
      assert forall i :: 0 <= i < n ==> arrivals[i] in front;
    }
  }

  /** One body per revision: the admin never serves two snapshots under one revision. */
  ghost predicate OneBodyPerRevision(arrivals: seq<Arrival>) {
    forall a, b :: a in arrivals && b in arrivals && a.0.revision == b.0.revision ==> a.0 == b.0
  }

  /** Convergence: whatever the order, repetition and mix of arrivals, a store that started empty holds
      exactly the acceptable snapshot of highest revision, or nothing when none is acceptable. */
  lemma Convergence(cfg: Config, arrivals: seq<Arrival>, best: Push)
    requires OneBodyPerRevision(arrivals)
    requires exists a :: a in arrivals && a.0 == best
    requires Acceptable(cfg, best) && forall a :: a in arrivals && Acceptable(cfg, a.0) ==> a.0.revision <= best.revision
    ensures HoldsPush(cfg, Run(cfg, None, arrivals), best)
  {
    var w := WinnerExists(cfg, arrivals);
    WinnerIsHeld(cfg, None, arrivals, w);
    assert arrivals[w].0 == best;
  }

  /** Two gateways that saw the same snapshots, in any order and number, agree on keys and revision. */
  lemma SameArrivalsAgree(cfg: Config, a: seq<Arrival>, b: seq<Arrival>)
    requires OneBodyPerRevision(a)
    requires (set x | x in a :: x.0) == (set x | x in b :: x.0)
    ensures var p, q := Run(cfg, None, a), Run(cfg, None, b);
            p.None? == q.None? && (p.Some? ==> q.value == p.value.(appliedAt := q.value.appliedAt))
  {
    var pushes := set x | x in a :: x.0;
    assert forall x :: x in a ==> x.0 in pushes;
    assert forall x :: x in b ==> x.0 in pushes;
    if exists x :: x in a && Acceptable(cfg, x.0) {
      var w := WinnerExists(cfg, a);
      WinnerIsHeld(cfg, None, a, w);
      assert a[w].0 in pushes;
      Convergence(cfg, b, a[w].0);
    } else {
      NothingAcceptable(cfg, None, a);
      NothingAcceptable(cfg, None, b);
    }
  }
}
