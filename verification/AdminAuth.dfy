/** Signed admin requests and the nonce store that stops their replay
    (services/gateway/src/admin_auth.rs). Hashing, signatures and decoding are parameters. */
module AdminAuth {
  import opened Common
  import opened Json

  const MAX_CLOCK_SKEW_SECONDS: nat := 60
  const MAX_NONCES: nat := 4096
  const MAX_U64: nat := 0xFFFF_FFFF_FFFF_FFFF

  /** A header value that is text, or bytes that are not. */
  datatype HeaderValue = Text(text: string) | NotText

  datatype Request = Request(method_: string, path: string, headers: map<string, seq<HeaderValue>>, body: Bytes)

  datatype Library = Library(
    parseU64: string -> Option<nat>, sha256Hex: Bytes -> string, decode: string -> Option<Bytes>,
    signatureOk: (string, Bytes) -> bool)

  datatype Refusal =
    | MissingSignature | DuplicateHeader | InvalidHeader | UnsupportedVersion | InvalidTimestamp | StaleSignature
    | InvalidNonce | BodyHashMismatch | InvalidSignature | ReplayedSignature | NonceStoreFull

  type Store = map<string, nat>

  // ---------------------------------------------------------------------------------------------
  // The canonical form that is signed.

  function CanonicalRequest(method_: string, path: string, timestamp: string, nonce: string, bodyHash: string): string {
    "v1\n" + timestamp + "\n" + nonce + "\n" + method_ + "\n" + path + "\n" + bodyHash + "\n"
  }

  predicate OneLine(s: string) {
    forall i :: 0 <= i < |s| ==> s[i] != '\n'
  }

  function Line(field: string, rest: string): string {
    field + "\n" + rest
  }

  /** A line break ends a field, so two fields followed by one have one way to be read back. */
  lemma FirstFieldUnique(a: string, rest: string, b: string, other: string)
    requires OneLine(a) && OneLine(b) && Line(a, rest) == Line(b, other)
    ensures a == b && rest == other
  {
    var s, t := Line(a, rest), Line(b, other);
    assert |a| == |b| by {
      assert s[|a|] == '\n' && t[|b|] == '\n';
      assert forall i :: 0 <= i < |a| ==> s[i] == a[i];
      assert forall i :: 0 <= i < |b| ==> t[i] == b[i];
    }
    assert a == s[..|a|] && b == t[..|b|];
    assert rest == s[|a| + 1..] && other == t[|b| + 1..];
  }

  /** The fields of a signed request, in the order they are signed. */
  datatype Fields = Fields(timestamp: string, nonce: string, method_: string, path: string, bodyHash: string)

  predicate FieldsOk(f: Fields) {
    OneLine(f.timestamp) && OneLine(f.nonce) && OneLine(f.method_) && OneLine(f.path) && OneLine(f.bodyHash)
  }

  function Canonical(f: Fields): string {
    CanonicalRequest(f.method_, f.path, f.timestamp, f.nonce, f.bodyHash)
  }

  /** The fields from the `n`-th on, each on a line of its own. */
  function LinesFrom(f: Fields, n: nat): string
    decreases 5 - n
  {
    if n == 0 then Line(f.timestamp, LinesFrom(f, 1))
    else if n == 1 then Line(f.nonce, LinesFrom(f, 2))
    else if n == 2 then Line(f.method_, LinesFrom(f, 3))
    else if n == 3 then Line(f.path, LinesFrom(f, 4))
    else Line(f.bodyHash, "")
  }

  lemma CanonicalIsLines(f: Fields)
    ensures Canonical(f) == Line("v1", LinesFrom(f, 0))
  {
    var a := "v1\n" + f.timestamp;
    var b := a + "\n" + f.nonce;
    var c := b + "\n" + f.method_;
    var d := c + "\n" + f.path;
    assert Canonical(f) == d + "\n" + LinesFrom(f, 4);
    assert d + "\n" + LinesFrom(f, 4) == c + "\n" + LinesFrom(f, 3);
    assert c + "\n" + LinesFrom(f, 3) == b + "\n" + LinesFrom(f, 2);
    assert b + "\n" + LinesFrom(f, 2) == a + "\n" + LinesFrom(f, 1);
    assert a + "\n" + LinesFrom(f, 1) == "v1\n" + LinesFrom(f, 0);
    assert "v1\n" == "v1" + "\n";
  }

  /** A signature binds every field: no two requests share a canonical form. */
  lemma CanonicalInjective(f: Fields, g: Fields)
    requires FieldsOk(f) && FieldsOk(g) && Canonical(f) == Canonical(g)
    ensures f == g
  {
    CanonicalIsLines(f);
    CanonicalIsLines(g);
    FirstFieldUnique("v1", LinesFrom(f, 0), "v1", LinesFrom(g, 0));
    FirstFieldUnique(f.timestamp, LinesFrom(f, 1), g.timestamp, LinesFrom(g, 1));
    FirstFieldUnique(f.nonce, LinesFrom(f, 2), g.nonce, LinesFrom(g, 2));
    FirstFieldUnique(f.method_, LinesFrom(f, 3), g.method_, LinesFrom(g, 3));
    FirstFieldUnique(f.path, LinesFrom(f, 4), g.path, LinesFrom(g, 4));
    FirstFieldUnique(f.bodyHash, "", g.bodyHash, "");
  }

  // ---------------------------------------------------------------------------------------------
  // One request.

  function OneHeader(request: Request, name: string): Result<string, Refusal> {
    if name !in request.headers || request.headers[name] == [] then Err(MissingSignature)
    else if |request.headers[name]| > 1 then Err(DuplicateHeader)
    else
      match request.headers[name][0]
      case Text(text) => Ok(text)
      case NotText => Err(InvalidHeader)
  }

  function Distance(a: nat, b: nat): nat {
    if a < b then b - a else a - b
  }

  predicate IsHexDigit(c: char) {
    '0' <= c <= '9' || 'a' <= c <= 'f' || 'A' <= c <= 'F'
  }

  predicate NonceOk(nonce: string) {
    |nonce| == 32 && forall i :: 0 <= i < |nonce| ==> IsHexDigit(nonce[i])
  }

  /** Every check before the nonce store: the nonce and timestamp of a well-signed, current request. */
  function Precheck(lib: Library, request: Request, now: nat): Result<(string, nat), Refusal> {
    var version := OneHeader(request, "x-admin-signature-version");
    var timestampText := OneHeader(request, "x-admin-timestamp");
    var nonce := OneHeader(request, "x-admin-nonce");
    var claimed := OneHeader(request, "x-admin-body-sha256");
    var signatureText := OneHeader(request, "x-admin-signature");
    if version.Err? then Err(version.error)
    else if timestampText.Err? then Err(timestampText.error)
    else if nonce.Err? then Err(nonce.error)
    else if claimed.Err? then Err(claimed.error)
    else if signatureText.Err? then Err(signatureText.error)
    else if version.value != "v1" then Err(UnsupportedVersion)
    else
      var timestamp := lib.parseU64(timestampText.value);
      if timestamp.None? then Err(InvalidTimestamp)
      else if Distance(now, timestamp.value) > MAX_CLOCK_SKEW_SECONDS then Err(StaleSignature)
      else if !NonceOk(nonce.value) then Err(InvalidNonce)
      else
        var bodyHash := lib.sha256Hex(request.body);
        if claimed.value != bodyHash then Err(BodyHashMismatch)
        else
          var signature := lib.decode(signatureText.value);
          if signature.None? then Err(InvalidSignature)
          else if !lib.signatureOk(
            CanonicalRequest(request.method_, request.path, timestampText.value, nonce.value, bodyHash), signature.value)
          then Err(InvalidSignature)
          else Ok((nonce.value, timestamp.value))
  }

  function Kept(store: Store, now: nat): (kept: Store)
    ensures forall n :: n in kept <==> n in store && store[n] >= now
    ensures forall n :: n in kept ==> kept[n] == store[n]
  {
    store - (set n | n in store && store[n] < now)
  }

  /** How long a nonce is kept: while the later of its timestamp and its receipt is inside the skew. */
  function Expiry(timestamp: nat, now: nat): nat {
    Min((if timestamp < now then now else timestamp) + MAX_CLOCK_SKEW_SECONDS, MAX_U64)
  }

  /** The store's part of the decision, on a request that passed or failed the checks before it. */
  function StoreStep(store: Store, checked: Result<(string, nat), Refusal>, now: nat): (Result<(), Refusal>, Store) {
    if checked.Err? then (Err(checked.error), store)
    else
      var (nonce, timestamp) := checked.value;
      var kept := Kept(store, now);
      if nonce in kept then (Err(ReplayedSignature), kept)
      else if |kept| >= MAX_NONCES then (Err(NonceStoreFull), kept)
      else (Ok(()), kept[nonce := Expiry(timestamp, now)])
  }

  function Verify(lib: Library, store: Store, request: Request, now: nat): (Result<(), Refusal>, Store) {
    StoreStep(store, Precheck(lib, request, now), now)
  }

  class Verifier {
    const lib: Library
    var nonces: Store

    constructor (lib: Library)
      ensures this.lib == lib && nonces == map[]
    {
      this.lib := lib;
      nonces := map[];
    }

    method VerifyRequest(request: Request, now: nat) returns (r: Result<(), Refusal>)
      requires |nonces| <= MAX_NONCES
      modifies this`nonces
      ensures (r, nonces) == Verify(lib, old(nonces), request, now)
      ensures |nonces| <= MAX_NONCES
    {
      KeptIsSmaller(nonces, now);
      var checked := Precheck(lib, request, now);
      if checked.Err? { return Err(checked.error); }
      var (nonce, timestamp) := checked.value;
      nonces := nonces - (set n | n in nonces && nonces[n] < now);
      if nonce in nonces { return Err(ReplayedSignature); }
      if |nonces| >= MAX_NONCES { return Err(NonceStoreFull); }
      nonces := nonces[nonce := Expiry(timestamp, now)];
      return Ok(());
    }
  }

  lemma KeptIsSmaller(store: Store, now: nat)
    ensures |Kept(store, now)| <= |store|
  {
    assert store.Keys == Kept(store, now).Keys + (store.Keys - Kept(store, now).Keys);
  }

  // ---------------------------------------------------------------------------------------------
  // Runs.

  /** One call as the store sees it: the outcome of the checks before it, and the clock reading. */
  datatype Call = Call(checked: Result<(string, nat), Refusal>, now: nat)

  /** A request that passed the checks was signed within the skew of the clock reading. */
  predicate CallOk(c: Call) {
    c.now <= MAX_U64 && (c.checked.Ok? ==> Distance(c.now, c.checked.value.1) <= MAX_CLOCK_SKEW_SECONDS)
  }

  function CallOf(lib: Library, request: Request, now: nat): Call {
    Call(Precheck(lib, request, now), now)
  }

  lemma EveryCallIsOk(lib: Library, request: Request, now: nat)
    requires now <= MAX_U64
    ensures CallOk(CallOf(lib, request, now))
  {
  }

  /** The store after the first `n` calls of a run from an empty store. */
  function After(calls: seq<Call>, n: nat): Store
    requires n <= |calls|
  {
    if n == 0 then map[] else StoreStep(After(calls, n - 1), calls[n - 1].checked, calls[n - 1].now).1
  }

  function OutcomeOf(calls: seq<Call>, i: nat): Result<(), Refusal>
    requires i < |calls|
  {
    StoreStep(After(calls, i), calls[i].checked, calls[i].now).0
  }

  ghost predicate RunOk(calls: seq<Call>) {
    forall c :: c in calls ==> CallOk(c)
  }

  ghost predicate Monotone(calls: seq<Call>) {
    forall i, j :: 0 <= i < j < |calls| ==> calls[i].now <= calls[j].now
  }

  lemma {:induction false} StoreBounded(calls: seq<Call>, n: nat)
    requires n <= |calls|
    ensures |After(calls, n)| <= MAX_NONCES
  {
    if n > 0 {
      StoreBounded(calls, n - 1);
      KeptIsSmaller(After(calls, n - 1), calls[n - 1].now);
    }
  }

  function ExpiryOf(c: Call): nat
    requires c.checked.Ok?
  {
    Expiry(c.checked.value.1, c.now)
  }

  /** Some call from `i` on and before `j` reached the store with a clock past `expiry`. */
  ghost predicate PrunedBetween(calls: seq<Call>, i: nat, j: nat, expiry: nat)
    requires j <= |calls|
  {
    exists k :: i <= k < j && calls[k].checked.Ok? && calls[k].now > expiry
  }

  lemma StepKeepsNonce(store: Store, c: Call, nonce: string, expiry: nat)
    requires nonce in store && store[nonce] >= expiry && !(c.checked.Ok? && c.now > expiry)
    ensures var next := StoreStep(store, c.checked, c.now).1; nonce in next && next[nonce] >= expiry
  {
  }

  /** Once accepted, a nonce stays stored for at least its own expiry until a call passes that. */
  lemma {:induction false} StoredOrPruned(calls: seq<Call>, i: nat, j: nat)
    requires i < j <= |calls| && OutcomeOf(calls, i).Ok?
    ensures var nonce, expiry := calls[i].checked.value.0, ExpiryOf(calls[i]);
            || (nonce in After(calls, j) && After(calls, j)[nonce] >= expiry)
            || PrunedBetween(calls, i + 1, j, expiry)
    decreases j - i
  {
    var nonce, expiry := calls[i].checked.value.0, ExpiryOf(calls[i]);
    if i + 1 < j {
      StoredOrPruned(calls, i, j - 1);
      var last, store := calls[j - 1], After(calls, j - 1);
      if PrunedBetween(calls, i + 1, j - 1, expiry) {
        assert PrunedBetween(calls, i + 1, j, expiry);
      } else if !(last.checked.Ok? && last.now > expiry) {
        StepKeepsNonce(store, last, nonce, expiry);
      }
    }
  }

  /** With clock readings that never go back, in the order the calls reach the store, a signed request
      (one nonce and timestamp) is accepted at most once over every run. */
  lemma AcceptedAtMostOnce(calls: seq<Call>, i: nat, j: nat)
    requires RunOk(calls) && Monotone(calls) && i < j < |calls|
    requires calls[i].checked.Ok? && calls[j].checked == calls[i].checked
    ensures !(OutcomeOf(calls, i).Ok? && OutcomeOf(calls, j).Ok?)
  {
    if OutcomeOf(calls, i).Ok? {
      StoredOrPruned(calls, i, j);
      assert CallOk(calls[j]) && CallOk(calls[i]);
    }
  }

  /** While the timestamp of an accepted request is inside the skew window its nonce is stored. */
  lemma StoredWhileInsideSkew(calls: seq<Call>, i: nat, j: nat, now: nat)
    requires RunOk(calls) && Monotone(calls) && i < j <= |calls| && OutcomeOf(calls, i).Ok?
    requires now <= MAX_U64 && forall c :: c in calls ==> c.now <= now
    requires Distance(now, calls[i].checked.value.1) <= MAX_CLOCK_SKEW_SECONDS
    ensures calls[i].checked.value.0 in Kept(After(calls, j), now)
  {
    StoredOrPruned(calls, i, j);
    assert CallOk(calls[i]);
  }

  /** What one call does to a stored nonce that it does not carry, or that it is refused with. */
  lemma StepWithoutAccepting(store: Store, c: Call, nonce: string)
    requires c.checked.Ok? && c.checked.value.0 == nonce ==> StoreStep(store, c.checked, c.now).0.Err?
    ensures var next := StoreStep(store, c.checked, c.now).1;
            && (nonce in next <==> nonce in store && (c.checked.Ok? ==> c.now <= store[nonce]))
            && (nonce in next ==> next[nonce] == store[nonce])
  {
  }

  /** No call from `i` on and before `j` was accepted with the nonce. */
  ghost predicate NotAccepted(calls: seq<Call>, i: nat, j: nat, nonce: string)
    requires j <= |calls|
  {
    forall k :: i <= k < j && calls[k].checked.Ok? && calls[k].checked.value.0 == nonce ==> OutcomeOf(calls, k).Err?
  }

  lemma PrunedBetweenStep(calls: seq<Call>, i: nat, j: nat, expiry: nat)
    requires i < j <= |calls|
    ensures var last := calls[j - 1];
            PrunedBetween(calls, i, j, expiry)
            <==> PrunedBetween(calls, i, j - 1, expiry) || (last.checked.Ok? && last.now > expiry)
  {
  }

  /** Without that assumption on the clock: an accepted nonce that is not accepted again is stored
      exactly as long as no call reached the store with a clock past its expiry. */
  lemma {:induction false} StoredUntilPruned(calls: seq<Call>, i: nat, j: nat)
    requires i < j <= |calls| && OutcomeOf(calls, i).Ok?
    requires NotAccepted(calls, i + 1, j, calls[i].checked.value.0)
    ensures var nonce, expiry, store := calls[i].checked.value.0, ExpiryOf(calls[i]), After(calls, j);
            && (nonce in store <==> !PrunedBetween(calls, i + 1, j, expiry))
            && (nonce in store ==> store[nonce] == expiry)
    decreases j - i
  {
    if i + 1 < j {
      StoredUntilPruned(calls, i, j - 1);
      PrunedBetweenStep(calls, i + 1, j, ExpiryOf(calls[i]));
      StepWithoutAccepting(After(calls, j - 1), calls[j - 1], calls[i].checked.value.0);
    }
  }

  /** So a signed request that comes again, after any number of refusals, is turned away as a replay
      exactly when no call in between reached the store with a clock past the expiry of its nonce. */
  lemma ReplayRefusedExactly(calls: seq<Call>, i: nat, j: nat)
    requires RunOk(calls) && i < j < |calls| && OutcomeOf(calls, i).Ok?
    requires calls[j].checked == calls[i].checked && NotAccepted(calls, i + 1, j, calls[i].checked.value.0)
    ensures OutcomeOf(calls, j) == Err(ReplayedSignature) <==> !PrunedBetween(calls, i + 1, j, ExpiryOf(calls[i]))
  {
    StoredUntilPruned(calls, i, j);
    assert CallOk(calls[j]);
  }

  /** The assumption on the clock is needed: when a reading past the expiry of one request reaches the
      store before an earlier reading, the request of the earlier reading is no longer known. */
  lemma ClockOrderIsNeeded(first: Call, second: Call)
    requires CallOk(first) && CallOk(second) && first.checked.Ok? && second.checked.Ok?
    requires first.checked.value.0 != second.checked.value.0 && second.now > ExpiryOf(first)
    ensures var calls := [first, second, first];
            OutcomeOf(calls, 0).Ok? && OutcomeOf(calls, 1).Ok? && OutcomeOf(calls, 2).Ok?
  {
    var calls := [first, second, first];
    var nonce, other := first.checked.value.0, second.checked.value.0;
    assert Kept(map[], first.now) == map[];
    assert After(calls, 1) == map[nonce := ExpiryOf(first)];
    assert Kept(After(calls, 1), second.now) == map[];
    assert After(calls, 2) == map[other := ExpiryOf(second)];
    KeptIsSmaller(After(calls, 2), first.now);
  }
}
