/** The three permits of an inference request: a key slot, an admission slot and an execution slot
    (`inference_permits` of services/gateway/src/protection.rs). Every step below takes or gives back at
    most one permit, as each semaphore operation of the source does. A request may be refused, time out,
    be cancelled or complete, in any interleaving with others. */
module InferencePermits {
  import opened Common

  const MAX_USIZE: nat := 0xFFFF_FFFF_FFFF_FFFF

  function SaturatingAdd(a: nat, b: nat): nat {
    Min(a + b, MAX_USIZE)
  }

  datatype Config = Config(perKey: nat, concurrency: nat, queue: nat) {
    function Admission(): nat {
      SaturatingAdd(concurrency, queue)
    }
  }

  /** How far a request has come. On its way in it takes the key permit, the admission permit and, in the
      order of the queue, the execution permit. A request in line is handed its execution permit, and takes
      it up when it is next polled. One that gives up before that returns what it has in reverse order; one
      that took up all three returns them in the order key, admission, execution. */
  datatype Stage =
    | Arrived     // has the key's semaphore, and no permit
    | Keyed       // key
    | Admitted    // key and admission
    | Queued      // key and admission, in the line for an execution permit
    | Granted     // all three, the last one not yet taken up
    | Executing   // all three
    | Leaving     // key and admission, after a wait that ended
    | GivingUp    // key, after a refused admission or a wait that ended
    | Closing     // admission and execution
    | Last        // execution
  {
    predicate HasKey() {
      Keyed? || Admitted? || Queued? || Granted? || Executing? || Leaving? || GivingUp?
    }

    predicate HasAdmission() {
      Admitted? || Queued? || Granted? || Executing? || Leaving? || Closing?
    }

    predicate HasExecution() {
      Granted? || Executing? || Closing? || Last?
    }
  }

  datatype Request = Request(key: string, stage: Stage)

  datatype Permits = Permits(
    cfg: Config, keyFree: map<string, nat>, admissionFree: nat, executionFree: nat,
    requests: map<nat, Request>, line: seq<nat>)

  datatype Step =
    | Arrive(r: nat, key: string)  // find or make the semaphore of the key
    | TakeKey(r: nat)              // take a key permit, or be refused
    | Admit(r: nat)                // take an admission permit, or be refused
    | Ask(r: nat)                  // join the line for an execution permit
    | Grant                        // the first in line gets a free execution permit
    | Poll(r: nat)                 // a request takes up the execution permit it was handed
    | Release(r: nat)              // timeout, cancellation or completion gives the next permit back

  function Init(cfg: Config): Permits {
    Permits(cfg, map[], cfg.Admission(), cfg.concurrency, map[], [])
  }

  /** The key's semaphore is made on first use and kept. */
  function WithKey(y: Permits, key: string): Permits {
    if key in y.keyFree then y else y.(keyFree := y.keyFree[key := y.cfg.perKey])
  }

  predicate At(y: Permits, r: nat, stage: Stage) {
    r in y.requests && y.requests[r].stage == stage
  }

  function Without(line: seq<nat>, r: nat): seq<nat> {
    Filter((x: nat) => x != r, line)
  }

  /** Request `r` comes to `stage`. */
  function To(y: Permits, r: nat, stage: Stage): Permits
    requires r in y.requests
  {
    y.(requests := y.requests[r := y.requests[r].(stage := stage)])
  }

  function Gone(y: Permits, r: nat): Permits {
    y.(requests := y.requests - {r})
  }

  function KeyBack(y: Permits, key: string): Permits {
    if key in y.keyFree then y.(keyFree := y.keyFree[key := y.keyFree[key] + 1]) else y
  }

  function Next(y: Permits, step: Step): Permits {
    match step
    case Arrive(r, key) =>
      if r in y.requests then y else WithKey(y, key).(requests := y.requests[r := Request(key, Arrived)])
    case TakeKey(r) =>
      if !At(y, r, Arrived) || y.requests[r].key !in y.keyFree then y
      else
        var key := y.requests[r].key;
        if y.keyFree[key] == 0 then Gone(y, r)
        else To(y, r, Keyed).(keyFree := y.keyFree[key := y.keyFree[key] - 1])
    case Admit(r) =>
      if !At(y, r, Keyed) then y
      else if y.admissionFree == 0 then To(y, r, GivingUp)
      else To(y, r, Admitted).(admissionFree := y.admissionFree - 1)
    case Ask(r) =>
      if !At(y, r, Admitted) then y else To(y, r, Queued).(line := y.line + [r])
    case Grant =>
      if y.line == [] || y.executionFree == 0 || !At(y, y.line[0], Queued) then y
      else To(y, y.line[0], Granted).(executionFree := y.executionFree - 1, line := y.line[1..])
    case Poll(r) =>
      if !At(y, r, Granted) then y else To(y, r, Executing)
    case Release(r) =>
      if r !in y.requests then y else Released(y, r)
  }

  /** The next permit of `r` goes back, or its place in line. */
  function Released(y: Permits, r: nat): Permits
    requires r in y.requests
  {
    var key := y.requests[r].key;
    match y.requests[r].stage
    case Arrived => Gone(y, r)
    case Keyed => KeyBack(Gone(y, r), key)
    case GivingUp => KeyBack(Gone(y, r), key)
    case Admitted => To(y, r, GivingUp).(admissionFree := y.admissionFree + 1)
    case Queued => To(y, r, Leaving).(line := Without(y.line, r))
    case Granted => To(y, r, Leaving).(executionFree := y.executionFree + 1)
    case Leaving => To(y, r, GivingUp).(admissionFree := y.admissionFree + 1)
    case Executing => KeyBack(To(y, r, Closing), key)
    case Closing => To(y, r, Last).(admissionFree := y.admissionFree + 1)
    case Last => Gone(y, r).(executionFree := y.executionFree + 1)
  }

  function Run(y: Permits, steps: seq<Step>): Permits
    decreases |steps|
  {
    if steps == [] then y else Run(Next(y, steps[0]), steps[1..])
  }

  // ---------------------------------------------------------------------------------------------
  // Conservation.

  function OfKey(key: string): Request -> bool {
    (q: Request) => q.key == key && q.stage.HasKey()
  }

  function Admissions(): Request -> bool {
    (q: Request) => q.stage.HasAdmission()
  }

  function Executions(): Request -> bool {
    (q: Request) => q.stage.HasExecution()
  }

  function AtStage(stage: Stage): Request -> bool {
    (q: Request) => q.stage == stage
  }

  ghost predicate KeyOk(y: Permits, key: string) {
    key in y.keyFree && y.keyFree[key] + Holding(y.requests, OfKey(key)) == y.cfg.perKey
  }

  ghost predicate KeysOk(y: Permits) {
    && (forall r :: r in y.requests ==> y.requests[r].key in y.keyFree)
    && (forall key :: key in y.keyFree ==> KeyOk(y, key))
  }

  ghost predicate AdmissionOk(y: Permits) {
    y.admissionFree + Holding(y.requests, Admissions()) == y.cfg.Admission()
  }

  ghost predicate ExecutionOk(y: Permits) {
    y.executionFree + Holding(y.requests, Executions()) == y.cfg.concurrency
  }

  ghost predicate Distinct(line: seq<nat>) {
    forall i, j :: 0 <= i < j < |line| ==> line[i] != line[j]
  }

  /** The line holds just the queued requests, each once. */
  ghost predicate LineOk(y: Permits) {
    Distinct(y.line) && forall r :: r in y.line <==> At(y, r, Queued)
  }

  /** Free permits and holders make up the capacity of each of the three kinds of semaphore. */
  ghost predicate Inv(y: Permits) {
    KeysOk(y) && AdmissionOk(y) && ExecutionOk(y) && LineOk(y)
  }

  function One(b: bool): nat {
    if b then 1 else 0
  }

  /** What request `r` holds of each kind. */
  function KeyOf(y: Permits, r: nat): nat {
    One(r in y.requests && y.requests[r].stage.HasKey())
  }

  function AdmissionOf(y: Permits, r: nat): nat {
    One(r in y.requests && y.requests[r].stage.HasAdmission())
  }

  function ExecutionOf(y: Permits, r: nat): nat {
    One(r in y.requests && y.requests[r].stage.HasExecution())
  }

  /** `z` has the requests of `y` but for `r`, which uses `key`. */
  ghost predicate OnlyMoves(y: Permits, z: Permits, r: nat, key: string) {
    && z.cfg == y.cfg && key in y.keyFree
    && (r in y.requests ==> y.requests[r].key == key)
    && (z.requests == y.requests - {r}
        || (r in z.requests && z.requests[r].key == key && z.requests == y.requests[r := z.requests[r]]))
  }

  function Weight(y: Permits, r: nat, p: Request -> bool): nat {
    One(r in y.requests && p(y.requests[r]))
  }

  /** The count of a property moves by request `r` alone. */
  lemma CountMoves(y: Permits, z: Permits, r: nat, key: string, p: Request -> bool)
    requires OnlyMoves(y, z, r, key)
    ensures Holding(z.requests, p) + Weight(y, r, p) == Holding(y.requests, p) + Weight(z, r, p)
  {
    if r in z.requests {
      HoldingUpdate(y.requests, r, z.requests[r], p);
    } else if r in y.requests {
      HoldingRemove(y.requests, r, p);
    } else {
      assert y.requests - {r} == y.requests;
    }
  }

  /** What `r` takes or returns is what the counter of its key moves by. */
  ghost predicate KeyMoves(y: Permits, z: Permits, r: nat, key: string)
    requires key in y.keyFree
  {
    && z.keyFree.Keys == y.keyFree.Keys
    && (forall k :: k in y.keyFree && k != key ==> z.keyFree[k] == y.keyFree[k])
    && z.keyFree[key] + KeyOf(z, r) == y.keyFree[key] + KeyOf(y, r)
  }

  lemma MoveKeepsKeys(y: Permits, z: Permits, r: nat, key: string)
    requires KeysOk(y) && OnlyMoves(y, z, r, key) && KeyMoves(y, z, r, key)
    ensures KeysOk(z)
  {
    forall k | k in z.keyFree
      ensures KeyOk(z, k)
    {
      assert KeyOk(y, k);
      CountMoves(y, z, r, key, OfKey(k));
    }
  }

  ghost predicate CountsMove(y: Permits, z: Permits, r: nat) {
    && z.admissionFree + AdmissionOf(z, r) == y.admissionFree + AdmissionOf(y, r)
    && z.executionFree + ExecutionOf(z, r) == y.executionFree + ExecutionOf(y, r)
  }

  lemma MoveKeepsCounts(y: Permits, z: Permits, r: nat, key: string)
    requires AdmissionOk(y) && ExecutionOk(y) && OnlyMoves(y, z, r, key) && CountsMove(y, z, r)
    ensures AdmissionOk(z) && ExecutionOk(z)
  {
    CountMoves(y, z, r, key, Admissions());
    CountMoves(y, z, r, key, Executions());
  }

  lemma {:induction false} WithoutMeaning(line: seq<nat>, r: nat)
    requires Distinct(line)
    ensures Distinct(Without(line, r)) && forall x :: x in Without(line, r) <==> x in line && x != r
  {
    if line != [] {
      var rest := line[1..];
      assert forall x :: x in line <==> x == line[0] || x in rest;
      assert Distinct(rest) && line[0] !in rest;
      WithoutMeaning(rest, r);
      var w := Without(line, r);
      assert w == (if line[0] != r then [line[0]] else []) + Without(rest, r);
      assert line[0] !in Without(rest, r);
    }
  }

  /** A request that begins to queue joins the line at its end, and one that stops leaves it. */
  ghost predicate LineMoves(y: Permits, z: Permits, r: nat) {
    z.line == if At(z, r, Queued) && !At(y, r, Queued) then y.line + [r]
              else if At(y, r, Queued) && !At(z, r, Queued) then Without(y.line, r) else y.line
  }

  lemma MoveKeepsLine(y: Permits, z: Permits, r: nat, key: string)
    requires LineOk(y) && OnlyMoves(y, z, r, key) && LineMoves(y, z, r)
    ensures LineOk(z)
  {
    WithoutMeaning(y.line, r);
    assert forall x :: x != r ==> (At(z, x, Queued) <==> At(y, x, Queued));
    assert r in y.line <==> At(y, r, Queued);
  }

  /** So a step that moves one request, with its counters and its place in line, keeps the invariant. */
  ghost predicate Moves(y: Permits, z: Permits, r: nat, key: string) {
    OnlyMoves(y, z, r, key) && KeyMoves(y, z, r, key) && CountsMove(y, z, r) && LineMoves(y, z, r)
  }

  lemma MoveKeepsInv(y: Permits, z: Permits, r: nat, key: string)
    requires Inv(y) && Moves(y, z, r, key)
    ensures Inv(z)
  {
    MoveKeepsKeys(y, z, r, key);
    MoveKeepsCounts(y, z, r, key);
    MoveKeepsLine(y, z, r, key);
  }

  lemma {:induction false} FirstOut(line: seq<nat>)
    requires line != [] && Distinct(line)
    ensures line[1..] == Without(line, line[0])
  {
    var p := (x: nat) => x != line[0];
    assert forall x :: x in line[1..] ==> p(x);
    FilterUniform(p, line[1..]);
  }

  lemma ArriveMoves(y: Permits, r: nat, key: string)
    requires r !in y.requests
    ensures Moves(WithKey(y, key), Next(y, Arrive(r, key)), r, key)
  {
  }

  lemma ArriveKeepsInv(y: Permits, r: nat, key: string)
    requires Inv(y)
    ensures Inv(Next(y, Arrive(r, key)))
  {
    if r !in y.requests {
      assert KeysOk(WithKey(y, key)) by { NewKeyKeeps(y, key); }
      ArriveMoves(y, r, key);
      MoveKeepsInv(WithKey(y, key), Next(y, Arrive(r, key)), r, key);
    }
  }

  lemma NewKeyKeeps(y: Permits, key: string)
    requires KeysOk(y)
    ensures KeysOk(WithKey(y, key))
  {
    if key !in y.keyFree {
      var x := WithKey(y, key);
      assert Where(y.requests, OfKey(key)) == {};
      forall k | k in x.keyFree
        ensures KeyOk(x, k)
      {
        assert k != key ==> KeyOk(y, k);
      }
    }
  }

  predicate Known(y: Permits, r: nat) {
    r in y.requests && y.requests[r].key in y.keyFree
  }

  lemma TakeKeyMoves(y: Permits, r: nat)
    requires Known(y, r) && At(y, r, Arrived)
    ensures Moves(y, Next(y, TakeKey(r)), r, y.requests[r].key)
  {
  }

  lemma AdmitMoves(y: Permits, r: nat)
    requires Known(y, r) && At(y, r, Keyed)
    ensures Moves(y, Next(y, Admit(r)), r, y.requests[r].key)
  {
  }

  lemma AskMoves(y: Permits, r: nat)
    requires Known(y, r) && At(y, r, Admitted)
    ensures Moves(y, Next(y, Ask(r)), r, y.requests[r].key)
  {
  }

  lemma PollMoves(y: Permits, r: nat)
    requires Known(y, r) && At(y, r, Granted)
    ensures Moves(y, Next(y, Poll(r)), r, y.requests[r].key)
  {
  }

  lemma GrantMoves(y: Permits)
    requires y.line != [] && Distinct(y.line) && y.executionFree > 0 && Known(y, y.line[0]) && At(y, y.line[0], Queued)
    ensures Moves(y, Next(y, Grant), y.line[0], y.requests[y.line[0]].key)
  {
    FirstOut(y.line);
  }

  /** A request that gives up, or never got anything. */
  lemma GiveUpMoves(y: Permits, r: nat)
    requires Known(y, r) && !y.requests[r].stage.HasExecution()
    ensures Moves(y, Released(y, r), r, y.requests[r].key)
  {
  }

  lemma FinishMoves(y: Permits, r: nat)
    requires Known(y, r) && y.requests[r].stage.HasExecution()
    ensures Moves(y, Released(y, r), r, y.requests[r].key)
  {
  }

  lemma NextKeepsInv(y: Permits, step: Step)
    requires Inv(y)
    ensures Inv(Next(y, step))
  {
    match step
    case Arrive(r, key) => ArriveKeepsInv(y, r, key);
    case TakeKey(r) =>
      if At(y, r, Arrived) { TakeKeyMoves(y, r); MoveKeepsInv(y, Next(y, step), r, y.requests[r].key); }
    case Admit(r) =>
      if At(y, r, Keyed) { AdmitMoves(y, r); MoveKeepsInv(y, Next(y, step), r, y.requests[r].key); }
    case Ask(r) =>
      if At(y, r, Admitted) { AskMoves(y, r); MoveKeepsInv(y, Next(y, step), r, y.requests[r].key); }
    case Grant => GrantKeepsInv(y);
    case Poll(r) =>
      if At(y, r, Granted) { PollMoves(y, r); MoveKeepsInv(y, Next(y, step), r, y.requests[r].key); }
    case Release(r) => ReleaseKeepsInv(y, r);
  }

  lemma GrantKeepsInv(y: Permits)
    requires Inv(y)
    ensures Inv(Next(y, Grant))
  {
    if y.line != [] && y.executionFree > 0 {
      assert y.line[0] in y.line;
      GrantMoves(y);
      MoveKeepsInv(y, Next(y, Grant), y.line[0], y.requests[y.line[0]].key);
    }
  }

  lemma ReleaseKeepsInv(y: Permits, r: nat)
    requires Inv(y)
    ensures Inv(Next(y, Release(r)))
  {
    if r in y.requests {
      assert Known(y, r);
      if y.requests[r].stage.HasExecution() { FinishMoves(y, r); } else { GiveUpMoves(y, r); }
      MoveKeepsInv(y, Released(y, r), r, y.requests[r].key);
    }
  }

  lemma NextKeepsConfig(y: Permits, step: Step)
    ensures Next(y, step).cfg == y.cfg && y.keyFree.Keys <= Next(y, step).keyFree.Keys
  {
  }

  lemma InitOk(cfg: Config)
    ensures Inv(Init(cfg))
  {
    var y := Init(cfg);
    assert Where(y.requests, Admissions()) == {} && Where(y.requests, Executions()) == {};
  }

  lemma {:induction false} RunKeepsInv(y: Permits, steps: seq<Step>)
    requires Inv(y)
    ensures Inv(Run(y, steps)) && Run(y, steps).cfg == y.cfg
    decreases |steps|
  {
    if steps != [] {
      NextKeepsInv(y, steps[0]);
      NextKeepsConfig(y, steps[0]);
      RunKeepsInv(Next(y, steps[0]), steps[1..]);
    }
  }

  // ---------------------------------------------------------------------------------------------
  // The bounds.

  /** How many requests are in the given stage, and how many hold an execution permit or wait for one. */
  ghost function InStage(y: Permits, stage: Stage): nat {
    Holding(y.requests, AtStage(stage))
  }

  ghost function ExecutingOrWaiting(y: Permits): nat {
    Holding(y.requests, Executions()) + InStage(y, Queued) + InStage(y, Admitted)
  }

  /** Those that hold an execution permit or wait for one, and those that have just left the line, are
      those that hold an admission permit and those between the return of the admission and of the
      execution permit. */
  lemma ExecutingOrWaitingIs(y: Permits)
    ensures ExecutingOrWaiting(y) + InStage(y, Leaving) == Holding(y.requests, Admissions()) + InStage(y, Last)
  {
    var waiting := (q: Request) => q.stage.Queued? || q.stage.Admitted?;
    var counted := (q: Request) => q.stage.HasExecution() || q.stage.Queued? || q.stage.Admitted?;
    var all := (q: Request) => q.stage.HasExecution() || q.stage.HasAdmission();
    HoldingSplit(y.requests, waiting, AtStage(Queued), AtStage(Admitted));
    HoldingSplit(y.requests, counted, Executions(), waiting);
    HoldingSplit(y.requests, all, counted, AtStage(Leaving));
    HoldingSplit(y.requests, all, Admissions(), AtStage(Last));
  }

  /** Permit conservation in every interleaving, and the bounds that follow: executing, admitted and per
      key. The exact number of those that execute or wait can exceed the admission capacity only by the
      requests between the return of their last two permits. */
  lemma PermitConservation(cfg: Config, steps: seq<Step>, key: string)
    ensures var y := Run(Init(cfg), steps);
            && Inv(y)
            && Holding(y.requests, Executions()) <= cfg.concurrency
            && Holding(y.requests, Admissions()) <= cfg.Admission() <= cfg.concurrency + cfg.queue
            && Holding(y.requests, OfKey(key)) <= cfg.perKey
            && ExecutingOrWaiting(y) + InStage(y, Leaving) + y.admissionFree == cfg.Admission() + InStage(y, Last)
  {
    InitOk(cfg);
    RunKeepsInv(Init(cfg), steps);
    var y := Run(Init(cfg), steps);
    ExecutingOrWaitingIs(y);
    if key in y.keyFree {
      assert KeyOk(y, key);
    } else {
      assert Where(y.requests, OfKey(key)) == {};
    }
  }

  /** So the bound on executing and waiting requests fails exactly when more requests are between their
      last two returns than admission permits are free or about to be returned by those that left the
      line. */
  lemma BoundFailsExactly(cfg: Config, steps: seq<Step>)
    ensures var y := Run(Init(cfg), steps);
            ExecutingOrWaiting(y) > cfg.Admission() <==> InStage(y, Last) > y.admissionFree + InStage(y, Leaving)
  {
    PermitConservation(cfg, steps, "");
  }

  /** In no run is the bound exceeded by more than the number of execution permits. */
  lemma OvershootAtMost(cfg: Config, steps: seq<Step>)
    ensures ExecutingOrWaiting(Run(Init(cfg), steps)) <= cfg.Admission() + cfg.concurrency
  {
    PermitConservation(cfg, steps, "");
    var y := Run(Init(cfg), steps);
    HoldingSplit(y.requests, Executions(), AtStage(Last), (q: Request) => q.stage.HasExecution() && !q.stage.Last?);
  }

  lemma {:induction false} RunAppend(y: Permits, a: seq<Step>, b: seq<Step>)
    ensures Run(y, a + b) == Run(Run(y, a), b)
    decreases |a|
  {
    if a == [] {
      assert a + b == b;
    } else {
      assert (a + b)[0] == a[0] && (a + b)[1..] == a[1..] + b;
      RunAppend(Next(y, a[0]), a[1..], b);
    }
  }

  /** Some steps lead from `y` to `z`. */
  ghost predicate Leads(y: Permits, z: Permits) {
    exists steps :: Run(y, steps) == z
  }

  lemma StepLeads(y: Permits, step: Step)
    ensures Leads(y, Next(y, step))
  {
    assert Run(y, [step]) == Run(Next(y, step), []);
  }

  lemma LeadsOn(x: Permits, y: Permits, z: Permits)
    requires Leads(x, y) && Leads(y, z)
    ensures Leads(x, z)
  {
    var a :| Run(x, a) == y;
    var b :| Run(y, b) == z;
    RunAppend(x, a, b);
  }

  lemma LeadsByStep(x: Permits, y: Permits, step: Step, z: Permits)
    requires Leads(x, y) && Next(y, step) == z
    ensures Leads(x, z)
  {
    StepLeads(y, step);
    LeadsOn(x, y, z);
  }

  /** `y` with a new request of a new key, come to `stage`. */
  function Joined(y: Permits, r: nat, key: string, keyFree: nat, admissionFree: nat, executionFree: nat,
                  stage: Stage, line: seq<nat>): Permits {
    Permits(y.cfg, y.keyFree[key := keyFree], admissionFree, executionFree,
            y.requests[r := Request(key, stage)], line)
  }

  predicate CanCome(y: Permits, r: nat, key: string) {
    r !in y.requests && key !in y.keyFree && y.cfg.perKey > 0 && y.admissionFree > 0 && y.line == []
  }

  lemma ArriveLeads(y: Permits, r: nat, key: string)
    requires CanCome(y, r, key)
    ensures Leads(y, Joined(y, r, key, y.cfg.perKey, y.admissionFree, y.executionFree, Arrived, []))
  {
    StepLeads(y, Arrive(r, key));
    assert Next(y, Arrive(r, key)) == Joined(y, r, key, y.cfg.perKey, y.admissionFree, y.executionFree, Arrived, []);
  }

  lemma KeyLeads(x: Permits, y: Permits, r: nat, key: string, k: nat, a: nat, e: nat)
    requires k > 0 && Leads(x, Joined(y, r, key, k, a, e, Arrived, []))
    ensures Leads(x, Joined(y, r, key, k - 1, a, e, Keyed, []))
  {
    LeadsByStep(x, Joined(y, r, key, k, a, e, Arrived, []), TakeKey(r), Joined(y, r, key, k - 1, a, e, Keyed, []));
  }

  lemma AdmitLeads(x: Permits, y: Permits, r: nat, key: string, k: nat, a: nat, e: nat)
    requires a > 0 && Leads(x, Joined(y, r, key, k, a, e, Keyed, []))
    ensures Leads(x, Joined(y, r, key, k, a - 1, e, Admitted, []))
  {
    LeadsByStep(x, Joined(y, r, key, k, a, e, Keyed, []), Admit(r), Joined(y, r, key, k, a - 1, e, Admitted, []));
  }

  lemma AskLeads(x: Permits, y: Permits, r: nat, key: string, k: nat, a: nat, e: nat)
    requires Leads(x, Joined(y, r, key, k, a, e, Admitted, []))
    ensures Leads(x, Joined(y, r, key, k, a, e, Queued, [r]))
  {
    LeadsByStep(x, Joined(y, r, key, k, a, e, Admitted, []), Ask(r), Joined(y, r, key, k, a, e, Queued, [r]));
  }

  lemma GrantLeads(x: Permits, y: Permits, r: nat, key: string, k: nat, a: nat, e: nat)
    requires e > 0 && Leads(x, Joined(y, r, key, k, a, e, Queued, [r]))
    ensures Leads(x, Joined(y, r, key, k, a, e - 1, Granted, []))
  {
    LeadsByStep(x, Joined(y, r, key, k, a, e, Queued, [r]), Grant, Joined(y, r, key, k, a, e - 1, Granted, []));
  }

  lemma PollLeads(x: Permits, y: Permits, r: nat, key: string, k: nat, a: nat, e: nat)
    requires Leads(x, Joined(y, r, key, k, a, e, Granted, []))
    ensures Leads(x, Joined(y, r, key, k, a, e, Executing, []))
  {
    LeadsByStep(x, Joined(y, r, key, k, a, e, Granted, []), Poll(r), Joined(y, r, key, k, a, e, Executing, []));
  }

  lemma KeyBackLeads(x: Permits, y: Permits, r: nat, key: string, k: nat, a: nat, e: nat)
    requires Leads(x, Joined(y, r, key, k, a, e, Executing, []))
    ensures Leads(x, Joined(y, r, key, k + 1, a, e, Closing, []))
  {
    LeadsByStep(x, Joined(y, r, key, k, a, e, Executing, []), Release(r), Joined(y, r, key, k + 1, a, e, Closing, []));
  }

  lemma AdmissionBackLeads(x: Permits, y: Permits, r: nat, key: string, k: nat, a: nat, e: nat)
    requires Leads(x, Joined(y, r, key, k, a, e, Closing, []))
    ensures Leads(x, Joined(y, r, key, k, a + 1, e, Last, []))
  {
    LeadsByStep(x, Joined(y, r, key, k, a, e, Closing, []), Release(r), Joined(y, r, key, k, a + 1, e, Last, []));
  }

  lemma ComesIn(y: Permits, r: nat, key: string)
    requires CanCome(y, r, key)
    ensures Leads(y, Joined(y, r, key, y.cfg.perKey - 1, y.admissionFree - 1, y.executionFree, Admitted, []))
  {
    var k, a, e := y.cfg.perKey, y.admissionFree, y.executionFree;
    ArriveLeads(y, r, key);
    KeyLeads(y, y, r, key, k, a, e);
    AdmitLeads(y, y, r, key, k - 1, a, e);
  }

  lemma GetsPermit(x: Permits, y: Permits, r: nat, key: string, k: nat, a: nat, e: nat)
    requires e > 0 && Leads(x, Joined(y, r, key, k, a, e, Admitted, []))
    ensures Leads(x, Joined(y, r, key, k, a, e - 1, Executing, []))
  {
    AskLeads(x, y, r, key, k, a, e);
    GrantLeads(x, y, r, key, k, a, e);
    PollLeads(x, y, r, key, k, a, e - 1);
  }

  lemma ReturnsTwo(x: Permits, y: Permits, r: nat, key: string, k: nat, a: nat, e: nat)
    requires Leads(x, Joined(y, r, key, k, a, e, Executing, []))
    ensures Leads(x, Joined(y, r, key, k + 1, a + 1, e, Last, []))
  {
    KeyBackLeads(x, y, r, key, k, a, e);
    AdmissionBackLeads(x, y, r, key, k + 1, a, e);
  }

  lemma PassesThrough(y: Permits, r: nat, key: string)
    requires CanCome(y, r, key) && y.executionFree > 0
    ensures Leads(y, Joined(y, r, key, y.cfg.perKey, y.admissionFree, y.executionFree - 1, Last, []))
  {
    var k, a, e := y.cfg.perKey - 1, y.admissionFree - 1, y.executionFree;
    ComesIn(y, r, key);
    GetsPermit(y, y, r, key, k, a, e);
    ReturnsTwo(y, y, r, key, k, a, e - 1);
  }

  /** `n` requests hold only their last permit, `m` more are admitted, and there is no other. */
  ghost predicate Crowded(y: Permits, cfg: Config, n: nat, m: nat) {
    && y.cfg == cfg && y.line == []
    && y.admissionFree == cfg.Admission() - m && y.executionFree == cfg.concurrency - n
    && InStage(y, Last) == n
    && (forall r :: r in y.requests ==> r < n + m && (y.requests[r].stage.Last? || y.requests[r].stage.Admitted?))
    && (forall key :: key in y.keyFree ==> |key| < n + m)
  }

  lemma OneMoreIn(y: Permits, cfg: Config, n: nat, m: nat) returns (z: Permits)
    requires Crowded(y, cfg, n, m) && cfg.perKey > 0 && m < cfg.Admission()
    ensures Leads(y, z) && Crowded(z, cfg, n, m + 1)
  {
    var r: nat := n + m;
    ComesIn(y, r, Numbered(r));
    z := Joined(y, r, Numbered(r), cfg.perKey - 1, y.admissionFree - 1, y.executionFree, Admitted, []);
    HoldingUpdate(y.requests, r, Request(Numbered(r), Admitted), AtStage(Last));
  }

  lemma OneMoreThrough(y: Permits, cfg: Config, n: nat) returns (z: Permits)
    requires Crowded(y, cfg, n, 0) && cfg.perKey > 0 && n < cfg.concurrency
    ensures Leads(y, z) && Crowded(z, cfg, n + 1, 0)
  {
    PassesThrough(y, n, Numbered(n));
    z := Joined(y, n, Numbered(n), cfg.perKey, y.admissionFree, y.executionFree - 1, Last, []);
    HoldingUpdate(y.requests, n, Request(Numbered(n), Last), AtStage(Last));
  }

  /** As many requests as there are execution permits come to hold only their last permit, and then as
      many are admitted as there are admission permits. */
  lemma {:induction false} CrowdComes(cfg: Config, n: nat, m: nat) returns (z: Permits)
    requires cfg.perKey > 0 && n <= cfg.concurrency && m <= cfg.Admission()
    ensures Leads(Init(cfg), z) && Crowded(z, cfg, n, m)
    decreases n + m
  {
    if m > 0 {
      var y := CrowdComes(cfg, n, m - 1);
      z := OneMoreIn(y, cfg, n, m - 1);
      LeadsOn(Init(cfg), y, z);
    } else if n > 0 {
      var y := CrowdComes(cfg, n - 1, 0);
      z := OneMoreThrough(y, cfg, n - 1);
      LeadsOn(Init(cfg), y, z);
    } else {
      z := Init(cfg);
      assert Run(z, []) == z;
      assert Where(z.requests, AtStage(Last)) == {};
    }
  }

  /** Where keys have any permits, some run exceeds the bound by the full number of execution permits. */
  lemma OvershootReached(cfg: Config)
    requires cfg.perKey > 0
    ensures exists steps :: ExecutingOrWaiting(Run(Init(cfg), steps)) == cfg.Admission() + cfg.concurrency
  {
    var y := CrowdComes(cfg, cfg.concurrency, cfg.Admission());
    var steps :| Run(Init(cfg), steps) == y;
    PermitConservation(cfg, steps, "");
    assert Where(y.requests, AtStage(Leaving)) == {};
  }

  /** Nobody gets past the key. */
  ghost predicate Shut(y: Permits) {
    && y.cfg.perKey == 0
    && (forall key :: key in y.keyFree ==> y.keyFree[key] == 0)
    && (forall r :: r in y.requests ==> y.requests[r].stage.Arrived?)
    && y.line == []
  }

  lemma {:induction false} StaysShut(y: Permits, steps: seq<Step>)
    requires Shut(y)
    ensures Shut(Run(y, steps))
    decreases |steps|
  {
    if steps != [] {
      StaysShut(Next(y, steps[0]), steps[1..]);
    }
  }

  /** Some run exceeds the bound exactly where a key has permits and there are execution permits. */
  lemma OvershootExactly(cfg: Config)
    ensures (exists steps :: ExecutingOrWaiting(Run(Init(cfg), steps)) > cfg.Admission())
       <==> cfg.perKey > 0 && cfg.concurrency > 0
  {
    if cfg.perKey == 0 {
      forall steps
        ensures ExecutingOrWaiting(Run(Init(cfg), steps)) == 0
      {
        StaysShut(Init(cfg), steps);
        var held := Run(Init(cfg), steps).requests;
        assert Where(held, Executions()) == {} && Where(held, AtStage(Queued)) == {} && Where(held, AtStage(Admitted)) == {};
      }
    } else if cfg.concurrency == 0 {
      forall steps
        ensures ExecutingOrWaiting(Run(Init(cfg), steps)) <= cfg.Admission()
      {
        OvershootAtMost(cfg, steps);
      }
    } else {
      OvershootReached(cfg);
    }
  }

  /** In every reachable state each limit refuses exactly at its bound, and an execution permit goes to
      the first in line exactly when fewer than all are held. */
  lemma RefusedExactlyAtTheLimit(y: Permits, r: nat)
    requires Inv(y)
    ensures At(y, r, Arrived) ==>
              (r in Next(y, TakeKey(r)).requests <==> Holding(y.requests, OfKey(y.requests[r].key)) < y.cfg.perKey)
    ensures At(y, r, Keyed) ==>
              (At(Next(y, Admit(r)), r, Admitted) <==> Holding(y.requests, Admissions()) < y.cfg.Admission())
    ensures At(y, r, Queued) ==>
              (At(Next(y, Grant), r, Granted)
               <==> y.line[0] == r && Holding(y.requests, Executions()) < y.cfg.concurrency)
  {
    if At(y, r, Arrived) { KeyRefusedExactly(y, r); }
    if At(y, r, Queued) { GrantedExactly(y, r); }
  }

  lemma KeyRefusedExactly(y: Permits, r: nat)
    requires KeysOk(y) && At(y, r, Arrived)
    ensures r in Next(y, TakeKey(r)).requests <==> Holding(y.requests, OfKey(y.requests[r].key)) < y.cfg.perKey
  {
    assert KeyOk(y, y.requests[r].key);
  }

  lemma GrantedExactly(y: Permits, r: nat)
    requires LineOk(y) && ExecutionOk(y) && At(y, r, Queued)
    ensures y.line != []
    ensures At(Next(y, Grant), r, Granted) <==> y.line[0] == r && Holding(y.requests, Executions()) < y.cfg.concurrency
  {
    assert r in y.line && y.line[0] in y.line;
  }

  /** Nothing is left behind: whatever steps were taken, by whatever requests and in whatever order, once
      the requests under way are those from before, every counter is as it was, and a semaphore made
      meanwhile is full. So a request that was refused, gave up or ended holds nothing. */
  lemma EndUndoesEverything(cfg: Config, before: seq<Step>, during: seq<Step>)
    ensures var y := Run(Init(cfg), before);
            var z := Run(y, during);
            z.requests == y.requests ==>
              && z.admissionFree == y.admissionFree && z.executionFree == y.executionFree
              && y.keyFree.Keys <= z.keyFree.Keys
              && forall k :: k in z.keyFree ==> z.keyFree[k] == if k in y.keyFree then y.keyFree[k] else cfg.perKey
  {
    InitOk(cfg);
    RunKeepsInv(Init(cfg), before);
    var y := Run(Init(cfg), before);
    RunKeepsInv(y, during);
    KeysStay(y, during);
    var z := Run(y, during);
    if z.requests == y.requests {
      forall k | k in z.keyFree
        ensures z.keyFree[k] == if k in y.keyFree then y.keyFree[k] else cfg.perKey
      {
        assert KeyOk(z, k);
        if k in y.keyFree { assert KeyOk(y, k); } else { assert Where(y.requests, OfKey(k)) == {}; }
      }
    }
  }

  lemma {:induction false} KeysStay(y: Permits, steps: seq<Step>)
    ensures y.keyFree.Keys <= Run(y, steps).keyFree.Keys
    decreases |steps|
  {
    if steps != [] {
      NextKeepsConfig(y, steps[0]);
      KeysStay(Next(y, steps[0]), steps[1..]);
    }
  }

  /** How many permits a request has still to return, and its place in line. */
  function Returns(stage: Stage): nat {
    One(stage.HasKey()) + One(stage.HasAdmission()) + One(stage.HasExecution()) + One(stage.Queued?)
  }

  /** Each release returns one permit or leaves the line, and the request is gone with its last permit. */
  lemma ReleaseReturnsOne(y: Permits, r: nat)
    requires r in y.requests
    ensures var z := Next(y, Release(r));
            if Returns(y.requests[r].stage) <= 1 then r !in z.requests
            else r in z.requests && Returns(z.requests[r].stage) == Returns(y.requests[r].stage) - 1
  {
  }

  // ---------------------------------------------------------------------------------------------
  // The semaphores, updated in place.

  class Gate {
    const cfg: Config
    var keyFree: map<string, nat>
    var admissionFree: nat
    var executionFree: nat
    var requests: map<nat, Request>
    var line: seq<nat>

    ghost function View(): Permits
      reads this
    {
      Permits(cfg, keyFree, admissionFree, executionFree, requests, line)
    }

    constructor (cfg: Config)
      ensures View() == Init(cfg)
    {
      this.cfg := cfg;
      keyFree, admissionFree, executionFree, requests, line := map[], cfg.Admission(), cfg.concurrency, map[], [];
    }

    /** Find the semaphore of the key, or make it. */
    method FindKey(r: nat, key: string)
      requires r !in requests
      modifies this`keyFree, this`requests
      ensures View() == Next(old(View()), Arrive(r, key))
    {
      if key !in keyFree { keyFree := keyFree[key := cfg.perKey]; }
      requests := requests[r := Request(key, Arrived)];
    }

    /** Take a permit of the key, or be refused. */
    method TryKey(r: nat) returns (ok: bool)
      requires r in requests && requests[r].stage.Arrived? && requests[r].key in keyFree
      modifies this`keyFree, this`requests
      ensures View() == Next(old(View()), TakeKey(r)) && (ok <==> r in requests)
    {
      var key := requests[r].key;
      if keyFree[key] == 0 {
        requests := requests - {r};
        return false;
      }
      keyFree := keyFree[key := keyFree[key] - 1];
      requests := requests[r := Request(key, Keyed)];
      return true;
    }

    /** Take an admission permit, or begin to give up. */
    method TryAdmission(r: nat) returns (ok: bool)
      requires r in requests && requests[r].stage.Keyed?
      modifies this`admissionFree, this`requests
      ensures View() == Next(old(View()), Admit(r)) && r in requests && (ok <==> requests[r].stage.Admitted?)
    {
      if admissionFree == 0 {
        requests := requests[r := Request(requests[r].key, GivingUp)];
        return false;
      }
      admissionFree := admissionFree - 1;
      requests := requests[r := Request(requests[r].key, Admitted)];
      return true;
    }

    /** Join the line for an execution permit. */
    method AwaitExecution(r: nat)
      requires r in requests && requests[r].stage.Admitted?
      modifies this`line, this`requests
      ensures View() == Next(old(View()), Ask(r))
    {
      line := line + [r];
      requests := requests[r := Request(requests[r].key, Queued)];
    }

    /** Hand a free execution permit to the first in line. */
    method HandOver() returns (ok: bool)
      requires line != [] ==> line[0] in requests && requests[line[0]].stage.Queued?
      modifies this`executionFree, this`line, this`requests
      ensures View() == Next(old(View()), Grant)
      ensures ok <==> old(line) != [] && old(executionFree) > 0
    {
      if line == [] || executionFree == 0 { return false; }
      var first := line[0];
      executionFree, line := executionFree - 1, line[1..];
      requests := requests[first := Request(requests[first].key, Granted)];
      return true;
    }

    /** Take up the execution permit that was handed over. */
    method TakeUp(r: nat)
      requires r in requests && requests[r].stage.Granted?
      modifies this`requests
      ensures View() == Next(old(View()), Poll(r))
    {
      requests := requests[r := Request(requests[r].key, Executing)];
    }

    /** Return one permit: the next in the order in which the request drops them. */
    method Drop(r: nat)
      requires r in requests && requests[r].key in keyFree
      modifies this
      ensures View() == Next(old(View()), Release(r))
    {
      var Request(key, stage) := requests[r];
      match stage {
        case Arrived => requests := requests - {r};
        case Keyed | GivingUp =>
          keyFree := keyFree[key := keyFree[key] + 1];
          requests := requests - {r};
        case Admitted | Leaving =>
          admissionFree := admissionFree + 1;
          requests := requests[r := Request(key, GivingUp)];
        case Queued =>
          line := Without(line, r);
          requests := requests[r := Request(key, Leaving)];
        case Granted =>
          executionFree := executionFree + 1;
          requests := requests[r := Request(key, Leaving)];
        case Executing =>
          keyFree := keyFree[key := keyFree[key] + 1];
          requests := requests[r := Request(key, Closing)];
        case Closing =>
          admissionFree := admissionFree + 1;
          requests := requests[r := Request(key, Last)];
        case Last =>
          executionFree := executionFree + 1;
          requests := requests - {r};
      }
    }
  }
}
