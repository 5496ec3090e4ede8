/** The supervisor of one prefill/decode pair (images/sglang/pair_supervisor.py). Processes, files,
    sockets and clocks are inputs of each tick; the supervisor may see anything in them. */
module PairSupervisor {
  import opened Common

  datatype Role = Prefill | Decode

  datatype Worker = Worker(role: Role, gpus: nat, ranks: nat)

  datatype Config = Config(workers: seq<Worker>, progressTimeout: real, startupTimeout: real)

  ghost predicate ConfigOk(cfg: Config) {
    && |cfg.workers| == 2 && cfg.workers[0].role != cfg.workers[1].role
    && forall w :: w in cfg.workers ==> 1 <= w.gpus <= 8 && w.ranks == w.gpus
  }

  // ---------------------------------------------------------------------------------------------
  // One rank.

  datatype Number = Finite(value: real) | NotFinite | NotANumber

  datatype RankState = Starting_ | Idle | Busy | Failed_ | Unknown

  /** A progress record; `pid` is none when it is no integer. */
  datatype Record = Record(pid: Option<int>, state: RankState, updated: Number, completed: Number, pendingSince: Number)

  datatype RankFile = Missing | Unreadable | TooLarge | WrongKeys | Holds(record: Record)

  /** What a signal to a pid tells. */
  datatype Process = Alive | Gone | Denied

  datatype Status = Starting | Ready | Failed

  predicate NumberOk(n: Number, now: real) {
    n.Finite? && 0.0 <= n.value <= now + 1.0
  }

  /** What the progress file of one rank tells, and the pid to remember for the rank. */
  function RankStatus(file: RankFile, process: int -> Process, now: real, timeout: real, known: Option<int>)
    : (Status, Option<int>)
  {
    match file
    case Missing => (if known.None? then Starting else Failed, known)
    case Unreadable => (Failed, known)
    case TooLarge => (Failed, known)
    case WrongKeys => (Failed, known)
    case Holds(record) =>
      if record.pid.None? || record.pid.value <= 0 || (known.Some? && record.pid != known) then (Failed, known)
      else if process(record.pid.value).Gone? then (if known.None? then Starting else Failed, known)
      else if process(record.pid.value).Denied? then (Failed, known)
      else if !NumberOk(record.updated, now) || !NumberOk(record.completed, now) || !NumberOk(record.pendingSince, now)
      then (Failed, record.pid)
      else if record.state.Unknown? || record.state.Failed_? then (Failed, record.pid)
      else if record.state.Starting_? then (Starting, record.pid)
      else if now - record.updated.value > timeout then (Failed, record.pid)
      else if record.state.Busy? && (record.pendingSince.value == 0.0 || now - record.pendingSince.value > timeout)
      then (Failed, record.pid)
      else (Ready, record.pid)
  }

  /** The record is valid, that of a live process, and its progress is not older than `budget`. */
  ghost predicate FreshRecord(file: RankFile, process: int -> Process, now: real, budget: real) {
    && file.Holds? && file.record.pid.Some? && file.record.pid.value > 0 && process(file.record.pid.value) == Alive
    && NumberOk(file.record.updated, now) && NumberOk(file.record.completed, now)
    && NumberOk(file.record.pendingSince, now)
    && now - file.record.updated.value <= budget
    && (file.record.state == Idle
        || (file.record.state == Busy && 0.0 < file.record.pendingSince.value && now - file.record.pendingSince.value <= budget))
  }

  /** A rank is ready exactly when its record is fresh and of the process known for it. */
  lemma RankReadyExactly(file: RankFile, process: int -> Process, now: real, timeout: real, known: Option<int>)
    ensures RankStatus(file, process, now, timeout, known).0 == Ready
       <==> && FreshRecord(file, process, now, timeout)
            && (known.Some? ==> file.record.pid == known)
    ensures known.Some? ==> RankStatus(file, process, now, timeout, known).1 == known
  {
  }

  // ---------------------------------------------------------------------------------------------
  // One worker.

  /** The last poll of a worker's HTTP frontend. */
  datatype Http = Http(checked: real, available: bool, failures: nat, everReady: bool)

  const NEVER_POLLED := Http(0.0, false, 0, false)

  /** What one check of a worker finds. */
  datatype Look = Look(now: real, alive: bool, file: nat -> RankFile, process: int -> Process, httpOk: bool)

  type RankKey = (Role, nat)

  /** What the supervisor remembers about its workers, with the outcome of every poll so far. */
  datatype Memory = Memory(pids: map<RankKey, int>, http: map<Role, Http>, polls: map<Role, seq<bool>>)

  function KnownPid(m: Memory, key: RankKey): Option<int> {
    if key in m.pids then Some(m.pids[key]) else None
  }

  function HttpOf(m: Memory, role: Role): Http {
    if role in m.http then m.http[role] else NEVER_POLLED
  }

  function PollsOf(m: Memory, role: Role): seq<bool> {
    if role in m.polls then m.polls[role] else []
  }

  function Budget(cfg: Config, m: Memory, role: Role): real {
    if HttpOf(m, role).everReady then cfg.progressTimeout else cfg.startupTimeout
  }

  function RankCheck(cfg: Config, m: Memory, role: Role, look: Look, rank: nat): (Status, Option<int>) {
    RankStatus(look.file(rank), look.process, look.now, Budget(cfg, m, role), KnownPid(m, (role, rank)))
  }

  /** The memory after all ranks below `n` were checked: each remembers the pid its check gave. */
  function PidsAfter(cfg: Config, m: Memory, role: Role, look: Look, n: nat): map<RankKey, int> {
    if n == 0 then m.pids
    else
      var pids, pid := PidsAfter(cfg, m, role, look, n - 1), RankCheck(cfg, m, role, look, n - 1).1;
      if pid.Some? then pids[(role, n - 1) := pid.value] else pids
  }

  predicate AnyRank(cfg: Config, m: Memory, worker: Worker, look: Look, status: Status) {
    exists r :: 0 <= r < worker.ranks && RankCheck(cfg, m, worker.role, look, r).0 == status
  }

  function Polled(http: Http, now: real, ok: bool): Http {
    Http(now, ok, if ok then 0 else http.failures + 1, http.everReady || ok)
  }

  function HttpVerdict(http: Http): Status {
    if http.available then Ready else if http.everReady && http.failures >= 3 then Failed else Starting
  }

  function WorkerState(cfg: Config, m: Memory, worker: Worker, launched: bool, look: Look): (Status, Memory) {
    var role := worker.role;
    if !launched then (Starting, m)
    else if !look.alive then (Failed, m)
    else
      var checked := m.(pids := PidsAfter(cfg, m, role, look, worker.ranks));
      if AnyRank(cfg, m, worker, look, Failed) then (Failed, checked)
      else if AnyRank(cfg, m, worker, look, Starting) then (Starting, checked)
      else if look.now - HttpOf(m, role).checked >= 2.0 then
        var http := Polled(HttpOf(m, role), look.now, look.httpOk);
        (HttpVerdict(http), checked.(http := m.http[role := http], polls := m.polls[role := PollsOf(m, role) + [look.httpOk]]))
      else (HttpVerdict(HttpOf(m, role)), checked)
  }

  /** The length of the run of failed polls at the end. */
  function TrailingFailures(polls: seq<bool>): nat {
    if polls == [] || polls[|polls| - 1] then 0 else 1 + TrailingFailures(polls[..|polls| - 1])
  }

  /** The HTTP state is a summary of the polls: the last outcome, the failures since the last success,
      and whether there ever was a success. */
  ghost predicate Summary(http: Http, polls: seq<bool>) {
    && (http.available <==> polls != [] && polls[|polls| - 1])
    && http.failures == TrailingFailures(polls)
    && (http.everReady <==> true in polls)
  }

  ghost predicate HttpOk(m: Memory, role: Role) {
    Summary(HttpOf(m, role), PollsOf(m, role))
  }

  ghost predicate MemoryOk(m: Memory) {
    forall role: Role :: HttpOk(m, role)
  }

  /** The rank had a valid record, no older than `budget`, of the process remembered for it. */
  ghost predicate RankEvidence(budget: real, after: Memory, role: Role, look: Look, r: nat) {
    && FreshRecord(look.file(r), look.process, look.now, budget)
    && (role, r) in after.pids && Some(after.pids[(role, r)]) == look.file(r).record.pid
  }

  /** The process was alive, every rank had its record, and the last HTTP poll succeeded. */
  ghost predicate ReadyEvidence(budget: real, after: Memory, worker: Worker, launched: bool, look: Look) {
    && launched && look.alive
    && (forall r :: 0 <= r < worker.ranks ==> RankEvidence(budget, after, worker.role, look, r))
    && (var polls := PollsOf(after, worker.role); polls != [] && polls[|polls| - 1])
  }

  /** A check of a rank whose pid is known gives that pid again. */
  lemma KnownPidStays(cfg: Config, m: Memory, role: Role, look: Look, r: nat)
    requires (role, r) in m.pids
    ensures RankCheck(cfg, m, role, look, r).1 == Some(m.pids[(role, r)])
  {
  }

  /** What is remembered for one rank: what its check gave, or what was known before. */
  lemma {:induction false} PidAfter(cfg: Config, m: Memory, role: Role, look: Look, n: nat, k: RankKey)
    ensures var pids := PidsAfter(cfg, m, role, look, n);
            if k.0 == role && k.1 < n && RankCheck(cfg, m, role, look, k.1).1.Some? then
              k in pids && Some(pids[k]) == RankCheck(cfg, m, role, look, k.1).1
            else (k in pids <==> k in m.pids) && (k in pids ==> pids[k] == m.pids[k])
  {
    if n > 0 { PidAfter(cfg, m, role, look, n - 1, k); }
  }

  /** Remembered pids stay, checked ranks remember theirs, and other ranks are not touched. */
  lemma PidsOnlyGrow(cfg: Config, m: Memory, role: Role, look: Look, n: nat)
    ensures var pids := PidsAfter(cfg, m, role, look, n);
            && (forall k :: k in m.pids ==> k in pids && pids[k] == m.pids[k])
            && (forall k :: k in pids && k !in m.pids ==> k.0 == role && k.1 < n)
            && (forall r :: 0 <= r < n && RankCheck(cfg, m, role, look, r).1.Some? ==>
                  (role, r) in pids && Some(pids[(role, r)]) == RankCheck(cfg, m, role, look, r).1)
  {
    forall k: RankKey
      ensures var pids := PidsAfter(cfg, m, role, look, n);
              && (k in m.pids ==> k in pids && pids[k] == m.pids[k])
              && (k in pids && k !in m.pids ==> k.0 == role && k.1 < n)
              && (k.0 == role && k.1 < n && RankCheck(cfg, m, role, look, k.1).1.Some? ==>
                    k in pids && Some(pids[k]) == RankCheck(cfg, m, role, look, k.1).1)
    {
      PidAfter(cfg, m, role, look, n, k);
      if k in m.pids && k.0 == role { KnownPidStays(cfg, m, role, look, k.1); }
    }
    forall r | 0 <= r < n && RankCheck(cfg, m, role, look, r).1.Some?
      ensures var pids := PidsAfter(cfg, m, role, look, n);
              (role, r) in pids && Some(pids[(role, r)]) == RankCheck(cfg, m, role, look, r).1
    {
      PidAfter(cfg, m, role, look, n, (role, r));
    }
  }

  lemma PollKeepsSummary(http: Http, polls: seq<bool>, now: real, ok: bool)
    requires Summary(http, polls)
    ensures Summary(Polled(http, now, ok), polls + [ok])
  {
    assert (polls + [ok])[..|polls|] == polls;
    assert true in polls + [ok] <==> true in polls || ok;
  }

  lemma WorkerKeepsPids(cfg: Config, m: Memory, worker: Worker, launched: bool, look: Look)
    ensures var after := WorkerState(cfg, m, worker, launched, look).1;
            forall k :: k in m.pids ==> k in after.pids && after.pids[k] == m.pids[k]
  {
    PidsOnlyGrow(cfg, m, worker.role, look, worker.ranks);
  }

  /** Only the polls of the checked worker grow, and the summary stays right. */
  lemma WorkerKeepsMemory(cfg: Config, m: Memory, worker: Worker, launched: bool, look: Look)
    requires MemoryOk(m)
    ensures var after := WorkerState(cfg, m, worker, launched, look).1;
            && MemoryOk(after)
            && (forall role: Role :: role != worker.role ==> PollsOf(after, role) == PollsOf(m, role))
            && (forall role: Role :: HttpOf(m, role).everReady ==> HttpOf(after, role).everReady)
  {
    var after, role := WorkerState(cfg, m, worker, launched, look).1, worker.role;
    assert HttpOk(m, role);
    PollKeepsSummary(HttpOf(m, role), PollsOf(m, role), look.now, look.httpOk);
    forall other: Role
      ensures HttpOk(after, other)
    {
      assert HttpOk(m, other);
    }
  }

  lemma RankReadyEvidence(cfg: Config, m: Memory, role: Role, look: Look, r: nat)
    requires RankCheck(cfg, m, role, look, r).0 == Ready
    ensures FreshRecord(look.file(r), look.process, look.now, Budget(cfg, m, role))
    ensures RankCheck(cfg, m, role, look, r).1 == look.file(r).record.pid
  {
    RankReadyExactly(look.file(r), look.process, look.now, Budget(cfg, m, role), KnownPid(m, (role, r)));
  }

  /** What a ready worker stands for in the tick that found it ready: records within the budget in force,
      which is the startup timeout only until the first successful poll. */
  lemma WorkerReadyEvidence(cfg: Config, m: Memory, worker: Worker, launched: bool, look: Look)
    requires MemoryOk(m) && WorkerState(cfg, m, worker, launched, look).0 == Ready
    ensures var after := WorkerState(cfg, m, worker, launched, look).1;
            && ReadyEvidence(Budget(cfg, m, worker.role), after, worker, launched, look)
            && HttpOf(after, worker.role).everReady
  {
    var role, after := worker.role, WorkerState(cfg, m, worker, launched, look).1;
    WorkerKeepsMemory(cfg, m, worker, launched, look);
    assert HttpOk(after, role) && HttpOf(after, role).available;
    PidsOnlyGrow(cfg, m, role, look, worker.ranks);
    forall r | 0 <= r < worker.ranks
      ensures RankEvidence(Budget(cfg, m, role), after, role, look, r)
    {
      assert RankCheck(cfg, m, role, look, r).0 == Ready;
      RankReadyEvidence(cfg, m, role, look, r);
    }
  }

  ghost predicate AllRanksReady(cfg: Config, m: Memory, worker: Worker, look: Look) {
    forall r :: 0 <= r < worker.ranks ==> RankCheck(cfg, m, worker.role, look, r).0 == Ready
  }

  /** The verdict on a worker in terms of the polls made so far: when a new one is made, and exactly
      when the worker is ready and when it has failed. */
  lemma WorkerVerdict(cfg: Config, m: Memory, worker: Worker, launched: bool, look: Look)
    requires MemoryOk(m)
    ensures var (status, after) := WorkerState(cfg, m, worker, launched, look);
            var polls, ranksReady := PollsOf(after, worker.role), AllRanksReady(cfg, m, worker, look);
            var due := look.now - HttpOf(m, worker.role).checked >= 2.0;
            && polls == PollsOf(m, worker.role) + (if launched && look.alive && ranksReady && due then [look.httpOk] else [])
            && (status == Ready <==> launched && look.alive && ranksReady && polls != [] && polls[|polls| - 1])
            && (status == Failed <==>
                  launched && (|| !look.alive
                               || AnyRank(cfg, m, worker, look, Failed)
                               || (ranksReady && true in polls && TrailingFailures(polls) >= 3)))
  {
    assert HttpOk(WorkerState(cfg, m, worker, launched, look).1, worker.role) by {
      WorkerKeepsMemory(cfg, m, worker, launched, look);
    }
    WorkerOutcome(cfg, m, worker, launched, look);
  }

  /** The same in terms of the state of the frontend after the check. */
  lemma WorkerOutcome(cfg: Config, m: Memory, worker: Worker, launched: bool, look: Look)
    ensures var (status, after) := WorkerState(cfg, m, worker, launched, look);
            var http, ranksReady := HttpOf(after, worker.role), AllRanksReady(cfg, m, worker, look);
            var due := look.now - HttpOf(m, worker.role).checked >= 2.0;
            && PollsOf(after, worker.role) == PollsOf(m, worker.role)
                 + (if launched && look.alive && ranksReady && due then [look.httpOk] else [])
            && (status == Ready <==> launched && look.alive && ranksReady && http.available)
            && (status == Failed <==>
                  launched && (|| !look.alive
                               || AnyRank(cfg, m, worker, look, Failed)
                               || (ranksReady && !http.available && http.everReady && http.failures >= 3)))
  {
    RanksAreClassified(cfg, m, worker, look);
    assert PollsOf(m, worker.role) + [] == PollsOf(m, worker.role);
  }

  lemma RanksAreClassified(cfg: Config, m: Memory, worker: Worker, look: Look)
    ensures AllRanksReady(cfg, m, worker, look)
       <==> !AnyRank(cfg, m, worker, look, Failed) && !AnyRank(cfg, m, worker, look, Starting)
  {
    forall r | 0 <= r < worker.ranks
      ensures var s := RankCheck(cfg, m, worker.role, look, r).0; s == Ready || s == Failed || s == Starting
    {
    }
  }

  // ---------------------------------------------------------------------------------------------
  // The GPU slices.

  function HasRole(role: Role): Worker -> bool {
    (w: Worker) => w.role == role
  }

  /** Prefill first: the stable sort of the workers by whether they are the prefill worker. */
  function LaunchOrder(cfg: Config): seq<Worker> {
    Filter(HasRole(Prefill), cfg.workers) + Filter(HasRole(Decode), cfg.workers)
  }

  lemma LaunchOrderIsPrefillDecode(cfg: Config)
    requires ConfigOk(cfg)
    ensures var order := LaunchOrder(cfg);
            && |order| == 2 && order[0].role == Prefill && order[1].role == Decode
            && (order == cfg.workers || order == [cfg.workers[1], cfg.workers[0]])
  {
    var a, b := cfg.workers[0], cfg.workers[1];
    assert cfg.workers == [] + [a] + [b];
    forall role: Role
      ensures Filter(HasRole(role), cfg.workers) == [if a.role == role then a else b]
    {
      FilterSnoc(HasRole(role), [a], b);
      FilterSnoc(HasRole(role), [], a);
      assert [] + [a] == [a];
      assert a.role == role || b.role == role;
    }
  }

  /** How many devices the workers launched before worker `k` took. */
  function Offset(order: seq<Worker>, k: nat): nat
    requires k <= |order|
  {
    if k == 0 then 0 else Offset(order, k - 1) + order[k - 1].gpus
  }

  function Slice(order: seq<Worker>, devices: seq<string>, k: nat): seq<string>
    requires k < |order| && Offset(order, k) + order[k].gpus <= |devices|
  {
    devices[Offset(order, k)..Offset(order, k) + order[k].gpus]
  }

  ghost predicate Distinct(devices: seq<string>) {
    forall i, j :: 0 <= i < j < |devices| ==> devices[i] != devices[j]
  }

  /** With exactly the assigned devices, all different, each worker gets as many as it has ranks, no
      device goes to both workers, and none is left over. */
  lemma SlicesPartition(cfg: Config, devices: seq<string>)
    requires ConfigOk(cfg) && |devices| == cfg.workers[0].gpus + cfg.workers[1].gpus && Distinct(devices)
    ensures var order := LaunchOrder(cfg);
            && |order| == 2 && Offset(order, 0) + order[0].gpus <= |devices| && Offset(order, 1) + order[1].gpus <= |devices|
            && |Slice(order, devices, 0)| == order[0].ranks && |Slice(order, devices, 1)| == order[1].ranks
            && Slice(order, devices, 0) + Slice(order, devices, 1) == devices
            && (forall d :: d in Slice(order, devices, 0) ==> d !in Slice(order, devices, 1))
  {
    LaunchOrderIsPrefillDecode(cfg);
    var order := LaunchOrder(cfg);
    assert order[0] in cfg.workers && order[1] in cfg.workers;
    var n := order[0].gpus;
    assert Offset(order, 1) == n;
    var s, t := Slice(order, devices, 0), Slice(order, devices, 1);
    assert s == devices[..n] && t == devices[n..];
    assert forall i :: 0 <= i < |s| ==> s[i] == devices[i];
    assert forall j :: 0 <= j < |t| ==> t[j] == devices[n + j];
  }

  // ---------------------------------------------------------------------------------------------
  // The run.

  datatype Phase = WaitModel | WaitWorker(k: nat) | Monitoring | Over

  /** What one tick can see. */
  datatype Tick = Tick(now: real, modelAlive: bool, marker: bool, looks: Role -> Look)

  datatype Input = Signal | Ticks(tick: Tick)

  /** The supervisor, with the history the claims speak about: whether the model marker was seen,
      which workers were ever found ready, and the tick that wrote the snapshot. */
  datatype Super = Super(
    phase: Phase, started: real, launched: set<Role>, memory: Memory, failed: bool, stop: bool, snapshot: Status,
    markerSeen: bool, readySeen: set<Role>, last: Option<Tick>)

  function Init(started: real): Super {
    Super(WaitModel, started, {}, Memory(map[], map[], map[]), false, false, Starting, false, {}, None)
  }

  function Check(cfg: Config, y: Super, worker: Worker, tick: Tick): (Status, Super) {
    var (status, memory) := WorkerState(cfg, y.memory, worker, worker.role in y.launched, tick.looks(worker.role));
    (status, y.(memory := memory, readySeen := if status == Ready then y.readySeen + {worker.role} else y.readySeen))
  }

  /** A failure during the start: nothing more is launched, and monitoring ends at once. */
  function StartFails(y: Super): Super {
    y.(failed := true, stop := true, phase := Monitoring)
  }

  /** The head of the launch loop: launch worker `k`, unless told to stop or all are up. */
  function Launch(cfg: Config, y: Super, k: nat): Super {
    if k >= |LaunchOrder(cfg)| || y.stop then y.(phase := Monitoring)
    else y.(launched := y.launched + {LaunchOrder(cfg)[k].role}, phase := WaitWorker(k))
  }

  /** The launched workers other than `role`, in configuration order. */
  function Previous(cfg: Config, y: Super, role: Role): seq<Worker> {
    Filter((w: Worker) => w.role != role && w.role in y.launched, cfg.workers)
  }

  /** Check workers in order, up to the first that failed. */
  function CheckUntilFailed(cfg: Config, y: Super, workers: seq<Worker>, tick: Tick): (bool, Super)
    decreases |workers|
  {
    if workers == [] then (false, y)
    else
      var (status, next) := Check(cfg, y, workers[0], tick);
      if status == Failed then (true, next) else CheckUntilFailed(cfg, next, workers[1..], tick)
  }

  function WaitTick(cfg: Config, y: Super, k: nat, tick: Tick): Super
    requires k < |LaunchOrder(cfg)|
  {
    var worker := LaunchOrder(cfg)[k];
    if !tick.modelAlive then StartFails(y)
    else
      var (broken, x) := CheckUntilFailed(cfg, y, Previous(cfg, y, worker.role), tick);
      if broken then StartFails(x)
      else
        var (status, z) := Check(cfg, x, worker, tick);
        if status == Ready then Launch(cfg, z, k + 1)
        else if status == Failed || tick.now - z.started > cfg.startupTimeout then StartFails(z)
        else z
  }

  /** Check every worker; the statuses in configuration order. */
  function CheckAll(cfg: Config, y: Super, workers: seq<Worker>, tick: Tick): (seq<Status>, Super)
    decreases |workers|
  {
    if workers == [] then ([], y)
    else
      var (status, next) := Check(cfg, y, workers[0], tick);
      var (rest, end) := CheckAll(cfg, next, workers[1..], tick);
      ([status] + rest, end)
  }

  function MonitorTick(cfg: Config, y: Super, tick: Tick): Super {
    var (checked, z) := CheckAll(cfg, y, cfg.workers, tick);
    var states := if tick.modelAlive then checked else checked + [Failed];
    var state := if Failed in states then Failed else if Starting in states then Starting else Ready;
    var final := if state == Starting && tick.now - y.started > cfg.startupTimeout then Failed else state;
    z.(snapshot := final, last := Some(tick), failed := z.failed || final == Failed, stop := z.stop || final == Failed)
  }

  function Step(cfg: Config, y: Super, input: Input): Super {
    match input
    case Signal => y.(stop := true)
    case Ticks(tick) =>
      match y.phase
      case WaitModel =>
        if y.stop then Launch(cfg, y, 0)
        else if !tick.modelAlive then StartFails(y)
        else if tick.marker then Launch(cfg, y.(markerSeen := true), 0)
        else if tick.now - y.started > cfg.startupTimeout then StartFails(y)
        else y
      case WaitWorker(k) =>
        if y.stop || k >= |LaunchOrder(cfg)| then y.(phase := Monitoring) else WaitTick(cfg, y, k, tick)
      case Monitoring =>
        if y.stop then y.(phase := Over, snapshot := Failed, last := Some(tick)) else MonitorTick(cfg, y, tick)
      case Over => y
  }

  function Run(cfg: Config, y: Super, inputs: seq<Input>): Super
    decreases |inputs|
  {
    if inputs == [] then y else Run(cfg, Step(cfg, y, inputs[0]), inputs[1..])
  }

  /** The evidence of a ready snapshot, in the tick that wrote it: no record older than the progress
      timeout. */
  ghost predicate PairReady(cfg: Config, y: Super, tick: Tick) {
    tick.modelAlive && forall w :: w in cfg.workers ==>
      ReadyEvidence(cfg.progressTimeout, y.memory, w, w.role in y.launched, tick.looks(w.role))
  }

  ghost predicate LaunchOk(y: Super) {
    && (Prefill in y.launched ==> y.markerSeen)
    && (Decode in y.launched ==> y.markerSeen && Prefill in y.readySeen)
    && (y.phase.WaitModel? ==> y.launched == {})
    && (y.phase.WaitWorker? ==> y.markerSeen && y.phase.k < 2 && (y.phase.k == 1 ==> Prefill in y.readySeen))
  }

  /** A worker that was found ready has had a successful poll, and monitoring goes on only after both
      were found ready. */
  ghost predicate ReadyOk(y: Super) {
    && (forall role: Role :: role in y.readySeen ==> HttpOf(y.memory, role).everReady)
    && (y.phase.Monitoring? && !y.stop ==> Prefill in y.readySeen && Decode in y.readySeen)
  }

  ghost predicate SnapshotOk(cfg: Config, y: Super) {
    && (y.failed ==> y.stop && y.snapshot != Ready)
    && (y.phase.WaitModel? || y.phase.WaitWorker? ==> y.snapshot == Starting && !y.failed)
    && (y.phase.Over? ==> y.stop && y.snapshot == Failed)
    && (y.snapshot == Ready ==> y.last.Some? && PairReady(cfg, y, y.last.value))
  }

  ghost predicate Inv(cfg: Config, y: Super) {
    MemoryOk(y.memory) && LaunchOk(y) && ReadyOk(y) && SnapshotOk(cfg, y)
  }

  /** What holds from one state to any later one. */
  ghost predicate Later(y: Super, z: Super) {
    && z.started == y.started
    && (forall k :: k in y.memory.pids ==> k in z.memory.pids && z.memory.pids[k] == y.memory.pids[k])
    && (forall role: Role :: HttpOf(y.memory, role).everReady ==> HttpOf(z.memory, role).everReady)
    && (y.stop ==> z.stop) && (y.failed ==> z.failed)
    && y.launched <= z.launched && y.readySeen <= z.readySeen
  }

  lemma CheckSafe(cfg: Config, y: Super, worker: Worker, tick: Tick)
    requires MemoryOk(y.memory)
    ensures var (status, z) := Check(cfg, y, worker, tick);
            && MemoryOk(z.memory) && Later(y, z)
            && z == y.(memory := z.memory, readySeen := z.readySeen)
            && (status == Ready ==>
                  worker.role in z.readySeen && worker.role in y.launched
                  && HttpOf(z.memory, worker.role).everReady
                  && ReadyEvidence(Budget(cfg, y.memory, worker.role), z.memory, worker, true, tick.looks(worker.role)))
            && (forall role: Role :: role in z.readySeen ==> role in y.readySeen || (role == worker.role && status == Ready))
            && (forall role: Role :: role != worker.role ==> PollsOf(z.memory, role) == PollsOf(y.memory, role))
  {
    var look, launched := tick.looks(worker.role), worker.role in y.launched;
    WorkerKeepsMemory(cfg, y.memory, worker, launched, look);
    WorkerKeepsPids(cfg, y.memory, worker, launched, look);
    if WorkerState(cfg, y.memory, worker, launched, look).0 == Ready {
      WorkerReadyEvidence(cfg, y.memory, worker, launched, look);
    }
  }

  lemma {:induction false} CheckUntilFailedSafe(cfg: Config, y: Super, workers: seq<Worker>, tick: Tick)
    requires MemoryOk(y.memory)
    ensures var z := CheckUntilFailed(cfg, y, workers, tick).1;
            && MemoryOk(z.memory) && Later(y, z) && z == y.(memory := z.memory, readySeen := z.readySeen)
            && (ReadyOk(y) ==> ReadyOk(z))
    decreases |workers|
  {
    if workers != [] {
      CheckSafe(cfg, y, workers[0], tick);
      var (status, next) := Check(cfg, y, workers[0], tick);
      if status != Failed { CheckUntilFailedSafe(cfg, next, workers[1..], tick); }
    }
  }

  /** Evidence about one worker survives the check of the other. */
  lemma EvidenceStays(budget: real, y: Super, z: Super, worker: Worker, look: Look)
    requires Later(y, z) && PollsOf(z.memory, worker.role) == PollsOf(y.memory, worker.role)
    requires ReadyEvidence(budget, y.memory, worker, true, look)
    ensures ReadyEvidence(budget, z.memory, worker, true, look)
  {
    forall r | 0 <= r < worker.ranks
      ensures RankEvidence(budget, z.memory, worker.role, look, r)
    {
      assert RankEvidence(budget, y.memory, worker.role, look, r);
    }
  }

  /** Both workers are checked, in configuration order. */
  lemma CheckAllIsBoth(cfg: Config, y: Super, tick: Tick)
    requires ConfigOk(cfg)
    ensures var (s, x) := Check(cfg, y, cfg.workers[0], tick);
            var (t, z) := Check(cfg, x, cfg.workers[1], tick);
            CheckAll(cfg, y, cfg.workers, tick) == ([s, t], z)
  {
    var a, b := cfg.workers[0], cfg.workers[1];
    assert cfg.workers == [a, b] && cfg.workers[1..] == [b] && [b][1..] == [];
    var (s, x) := Check(cfg, y, a, tick);
    var (t, z) := Check(cfg, x, b, tick);
    assert CheckAll(cfg, x, [b], tick) == ([t] + [], z) by { assert CheckAll(cfg, z, [], tick) == ([], z); }
    assert [s] + ([t] + []) == [s, t];
  }

  lemma CheckAllSafe(cfg: Config, y: Super, tick: Tick)
    requires ConfigOk(cfg) && MemoryOk(y.memory) && ReadyOk(y) && y.phase.Monitoring? && !y.stop
    ensures var (states, z) := CheckAll(cfg, y, cfg.workers, tick);
            && |states| == 2 && MemoryOk(z.memory) && Later(y, z) && ReadyOk(z)
            && z == y.(memory := z.memory, readySeen := z.readySeen)
            && (states[0] == Ready && states[1] == Ready && tick.modelAlive ==> PairReady(cfg, z, tick))
  {
    var a, b := cfg.workers[0], cfg.workers[1];
    CheckAllIsBoth(cfg, y, tick);
    CheckSafe(cfg, y, a, tick);
    var (s, x) := Check(cfg, y, a, tick);
    CheckSafe(cfg, x, b, tick);
    var (t, z) := Check(cfg, x, b, tick);
    if s == Ready && t == Ready {
      assert Budget(cfg, y.memory, a.role) == Budget(cfg, x.memory, b.role) == cfg.progressTimeout;
      EvidenceStays(cfg.progressTimeout, x, z, a, tick.looks(a.role));
      assert a.role in z.launched && b.role in z.launched;
      assert forall w :: w in cfg.workers ==> w == a || w == b;
    }
  }

  lemma LaunchKeepsInv(cfg: Config, y: Super, k: nat)
    requires ConfigOk(cfg) && MemoryOk(y.memory) && SnapshotOk(cfg, y) && y.snapshot == Starting && !y.failed
    requires (Prefill in y.launched ==> y.markerSeen) && (Decode in y.launched ==> y.markerSeen && Prefill in y.readySeen)
    requires !y.stop ==> y.markerSeen
    requires forall role: Role :: role in y.readySeen ==> HttpOf(y.memory, role).everReady
    requires (k >= 1 ==> Prefill in y.readySeen) && (k >= 2 ==> Decode in y.readySeen)
    ensures Inv(cfg, Launch(cfg, y, k)) && Later(y, Launch(cfg, y, k))
  {
    LaunchOrderIsPrefillDecode(cfg);
  }

  lemma WaitTickKeepsInv(cfg: Config, y: Super, k: nat, tick: Tick)
    requires ConfigOk(cfg) && Inv(cfg, y) && y.phase == WaitWorker(k) && !y.stop && k < |LaunchOrder(cfg)|
    ensures Inv(cfg, WaitTick(cfg, y, k, tick)) && Later(y, WaitTick(cfg, y, k, tick))
  {
    LaunchOrderIsPrefillDecode(cfg);
    var worker := LaunchOrder(cfg)[k];
    CheckUntilFailedSafe(cfg, y, Previous(cfg, y, worker.role), tick);
    var (broken, x) := CheckUntilFailed(cfg, y, Previous(cfg, y, worker.role), tick);
    CheckSafe(cfg, x, worker, tick);
    var (status, z) := Check(cfg, x, worker, tick);
    if tick.modelAlive && !broken && status == Ready {
      LaunchKeepsInv(cfg, z, k + 1);
    }
  }

  /** The snapshot of a monitor round is ready exactly when the model runs and both workers are ready,
      and failed exactly when one of the three failed or the start took too long. */
  lemma SnapshotExactly(cfg: Config, y: Super, tick: Tick)
    requires ConfigOk(cfg)
    ensures var (s, x) := Check(cfg, y, cfg.workers[0], tick);
            var t := Check(cfg, x, cfg.workers[1], tick).0;
            var snapshot := MonitorTick(cfg, y, tick).snapshot;
            && (snapshot == Ready <==> tick.modelAlive && s == Ready && t == Ready)
            && (snapshot == Failed <==>
                  || !tick.modelAlive || s == Failed || t == Failed
                  || ((s == Starting || t == Starting) && tick.now - y.started > cfg.startupTimeout))
  {
    CheckAllIsBoth(cfg, y, tick);
    var states := CheckAll(cfg, y, cfg.workers, tick).0;
    assert (states + [Failed])[2] == Failed;
    assert states[0] in states && states[1] in states;
  }

  lemma MonitorTickKeepsInv(cfg: Config, y: Super, tick: Tick)
    requires ConfigOk(cfg) && Inv(cfg, y) && y.phase == Monitoring && !y.stop
    ensures Inv(cfg, MonitorTick(cfg, y, tick)) && Later(y, MonitorTick(cfg, y, tick))
  {
    CheckAllSafe(cfg, y, tick);
    var (checked, z) := CheckAll(cfg, y, cfg.workers, tick);
    var end := MonitorTick(cfg, y, tick);
    if end.snapshot == Ready {
      assert checked[0] == Ready && checked[1] == Ready;
    }
  }

  lemma StepKeepsInv(cfg: Config, y: Super, input: Input)
    requires ConfigOk(cfg) && Inv(cfg, y)
    ensures Inv(cfg, Step(cfg, y, input)) && Later(y, Step(cfg, y, input))
  {
    if input.Ticks? {
      LaunchOrderIsPrefillDecode(cfg);
      match y.phase
      case WaitModel =>
        if y.stop { LaunchKeepsInv(cfg, y, 0); }
        else if input.tick.modelAlive && input.tick.marker { LaunchKeepsInv(cfg, y.(markerSeen := true), 0); }
      case WaitWorker(k) => if !y.stop { WaitTickKeepsInv(cfg, y, k, input.tick); }
      case Monitoring => if !y.stop { MonitorTickKeepsInv(cfg, y, input.tick); }
      case Over =>
    }
  }

  /** Run safety. In every run: decode is launched only after the model marker was seen and prefill was
      found ready; a ready snapshot has its evidence, fresh within the progress timeout, in the tick that
      wrote it; a failed or stopped supervisor is never ready again; and a remembered pid never changes. */
  lemma {:induction false} RunSafety(cfg: Config, y: Super, inputs: seq<Input>)
    requires ConfigOk(cfg) && Inv(cfg, y)
    ensures Inv(cfg, Run(cfg, y, inputs)) && Later(y, Run(cfg, y, inputs))
    decreases |inputs|
  {
    if inputs != [] {
      StepKeepsInv(cfg, y, inputs[0]);
      RunSafety(cfg, Step(cfg, y, inputs[0]), inputs[1..]);
    }
  }

  /** So, from the start: whatever the ticks and signals, and however they go on. */
  lemma SupervisorSafety(cfg: Config, started: real, inputs: seq<Input>, more: seq<Input>)
    requires ConfigOk(cfg)
    ensures var y := Run(cfg, Init(started), inputs);
            var z := Run(cfg, y, more);
            && (Decode in y.launched ==> y.markerSeen && Prefill in y.readySeen)
            && (y.snapshot == Ready ==> y.last.Some? && PairReady(cfg, y, y.last.value))
            && (y.failed ==> z.failed && z.snapshot != Ready)
            && (forall k :: k in y.memory.pids ==> k in z.memory.pids && z.memory.pids[k] == y.memory.pids[k])
  {
    RunSafety(cfg, Init(started), inputs);
    RunSafety(cfg, Run(cfg, Init(started), inputs), more);
  }

  // ---------------------------------------------------------------------------------------------
  // The supervisor, updated in place.

  class Supervisor {
    const cfg: Config
    const started: real
    var launched: set<Role>
    var pids: map<RankKey, int>
    var http: map<Role, Http>
    ghost var polls: map<Role, seq<bool>>
    var failed: bool
    var stop: bool
    var snapshot: Status

    ghost function Mem(): Memory
      reads this
    {
      Memory(pids, http, polls)
    }

    constructor (cfg: Config, started: real)
      ensures this.cfg == cfg && this.started == started && launched == {} && Mem() == Memory(map[], map[], map[])
      ensures !failed && !stop && snapshot == Starting
    {
      this.cfg, this.started := cfg, started;
      launched, pids, http, polls, failed, stop, snapshot := {}, map[], map[], map[], false, false, Starting;
    }

    /** Check every rank of a worker, and remember each pid that is seen. */
    method CheckRanks(worker: Worker, look: Look, budget: real) returns (anyFailed: bool, anyStarting: bool)
      requires budget == Budget(cfg, Mem(), worker.role)
      modifies this`pids
      ensures pids == PidsAfter(cfg, old(Mem()), worker.role, look, worker.ranks)
      ensures anyFailed <==> AnyRank(cfg, old(Mem()), worker, look, Failed)
      ensures anyStarting <==> AnyRank(cfg, old(Mem()), worker, look, Starting)
    {
      ghost var m := Mem();
      anyFailed, anyStarting := false, false;
      for rank := 0 to worker.ranks
        invariant pids == PidsAfter(cfg, m, worker.role, look, rank)
        invariant anyFailed <==> exists r :: 0 <= r < rank && RankCheck(cfg, m, worker.role, look, r).0 == Failed
        invariant anyStarting <==> exists r :: 0 <= r < rank && RankCheck(cfg, m, worker.role, look, r).0 == Starting
      {
        var key := (worker.role, rank);
        var known := if key in pids then Some(pids[key]) else None;
        assert known == KnownPid(m, key) by { PidsOnlyGrow(cfg, m, worker.role, look, rank); }
        var (state, pid) := RankStatus(look.file(rank), look.process, look.now, budget, known);
        assert (state, pid) == RankCheck(cfg, m, worker.role, look, rank);
        if pid.Some? { pids := pids[key := pid.value]; }
        anyFailed, anyStarting := anyFailed || state == Failed, anyStarting || state == Starting;
      }
    }

    /** Check one worker: the child, then every rank, then the HTTP frontend when its turn has come. */
    method CheckWorker(worker: Worker, look: Look) returns (status: Status)
      modifies this`pids, this`http, this`polls
      ensures (status, Mem()) == WorkerState(cfg, old(Mem()), worker, worker.role in launched, look)
    {
      var role := worker.role;
      ghost var m := Mem();
      if role !in launched { return Starting; }
      if !look.alive { return Failed; }
      var seen := if role in http then http[role] else NEVER_POLLED;
      var anyFailed, anyStarting :=
        CheckRanks(worker, look, if seen.everReady then cfg.progressTimeout else cfg.startupTimeout);
      if anyFailed { return Failed; }
      if anyStarting { return Starting; }
      if look.now - seen.checked >= 2.0 {
        seen := Http(look.now, look.httpOk, if look.httpOk then 0 else seen.failures + 1, seen.everReady || look.httpOk);
        http := http[role := seen];
        polls := polls[role := PollsOf(m, role) + [look.httpOk]];
      }
      if seen.available { return Ready; }
      return if seen.everReady && seen.failures >= 3 then Failed else Starting;
    }

    /** The fields as a state of the run, with the given history of ready workers. */
    ghost function AsSuper(readySeen: set<Role>): Super
      reads this
    {
      Super(Monitoring, started, launched, Mem(), failed, stop, snapshot, true, readySeen, None)
    }

    /** Check the workers in configuration order. */
    method CheckWorkers(tick: Tick) returns (states: seq<Status>)
      modifies this`pids, this`http, this`polls
      ensures var (checked, z) := CheckAll(cfg, old(AsSuper({})), cfg.workers, tick);
              states == checked && Mem() == z.memory
    {
      states := [];
      var left := cfg.workers;
      ghost var goal, readySeen := CheckAll(cfg, AsSuper({}), left, tick), {};
      assert states + goal.0 == goal.0;
      while left != []
        invariant goal == Prepended(states, CheckAll(cfg, AsSuper(readySeen), left, tick))
        decreases |left|
      {
        ghost var x := AsSuper(readySeen);
        var status := CheckWorker(left[0], tick.looks(left[0].role));
        readySeen := if status == Ready then readySeen + {left[0].role} else readySeen;
        CheckAllRound(cfg, x, left, tick, states, status, AsSuper(readySeen));
        states, left := states + [status], left[1..];
      }
      assert states + [] == states;
    }

    /** One round of the monitor loop: check both workers and the model, and publish the snapshot. */
    method MonitorOnce(tick: Tick)
      modifies this`pids, this`http, this`polls, this`failed, this`stop, this`snapshot
      ensures var z := MonitorTick(cfg, old(AsSuper({})), tick);
              Mem() == z.memory && failed == z.failed && stop == z.stop && snapshot == z.snapshot
    {
      CheckAllKeepsFlags(cfg, AsSuper({}), cfg.workers, tick);
      var states := CheckWorkers(tick);
      if !tick.modelAlive { states := states + [Failed]; }
      var state := if Failed in states then Failed else if Starting in states then Starting else Ready;
      if state == Starting && tick.now - started > cfg.startupTimeout { state := Failed; }
      snapshot := state;
      if state == Failed { failed, stop := true, true; }
    }
  }

  ghost function Prepended(states: seq<Status>, later: (seq<Status>, Super)): (seq<Status>, Super) {
    (states + later.0, later.1)
  }

  /** One round of the loop over the workers. */
  lemma CheckAllRound(cfg: Config, y: Super, left: seq<Worker>, tick: Tick, states: seq<Status>, status: Status, z: Super)
    requires left != [] && Check(cfg, y, left[0], tick) == (status, z)
    ensures Prepended(states, CheckAll(cfg, y, left, tick))
         == Prepended(states + [status], CheckAll(cfg, z, left[1..], tick))
  {
    var rest := CheckAll(cfg, z, left[1..], tick).0;
    assert states + ([status] + rest) == states + [status] + rest;
  }

  lemma {:induction false} CheckAllKeepsFlags(cfg: Config, y: Super, workers: seq<Worker>, tick: Tick)
    ensures var z := CheckAll(cfg, y, workers, tick).1; z.failed == y.failed && z.stop == y.stop
    decreases |workers|
  {
    if workers != [] { CheckAllKeepsFlags(cfg, Check(cfg, y, workers[0], tick).1, workers[1..], tick); }
  }
}
