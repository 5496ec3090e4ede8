/** Prefetching in virtual time: one call may spend the duration of one inference step
    (images/sglang/simulator-upstream/src/sglang_simulator/simulation/sglang/cache_controller.py).
    Durations are real numbers. */
module Prefetch {
  import opened Common

  /** Bytes per token, storage bandwidth in bytes per second, and tokens per page. */
  datatype Config = Config(tokenBytes: real, bandwidth: real, pageSize: nat)

  ghost predicate ConfigOk(cfg: Config) {
    cfg.tokenBytes > 0.0 && cfg.bandwidth > 0.0 && cfg.pageSize > 0
  }

  /** A prefetch of `hit` tokens; the owner of a request may terminate it at any time. */
  datatype Operation = Operation(id: nat, hit: nat, completed: real, terminated: bool)

  /** The time it takes to move so many tokens. */
  function Cost(cfg: Config, tokens: real): real
    requires cfg.bandwidth > 0.0
  {
    tokens * cfg.tokenBytes / cfg.bandwidth
  }

  /** The tokens moved within `maxDur`, and the time charged: at least one token, if time runs out. */
  function CalcPrefetch(cfg: Config, required: real, maxDur: real): (real, real)
    requires cfg.bandwidth > 0.0 && cfg.tokenBytes > 0.0
  {
    var dur := Cost(cfg, required);
    if dur > maxDur then
      var tokens := maxDur * cfg.bandwidth / cfg.tokenBytes;
      (if tokens < 1.0 then 1.0 else tokens, maxDur)
    else (required, dur)
  }

  lemma CostOfTime(cfg: Config, dur: real)
    requires ConfigOk(cfg)
    ensures Cost(cfg, dur * cfg.bandwidth / cfg.tokenBytes) == dur
  {
    var tokens := dur * cfg.bandwidth / cfg.tokenBytes;
    assert tokens * cfg.tokenBytes == dur * cfg.bandwidth;
  }

  lemma CostMonotone(cfg: Config, a: real, b: real)
    requires ConfigOk(cfg) && a <= b
    ensures Cost(cfg, a) <= Cost(cfg, b)
  {
    assert a * cfg.tokenBytes <= b * cfg.tokenBytes;
  }

  lemma CostAdds(cfg: Config, a: real, b: real)
    requires ConfigOk(cfg)
    ensures Cost(cfg, a + b) == Cost(cfg, a) + Cost(cfg, b)
  {
    assert (a + b) * cfg.tokenBytes == a * cfg.tokenBytes + b * cfg.tokenBytes;
  }

  /** The charge stays within the time given. Time runs out exactly when not all is moved or the last
      token is given away, and the tokens moved cost at most one token more than the charge. */
  lemma CalcBounds(cfg: Config, required: real, maxDur: real)
    requires ConfigOk(cfg) && required >= 0.0 && maxDur >= 0.0
    ensures var (tokens, dur) := CalcPrefetch(cfg, required, maxDur);
            var moved := if tokens < required then tokens else required;
            && 0.0 <= dur <= maxDur
            && (tokens < required ==> dur == maxDur && tokens >= 1.0)
            && Cost(cfg, moved) <= dur + Cost(cfg, 1.0)
            && (dur < maxDur ==> Cost(cfg, moved) == dur)
            && (Cost(cfg, moved) > dur ==> maxDur < Cost(cfg, 1.0))
  {
    var (tokens, dur) := CalcPrefetch(cfg, required, maxDur);
    CostMonotone(cfg, 0.0, required);
    CostMonotone(cfg, 0.0, 1.0);
    var byTime := maxDur * cfg.bandwidth / cfg.tokenBytes;
    CostOfTime(cfg, maxDur);
    if Cost(cfg, required) > maxDur {
      if byTime >= required { CostMonotone(cfg, required, byTime); assert false; }
      if byTime < 1.0 {
        CostMonotone(cfg, byTime, 1.0);
        if Cost(cfg, 1.0) <= maxDur { CostStrict(cfg, byTime, 1.0); assert false; }
        if required <= 1.0 { CostMonotone(cfg, required, 1.0); }
      }
    }
  }

  lemma CostStrict(cfg: Config, a: real, b: real)
    requires ConfigOk(cfg) && a < b
    ensures Cost(cfg, a) < Cost(cfg, b)
  {
    assert a * cfg.tokenBytes < b * cfg.tokenBytes;
  }

  // ---------------------------------------------------------------------------------------------
  // One call.

  /** Operations waiting for time, and at most one that is partly transferred. */
  datatype State = State(buffer: seq<Operation>, chunk: Option<Operation>)

  /** What a call leaves behind: the finished operations in order, the time left and the tokens moved. */
  datatype Outcome = Outcome(state: State, finished: seq<Operation>, remain: real, moved: real)

  /** Go on with the partly transferred operation. */
  function HandleChunk(cfg: Config, y: State, budget: real): Outcome
    requires cfg.bandwidth > 0.0 && cfg.tokenBytes > 0.0
  {
    if y.chunk.None? then Outcome(y, [], budget, 0.0)
    else if y.chunk.value.terminated then Outcome(y.(chunk := None), [], budget, 0.0)
    else
      var op := y.chunk.value;
      var required := op.hit as real - op.completed;
      var (tokens, dur) := CalcPrefetch(cfg, required, budget);
      if tokens < required then
        Outcome(y.(chunk := Some(op.(completed := op.completed + tokens))), [], 0.0, tokens)
      else
        Outcome(y.(chunk := None), [op.(completed := op.hit as real, terminated := true)], budget - dur, required)
  }

  function WholePages(cfg: Config, tokens: nat): nat
    requires cfg.pageSize > 0
  {
    tokens / cfg.pageSize * cfg.pageSize
  }

  /** Transfer waiting operations while time is left. */
  function HandleBuffer(cfg: Config, y: State, remain: real): Outcome
    requires cfg.bandwidth > 0.0 && cfg.tokenBytes > 0.0 && cfg.pageSize > 0
    decreases |y.buffer|
  {
    if remain <= 0.0 || y.buffer == [] then Outcome(y, [], remain, 0.0)
    else
      var op, rest := y.buffer[0], y.(buffer := y.buffer[1..]);
      if op.terminated then HandleBuffer(cfg, rest, remain)
      else
        var required := op.hit as real;
        var (tokens, dur) := CalcPrefetch(cfg, required, remain);
        if tokens < required then Outcome(rest.(chunk := Some(op.(completed := tokens))), [], 0.0, tokens)
        else
          var done := op.(completed := WholePages(cfg, op.hit) as real, terminated := true);
          var later := HandleBuffer(cfg, rest, remain - dur);
          later.(finished := [done] + later.finished, moved := required + later.moved)
  }

  /** The whole call: new operations join the buffer, the carried one goes first. */
  function Handle(cfg: Config, y: State, arrivals: seq<Operation>, budget: real): Outcome
    requires cfg.bandwidth > 0.0 && cfg.tokenBytes > 0.0 && cfg.pageSize > 0
  {
    var first := HandleChunk(cfg, y.(buffer := y.buffer + arrivals), budget);
    var second := HandleBuffer(cfg, first.state, first.remain);
    second.(finished := first.finished + second.finished, moved := first.moved + second.moved)
  }

  ghost predicate ChunkOk(op: Operation) {
    0.0 < op.completed < op.hit as real
  }

  ghost predicate StateOk(y: State) {
    y.chunk.Some? ==> ChunkOk(y.chunk.value)
  }

  /** A finished operation never has more tokens than it hit: all of them, or all whole pages. */
  ghost predicate FinishedOk(cfg: Config, op: Operation)
    requires cfg.pageSize > 0
  {
    op.terminated && op.completed <= op.hit as real
    && (op.completed == op.hit as real || op.completed == WholePages(cfg, op.hit) as real)
  }

  lemma WholePagesBound(cfg: Config, tokens: nat)
    requires cfg.pageSize > 0
    ensures WholePages(cfg, tokens) <= tokens
  {
  }

  /** What every part of a call keeps. The cost of the tokens moved exceeds the time charged by at most
      one token, and only in a part that used its time up. */
  ghost predicate Keeps(cfg: Config, budget: real, out: Outcome)
    requires ConfigOk(cfg)
  {
    && 0.0 <= out.remain <= budget && out.moved >= 0.0
    && Cost(cfg, out.moved) <= budget - out.remain + Cost(cfg, 1.0)
    && (out.remain > 0.0 ==> Cost(cfg, out.moved) == budget - out.remain)
    && StateOk(out.state)
    && forall op :: op in out.finished ==> FinishedOk(cfg, op)
  }

  lemma ChunkKeeps(cfg: Config, y: State, budget: real)
    requires ConfigOk(cfg) && StateOk(y) && budget >= 0.0
    ensures var out := HandleChunk(cfg, y, budget);
            && Keeps(cfg, budget, out) && out.state.buffer == y.buffer
            && (out.state.chunk.Some? ==> out.remain == 0.0)
  {
    assert Cost(cfg, 0.0) == 0.0;
    CostMonotone(cfg, 0.0, 1.0);
    if y.chunk.Some? && !y.chunk.value.terminated {
      CalcBounds(cfg, y.chunk.value.hit as real - y.chunk.value.completed, budget);
    }
  }

  lemma {:induction false} BufferKeeps(cfg: Config, y: State, remain: real)
    requires ConfigOk(cfg) && y.chunk.None? && remain >= 0.0
    ensures Keeps(cfg, remain, HandleBuffer(cfg, y, remain))
    decreases |y.buffer|
  {
    assert Cost(cfg, 0.0) == 0.0;
    CostMonotone(cfg, 0.0, 1.0);
    if remain > 0.0 && y.buffer != [] {
      var op, rest := y.buffer[0], y.(buffer := y.buffer[1..]);
      if op.terminated {
        BufferKeeps(cfg, rest, remain);
      } else {
        var required := op.hit as real;
        CalcBounds(cfg, required, remain);
        var (tokens, dur) := CalcPrefetch(cfg, required, remain);
        if tokens >= required {
          BufferKeeps(cfg, rest, remain - dur);
          var later := HandleBuffer(cfg, rest, remain - dur);
          CostAdds(cfg, required, later.moved);
          WholePagesBound(cfg, op.hit);
        }
      }
    }
  }

  /** One call never charges more than its budget and never moves more than one token beyond it; what
      is carried over is partly transferred, and finished operations hold no more than they hit. */
  lemma CallKeeps(cfg: Config, y: State, arrivals: seq<Operation>, budget: real)
    requires ConfigOk(cfg) && StateOk(y) && budget >= 0.0
    ensures Keeps(cfg, budget, Handle(cfg, y, arrivals, budget))
  {
    var x := y.(buffer := y.buffer + arrivals);
    ChunkKeeps(cfg, x, budget);
    var first := HandleChunk(cfg, x, budget);
    if first.state.chunk.None? { BufferKeeps(cfg, first.state, first.remain); }
    var second := HandleBuffer(cfg, first.state, first.remain);
    CostAdds(cfg, first.moved, second.moved);
  }

  lemma {:induction false} BufferUsesItsTime(cfg: Config, y: State, remain: real)
    requires ConfigOk(cfg) && y.chunk.None?
    ensures var out := HandleBuffer(cfg, y, remain); out.remain > 0.0 ==> out.state == State([], None)
    decreases |y.buffer|
  {
    if remain > 0.0 && y.buffer != [] {
      var op, rest := y.buffer[0], y.(buffer := y.buffer[1..]);
      var dur := if op.terminated then 0.0 else CalcPrefetch(cfg, op.hit as real, remain).1;
      BufferUsesItsTime(cfg, rest, remain);
      BufferUsesItsTime(cfg, rest, remain - dur);
    }
  }

  /** Time is left over only when no work is: nothing carried over and nothing waiting. */
  lemma CallUsesItsTime(cfg: Config, y: State, arrivals: seq<Operation>, budget: real)
    requires ConfigOk(cfg) && StateOk(y) && budget >= 0.0
    ensures var out := Handle(cfg, y, arrivals, budget); out.remain > 0.0 ==> out.state == State([], None)
  {
    var x := y.(buffer := y.buffer + arrivals);
    ChunkKeeps(cfg, x, budget);
    var first := HandleChunk(cfg, x, budget);
    if first.state.chunk.None? { BufferUsesItsTime(cfg, first.state, first.remain); }
  }

  // ---------------------------------------------------------------------------------------------
  // First come, first served, and nothing lost.

  function IdsOf(ops: seq<Operation>): seq<nat> {
    if ops == [] then [] else [ops[0].id] + IdsOf(ops[1..])
  }

  function Live(ops: seq<Operation>): seq<nat> {
    if ops == [] then [] else (if ops[0].terminated then [] else [ops[0].id]) + Live(ops[1..])
  }

  function LiveChunk(chunk: Option<Operation>): seq<nat> {
    if chunk.Some? && !chunk.value.terminated then [chunk.value.id] else []
  }

  /** The live operations of a state, the carried one first. */
  function Waiting(y: State): seq<nat> {
    LiveChunk(y.chunk) + Live(y.buffer)
  }

  lemma WaitingFirst(y: State)
    requires y.chunk.None? && y.buffer != []
    ensures var op, rest := y.buffer[0], y.(buffer := y.buffer[1..]);
            Waiting(y) == (if op.terminated then [] else [op.id]) + Waiting(rest)
  {
  }

  lemma {:induction false} BufferInOrder(cfg: Config, y: State, remain: real)
    requires ConfigOk(cfg) && (remain <= 0.0 || y.chunk.None?)
    ensures var out := HandleBuffer(cfg, y, remain); IdsOf(out.finished) + Waiting(out.state) == Waiting(y)
    decreases |y.buffer|
  {
    if remain <= 0.0 || y.buffer == [] { return; }
    var op, rest := y.buffer[0], y.(buffer := y.buffer[1..]);
    WaitingFirst(y);
    if op.terminated {
      BufferInOrder(cfg, rest, remain);
    } else {
      var (tokens, dur) := CalcPrefetch(cfg, op.hit as real, remain);
      if tokens >= op.hit as real {
        BufferInOrder(cfg, rest, remain - dur);
        var later := HandleBuffer(cfg, rest, remain - dur);
        var out := HandleBuffer(cfg, y, remain);
        assert out.finished[1..] == later.finished;
        JoinThree([op.id], IdsOf(later.finished), Waiting(later.state));
      }
    }
  }

  lemma ChunkInOrder(cfg: Config, y: State, budget: real)
    requires ConfigOk(cfg)
    ensures var out := HandleChunk(cfg, y, budget); IdsOf(out.finished) + Waiting(out.state) == Waiting(y)
  {
    var out := HandleChunk(cfg, y, budget);
    if out.finished != [] {
      assert out.finished[1..] == [];
      assert IdsOf(out.finished) == [y.chunk.value.id];
    }
  }

  lemma {:induction false} IdsOfAppend(a: seq<Operation>, b: seq<Operation>)
    ensures IdsOf(a + b) == IdsOf(a) + IdsOf(b)
  {
    if a == [] {
      assert a + b == b;
    } else {
      assert (a + b)[1..] == a[1..] + b;
      IdsOfAppend(a[1..], b);
    }
  }

  /** The operations that finish in a call, then the one carried over, then those still waiting, are
      just the live operations from before, in their order. So at most one operation is partly
      transferred, and a later one never takes its place. */
  lemma CallInOrder(cfg: Config, y: State, arrivals: seq<Operation>, budget: real)
    requires ConfigOk(cfg) && StateOk(y) && budget >= 0.0
    ensures var out := Handle(cfg, y, arrivals, budget);
            IdsOf(out.finished) + Waiting(out.state) == Waiting(y.(buffer := y.buffer + arrivals))
  {
    var x := y.(buffer := y.buffer + arrivals);
    ChunkKeeps(cfg, x, budget);
    ChunkInOrder(cfg, x, budget);
    var first := HandleChunk(cfg, x, budget);
    BufferInOrder(cfg, first.state, first.remain);
    var second := HandleBuffer(cfg, first.state, first.remain);
    IdsOfAppend(first.finished, second.finished);
    JoinThree(IdsOf(first.finished), IdsOf(second.finished), Waiting(second.state));
  }

  lemma JoinThree(a: seq<nat>, b: seq<nat>, c: seq<nat>)
    ensures a + (b + c) == a + b + c
  {
  }

  // ---------------------------------------------------------------------------------------------
  // Progress over many calls.

  /** One call, and the operations that their owners terminate before it, carried or waiting. */
  datatype Call = Call(arrivals: seq<Operation>, budget: real, terminate: set<nat>)

  function Marked(op: Operation, ids: set<nat>): Operation {
    if op.id in ids then op.(terminated := true) else op
  }

  function AllMarked(ops: seq<Operation>, ids: set<nat>): seq<Operation> {
    if ops == [] then [] else [Marked(ops[0], ids)] + AllMarked(ops[1..], ids)
  }

  function Before(y: State, call: Call): State {
    State(AllMarked(y.buffer, call.terminate),
          if y.chunk.None? then None else Some(Marked(y.chunk.value, call.terminate)))
  }

  function After(cfg: Config, y: State, call: Call): State
    requires cfg.bandwidth > 0.0 && cfg.tokenBytes > 0.0 && cfg.pageSize > 0
  {
    Handle(cfg, Before(y, call), call.arrivals, call.budget).state
  }

  /** The operation carried by `y` is neither finished nor dropped by any of the calls. */
  ghost predicate CarriedThrough(cfg: Config, y: State, calls: seq<Call>)
    requires ConfigOk(cfg)
    decreases |calls|
  {
    y.chunk.Some? && (calls != [] ==>
      && HandleChunk(cfg, Before(y, calls[0]), calls[0].budget).state.chunk.Some?
      && CarriedThrough(cfg, After(cfg, y, calls[0]), calls[1..]))
  }

  /** A call finishes or drops the carried operation, or moves it on by one token at least. */
  lemma CallAdvances(cfg: Config, y: State, call: Call)
    requires ConfigOk(cfg) && StateOk(y) && y.chunk.Some? && call.budget >= 0.0
    requires HandleChunk(cfg, Before(y, call), call.budget).state.chunk.Some?
    ensures var z := After(cfg, y, call);
            && StateOk(z) && z.chunk.Some? && z.chunk.value.id == y.chunk.value.id && z.chunk.value.hit == y.chunk.value.hit
            && z.chunk.value.completed >= y.chunk.value.completed + 1.0
  {
    var x := Before(y, call).(buffer := Before(y, call).buffer + call.arrivals);
    ChunkKeeps(cfg, x, call.budget);
    CallKeeps(cfg, Before(y, call), call.arrivals, call.budget);
    CalcBounds(cfg, y.chunk.value.hit as real - y.chunk.value.completed, call.budget);
    var first := HandleChunk(cfg, x, call.budget);
    assert HandleBuffer(cfg, first.state, first.remain).state == first.state;
  }

  /** So a carried operation ends within as many calls as it has tokens, however small the budgets. */
  lemma {:induction false} CarriedOperationEnds(cfg: Config, y: State, calls: seq<Call>)
    requires ConfigOk(cfg) && StateOk(y) && CarriedThrough(cfg, y, calls)
    requires forall call :: call in calls ==> call.budget >= 0.0
    ensures |calls| as real < y.chunk.value.hit as real - y.chunk.value.completed
    decreases |calls|
  {
    if calls != [] {
      CallAdvances(cfg, y, calls[0]);
      CarriedOperationEnds(cfg, After(cfg, y, calls[0]), calls[1..]);
    }
  }

  // ---------------------------------------------------------------------------------------------
  // Every waiting operation ends.

  /** One for each of the first `n` live operations of the buffer, and one for each token they need. */
  function BufferWork(buffer: seq<Operation>, n: nat): (work: nat)
    decreases |buffer|
  {
    if n == 0 || buffer == [] then 0
    else if buffer[0].terminated then BufferWork(buffer[1..], n)
    else 1 + buffer[0].hit + BufferWork(buffer[1..], n - 1)
  }

  /** The same for the first `n` live operations of a state, with what the carried one still needs. */
  function Work(y: State, n: nat): real {
    if LiveChunk(y.chunk) == [] then BufferWork(y.buffer, n) as real
    else if n == 0 then 0.0
    else 1.0 + (y.chunk.value.hit as real - y.chunk.value.completed) + BufferWork(y.buffer, n - 1) as real
  }

  lemma {:induction false} BufferWorkAppend(a: seq<Operation>, b: seq<Operation>, n: nat)
    requires n <= |Live(a)|
    ensures BufferWork(a + b, n) == BufferWork(a, n)
    decreases |a|
  {
    if n > 0 {
      assert a != [] && (a + b)[0] == a[0] && (a + b)[1..] == a[1..] + b;
      BufferWorkAppend(a[1..], b, if a[0].terminated then n else n - 1);
    }
  }

  /** The first `n` operations are done, or as many fewer of them as were finished are left with at most
      `work` to do. */
  predicate Progress(out: Outcome, n: nat, work: real) {
    n <= |out.finished| || Work(out.state, n - |out.finished|) <= work
  }

  /** Spending time on the buffer finishes the first operation or moves at least one token. */
  lemma {:induction false} BufferProgress(cfg: Config, y: State, remain: real, n: nat)
    requires ConfigOk(cfg) && (remain <= 0.0 || y.chunk.None?) && n <= |Waiting(y)|
    ensures Progress(HandleBuffer(cfg, y, remain), n, Work(y, n) - if remain > 0.0 && n > 0 then 1.0 else 0.0)
    decreases |y.buffer|
  {
    if n > 0 && remain > 0.0 && y.buffer != [] {
      var op, rest := y.buffer[0], y.(buffer := y.buffer[1..]);
      WaitingFirst(y);
      if op.terminated {
        BufferProgress(cfg, rest, remain, n);
      } else {
        var (tokens, dur) := CalcPrefetch(cfg, op.hit as real, remain);
        CalcBounds(cfg, op.hit as real, remain);
        if tokens >= op.hit as real { BufferProgress(cfg, rest, remain - dur, n - 1); }
      }
    }
  }

  /** And so does spending it on the carried operation. */
  lemma ChunkProgress(cfg: Config, y: State, budget: real, n: nat)
    requires ConfigOk(cfg) && StateOk(y) && budget >= 0.0 && n <= |Waiting(y)|
    ensures Progress(HandleChunk(cfg, y, budget), n, Work(y, n) - if LiveChunk(y.chunk) != [] && n > 0 then 1.0 else 0.0)
  {
    if LiveChunk(y.chunk) != [] {
      CalcBounds(cfg, y.chunk.value.hit as real - y.chunk.value.completed, budget);
    }
  }

  /** A call with time to spend finishes all of the first `n` operations or leaves at least one unit of
      work less. */
  lemma CallProgress(cfg: Config, y: State, arrivals: seq<Operation>, budget: real, n: nat)
    requires ConfigOk(cfg) && StateOk(y) && budget > 0.0 && 1 <= n <= |Waiting(y)|
    ensures Progress(Handle(cfg, y, arrivals, budget), n, Work(y, n) - 1.0)
  {
    var x := y.(buffer := y.buffer + arrivals);
    ArrivalsWaitBehind(y, arrivals, n);
    ChunkKeeps(cfg, x, budget);
    ChunkInOrder(cfg, x, budget);
    ChunkProgress(cfg, x, budget, n);
    var first := HandleChunk(cfg, x, budget);
    IdsCount(first.finished);
    if |first.finished| < n {
      BufferProgress(cfg, first.state, first.remain, n - |first.finished|);
    }
  }

  lemma ArrivalsWaitBehind(y: State, arrivals: seq<Operation>, n: nat)
    requires n <= |Waiting(y)|
    ensures var x := y.(buffer := y.buffer + arrivals);
            Waiting(x) == Waiting(y) + Live(arrivals) && Work(x, n) == Work(y, n)
  {
    LiveAppend(y.buffer, arrivals);
    JoinThree(LiveChunk(y.chunk), Live(y.buffer), Live(arrivals));
    var m := if LiveChunk(y.chunk) == [] || n == 0 then n else n - 1;
    if n > 0 || LiveChunk(y.chunk) == [] { BufferWorkAppend(y.buffer, arrivals, m); }
  }

  lemma {:induction false} LiveAppend(a: seq<Operation>, b: seq<Operation>)
    ensures Live(a + b) == Live(a) + Live(b)
    decreases |a|
  {
    if a == [] {
      assert a + b == b;
    } else {
      assert (a + b)[0] == a[0] && (a + b)[1..] == a[1..] + b;
      LiveAppend(a[1..], b);
    }
  }

  lemma {:induction false} IdsCount(ops: seq<Operation>)
    ensures |IdsOf(ops)| == |ops|
  {
    if ops != [] { IdsCount(ops[1..]); }
  }

  /** The state after a run of calls, the operations that it finishes in their order, those that arrive
      alive, and those that their owners terminate. */
  function AfterAll(cfg: Config, y: State, calls: seq<Call>): State
    requires cfg.bandwidth > 0.0 && cfg.tokenBytes > 0.0 && cfg.pageSize > 0
    decreases |calls|
  {
    if calls == [] then y else AfterAll(cfg, After(cfg, y, calls[0]), calls[1..])
  }

  function DoneIn(cfg: Config, y: State, call: Call): seq<nat>
    requires cfg.bandwidth > 0.0 && cfg.tokenBytes > 0.0 && cfg.pageSize > 0
  {
    IdsOf(Handle(cfg, Before(y, call), call.arrivals, call.budget).finished)
  }

  function Done(cfg: Config, y: State, calls: seq<Call>): seq<nat>
    requires cfg.bandwidth > 0.0 && cfg.tokenBytes > 0.0 && cfg.pageSize > 0
    decreases |calls|
  {
    if calls == [] then [] else DoneIn(cfg, y, calls[0]) + Done(cfg, After(cfg, y, calls[0]), calls[1..])
  }

  function Arrived(calls: seq<Call>): seq<nat> {
    if calls == [] then [] else Live(calls[0].arrivals) + Arrived(calls[1..])
  }

  function Terminated(calls: seq<Call>): set<nat> {
    if calls == [] then {} else calls[0].terminate + Terminated(calls[1..])
  }

  /** `rest` is `line` in its order, without some of the operations in `dropped`. */
  predicate Thinned(line: seq<nat>, rest: seq<nat>, dropped: set<nat>) {
    if line == [] then rest == []
    else
      || (rest != [] && rest[0] == line[0] && Thinned(line[1..], rest[1..], dropped))
      || (line[0] in dropped && Thinned(line[1..], rest, dropped))
  }

  function Kept(line: seq<nat>, dropped: set<nat>): seq<nat> {
    Filter((x: nat) => x !in dropped, line)
  }

  lemma {:induction false} ThinnedNot(line: seq<nat>, dropped: set<nat>)
    ensures Thinned(line, line, dropped)
  {
    if line != [] { ThinnedNot(line[1..], dropped); }
  }

  lemma {:induction false} ThinnedKept(line: seq<nat>, less: set<nat>, dropped: set<nat>)
    requires less <= dropped
    ensures Thinned(line, Kept(line, less), dropped)
  {
    if line != [] {
      ThinnedKept(line[1..], less, dropped);
      var rest := Kept(line[1..], less);
      assert ([line[0]] + rest)[1..] == rest;
      if line[0] in less { assert Kept(line, less) == rest; }
    }
  }

  lemma {:induction false} ThinnedMore(line: seq<nat>, rest: seq<nat>, less: set<nat>, dropped: set<nat>)
    requires Thinned(line, rest, less) && less <= dropped
    ensures Thinned(line, rest, dropped)
  {
    if line != [] {
      if rest != [] && rest[0] == line[0] && Thinned(line[1..], rest[1..], less) {
        ThinnedMore(line[1..], rest[1..], less, dropped);
      } else {
        ThinnedMore(line[1..], rest, less, dropped);
      }
    }
  }

  lemma {:induction false} ThinnedBoth(a: seq<nat>, b: seq<nat>, c: seq<nat>, d: seq<nat>, dropped: set<nat>)
    requires Thinned(a, b, dropped) && Thinned(c, d, dropped)
    ensures Thinned(a + c, b + d, dropped)
  {
    if a == [] {
      assert a + c == c && b + d == d;
    } else {
      assert (a + c)[1..] == a[1..] + c;
      if b != [] && b[0] == a[0] && Thinned(a[1..], b[1..], dropped) {
        assert (b + d)[1..] == b[1..] + d;
        ThinnedBoth(a[1..], b[1..], c, d, dropped);
      } else {
        ThinnedBoth(a[1..], b, c, d, dropped);
      }
    }
  }

  lemma {:induction false} ThinnedTwice(a: seq<nat>, b: seq<nat>, c: seq<nat>, dropped: set<nat>)
    requires Thinned(a, b, dropped) && Thinned(b, c, dropped)
    ensures Thinned(a, c, dropped)
    decreases |a|
  {
    if a != [] {
      if b != [] && b[0] == a[0] && Thinned(a[1..], b[1..], dropped) {
        if c != [] && c[0] == b[0] && Thinned(b[1..], c[1..], dropped) {
          ThinnedTwice(a[1..], b[1..], c[1..], dropped);
        } else {
          ThinnedTwice(a[1..], b[1..], c, dropped);
        }
      } else {
        ThinnedTwice(a[1..], b, c, dropped);
      }
    }
  }

  /** A line goes on behind those that leave it: `line` becomes `first` and `mid`, and `mid` with arrivals
      behind it becomes `rest`. */
  lemma ThinnedOn(line: seq<nat>, first: seq<nat>, mid: seq<nat>, more: seq<nat>, rest: seq<nat>, dropped: set<nat>)
    requires Thinned(line, first + mid, dropped) && Thinned(mid + more, rest, dropped)
    ensures Thinned(line + more, first + rest, dropped)
  {
    ThinnedNot(more, dropped);
    ThinnedBoth(line, first + mid, more, more, dropped);
    assert first + mid + more == first + (mid + more);
    ThinnedNot(first, dropped);
    ThinnedBoth(first, first, mid + more, rest, dropped);
    ThinnedTwice(line + more, first + mid + more, first + rest, dropped);
  }

  lemma {:induction false} LiveMarked(ops: seq<Operation>, ids: set<nat>)
    ensures Live(AllMarked(ops, ids)) == Kept(Live(ops), ids)
  {
    if ops != [] {
      LiveMarked(ops[1..], ids);
      var p := (x: nat) => x !in ids;
      var first := if ops[0].terminated then [] else [ops[0].id];
      FilterAppend(p, first, Live(ops[1..]));
      assert AllMarked(ops, ids)[1..] == AllMarked(ops[1..], ids);
      assert Filter(p, first) == if Marked(ops[0], ids).terminated then [] else first;
    }
  }

  /** What the owners terminate drops out of the line. */
  lemma BeforeDrops(y: State, call: Call)
    ensures Waiting(Before(y, call)) == Kept(Waiting(y), call.terminate)
  {
    LiveMarked(y.buffer, call.terminate);
    FilterAppend((x: nat) => x !in call.terminate, LiveChunk(y.chunk), Live(y.buffer));
    assert Filter((x: nat) => x !in call.terminate, LiveChunk(y.chunk)) == LiveChunk(Before(y, call).chunk);
  }

  /** One call: the operations it finishes, then those left, are those left by the owners, in order. */
  lemma CallLeaves(cfg: Config, y: State, call: Call)
    requires ConfigOk(cfg) && StateOk(y) && call.budget >= 0.0
    ensures StateOk(After(cfg, y, call))
    ensures DoneIn(cfg, y, call) + Waiting(After(cfg, y, call)) == Kept(Waiting(y), call.terminate) + Live(call.arrivals)
  {
    var x := Before(y, call);
    CallKeeps(cfg, x, call.arrivals, call.budget);
    CallInOrder(cfg, x, call.arrivals, call.budget);
    ArrivalsWaitBehind(x, call.arrivals, 0);
    BeforeDrops(y, call);
  }

  /** A part of the line over a run: one call drops some of it and makes `first` and `mid` of it and of
      what arrives, and the later calls make `rest` of `mid` and of `more`. */
  lemma PartLeaves(line: seq<nat>, now: set<nat>, arrived: seq<nat>, first: seq<nat>, mid: seq<nat>, more: seq<nat>,
                   later: set<nat>, rest: seq<nat>)
    requires first + mid == Kept(line, now) + arrived && Thinned(mid + more, rest, later)
    ensures Thinned(line + (arrived + more), first + rest, now + later)
  {
    var dropped := now + later;
    ThinnedKept(line, now, dropped);
    ThinnedNot(arrived, dropped);
    ThinnedBoth(line, Kept(line, now), arrived, arrived, dropped);
    ThinnedMore(mid + more, rest, later, dropped);
    ThinnedOn(line + arrived, first, mid, more, rest, dropped);
    JoinThree(line, arrived, more);
  }

  /** Over any run of calls: the operations that finish, then those left, are the live ones from before
      and those that arrived, in their order, and only operations that an owner terminated are missing. */
  lemma {:induction false} RunLeaves(cfg: Config, y: State, calls: seq<Call>)
    requires ConfigOk(cfg) && StateOk(y) && forall call :: call in calls ==> call.budget >= 0.0
    ensures Thinned(Waiting(y) + Arrived(calls), Done(cfg, y, calls) + Waiting(AfterAll(cfg, y, calls)), Terminated(calls))
    decreases |calls|
  {
    if calls == [] {
      assert Waiting(y) + [] == [] + Waiting(y);
      ThinnedNot(Waiting(y) + [], {});
    } else {
      var call, rest := calls[0], calls[1..];
      var z, end := After(cfg, y, call), AfterAll(cfg, y, calls);
      CallLeaves(cfg, y, call);
      RunLeaves(cfg, z, rest);
      var first, done := DoneIn(cfg, y, call), Done(cfg, z, rest);
      PartLeaves(Waiting(y), call.terminate, Live(call.arrivals), first, Waiting(z), Arrived(rest), Terminated(rest),
                 done + Waiting(end));
      JoinThree(first, done, Waiting(end));
    }
  }

  lemma {:induction false} MarkedWork(buffer: seq<Operation>, ids: set<nat>, n: nat)
    requires n <= |Live(buffer)|
    ensures BufferWork(AllMarked(buffer, ids), |Kept(Live(buffer)[..n], ids)|) <= BufferWork(buffer, n)
    decreases |buffer|
  {
    if n > 0 {
      var op, rest := buffer[0], buffer[1..];
      assert AllMarked(buffer, ids)[1..] == AllMarked(rest, ids);
      if op.terminated {
        assert Live(buffer) == Live(rest);
        MarkedWork(rest, ids, n);
      } else {
        MarkedWork(rest, ids, n - 1);
        assert Live(buffer)[..n][1..] == Live(rest)[..n - 1];
      }
    }
  }

  /** Termination by the owner leaves no more work. */
  lemma BeforeWork(y: State, call: Call, n: nat)
    requires StateOk(y) && n <= |Waiting(y)|
    ensures Work(Before(y, call), |Kept(Waiting(y)[..n], call.terminate)|) <= Work(y, n)
  {
    var ids := call.terminate;
    if LiveChunk(y.chunk) == [] {
      assert Waiting(y)[..n] == Live(y.buffer)[..n];
      MarkedWork(y.buffer, ids, n);
    } else if n > 0 {
      assert Waiting(y)[..n][1..] == Live(y.buffer)[..n - 1];
      MarkedWork(y.buffer, ids, n - 1);
    }
  }

  /** One call with time to spend: those of the first `n` that their owners leave are finished, or at
      least one unit of work is done. */
  lemma CallWorks(cfg: Config, y: State, call: Call, n: nat)
    requires ConfigOk(cfg) && StateOk(y) && call.budget > 0.0 && 1 <= n <= |Waiting(y)|
    ensures var left, done := |Kept(Waiting(y)[..n], call.terminate)|, |DoneIn(cfg, y, call)|;
            left <= done || Work(After(cfg, y, call), left - done) <= Work(y, n) - 1.0
  {
    var x, front, back := Before(y, call), Waiting(y)[..n], Waiting(y)[n..];
    BeforeDrops(y, call);
    assert Waiting(y) == front + back;
    FilterAppend((i: nat) => i !in call.terminate, front, back);
    BeforeWork(y, call, n);
    var left := |Kept(front, call.terminate)|;
    IdsCount(Handle(cfg, x, call.arrivals, call.budget).finished);
    if left > 0 { CallProgress(cfg, x, call.arrivals, call.budget, left); }
  }

  lemma {:induction false} BufferWorkPositive(buffer: seq<Operation>, n: nat)
    requires 1 <= n <= |Live(buffer)|
    ensures BufferWork(buffer, n) >= 1
  {
    if buffer[0].terminated { BufferWorkPositive(buffer[1..], n); }
  }

  lemma WorkPositive(y: State, n: nat)
    requires StateOk(y) && 1 <= n <= |Waiting(y)|
    ensures Work(y, n) >= 1.0
  {
    if LiveChunk(y.chunk) == [] { BufferWorkPositive(y.buffer, n); }
  }

  /** The first `d` of those done are `front`, and the others with those left are `back`, but for some
      that were dropped. */
  ghost predicate Ended(front: seq<nat>, back: seq<nat>, done: seq<nat>, rest: seq<nat>, dropped: set<nat>, d: nat) {
    d <= |done| && Thinned(front, done[..d], dropped) && Thinned(back, done[d..] + rest, dropped)
  }

  lemma EndedInTwo(front: seq<nat>, back: seq<nat>, a: seq<nat>, b: seq<nat>, rest: seq<nat>, dropped: set<nat>)
    requires Thinned(front, a, dropped) && Thinned(back, b + rest, dropped)
    ensures Ended(front, back, a + b, rest, dropped, |a|)
  {
    assert (a + b)[..|a|] == a && (a + b)[|a|..] == b;
  }

  /** Two ways to cut the same sequence in two. */
  lemma CutFirst(a: seq<nat>, b: seq<nat>, c: seq<nat>, d: seq<nat>) returns (mid: seq<nat>)
    requires a + b == c + d && |c| <= |a|
    ensures a == c + mid && d == mid + b
  {
    mid := a[|c|..];
    assert (a + b)[..|c|] == a[..|c|] && (c + d)[..|c|] == c;
    assert (a + b)[|c|..] == mid + b && (c + d)[|c|..] == d;
  }

  /** The first call finishes all that is left of `front`. */
  lemma EndsNow(front: seq<nat>, back: seq<nat>, now: set<nat>, arrived: seq<nat>, first: seq<nat>, mid: seq<nat>,
                more: seq<nat>, later: set<nat>, done: seq<nat>, rest: seq<nat>)
    requires first + mid == Kept(front, now) + (Kept(back, now) + arrived) && |Kept(front, now)| <= |first|
    requires Thinned(mid + more, done + rest, later)
    ensures Ended(front, back + (arrived + more), first + done, rest, now + later, |Kept(front, now)|)
  {
    var kept := Kept(front, now);
    var tail := CutFirst(first, mid, kept, Kept(back, now) + arrived);
    ThinnedKept(front, now, now + later);
    PartLeaves(back, now, arrived, tail, mid, more, later, done + rest);
    JoinThree(tail, done, rest);
    JoinThree(kept, tail, done);
    EndedInTwo(front, back + (arrived + more), kept, tail + done, rest, now + later);
  }

  /** The later calls finish what the first call leaves of `front`: `ahead` of those that then wait. */
  lemma EndsLater(front: seq<nat>, back: seq<nat>, now: set<nat>, arrived: seq<nat>, first: seq<nat>, ahead: seq<nat>,
                  behind: seq<nat>, more: seq<nat>, later: set<nat>, a: seq<nat>, b: seq<nat>, rest: seq<nat>)
    requires Kept(front, now) == first + ahead && Kept(back, now) + arrived == behind
    requires Thinned(ahead, a, later) && Thinned(behind + more, b + rest, later)
    ensures Ended(front, back + (arrived + more), first + a + b, rest, now + later, |first| + |a|)
  {
    FrontEndsLater(front, now, first, ahead, later, a);
    assert [] + behind == behind && [] + (b + rest) == b + rest;
    PartLeaves(back, now, arrived, [], behind, more, later, b + rest);
    EndedInTwo(front, back + (arrived + more), first + a, b, rest, now + later);
  }

  lemma FrontEndsLater(front: seq<nat>, now: set<nat>, first: seq<nat>, mid: seq<nat>, later: set<nat>, done: seq<nat>)
    requires Kept(front, now) == first + mid && Thinned(mid, done, later)
    ensures Thinned(front, first + done, now + later)
  {
    assert mid + [] == mid && Kept(front, now) + [] == Kept(front, now) && front + ([] + []) == front;
    PartLeaves(front, now, [], first, mid, [], later, done);
  }

  lemma CallCuts(cfg: Config, y: State, call: Call, n: nat)
    requires ConfigOk(cfg) && StateOk(y) && call.budget >= 0.0 && n <= |Waiting(y)|
    ensures StateOk(After(cfg, y, call))
    ensures DoneIn(cfg, y, call) + Waiting(After(cfg, y, call))
         == Kept(Waiting(y)[..n], call.terminate) + (Kept(Waiting(y)[n..], call.terminate) + Live(call.arrivals))
  {
    CallLeaves(cfg, y, call);
    var front, back := Waiting(y)[..n], Waiting(y)[n..];
    assert Waiting(y) == front + back;
    FilterAppend((i: nat) => i !in call.terminate, front, back);
    JoinThree(Kept(front, call.terminate), Kept(back, call.terminate), Live(call.arrivals));
  }

  /** The first `n` operations of `y` end within the calls, the last of them as the `d`-th of those done. */
  ghost predicate FirstEnd(cfg: Config, y: State, calls: seq<Call>, n: nat, d: nat)
    requires ConfigOk(cfg) && n <= |Waiting(y)|
  {
    Ended(Waiting(y)[..n], Waiting(y)[n..] + Arrived(calls),
          Done(cfg, y, calls), Waiting(AfterAll(cfg, y, calls)), Terminated(calls), d)
  }

  lemma FirstEndNow(cfg: Config, y: State, calls: seq<Call>, n: nat)
    requires ConfigOk(cfg) && StateOk(y) && n <= |Waiting(y)|
    requires calls != [] && forall call :: call in calls ==> call.budget > 0.0
    requires |Kept(Waiting(y)[..n], calls[0].terminate)| <= |DoneIn(cfg, y, calls[0])|
    ensures FirstEnd(cfg, y, calls, n, |Kept(Waiting(y)[..n], calls[0].terminate)|)
  {
    var call, rest := calls[0], calls[1..];
    var z := After(cfg, y, call);
    CallCuts(cfg, y, call, n);
    RunLeaves(cfg, z, rest);
    EndsNow(Waiting(y)[..n], Waiting(y)[n..], call.terminate, Live(call.arrivals), DoneIn(cfg, y, call), Waiting(z),
            Arrived(rest), Terminated(rest), Done(cfg, z, rest), Waiting(AfterAll(cfg, z, rest)));
  }

  lemma FirstEndLater(cfg: Config, y: State, calls: seq<Call>, n: nat, m: nat, d: nat)
    requires ConfigOk(cfg) && StateOk(y) && n <= |Waiting(y)| && calls != [] && calls[0].budget >= 0.0
    requires m == |Kept(Waiting(y)[..n], calls[0].terminate)| - |DoneIn(cfg, y, calls[0])|
    requires m <= |Waiting(After(cfg, y, calls[0]))| && FirstEnd(cfg, After(cfg, y, calls[0]), calls[1..], m, d)
    ensures FirstEnd(cfg, y, calls, n, |DoneIn(cfg, y, calls[0])| + d)
  {
    var call, rest := calls[0], calls[1..];
    var z, first, front, back := After(cfg, y, call), DoneIn(cfg, y, call), Waiting(y)[..n], Waiting(y)[n..];
    CallCuts(cfg, y, call, n);
    var kept, done := Kept(front, call.terminate), Done(cfg, z, rest);
    var ahead := CutFirst(kept, Kept(back, call.terminate) + Live(call.arrivals), first, Waiting(z));
    assert Waiting(z)[..m] == ahead && Waiting(z)[m..] == Kept(back, call.terminate) + Live(call.arrivals);
    EndsLater(front, back, call.terminate, Live(call.arrivals), first, ahead, Waiting(z)[m..], Arrived(rest),
              Terminated(rest), done[..d], done[d..], Waiting(AfterAll(cfg, z, rest)));
    assert done[..d] + done[d..] == done;
    JoinThree(first, done[..d], done[d..]);
  }

  /** Every waiting operation ends: with positive budgets, after as many calls as the first `n`
      operations have work, each of them has finished or was terminated by its owner, in their order and
      before all others, and what is left was behind them or arrived. */
  lemma {:induction false} EveryOperationEnds(cfg: Config, y: State, calls: seq<Call>, n: nat) returns (d: nat)
    requires ConfigOk(cfg) && StateOk(y) && n <= |Waiting(y)|
    requires (forall call :: call in calls ==> call.budget > 0.0) && |calls| as real >= Work(y, n)
    ensures FirstEnd(cfg, y, calls, n, d)
    decreases |calls|
  {
    if n == 0 {
      RunLeaves(cfg, y, calls);
      return 0;
    }
    WorkPositive(y, n);
    var call := calls[0];
    var left, done := |Kept(Waiting(y)[..n], call.terminate)|, |DoneIn(cfg, y, call)|;
    CallWorks(cfg, y, call, n);
    if left <= done {
      FirstEndNow(cfg, y, calls, n);
      d := left;
    } else {
      CallCuts(cfg, y, call, n);
      var m := EveryOperationEnds(cfg, After(cfg, y, call), calls[1..], left - done);
      FirstEndLater(cfg, y, calls, n, left - done, m);
      d := done + m;
    }
  }

  lemma {:induction false} ThinnedMembers(line: seq<nat>, rest: seq<nat>, dropped: set<nat>, id: nat)
    requires Thinned(line, rest, dropped)
    ensures id in rest ==> id in line
    ensures id in line ==> id in rest || id in dropped
  {
    if line != [] {
      if rest != [] && rest[0] == line[0] && Thinned(line[1..], rest[1..], dropped) {
        ThinnedMembers(line[1..], rest[1..], dropped, id);
      } else {
        ThinnedMembers(line[1..], rest, dropped, id);
      }
    }
  }

  /** So none of the first `n` operations waits any more, unless another one of the same name does, and
      each has finished or was terminated. */
  lemma NoneIsLeftWaiting(cfg: Config, y: State, calls: seq<Call>, n: nat, id: nat)
    requires ConfigOk(cfg) && StateOk(y) && n <= |Waiting(y)| && id in Waiting(y)[..n]
    requires (forall call :: call in calls ==> call.budget > 0.0) && |calls| as real >= Work(y, n)
    ensures id in Done(cfg, y, calls) || id in Terminated(calls)
    ensures id in Waiting(AfterAll(cfg, y, calls)) ==> id in Waiting(y)[n..] + Arrived(calls)
  {
    var d := EveryOperationEnds(cfg, y, calls, n);
    var done, rest := Done(cfg, y, calls), Waiting(AfterAll(cfg, y, calls));
    ThinnedMembers(Waiting(y)[..n], done[..d], Terminated(calls), id);
    ThinnedMembers(Waiting(y)[n..] + Arrived(calls), done[d..] + rest, Terminated(calls), id);
  }

  // ---------------------------------------------------------------------------------------------
  // The controller, updated in place.

  class Controller {
    const cfg: Config
    var buffer: seq<Operation>
    var chunk: Option<Operation>

    constructor (cfg: Config)
      ensures this.cfg == cfg && buffer == [] && chunk == None
    {
      this.cfg := cfg;
      buffer, chunk := [], None;
    }

    /** Go on with the carried operation. */
    method ContinueChunk(budget: real) returns (finished: seq<Operation>, remain: real)
      requires ConfigOk(cfg)
      modifies this`chunk
      ensures var out := HandleChunk(cfg, old(State(buffer, chunk)), budget);
              State(buffer, chunk) == out.state && finished == out.finished && remain == out.remain
    {
      finished, remain := [], budget;
      if chunk.None? { return; }
      var op := chunk.value;
      if op.terminated {
        chunk := None;
        return;
      }
      var required := op.hit as real - op.completed;
      var (tokens, dur) := CalcPrefetch(cfg, required, remain);
      if tokens < required {
        chunk := Some(op.(completed := op.completed + tokens));
        remain := 0.0;
      } else {
        finished := [op.(completed := op.hit as real, terminated := true)];
        remain := remain - dur;
        chunk := None;
      }
    }

    /** Transfer waiting operations while time is left. */
    method DrainBuffer(budget: real) returns (finished: seq<Operation>, remain: real)
      requires ConfigOk(cfg)
      modifies this
      ensures var out := HandleBuffer(cfg, old(State(buffer, chunk)), budget);
              State(buffer, chunk) == out.state && finished == out.finished && remain == out.remain
    {
      finished, remain := [], budget;
      ghost var goal := HandleBuffer(cfg, State(buffer, chunk), budget);
      assert [] + goal.finished == goal.finished;
      while remain > 0.0 && buffer != []
        invariant Continues(cfg, State(buffer, chunk), remain, finished, goal)
        decreases |buffer|
      {
        var op := buffer[0];
        ghost var y, before := State(buffer, chunk), finished;
        ghost var later := HandleBuffer(cfg, y, remain);
        buffer := buffer[1..];
        if op.terminated { continue; }
        var required := op.hit as real;
        var (tokens, dur) := CalcPrefetch(cfg, required, remain);
        if tokens < required {
          chunk := Some(op.(completed := tokens));
          remain := 0.0;
          assert HandleBuffer(cfg, State(buffer, chunk), 0.0).finished == [];
        } else {
          var done := op.(completed := WholePages(cfg, op.hit) as real, terminated := true);
          finished := finished + [done];
          remain := remain - dur;
          assert before + ([done] + later.finished[1..]) == finished + later.finished[1..];
        }
      }
      assert finished + [] == finished;
    }

    method HandlePrefetch(arrivals: seq<Operation>, budget: real) returns (finished: seq<Operation>, remain: real)
      requires ConfigOk(cfg) && budget >= 0.0 && StateOk(State(buffer, chunk))
      modifies this
      ensures var out := Handle(cfg, old(State(buffer, chunk)), arrivals, budget);
              State(buffer, chunk) == out.state && finished == out.finished && remain == out.remain
      ensures StateOk(State(buffer, chunk)) && 0.0 <= remain <= budget
    {
      CallKeeps(cfg, State(buffer, chunk), arrivals, budget);
      buffer := buffer + arrivals;
      var first, left := ContinueChunk(budget);
      var second, rest := DrainBuffer(left);
      return first + second, rest;
    }
  }

  /** What was finished so far and what is still to come make up the goal. */
  ghost predicate Continues(cfg: Config, y: State, remain: real, finished: seq<Operation>, goal: Outcome)
    requires ConfigOk(cfg)
  {
    var later := HandleBuffer(cfg, y, remain);
    later.state == goal.state && finished + later.finished == goal.finished && later.remain == goal.remain
  }
}
