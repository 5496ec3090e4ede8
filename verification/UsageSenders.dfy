/** Every interleaving of pushers and senders over the usage queue. Each step takes the queue lock
    once, as push, batch and acknowledge do; the background sender keeps running while a shutdown
    flush sends, so any number of senders is allowed (services/gateway/src/usage.rs). */
module UsageSenders {
  import opened Common
  import opened UsageQueue

  /** A sender is outside `send_pending`, about to take a batch, or waiting for an answer to one. */
  datatype Sender = Idle | Ready(limit: nat) | Waiting(batch: seq<Entry>)

  /** How an event left the queue. */
  datatype Fate = Overflowed | Acked | Refused

  /** The shared queue and metric, the senders, and the history that the claims speak about: every
      pushed event, the fate of each event that left, the sequences of all accepted batches and
      those that were refused while they stood alone. */
  datatype System = System(
    capacity: nat, queue: seq<Entry>, next: nat, droppedTotal: nat, rejectedTotal: nat, senders: map<nat, Sender>,
    log: seq<Event>, fates: seq<Fate>, accepted: set<nat>, refusedAlone: set<nat>)

  datatype Step =
    | Push(event: Event)
    | Start(s: nat)   // enter send_pending
    | Take(s: nat)    // take the next batch, or leave when the queue is empty
    | Accept(s: nat)  // the admin accepted the batch
    | Refuse(s: nat)  // the admin refused the batch
    | Stop(s: nat)    // a retryable failure, or the flush deadline cancels the send

  function Init(capacity: nat): System {
    System(capacity, [], 0, 0, 0, map[], [], [], {}, {})
  }

  function Next(y: System, step: Step): System {
    match step
    case Push(event) =>
      y.(queue := PushTo(y.queue, y.next, y.capacity, event), next := y.next + 1, log := y.log + [event],
         droppedTotal := y.droppedTotal + if |y.queue| >= y.capacity then 1 else 0,
         fates := if |y.queue| >= y.capacity && y.queue != [] then y.fates + [Overflowed] else y.fates)
    case Start(s) =>
      if s in y.senders && !y.senders[s].Idle? then y
      else y.(senders := y.senders[s := Ready(MAX_BATCH_EVENTS)])
    case Take(s) =>
      if s !in y.senders || !y.senders[s].Ready? then y
      else if y.queue == [] then y.(senders := y.senders[s := Idle])
      else y.(senders := y.senders[s := Waiting(y.queue[..Min(y.senders[s].limit, |y.queue|)])])
    case Accept(s) =>
      if s !in y.senders || !y.senders[s].Waiting? || y.senders[s].batch == [] then y
      else Acknowledge(y, s, Acked).(accepted := y.accepted + Sequences(y.senders[s].batch))
    case Refuse(s) =>
      if s !in y.senders || !y.senders[s].Waiting? || y.senders[s].batch == [] then y
      else if |y.senders[s].batch| > 1 then
        y.(senders := y.senders[s := Ready(|y.senders[s].batch| / 2)])
      else Acknowledge(y, s, Refused).(rejectedTotal := y.rejectedTotal + 1,
                                       refusedAlone := y.refusedAlone + Sequences(y.senders[s].batch))
    case Stop(s) =>
      if s in y.senders then y.(senders := y.senders[s := Idle]) else y
  }

  /** Acknowledge the last sequence of the batch that `s` waits for. */
  function Acknowledge(y: System, s: nat, fate: Fate): System
    requires s in y.senders && y.senders[s].Waiting? && y.senders[s].batch != []
  {
    var batch := y.senders[s].batch;
    var queue := AckFront(y.queue, batch[|batch| - 1].0);
    y.(queue := queue, senders := y.senders[s := Ready(MAX_BATCH_EVENTS)],
       fates := y.fates + if |queue| <= |y.queue| then Repeat(|y.queue| - |queue|, fate) else [])
  }

  function Repeat(k: nat, fate: Fate): (r: seq<Fate>)
    ensures |r| == k && forall f :: f in r ==> f == fate
  {
    seq(k, _ => fate)
  }

  function Sequences(batch: seq<Entry>): set<nat> {
    set e | e in batch :: e.0
  }

  function Run(y: System, steps: seq<Step>): System
    decreases |steps|
  {
    if steps == [] then y else Run(Next(y, steps[0]), steps[1..])
  }

  // ---------------------------------------------------------------------------------------------
  // The invariant.

  /** `entries` is the stretch of the log that starts at its first sequence. */
  ghost predicate FromLog(entries: seq<Entry>, first: nat, log: seq<Event>) {
    && first + |entries| <= |log|
    && forall i :: 0 <= i < |entries| ==> entries[i] == (first + i, log[first + i])
  }

  /** A waiting sender holds a stretch of the log that began at the queue front of its time. */
  ghost predicate SenderOk(sender: Sender, gone: nat, log: seq<Event>) {
    match sender
    case Idle => true
    case Ready(limit) => 1 <= limit <= MAX_BATCH_EVENTS
    case Waiting(batch) =>
      1 <= |batch| <= MAX_BATCH_EVENTS && batch[0].0 <= gone && FromLog(batch, batch[0].0, log)
  }

  ghost predicate QueueOk(y: System) {
    && y.next == |y.log|
    && |y.fates| + |y.queue| == |y.log|
    && FromLog(y.queue, |y.fates|, y.log)
    && |y.queue| <= (if y.capacity == 0 then 1 else y.capacity)
  }

  /** Who an answer removed was answered, and overflow is what the metric counts. */
  ghost predicate FatesOk(y: System) {
    && (forall i :: 0 <= i < |y.fates| ==> y.fates[i].Overflowed? || i in Excused(y, y.fates[i]))
    && (y.capacity > 0 ==> multiset(y.fates)[Overflowed] == y.droppedTotal)
    && (y.queue == [] && y.fates != [] ==> y.fates[|y.fates| - 1] != Overflowed)
  }

  function Excused(y: System, fate: Fate): set<nat> {
    if fate.Acked? then y.accepted else y.refusedAlone
  }

  ghost predicate Inv(y: System) {
    && QueueOk(y)
    && FatesOk(y)
    && forall s :: s in y.senders ==> SenderOk(y.senders[s], |y.fates|, y.log)
  }

  /** The position at which an answered batch cuts the queue: just past its last event. */
  ghost function Cut(y: System, s: nat): (gone: nat)
    requires Inv(y) && s in y.senders && y.senders[s].Waiting?
    ensures gone <= |y.queue|
  {
    var batch := y.senders[s].batch;
    assert SenderOk(y.senders[s], |y.fates|, y.log);
    var end := batch[0].0 + |batch|;
    if end <= |y.fates| then 0 else end - |y.fates|
  }

  lemma AcknowledgeCuts(y: System, s: nat, fate: Fate)
    requires Inv(y) && s in y.senders && y.senders[s].Waiting?
    ensures y.senders[s].batch != []
    ensures Acknowledge(y, s, fate)
         == y.(queue := y.queue[Cut(y, s)..], senders := y.senders[s := Ready(MAX_BATCH_EVENTS)],
               fates := y.fates + Repeat(Cut(y, s), fate))
  {
    var batch := y.senders[s].batch;
    assert SenderOk(y.senders[s], |y.fates|, y.log);
    assert batch[|batch| - 1].0 == batch[0].0 + |batch| - 1;
    AckCuts(y.queue, y.next, batch[|batch| - 1].0);
  }

  /** The events an acknowledgement removes belong to its batch. */
  lemma RemovedAreInBatch(y: System, s: nat, i: nat)
    requires Inv(y) && s in y.senders && y.senders[s].Waiting?
    requires |y.fates| <= i < |y.fates| + Cut(y, s)
    ensures (i, y.log[i]) in y.senders[s].batch && i in Sequences(y.senders[s].batch)
  {
    var batch := y.senders[s].batch;
    assert SenderOk(y.senders[s], |y.fates|, y.log);
    assert batch[i - batch[0].0] == (i, y.log[i]);
  }

  /** The state after an answer that ends its batch. */
  function Answered(y: System, s: nat, fate: Fate): System
    requires s in y.senders && y.senders[s].Waiting? && y.senders[s].batch != []
  {
    var seqs := Sequences(y.senders[s].batch);
    var z := Acknowledge(y, s, fate);
    if fate.Acked? then z.(accepted := y.accepted + seqs)
    else z.(rejectedTotal := y.rejectedTotal + 1, refusedAlone := y.refusedAlone + seqs)
  }

  lemma AnsweredKeepsFates(y: System, s: nat, fate: Fate)
    requires Inv(y) && s in y.senders && y.senders[s].Waiting? && !fate.Overflowed?
    ensures y.senders[s].batch != [] && FatesOk(Answered(y, s, fate))
  {
    AcknowledgeCuts(y, s, fate);
    var z, gone := Answered(y, s, fate), Cut(y, s);
    assert z.fates == y.fates + Repeat(gone, fate);
    assert multiset(z.fates)[Overflowed] == multiset(y.fates)[Overflowed] by {
      assert Overflowed !in Repeat(gone, fate);
    }
    forall i | 0 <= i < |z.fates|
      ensures z.fates[i].Overflowed? || i in Excused(z, z.fates[i])
    {
      if i < |y.fates| {
        assert z.fates[i] == y.fates[i];
      } else {
        RemovedAreInBatch(y, s, i);
        assert z.fates[i] == Repeat(gone, fate)[i - |y.fates|];
      }
    }
  }

  lemma AnsweredKeepsQueue(y: System, s: nat, fate: Fate)
    requires Inv(y) && s in y.senders && y.senders[s].Waiting?
    ensures y.senders[s].batch != [] && QueueOk(Answered(y, s, fate))
  {
    AcknowledgeCuts(y, s, fate);
    RestFromLog(y.queue, |y.fates|, y.log, Cut(y, s));
  }

  lemma RestFromLog(entries: seq<Entry>, first: nat, log: seq<Event>, gone: nat)
    requires FromLog(entries, first, log) && gone <= |entries|
    ensures FromLog(entries[gone..], first + gone, log)
  {
    var rest := entries[gone..];
    assert forall i :: 0 <= i < |rest| ==> rest[i] == entries[gone + i];
  }

  lemma SendersStay(senders: map<nat, Sender>, gone: nat, more: nat, log: seq<Event>)
    requires gone <= more && forall s :: s in senders ==> SenderOk(senders[s], gone, log)
    ensures forall s :: s in senders ==> SenderOk(senders[s], more, log)
  {
  }

  lemma AnsweredKeepsInv(y: System, s: nat, fate: Fate)
    requires Inv(y) && s in y.senders && y.senders[s].Waiting? && !fate.Overflowed?
    ensures y.senders[s].batch != [] && Inv(Answered(y, s, fate))
  {
    AnsweredKeepsQueue(y, s, fate);
    AnsweredKeepsFates(y, s, fate);
    AcknowledgeCuts(y, s, fate);
    SendersStay(y.senders, |y.fates|, |y.fates| + Cut(y, s), y.log);
  }

  lemma PushKeepsInv(y: System, event: Event)
    requires Inv(y)
    ensures Inv(Next(y, Push(event)))
  {
    var z := Next(y, Push(event));
    assert forall i :: 0 <= i < |y.log| ==> z.log[i] == y.log[i];
    assert FromLog(z.queue, |z.fates|, z.log);
    forall s | s in z.senders
      ensures SenderOk(z.senders[s], |z.fates|, z.log)
    {
      assert SenderOk(y.senders[s], |y.fates|, y.log);
    }
  }

  lemma SenderChangeKeepsInv(y: System, s: nat, sender: Sender)
    requires Inv(y) && SenderOk(sender, |y.fates|, y.log)
    ensures Inv(y.(senders := y.senders[s := sender]))
  {
  }

  lemma NextKeepsInv(y: System, step: Step)
    requires Inv(y)
    ensures Inv(Next(y, step))
  {
    match step
    case Push(event) => PushKeepsInv(y, event);
    case Start(s) => SenderChangeKeepsInv(y, s, Ready(MAX_BATCH_EVENTS));
    case Take(s) =>
      SenderChangeKeepsInv(y, s, Idle);
      if s in y.senders && y.senders[s].Ready? && y.queue != [] {
        var batch := y.queue[..Min(y.senders[s].limit, |y.queue|)];
        assert SenderOk(y.senders[s], |y.fates|, y.log);
        SenderChangeKeepsInv(y, s, Waiting(batch));
      }
    case Accept(s) =>
      if s in y.senders && y.senders[s].Waiting? { AnsweredKeepsInv(y, s, Acked); }
    case Refuse(s) =>
      if s in y.senders && y.senders[s].Waiting? && |y.senders[s].batch| == 1 { AnsweredKeepsInv(y, s, Refused); }
      if s in y.senders && y.senders[s].Waiting? && |y.senders[s].batch| > 1 {
        assert SenderOk(y.senders[s], |y.fates|, y.log);
        SenderChangeKeepsInv(y, s, Ready(|y.senders[s].batch| / 2));
      }
    case Stop(s) => SenderChangeKeepsInv(y, s, Idle);
  }

  /** Queue safety: in every interleaving the queued sequences are contiguous up to `next - 1`, the
      length stays within a capacity of at least one, no event leaves twice, an event leaves as
      delivered only if a batch with it was accepted, and as refused only if it was refused alone. */
  lemma {:induction false} QueueSafety(y: System, steps: seq<Step>)
    requires Inv(y)
    ensures Inv(Run(y, steps))
    ensures Contiguous(Run(y, steps).queue, Run(y, steps).next)
    decreases |steps|
  {
    if steps != [] {
      NextKeepsInv(y, steps[0]);
      QueueSafety(Next(y, steps[0]), steps[1..]);
    }
  }

  lemma CutTakesTheBatch(y: System, s: nat, q: seq<Entry>)
    requires Inv(y) && s in y.senders && y.senders[s].Waiting? && q == y.queue[Cut(y, s)..]
    ensures forall e :: e in y.queue && e !in q ==> e in y.senders[s].batch
    ensures forall e :: e in y.senders[s].batch ==> e !in q
  {
    var batch, gone := y.senders[s].batch, Cut(y, s);
    forall i | 0 <= i < |y.queue|
      ensures y.queue[i] in batch || y.queue[i] in q
    {
      if i < gone {
        RemovedAreInBatch(y, s, |y.fates| + i);
      } else {
        assert y.queue[i] == q[i - gone];
      }
    }
    assert SenderOk(y.senders[s], |y.fates|, y.log);
    forall i, j | 0 <= i < |batch| && 0 <= j < |q|
      ensures batch[i] != q[j]
    {
      assert q[j] == y.queue[gone + j];
    }
  }

  /** Whatever happened since the batch was taken, its answer removes only its own events. */
  lemma AcknowledgeRemovesOnlyItsBatch(capacity: nat, steps: seq<Step>, s: nat, answer: Step)
    requires answer == Accept(s) || answer == Refuse(s)
    requires var y := Run(Init(capacity), steps); s in y.senders && y.senders[s].Waiting?
    ensures var y := Run(Init(capacity), steps);
            var z, batch := Next(y, answer), y.senders[s].batch;
            && (forall e :: e in y.queue && e !in z.queue ==> e in batch)
            && (answer.Accept? || |batch| == 1 ==> forall e :: e in batch ==> e !in z.queue)
            && (answer.Refuse? && |batch| > 1 ==> z.queue == y.queue)
  {
    QueueSafety(Init(capacity), steps);
    var y := Run(Init(capacity), steps);
    AcknowledgeCuts(y, s, if answer.Accept? then Acked else Refused);
    CutTakesTheBatch(y, s, y.queue[Cut(y, s)..]);
  }

  // ---------------------------------------------------------------------------------------------
  // The refusal metric.

  /** The admin refuses a lone event that has left the queue meanwhile: another sender's answer or an
      overflow took it. The metric counts it all the same. */
  predicate LateRefusal(y: System, step: Step) {
    && step.Refuse? && step.s in y.senders && y.senders[step.s].Waiting?
    && |y.senders[step.s].batch| == 1 && y.senders[step.s].batch[0] !in y.queue
  }

  function LateRefusals(y: System, steps: seq<Step>): nat
    decreases |steps|
  {
    if steps == [] then 0
    else (if LateRefusal(y, steps[0]) then 1 else 0) + LateRefusals(Next(y, steps[0]), steps[1..])
  }

  function RefusedCount(y: System): nat {
    multiset(y.fates)[Refused]
  }

  lemma RepeatCount(fates: seq<Fate>, k: nat, fate: Fate)
    ensures multiset(fates + Repeat(k, fate))[Refused] == multiset(fates)[Refused] + if fate.Refused? then k else 0
  {
    RepeatMultiset(k, fate);
  }

  lemma {:induction false} RepeatMultiset(k: nat, fate: Fate)
    ensures multiset(Repeat(k, fate))[Refused] == if fate.Refused? then k else 0
  {
    if k > 0 {
      RepeatMultiset(k - 1, fate);
      assert Repeat(k, fate) == Repeat(k - 1, fate) + [fate];
    } else {
      assert Repeat(0, fate) == [];
    }
  }

  /** A lone refusal removes its event, or the event is already gone. */
  lemma LoneRefusal(y: System, s: nat)
    requires Inv(y) && s in y.senders && y.senders[s].Waiting? && |y.senders[s].batch| == 1
    ensures Cut(y, s) == if y.senders[s].batch[0] in y.queue then 1 else 0
  {
    var e := y.senders[s].batch[0];
    assert SenderOk(y.senders[s], |y.fates|, y.log);
    assert e == (e.0, y.log[e.0]) && e.0 <= |y.fates|;
    if e.0 == |y.fates| && y.queue != [] { assert y.queue[0] == e; }
    if e in y.queue {
      var i :| 0 <= i < |y.queue| && y.queue[i] == e;
      assert y.queue[i].0 == |y.fates| + i;
    }
  }

  lemma AcknowledgedCount(y: System, s: nat, fate: Fate)
    requires Inv(y) && s in y.senders && y.senders[s].Waiting?
    ensures y.senders[s].batch != []
    ensures var z := Acknowledge(y, s, fate);
            z.rejectedTotal == y.rejectedTotal && RefusedCount(z) == RefusedCount(y) + if fate.Refused? then Cut(y, s) else 0
  {
    AcknowledgeCuts(y, s, fate);
    RepeatCount(y.fates, Cut(y, s), fate);
  }

  lemma RefusalCount(y: System, s: nat)
    requires Inv(y)
    ensures var z := Next(y, Refuse(s));
            z.rejectedTotal + RefusedCount(y) == y.rejectedTotal + RefusedCount(z) + if LateRefusal(y, Refuse(s)) then 1 else 0
  {
    if s in y.senders && y.senders[s].Waiting? && |y.senders[s].batch| == 1 {
      AcknowledgedCount(y, s, Refused);
      LoneRefusal(y, s);
    }
  }

  lemma NextCountsRefusals(y: System, step: Step)
    requires Inv(y)
    ensures var z := Next(y, step);
            z.rejectedTotal + RefusedCount(y) == y.rejectedTotal + RefusedCount(z) + if LateRefusal(y, step) then 1 else 0
  {
    if step.Accept? {
      if step.s in y.senders && y.senders[step.s].Waiting? { AcknowledgedCount(y, step.s, Acked); }
    } else if step.Refuse? {
      RefusalCount(y, step.s);
    } else {
      assert multiset(y.fates + [Overflowed])[Refused] == multiset(y.fates)[Refused];
    }
  }

  /** The metric of refused events counts the events that left as refused and the late refusals. So it
      is never too low, and is right exactly when no lone event was refused after it had left. */
  lemma {:induction false} RefusalsCounted(y: System, steps: seq<Step>)
    requires Inv(y)
    ensures var z := Run(y, steps);
            && z.rejectedTotal + RefusedCount(y) == y.rejectedTotal + RefusedCount(z) + LateRefusals(y, steps)
    decreases |steps|
  {
    if steps != [] {
      NextKeepsInv(y, steps[0]);
      NextCountsRefusals(y, steps[0]);
      RefusalsCounted(Next(y, steps[0]), steps[1..]);
    }
  }

  lemma RejectedExactly(capacity: nat, steps: seq<Step>)
    ensures var z := Run(Init(capacity), steps);
            && RefusedCount(z) <= z.rejectedTotal
            && (RefusedCount(z) == z.rejectedTotal <==> LateRefusals(Init(capacity), steps) == 0)
  {
    RefusalsCounted(Init(capacity), steps);
  }

  /** One event that two senders deal with. */
  function Doubly(event: Event, queue: seq<Entry>, first: Sender, second: Sender): System {
    System(1, queue, 1, 0, 0, map[1 := first, 2 := second], [event], [], {}, {})
  }

  lemma BothTake(event: Event)
    ensures var batch, ready := [(0, event)], Ready(MAX_BATCH_EVENTS);
            && Next(Next(Next(Init(1), Push(event)), Start(1)), Start(2)) == Doubly(event, batch, ready, ready)
            && Next(Next(Doubly(event, batch, ready, ready), Take(1)), Take(2))
               == Doubly(event, batch, Waiting(batch), Waiting(batch))
  {
    var batch, ready := [(0, event)], Ready(MAX_BATCH_EVENTS);
    assert [] + batch == batch && [] + [event] == [event];
    assert batch[..1] == batch;
    var none: map<nat, Sender> := map[];
    assert none[1 := ready][2 := ready] == map[1 := ready, 2 := ready];
    var y := Doubly(event, batch, ready, ready);
    assert Next(y, Take(1)) == y.(senders := y.senders[1 := Waiting(batch)]);
    assert y.senders[1 := Waiting(batch)][2 := Waiting(batch)] == map[1 := Waiting(batch), 2 := Waiting(batch)];
  }

  lemma BothRefused(event: Event)
    ensures var batch := [(0, event)];
            var y := Doubly(event, batch, Waiting(batch), Waiting(batch));
            var x := Next(y, Refuse(1));
            var z := Next(x, Refuse(2));
            && x.fates == [Refused] && x.queue == [] && x.senders[2] == Waiting(batch)
            && z.fates == [Refused] && z.rejectedTotal == 2 && LateRefusal(x, Refuse(2))
  {
    var batch := [(0, event)];
    var y := Doubly(event, batch, Waiting(batch), Waiting(batch));
    assert batch[1..] == [] && AckFront(batch, 0) == AckFront([], 0) == [];
    assert Repeat(1, Refused) == [Refused] && [] + [Refused] == [Refused];
    assert Next(y, Refuse(1)).fates == [Refused];
    assert Repeat(0, Refused) == [] && [Refused] + [] == [Refused];
  }

  /** It can exceed them: two senders hold the same event, and the admin refuses it to both. */
  lemma RejectedCanExceed(event: Event)
    ensures var steps := [Push(event), Start(1), Start(2), Take(1), Take(2), Refuse(1), Refuse(2)];
            var z := Run(Init(1), steps);
            z.rejectedTotal == 2 && RefusedCount(z) == 1
  {
    BothTake(event);
    BothRefused(event);
    var later := [Take(1), Take(2), Refuse(1), Refuse(2)];
    var steps := [Push(event), Start(1), Start(2)] + later;
    assert steps == [Push(event), Start(1), Start(2), Take(1), Take(2), Refuse(1), Refuse(2)];
    RunThree(Init(1), Push(event), Start(1), Start(2), later);
    var y := Next(Next(Next(Init(1), Push(event)), Start(1)), Start(2));
    assert later == [Take(1), Take(2), Refuse(1)] + [Refuse(2)];
    RunThree(y, Take(1), Take(2), Refuse(1), [Refuse(2)]);
    var x := Next(Next(Next(y, Take(1)), Take(2)), Refuse(1));
    assert Run(x, [Refuse(2)]) == Run(Next(x, Refuse(2)), []);
  }

  lemma RunThree(y: System, a: Step, b: Step, c: Step, rest: seq<Step>)
    ensures Run(y, [a, b, c] + rest) == Run(Next(Next(Next(y, a), b), c), rest)
  {
    var all := [a, b, c] + rest;
    assert all[1..] == [b, c] + rest && all[1..][1..] == [c] + rest && all[1..][1..][1..] == rest;
    assert Run(y, all) == Run(Next(y, a), all[1..]);
    assert Run(Next(y, a), all[1..]) == Run(Next(Next(y, a), b), all[1..][1..]);
  }

  // ---------------------------------------------------------------------------------------------
  // Conservation.

  /** Every pushed event is queued, counted as dropped, or left by an answer of the admin. */
  ghost predicate Conserved(y: System) {
    |y.log| == |y.queue| + y.droppedTotal + multiset(y.fates)[Acked] + multiset(y.fates)[Refused]
  }

  lemma {:induction false} FatesPartition(fates: seq<Fate>)
    ensures |fates| == multiset(fates)[Overflowed] + multiset(fates)[Acked] + multiset(fates)[Refused]
  {
    if fates != [] {
      FatesPartition(fates[1..]);
      assert fates == [fates[0]] + fates[1..];
      assert multiset(fates) == multiset{fates[0]} + multiset(fates[1..]);
      assert fates[0] == Overflowed || fates[0] == Acked || fates[0] == Refused;
    }
  }

  /** With no capacity at all the metric counts every push, also the one into an empty queue. */
  lemma {:induction false} DroppedWithoutCapacity(y: System, steps: seq<Step>)
    requires y.capacity == 0 && y.droppedTotal == |y.log|
    ensures Run(y, steps).capacity == 0 && Run(y, steps).droppedTotal == |Run(y, steps).log|
    ensures |Run(y, steps).log| >= |y.log| + if (exists t :: t in steps && t.Push?) then 1 else 0
    decreases |steps|
  {
    if steps != [] {
      DroppedWithoutCapacity(Next(y, steps[0]), steps[1..]);
      if exists t :: t in steps && t.Push? {
        var t :| t in steps && t.Push?;
        assert t == steps[0] || t in steps[1..];
      }
    }
  }

  lemma {:induction false} RunKeepsCapacity(y: System, steps: seq<Step>)
    ensures Run(y, steps).capacity == y.capacity
    ensures (forall t :: t in steps ==> !t.Push?) ==> Run(y, steps).droppedTotal == y.droppedTotal
    decreases |steps|
  {
    if steps != [] {
      RunKeepsCapacity(Next(y, steps[0]), steps[1..]);
    }
  }

  /** The conservation law holds at the end of a run exactly when the queue has room for one event,
      or the run pushed nothing: with capacity zero the first push is queued and counted as dropped. */
  lemma ConservationExactly(capacity: nat, steps: seq<Step>)
    ensures Conserved(Run(Init(capacity), steps)) <==> capacity >= 1 || forall t :: t in steps ==> !t.Push?
  {
    var y := Run(Init(capacity), steps);
    QueueSafety(Init(capacity), steps);
    RunKeepsCapacity(Init(capacity), steps);
    FatesPartition(y.fates);
    if capacity == 0 {
      DroppedWithoutCapacity(Init(capacity), steps);
      assert y.fates != [] ==> y.fates[|y.fates| - 1] in multiset(y.fates);
    }
  }
}
