/** The bounded usage-event queue of the gateway and its senders (services/gateway/src/usage.rs). */
module UsageQueue {
  import opened Common

  const MAX_BATCH_EVENTS: nat := 500

  datatype Outcome = Completed | Failed | Cancelled | Interrupted

  datatype Event = Event(
    requestId: string, keyId: string, requestedModel: string, outcome: Outcome, finalUsage: bool,
    inputTokens: Option<nat>, outputTokens: Option<nat>, cachedInputTokens: Option<nat>,
    reasoningTokens: Option<nat>, endedAtMs: nat, producerInstance: string)

  /** An event with the sequence number the queue gave it. */
  type Entry = (nat, Event)

  /** What the admin answers to one batch. */
  datatype Answer = Accepted | Rejected(status: nat) | Retry(reason: string)

  // ---------------------------------------------------------------------------------------------
  // The queue operations, as functions of the queue contents.

  /** Drop every leading entry whose sequence is at most `last`. */
  function AckFront(q: seq<Entry>, last: nat): seq<Entry> {
    if q != [] && q[0].0 <= last then AckFront(q[1..], last) else q
  }

  function EventsOf(q: seq<Entry>): (r: seq<Event>)
    ensures |r| == |q| && forall i :: 0 <= i < |q| ==> r[i] == q[i].1
  {
    if q == [] then [] else [q[0].1] + EventsOf(q[1..])
  }

  /** The entries carry consecutive sequence numbers, the last one just below `next`. */
  ghost predicate Contiguous(q: seq<Entry>, next: nat) {
    |q| <= next && forall i :: 0 <= i < |q| ==> q[i].0 == next - |q| + i
  }

  /** On a contiguous queue an acknowledgement cuts at one position. */
  lemma {:induction false} AckCuts(q: seq<Entry>, next: nat, last: nat)
    requires Contiguous(q, next)
    ensures var first := next - |q|;
            AckFront(q, last) == q[(if last < first then 0 else Min(|q|, last + 1 - first))..]
  {
    if q != [] && q[0].0 <= last {
      AckCuts(q[1..], next, last);
    }
  }

  /** So acknowledging the last sequence of the first `n` entries removes just those. */
  lemma AckTakesPrefix(q: seq<Entry>, next: nat, n: nat)
    requires Contiguous(q, next) && 1 <= n <= |q|
    ensures AckFront(q, q[n - 1].0) == q[n..]
  {
    assert q[n - 1].0 == next - |q| + n - 1;
    AckCuts(q, next, q[n - 1].0);
  }

  lemma {:induction false} EventsOfSlices(q: seq<Entry>, n: nat)
    requires n <= |q|
    ensures EventsOf(q[n..]) == EventsOf(q)[n..] && EventsOf(q[..n]) == EventsOf(q)[..n]
  {
    var tail, head := q[n..], q[..n];
    assert forall i :: 0 <= i < |tail| ==> EventsOf(tail)[i] == tail[i].1 == EventsOf(q)[n + i];
    assert forall i :: 0 <= i < |head| ==> EventsOf(head)[i] == head[i].1 == EventsOf(q)[i];
  }

  // ---------------------------------------------------------------------------------------------
  // Draining the queue against an admin, without concurrent pushes.

  /** One send: the batch and the admin's answer. */
  datatype Send = Send(batch: seq<Event>, answer: Answer) {
    /** A batch leaves the queue when it is accepted, or is refused while it holds one event. */
    predicate Removes() {
      answer.Accepted? || (answer.Rejected? && |batch| == 1)
    }
  }

  /** The admin answers a batch by its content and by how many sends came before. */
  type Admin = (nat, seq<Event>) -> Answer

  /** The sends from `events` on with batch limit `limit`, and what stays queued. */
  function Drain(events: seq<Event>, limit: nat, attempt: nat, admin: Admin): (seq<Send>, seq<Event>)
    requires 1 <= limit
    decreases |events|, limit
  {
    if events == [] then ([], [])
    else
      var batch := events[..Min(limit, |events|)];
      var answer := admin(attempt, batch);
      var send := Send(batch, answer);
      if answer.Retry? then ([send], events)
      else if send.Removes() then
        var (sends, rest) := Drain(events[|batch|..], MAX_BATCH_EVENTS, attempt + 1, admin);
        ([send] + sends, rest)
      else
        var (sends, rest) := Drain(events, |batch| / 2, attempt + 1, admin);
        ([send] + sends, rest)
  }

  /** The batches that left the queue, in order. */
  function Removed(sends: seq<Send>): seq<seq<Event>> {
    if sends == [] then []
    else (if sends[0].Removes() then [sends[0].batch] else []) + Removed(sends[1..])
  }

  /** The events of the accepted batches, in the order the admin got them. */
  function Delivered(sends: seq<Send>): seq<Event> {
    if sends == [] then []
    else (if sends[0].answer.Accepted? then sends[0].batch else []) + Delivered(sends[1..])
  }

  /** The events dropped because the admin refused them alone. */
  function Dropped(sends: seq<Send>): seq<Event> {
    if sends == [] then []
    else (if sends[0].Removes() && sends[0].answer.Rejected? then sends[0].batch else []) + Dropped(sends[1..])
  }

  /** The sends a refused batch of `n` events can need until one batch leaves the queue. */
  function Depth(n: nat): (d: nat)
    ensures 1 <= d
  {
    if n <= 1 then 1 else 1 + Depth(n / 2)
  }

  lemma {:induction false} DepthMonotone(a: nat, b: nat)
    requires a <= b
    ensures Depth(a) <= Depth(b)
    decreases b
  {
    if 1 < a { DepthMonotone(a / 2, b / 2); }
  }

  lemma DepthOfBatch(n: nat)
    requires n <= MAX_BATCH_EVENTS
    ensures Depth(n) <= 9
  {
    DepthMonotone(n, 500);
    assert Depth(500) == 9 by {
      assert Depth(7) == 3;
      assert Depth(62) == 6 by { assert Depth(15) == 4; assert Depth(31) == 5; }
      assert Depth(125) == 7 && Depth(250) == 8;
    }
  }

  /** The first send of a non-empty queue, and the arguments with which draining goes on. */
  lemma DrainStep(events: seq<Event>, limit: nat, attempt: nat, admin: Admin)
    returns (send: Send, next: seq<Event>, lim: nat)
    requires 1 <= limit && events != []
    ensures send.batch == events[..Min(limit, |events|)] && send.answer == admin(attempt, send.batch)
    ensures send.answer.Retry? ==> Drain(events, limit, attempt, admin) == ([send], events)
    ensures send.Removes() ==> next == events[|send.batch|..] && lim == MAX_BATCH_EVENTS
    ensures !send.answer.Retry? && !send.Removes() ==> next == events && 1 < |send.batch| && lim == |send.batch| / 2
    ensures !send.answer.Retry? ==>
              var (sends, rest) := Drain(next, lim, attempt + 1, admin);
              Drain(events, limit, attempt, admin) == ([send] + sends, rest)
    ensures 1 <= lim
  {
    var batch := events[..Min(limit, |events|)];
    send := Send(batch, admin(attempt, batch));
    next := if send.Removes() then events[|batch|..] else events;
    lim := if send.Removes() || |batch| <= 1 then MAX_BATCH_EVENTS else |batch| / 2;
  }

  lemma RemovedCons(send: Send, sends: seq<Send>)
    ensures Removed([send] + sends) == (if send.Removes() then [send.batch] else []) + Removed(sends)
  {
    assert ([send] + sends)[1..] == sends;
  }

  lemma FlattenFirst(first: seq<seq<Event>>, out: seq<seq<Event>>, rest: seq<Event>)
    requires |first| <= 1
    ensures Flatten(first + out) + rest == (if first == [] then [] else first[0]) + (Flatten(out) + rest)
  {
    if first == [] {
      assert first + out == out;
    } else {
      assert first == [first[0]];
      FlattenCons(first[0], out);
    }
  }

  /** Whatever the admin answers, no event is lost, doubled or reordered. */
  lemma {:induction false} DrainKeepsEveryEvent(events: seq<Event>, limit: nat, attempt: nat, admin: Admin)
    requires 1 <= limit
    ensures var (sends, rest) := Drain(events, limit, attempt, admin);
            Flatten(Removed(sends)) + rest == events
    decreases |events|, limit
  {
    if events == [] { return; }
    var send, next, lim := DrainStep(events, limit, attempt, admin);
    if send.answer.Retry? {
      assert Removed([send]) == [] && [] + events == events;
    } else {
      DrainKeepsEveryEvent(next, lim, attempt + 1, admin);
      var (sends, rest) := Drain(next, lim, attempt + 1, admin);
      RemovedCons(send, sends);
      FlattenFirst(if send.Removes() then [send.batch] else [], Removed(sends), rest);
    }
  }

  /** Events stay queued exactly when some answer was retryable, and that answer was the last. */
  lemma {:induction false} DrainStopsOnlyOnRetry(events: seq<Event>, limit: nat, attempt: nat, admin: Admin)
    requires 1 <= limit
    ensures var (sends, rest) := Drain(events, limit, attempt, admin);
            && (rest != [] <==> sends != [] && sends[|sends| - 1].answer.Retry?)
            && (forall i :: 0 <= i < |sends| - 1 ==> !sends[i].answer.Retry?)
    decreases |events|, limit
  {
    if events == [] { return; }
    var send, next, lim := DrainStep(events, limit, attempt, admin);
    if !send.answer.Retry? {
      DrainStopsOnlyOnRetry(next, lim, attempt + 1, admin);
      var sends, all := Drain(next, lim, attempt + 1, admin).0, Drain(events, limit, attempt, admin).0;
      assert forall i :: 0 < i < |all| ==> all[i] == sends[i - 1];
    }
  }

  /** Each removed batch costs at most nine sends, and so does a final retryable failure. */
  lemma {:induction false} SendsPerRemovedBatch(events: seq<Event>, limit: nat, attempt: nat, admin: Admin)
    requires 1 <= limit <= MAX_BATCH_EVENTS
    ensures var (sends, rest) := Drain(events, limit, attempt, admin);
            && |sends| <= 9 * (|Removed(sends)| + if rest == [] then 0 else 1)
            && (events != [] ==>
                  |sends| + 9 <= 9 * (|Removed(sends)| + if rest == [] then 0 else 1) + Depth(Min(limit, |events|)))
    decreases |events|, limit
  {
    if events == [] { return; }
    DepthOfBatch(Min(limit, |events|));
    var send, next, lim := DrainStep(events, limit, attempt, admin);
    if send.answer.Retry? {
      RemovedCons(send, []);
      assert [send] + [] == [send];
    } else {
      SendsPerRemovedBatch(next, lim, attempt + 1, admin);
      RemovedCons(send, Drain(next, lim, attempt + 1, admin).0);
    }
  }

  /** An admin that never asks for a retry and refuses a batch exactly when it holds a bad event. */
  ghost predicate RefusesExactly(admin: Admin, bad: Event -> bool) {
    forall n, batch :: admin(n, batch).Accepted? != admin(n, batch).Rejected?
                    && (admin(n, batch).Rejected? <==> exists e :: e in batch && bad(e))
  }

  function Not(bad: Event -> bool): Event -> bool {
    e => !bad(e)
  }

  /** A batch that leaves the queue is all good and delivered, or one bad event and dropped. */
  lemma PoisonBatch(send: Send, n: nat, admin: Admin, bad: Event -> bool)
    requires RefusesExactly(admin, bad) && send.answer == admin(n, send.batch) && send.Removes()
    ensures send.answer.Accepted? ==> Filter(Not(bad), send.batch) == send.batch && Filter(bad, send.batch) == []
    ensures send.answer.Rejected? ==> Filter(Not(bad), send.batch) == [] && Filter(bad, send.batch) == send.batch
  {
    FilterUniform(bad, send.batch);
    FilterUniform(Not(bad), send.batch);
    if send.answer.Rejected? {
      var e :| e in send.batch && bad(e);
      assert send.batch == [e];
    }
  }

  lemma DeliveredCons(send: Send, sends: seq<Send>)
    ensures Delivered([send] + sends) == (if send.answer.Accepted? then send.batch else []) + Delivered(sends)
    ensures Dropped([send] + sends)
         == (if send.Removes() && send.answer.Rejected? then send.batch else []) + Dropped(sends)
  {
    assert ([send] + sends)[1..] == sends;
  }

  /** Against such an admin every good event is delivered once and in order, every bad event is
      dropped once and in order, and nothing stays queued. */
  lemma {:induction false} PoisonIsolation(events: seq<Event>, limit: nat, attempt: nat, admin: Admin, bad: Event -> bool)
    requires 1 <= limit && RefusesExactly(admin, bad)
    ensures var (sends, rest) := Drain(events, limit, attempt, admin);
            && rest == []
            && Delivered(sends) == Filter(Not(bad), events)
            && Dropped(sends) == Filter(bad, events)
    decreases |events|, limit
  {
    if events == [] { return; }
    var send, next, lim := DrainStep(events, limit, attempt, admin);
    PoisonIsolation(next, lim, attempt + 1, admin, bad);
    DeliveredCons(send, Drain(next, lim, attempt + 1, admin).0);
    if send.Removes() {
      PoisonBatch(send, attempt, admin, bad);
      assert events == send.batch + next;
      FilterAppend(bad, send.batch, next);
      FilterAppend(Not(bad), send.batch, next);
    }
  }

  // ---------------------------------------------------------------------------------------------
  // The recorder, updated in place.

  class Recorder {
    const capacity: nat
    var events: seq<Entry>
    var nextSequence: nat
    /** The counters `gateway_usage_events_dropped_total` and the refused-event counter. */
    var droppedTotal: nat
    var rejectedTotal: nat

    ghost predicate Valid()
      reads this
    {
      Contiguous(events, nextSequence)
    }

    constructor (capacity: nat)
      ensures Valid() && this.capacity == capacity
      ensures events == [] && nextSequence == 0 && droppedTotal == 0 && rejectedTotal == 0
    {
      this.capacity := capacity;
      events, nextSequence, droppedTotal, rejectedTotal := [], 0, 0, 0;
    }

    method Push(event: Event)
      requires Valid()
      modifies this
      ensures Valid() && rejectedTotal == old(rejectedTotal)
      ensures events == PushTo(old(events), old(nextSequence), capacity, event)
      ensures nextSequence == old(nextSequence) + 1
      ensures droppedTotal == old(droppedTotal) + if |old(events)| >= capacity then 1 else 0
    {
      if |events| >= capacity {
        if events != [] { events := events[1..]; }
        droppedTotal := droppedTotal + 1;
      }
      var sequence := nextSequence;
      nextSequence := nextSequence + 1;
      events := events + [(sequence, event)];
    }

    /** The oldest entries, at most `limit`, and the sequence of the last one. */
    method Batch(limit: nat) returns (r: Option<(nat, seq<Event>)>)
      requires Valid()
      ensures r.None? <==> events == [] || limit == 0
      ensures r.Some? ==>
                var n := Min(limit, |events|);
                r.value.0 == events[n - 1].0 && r.value.1 == EventsOf(events[..n])
    {
      var taken := events[..Min(limit, |events|)];
      if taken == [] { return None; }
      return Some((taken[|taken| - 1].0, EventsOf(taken)));
    }

    /** Exactly the entries with a sequence up to `lastSequence` leave; the rest keep their order. */
    method Acknowledge(lastSequence: nat)
      requires Valid()
      modifies this`events
      ensures Valid()
      ensures events == AckFront(old(events), lastSequence)
    {
      while events != [] && events[0].0 <= lastSequence
        invariant Valid() && AckFront(events, lastSequence) == AckFront(old(events), lastSequence)
        decreases |events|
      {
        events := events[1..];
      }
    }

    /** One round of the send loop: take a batch, send it, and act on the answer. */
    method SendBatch(limit: nat, attempt: nat, admin: Admin) returns (send: Send, newLimit: nat)
      requires Valid() && events != [] && 1 <= limit
      modifies this`events, this`rejectedTotal
      ensures Valid() && 1 <= newLimit
      ensures send.batch == old(EventsOf(events))[..Min(limit, |old(events)|)]
      ensures send.answer == admin(attempt, send.batch)
      ensures EventsOf(events) == old(EventsOf(events))[(if send.Removes() then |send.batch| else 0)..]
      ensures send.Removes() ==> newLimit == MAX_BATCH_EVENTS
      ensures send.answer.Rejected? && 1 < |send.batch| ==> newLimit == |send.batch| / 2
      ensures rejectedTotal == old(rejectedTotal) + if send.Removes() && send.answer.Rejected? then 1 else 0
    {
      var next := Batch(limit);
      var (last, batch) := next.value;
      send := Send(batch, admin(attempt, batch));
      newLimit := limit;
      AckTakesPrefix(events, nextSequence, |batch|);
      EventsOfSlices(events, |batch|);
      match send.answer {
        case Accepted =>
          Acknowledge(last);
          newLimit := MAX_BATCH_EVENTS;
        case Rejected(_) =>
          if |batch| > 1 {
            newLimit := |batch| / 2;
          } else {
            Acknowledge(last);
            rejectedTotal := rejectedTotal + 1;
            newLimit := MAX_BATCH_EVENTS;
          }
        case Retry(_) =>
      }
    }

    /** The sending loop: it ends with an empty queue, or at the first answer that asks for a retry. */
    method SendPending(admin: Admin) returns (r: Result<(), string>, sends: seq<Send>)
      requires Valid()
      modifies this`events, this`rejectedTotal
      ensures Valid()
      ensures (sends, EventsOf(events)) == Drain(old(EventsOf(events)), MAX_BATCH_EVENTS, 0, admin)
      ensures r.Ok? <==> events == []
      ensures r.Err? ==> sends != [] && sends[|sends| - 1].answer == Retry(r.error)
      ensures rejectedTotal == old(rejectedTotal) + |Dropped(sends)|
    {
      var limit := MAX_BATCH_EVENTS;
      sends := [];
      ghost var goal := Drain(EventsOf(events), limit, 0, admin);
      assert goal.0 == sends + goal.0;
      while events != []
        invariant Valid() && 1 <= limit
        invariant goal == Continued(sends, Drain(EventsOf(events), limit, |sends|, admin))
        invariant rejectedTotal == old(rejectedTotal) + |Dropped(sends)|
        decreases |events|, limit
      {
        ghost var before, wasLimit, wasSends := EventsOf(events), limit, sends;
        var send, newLimit := SendBatch(limit, |sends|, admin);
        DroppedAppend(sends, send);
        sends, limit := sends + [send], newLimit;
        DrainRound(before, wasLimit, wasSends, admin, send, EventsOf(events), newLimit);
        if send.answer.Retry? {
          return Err(send.answer.reason), sends;
        }
      }
      assert sends + [] == sends;
      return Ok(()), sends;
    }
  }

  /** One round of the send loop keeps the sends it has made and will make. */
  lemma DrainRound(before: seq<Event>, limit: nat, sends: seq<Send>, admin: Admin,
                   send: Send, after: seq<Event>, newLimit: nat)
    requires 1 <= limit && 1 <= newLimit && before != []
    requires send.batch == before[..Min(limit, |before|)] && send.answer == admin(|sends|, send.batch)
    requires after == before[(if send.Removes() then |send.batch| else 0)..]
    requires send.Removes() ==> newLimit == MAX_BATCH_EVENTS
    requires send.answer.Rejected? && 1 < |send.batch| ==> newLimit == |send.batch| / 2
    ensures send.answer.Retry? ==> Continued(sends, Drain(before, limit, |sends|, admin)) == (sends + [send], after)
    ensures !send.answer.Retry? ==>
              Continued(sends, Drain(before, limit, |sends|, admin))
              == Continued(sends + [send], Drain(after, newLimit, |sends| + 1, admin))
  {
    var s, next, lim := DrainStep(before, limit, |sends|, admin);
    assert after == if send.Removes() then next else before;
    if !send.answer.Retry? {
      var later := Drain(next, lim, |sends| + 1, admin).0;
      assert sends + ([send] + later) == sends + [send] + later;
    }
  }

  ghost function Continued(sends: seq<Send>, later: (seq<Send>, seq<Event>)): (seq<Send>, seq<Event>) {
    (sends + later.0, later.1)
  }

  lemma {:induction false} DroppedAppend(sends: seq<Send>, send: Send)
    ensures Dropped(sends + [send])
         == Dropped(sends) + if send.Removes() && send.answer.Rejected? then send.batch else []
  {
    if sends == [] {
      assert sends + [send] == [send] && [send][1..] == [];
    } else {
      var rest := sends[1..] + [send];
      assert (sends + [send])[1..] == rest && (sends + [send])[0] == sends[0];
      DroppedAppend(sends[1..], send);
    }
  }

  /** The queue after a push: a full queue loses its oldest entry, an empty one has none to lose. */
  function PushTo(q: seq<Entry>, next: nat, capacity: nat, event: Event): seq<Entry> {
    (if |q| >= capacity && q != [] then q[1..] else q) + [(next, event)]
  }
}
