/** The incremental rewriter of upstream completion responses
    (services/gateway/src/model_response.rs). Lines follow the subset of the event-stream format of
    sections 9.2.5 and 9.2.6 of the WHATWG HTML Living Standard that the gateway handles. */
module ModelResponse {
  import opened Common
  import opened Json

  const MAXIMUM_PENDING_BYTES: nat := 16 * 1024 * 1024
  /** The largest integer that every JSON implementation agrees on: section 6 of RFC 8259. */
  const MAXIMUM_COUNT: nat := 9_007_199_254_740_991

  const LF: Byte := 10
  const CR: Byte := 13
  const DATA: Bytes := [100, 97, 116, 97, 58]       // "data:"
  const SPACE: Bytes := [32]
  const DONE: Bytes := [91, 68, 79, 78, 69, 93]     // "[DONE]"

  datatype Observation = Observation(
    input: Option<nat>, output: Option<nat>, cached: Option<nat>, reasoning: Option<nat>, finalUsage: bool)

  const NO_OBSERVATION := Observation(None, None, None, None, false)

  /** What is fixed for one response, with the JSON library as two functions. */
  datatype Config = Config(
    model: string, eventStream: bool, hideFinalUsage: bool, expectedModel: Option<string>,
    parse: Bytes -> Option<Value>, render: Value -> Option<Bytes>)

  /** What the response has told about usage so far. */
  datatype Accounting = Accounting(observation: Observation, done: bool, mismatch: bool)

  const NOTHING_SEEN := Accounting(NO_OBSERVATION, false, false)

  // ---------------------------------------------------------------------------------------------
  // Observing usage.

  function AtMost(n: Option<nat>): Option<nat> {
    if n.Some? && n.value <= MAXIMUM_COUNT then n else None
  }

  function OrElse(a: Option<nat>, b: Option<nat>): Option<nat> {
    if a.Some? then a else b
  }

  /** A part of a total, kept only beside a total it does not exceed. */
  function PartOf(part: Option<nat>, total: Option<nat>): Option<nat> {
    if part.Some? && total.Some? && part.value <= total.value then part else None
  }

  function CachedTokens(usage: Value): Option<nat> {
    var details := Get(usage, "prompt_tokens_details");
    var detailed :=
      if details.None? then None
      else if details.value.Null? then Some(0)
      else GetUnsigned(details.value, "cached_tokens");
    AtMost(OrElse(detailed, AtMost(GetUnsigned(usage, "cache_read_input_tokens"))))
  }

  function ReasoningTokens(usage: Value): Option<nat> {
    var details := Get(usage, "completion_tokens_details");
    AtMost(OrElse(AtMost(GetUnsigned(usage, "reasoning_tokens")),
                  if details.None? then None else GetUnsigned(details.value, "reasoning_tokens")))
  }

  function CountsOf(usage: Value, finalUsage: bool): Observation {
    var input := AtMost(GetUnsigned(usage, "prompt_tokens"));
    var output := AtMost(GetUnsigned(usage, "completion_tokens"));
    Observation(input, output, PartOf(CachedTokens(usage), input), PartOf(ReasoningTokens(usage), output), finalUsage)
  }

  predicate Unexpected(cfg: Config, value: Value) {
    cfg.expectedModel.Some? && GetString(value, "model") != cfg.expectedModel
  }

  function Observe(cfg: Config, acc: Accounting, value: Value, finalUsage: bool): Accounting {
    var mismatch := acc.mismatch || Unexpected(cfg, value);
    if mismatch then acc.(observation := NO_OBSERVATION, mismatch := true)
    else if HasObject(value, "usage") then
      acc.(observation := CountsOf(Get(value, "usage").value, finalUsage))
    else acc
  }

  /** A frame: a parsed value, and whether its usage is the final one. */
  type Frame = (Value, bool)

  function ObserveAll(cfg: Config, acc: Accounting, frames: seq<Frame>): Accounting
    decreases |frames|
  {
    if frames == [] then acc
    else ObserveAll(cfg, Observe(cfg, acc, frames[0].0, frames[0].1), frames[1..])
  }

  predicate CountOk(n: Option<nat>) {
    n.Some? ==> n.value <= MAXIMUM_COUNT
  }

  predicate Within(part: Option<nat>, total: Option<nat>) {
    part.Some? ==> total.Some? && part.value <= total.value
  }

  predicate ObservationOk(o: Observation) {
    && CountOk(o.input) && CountOk(o.output) && CountOk(o.cached) && CountOk(o.reasoning)
    && Within(o.cached, o.input) && Within(o.reasoning, o.output)
  }

  predicate AccountingOk(acc: Accounting) {
    ObservationOk(acc.observation) && (acc.mismatch ==> acc.observation == NO_OBSERVATION)
  }

  lemma ObserveKeepsOk(cfg: Config, acc: Accounting, value: Value, finalUsage: bool)
    requires AccountingOk(acc)
    ensures AccountingOk(Observe(cfg, acc, value, finalUsage))
  {
  }

  /** The frame carries a usage object. */
  predicate Reports(frame: Frame) {
    HasObject(frame.0, "usage")
  }

  predicate IsLastReport(frames: seq<Frame>, i: int) {
    0 <= i < |frames| && Reports(frames[i]) && forall j :: i < j < |frames| ==> !Reports(frames[j])
  }

  /** In every run each count is exact in JSON, a part is reported only beside a total it does not
      exceed, and a mismatch leaves nothing reported. */
  lemma {:induction false} ObservationBounded(cfg: Config, acc: Accounting, frames: seq<Frame>)
    requires AccountingOk(acc)
    ensures AccountingOk(ObserveAll(cfg, acc, frames))
    decreases |frames|
  {
    if frames != [] {
      ObserveKeepsOk(cfg, acc, frames[0].0, frames[0].1);
      ObservationBounded(cfg, Observe(cfg, acc, frames[0].0, frames[0].1), frames[1..]);
    }
  }

  /** The whole history in closed form: one unexpected frame, at any time, is a mismatch; without one
      the observation is what the last reporting frame says. */
  lemma {:induction false} ObservationMeaning(cfg: Config, acc: Accounting, frames: seq<Frame>)
    ensures var end := ObserveAll(cfg, acc, frames);
            && (end.mismatch <==> acc.mismatch || exists f :: f in frames && Unexpected(cfg, f.0))
            && (!end.mismatch && (forall f :: f in frames ==> !Reports(f)) ==> end.observation == acc.observation)
            && (forall i :: !end.mismatch && IsLastReport(frames, i) ==>
                  end.observation == CountsOf(Get(frames[i].0, "usage").value, frames[i].1))
    decreases |frames|
  {
    if frames != [] {
      var next := Observe(cfg, acc, frames[0].0, frames[0].1);
      ObservationMeaning(cfg, next, frames[1..]);
      assert frames == [frames[0]] + frames[1..] && frames[0] in frames;
      assert forall f :: f in frames[1..] ==> f in frames;
      var end := ObserveAll(cfg, acc, frames);
      forall i | !end.mismatch && IsLastReport(frames, i)
        ensures end.observation == CountsOf(Get(frames[i].0, "usage").value, frames[i].1)
      {
        var rest := frames[1..];
        if i == 0 {
          assert forall f :: f in rest ==> !Reports(f);
        } else {
          assert rest[i - 1] == frames[i];
          assert forall j :: i - 1 < j < |rest| ==> rest[j] == frames[j + 1];
          assert IsLastReport(rest, i - 1);
        }
      }
    }
  }

  /** After one unexpected frame the observation stays the default for the rest of the run. */
  lemma {:induction false} MismatchIsForever(cfg: Config, acc: Accounting, frames: seq<Frame>, more: seq<Frame>)
    requires AccountingOk(acc)
    requires exists f :: f in frames && Unexpected(cfg, f.0)
    ensures ObserveAll(cfg, acc, frames + more).observation == NO_OBSERVATION
  {
    ObservationMeaning(cfg, acc, frames + more);
    ObservationBounded(cfg, acc, frames + more);
    var f :| f in frames && Unexpected(cfg, f.0);
    assert f in frames + more;
  }

  // ---------------------------------------------------------------------------------------------
  // One line.

  predicate HasPrefix(s: Bytes, prefix: Bytes) {
    |prefix| <= |s| && s[..|prefix|] == prefix
  }

  function StripPrefix(s: Bytes, prefix: Bytes): Bytes {
    if HasPrefix(s, prefix) then s[|prefix|..] else s
  }

  function StripLast(s: Bytes, b: Byte): Bytes {
    if s != [] && s[|s| - 1] == b then s[..|s| - 1] else s
  }

  datatype Kind = Verbatim | Done | Payload(bytes: Bytes)

  function KindOf(line: Bytes): Kind {
    if !HasPrefix(line, DATA) then Verbatim
    else
      var payload := StripLast(StripLast(StripPrefix(line[|DATA|..], SPACE), LF), CR);
      if payload == DONE then Done
      else if payload == [] then Verbatim
      else Payload(payload)
  }

  function Ending(line: Bytes): Bytes {
    if !Ends(line) then []
    else if |line| >= 2 && line[|line| - 2] == CR then [CR, LF]
    else [LF]
  }

  function WithModel(cfg: Config, value: Value): Value {
    if Get(value, "model").Some? then Object(value.fields["model" := String(cfg.model)]) else value
  }

  predicate IsFinalUsage(value: Value) {
    Get(value, "choices") == Some(Array([])) && HasObject(value, "usage")
  }

  /** The output for one line, or none when the line is an error. It depends on the line alone. */
  function Rewrite(cfg: Config, line: Bytes): Option<Bytes> {
    if |line| > MAXIMUM_PENDING_BYTES then None
    else
      match KindOf(line)
      case Verbatim => Some(line)
      case Done => Some(line)
      case Payload(payload) =>
        var value := cfg.parse(payload);
        if value.None? then None
        else if IsFinalUsage(value.value) && cfg.hideFinalUsage then Some([])
        else
          var rendered := cfg.render(WithModel(cfg, value.value));
          if rendered.None? then None else Some(DATA + SPACE + rendered.value + Ending(line))
  }

  /** The frame a line carries, if it is one that parses. */
  function FrameOf(cfg: Config, line: Bytes): seq<Frame> {
    if |line| <= MAXIMUM_PENDING_BYTES && KindOf(line).Payload? && cfg.parse(KindOf(line).bytes).Some? then
      var value := cfg.parse(KindOf(line).bytes).value;
      [(value, IsFinalUsage(value))]
    else []
  }

  predicate IsDone(line: Bytes) {
    |line| <= MAXIMUM_PENDING_BYTES && KindOf(line).Done?
  }

  function Account(cfg: Config, acc: Accounting, line: Bytes): Accounting {
    ObserveAll(cfg, acc, FrameOf(cfg, line)).(done := acc.done || IsDone(line))
  }

  // ---------------------------------------------------------------------------------------------
  // The specification: a map over the lines of the whole stream.

  predicate NoNewline(s: Bytes) {
    forall i :: 0 <= i < |s| ==> s[i] != LF
  }

  /** The length of the first line of `s`, its newline included, or all of `s`. */
  function FirstLine(s: Bytes): (n: nat)
    ensures n <= |s| && (s != [] ==> 1 <= n)
    ensures forall i :: 0 <= i < n - 1 ==> s[i] != LF
    ensures n == |s| || s[n - 1] == LF
  {
    if s == [] then 0 else if s[0] == LF then 1 else 1 + FirstLine(s[1..])
  }

  predicate Ends(line: Bytes) {
    line != [] && line[|line| - 1] == LF
  }

  /** The lines of a stream: each ends in a newline but the last, which may be empty. */
  function Lines(s: Bytes): (lines: seq<Bytes>)
    ensures lines != []
  {
    var n := FirstLine(s);
    if Ends(s[..n]) then [s[..n]] + Lines(s[n..]) else [s]
  }

  /** Cutting into lines loses nothing. */
  lemma {:induction false} LinesJoin(s: Bytes)
    ensures Flatten(Lines(s)) == s
    decreases |s|
  {
    var n := FirstLine(s);
    if Ends(s[..n]) {
      LinesJoin(s[n..]);
      FlattenCons(s[..n], Lines(s[n..]));
    } else {
      FlattenCons(s, []);
      assert [s] + [] == [s];
    }
  }

  predicate IsTerminated(line: Bytes) {
    Ends(line) && NoNewline(line[..|line| - 1])
  }

  /** Newlines are left only at line ends, and every line but the last has one. */
  lemma {:induction false} LinesShape(s: Bytes)
    ensures forall i :: 0 <= i < |Lines(s)| - 1 ==> IsTerminated(Lines(s)[i])
    ensures NoNewline(Lines(s)[|Lines(s)| - 1])
    decreases |s|
  {
    var n := FirstLine(s);
    if Ends(s[..n]) {
      LinesShape(s[n..]);
      var rest := Lines(s[n..]);
      assert IsTerminated(s[..n]);
      assert forall i :: 0 < i < |Lines(s)| ==> Lines(s)[i] == rest[i - 1];
    }
  }

  /** The run over whole lines: it stops at the first line that is an error. */
  datatype Outcome = Outcome(ok: bool, acc: Accounting, output: Bytes)

  function MapLines(cfg: Config, acc: Accounting, lines: seq<Bytes>): Outcome
    decreases |lines|
  {
    if lines == [] then Outcome(true, acc, [])
    else
      var next := Account(cfg, acc, lines[0]);
      var out := Rewrite(cfg, lines[0]);
      if out.None? then Outcome(false, next, [])
      else
        var rest := MapLines(cfg, next, lines[1..]);
        rest.(output := out.value + rest.output)
  }

  function FramesOf(cfg: Config, lines: seq<Bytes>): seq<Frame> {
    if lines == [] then [] else FrameOf(cfg, lines[0]) + FramesOf(cfg, lines[1..])
  }

  /** The output of a line that is not an error. */
  function OutputOf(cfg: Config, line: Bytes): Bytes {
    if Rewrite(cfg, line).Some? then Rewrite(cfg, line).value else []
  }

  function Outputs(cfg: Config, lines: seq<Bytes>): (r: seq<Bytes>)
    ensures |r| == |lines| && forall i :: 0 <= i < |lines| ==> r[i] == OutputOf(cfg, lines[i])
  {
    if lines == [] then [] else [OutputOf(cfg, lines[0])] + Outputs(cfg, lines[1..])
  }

  lemma {:induction false} ObserveAllAppend(cfg: Config, acc: Accounting, a: seq<Frame>, b: seq<Frame>)
    ensures ObserveAll(cfg, acc, a + b) == ObserveAll(cfg, ObserveAll(cfg, acc, a), b)
    decreases |a|
  {
    if a == [] {
      assert a + b == b;
    } else {
      assert (a + b)[0] == a[0] && (a + b)[1..] == a[1..] + b;
      ObserveAllAppend(cfg, Observe(cfg, acc, a[0].0, a[0].1), a[1..], b);
    }
  }

  lemma {:induction false} ObserveAllIgnoresDone(cfg: Config, acc: Accounting, done: bool, frames: seq<Frame>)
    ensures ObserveAll(cfg, acc.(done := done), frames) == ObserveAll(cfg, acc, frames).(done := done)
    ensures ObserveAll(cfg, acc, frames).done == acc.done
    decreases |frames|
  {
    if frames != [] {
      ObserveAllIgnoresDone(cfg, Observe(cfg, acc, frames[0].0, frames[0].1), done, frames[1..]);
    }
  }

  /** What a run over lines yields, without reference to the run: it succeeds exactly when no line
      is an error, its output is the per-line output in order, the done flag tells whether some line
      was the end marker, and the usage is what the frames of the lines tell. */
  lemma {:induction false} MapLinesMeaning(cfg: Config, acc: Accounting, lines: seq<Bytes>)
    ensures var end := MapLines(cfg, acc, lines);
            && (end.ok <==> forall l :: l in lines ==> Rewrite(cfg, l).Some?)
            && (end.ok ==>
                  && end.output == Flatten(Outputs(cfg, lines))
                  && end.acc == ObserveAll(cfg, acc, FramesOf(cfg, lines))
                                .(done := acc.done || exists l :: l in lines && IsDone(l)))
    decreases |lines|
  {
    if lines != [] {
      var next, rest := Account(cfg, acc, lines[0]), lines[1..];
      assert lines == [lines[0]] + rest;
      MapLinesMeaning(cfg, next, rest);
      if MapLines(cfg, acc, lines).ok {
        FlattenCons(OutputOf(cfg, lines[0]), Outputs(cfg, rest));
        ObserveAllAppend(cfg, acc, FrameOf(cfg, lines[0]), FramesOf(cfg, rest));
        var seen := ObserveAll(cfg, acc, FrameOf(cfg, lines[0]));
        ObserveAllIgnoresDone(cfg, seen, next.done, FramesOf(cfg, rest));
      }
    }
  }

  /** `after` has the fields of `before` but for the model, which is replaced where there was one. */
  ghost predicate OnlyModelDiffers(cfg: Config, before: Value, after: Value) {
    && (forall key :: Get(after, key)
                   == if key == "model" && Get(before, key).Some? then Some(String(cfg.model)) else Get(before, key))
    && (if before.Object? then after.Object? else after == before)
  }

  /** The forms a line's output can take. */
  lemma RewriteMeaning(cfg: Config, line: Bytes)
    requires Rewrite(cfg, line).Some?
    ensures var out := Rewrite(cfg, line).value;
            || (!KindOf(line).Payload? && out == line)
            || (cfg.hideFinalUsage && IsFinalUsage(cfg.parse(KindOf(line).bytes).value) && out == [])
            || (exists value, text :: cfg.parse(KindOf(line).bytes) == Some(value)
                  && OnlyModelDiffers(cfg, value, WithModel(cfg, value))
                  && cfg.render(WithModel(cfg, value)) == Some(text)
                  && out == DATA + SPACE + text + Ending(line))
    ensures Ends(line) && Rewrite(cfg, line).value != [] ==> Ends(Rewrite(cfg, line).value)
  {
    if KindOf(line).Payload? {
      var value := cfg.parse(KindOf(line).bytes).value;
      if !(IsFinalUsage(value) && cfg.hideFinalUsage) {
        var text := cfg.render(WithModel(cfg, value)).value;
        assert Rewrite(cfg, line).value == DATA + SPACE + text + Ending(line);
      }
    }
  }

  /** The text after the field name: the payload, then the ending the rewrite puts back, then at most a
      carriage return that no newline follows. */
  lemma TailAnatomy(data: Bytes) returns (bareReturn: Bytes)
    requires StripLast(StripLast(data, LF), CR) != []
    ensures bareReturn == if !Ends(data) && data[|data| - 1] == CR then [CR] else []
    ensures data == StripLast(StripLast(data, LF), CR) + Ending(data) + bareReturn
    ensures Ends(data) <==> Ending(data) != []
  {
    var text := StripLast(data, LF);
    bareReturn := [];
    if Ends(data) {
      assert text[|text| - 1] == data[|data| - 2];
    } else if text[|text| - 1] == CR {
      bareReturn := [CR];
    }
  }

  lemma EndingOfTail(front: Bytes, data: Bytes)
    requires StripLast(data, LF) != []
    ensures Ending(front + data) == Ending(data) && (Ends(front + data) <==> Ends(data))
  {
    var line := front + data;
    assert line[|line| - 1] == data[|data| - 1];
    if |data| >= 2 { assert line[|line| - 2] == data[|data| - 2]; }
  }

  lemma FieldAnatomy(line: Bytes, name: Bytes, space: Bytes) returns (gap: Bytes, bareReturn: Bytes)
    requires HasPrefix(line, name)
    requires StripLast(StripLast(StripPrefix(line[|name|..], space), LF), CR) != []
    ensures gap == [] || gap == space
    ensures bareReturn == if !Ends(line) && line[|line| - 1] == CR then [CR] else []
    ensures var payload := StripLast(StripLast(StripPrefix(line[|name|..], space), LF), CR);
            line == name + gap + payload + Ending(line) + bareReturn
    ensures Ends(line) <==> Ending(line) != []
  {
    var data := StripPrefix(line[|name|..], space);
    gap := HeadAnatomy(line, name, space);
    bareReturn := TailAnatomy(data);
    LastOfTail(name + gap, data);
    EndingOfTail(name + gap, data);
    Joined(name, gap, StripLast(StripLast(data, LF), CR), Ending(data), bareReturn);
  }

  lemma HeadAnatomy(line: Bytes, name: Bytes, space: Bytes) returns (gap: Bytes)
    requires HasPrefix(line, name)
    ensures (gap == [] || gap == space) && line == name + gap + StripPrefix(line[|name|..], space)
  {
    var rest := line[|name|..];
    gap := if HasPrefix(rest, space) then space else [];
    PrefixSplits(line, name, rest);
    PrefixSplits(rest, gap, StripPrefix(rest, space));
    Associative(name, gap, StripPrefix(rest, space));
  }

  lemma Associative(a: Bytes, b: Bytes, c: Bytes)
    ensures a + (b + c) == a + b + c
  {
  }

  lemma LastOfTail(front: Bytes, data: Bytes)
    requires data != []
    ensures (front + data)[|front + data| - 1] == data[|data| - 1]
  {
  }

  /** A frame line taken apart: the field name, at most one space, the payload and the line ending. The
      ending that the rewrite puts back is the whole ending of the line, except that a last carriage return
      is dropped exactly when no newline follows it, as only the last line of a stream can have it. */
  lemma LineAnatomy(line: Bytes) returns (gap: Bytes, bareReturn: Bytes)
    requires KindOf(line).Payload?
    ensures (gap == [] || gap == SPACE) && line != []
    ensures bareReturn == if !Ends(line) && line[|line| - 1] == CR then [CR] else []
    ensures line == DATA + gap + KindOf(line).bytes + Ending(line) + bareReturn
    ensures Ends(line) <==> Ending(line) != []
  {
    gap, bareReturn := FieldAnatomy(line, DATA, SPACE);
  }

  /** Such a line: whatever payload it carries, the rewrite of a stream that ends in it drops the return. */
  lemma BareReturnIsDropped(cfg: Config, value: Value, text: Bytes)
    requires cfg.eventStream && !cfg.hideFinalUsage
    requires cfg.parse([123, 125]) == Some(value) && cfg.render(WithModel(cfg, value)) == Some(text)
    ensures var line: Bytes := DATA + [123, 125] + [CR];
            Spec(cfg, line).ok && Spec(cfg, line).output == DATA + SPACE + text
  {
    var line: Bytes := DATA + [123, 125] + [CR];
    assert line == [100, 97, 116, 97, 58, 123, 125, 13];
    assert line[..|DATA|] == DATA && line[|DATA|..] == [123, 125, 13];
    var rest: Bytes := [123, 125, 13];
    assert rest[..1][0] != SPACE[0];
    assert StripLast(StripLast(StripPrefix(rest, SPACE), LF), CR) == [123, 125];
    assert KindOf(line) == Payload([123, 125]) by { assert |DONE| == 6; }
    assert OutputOf(cfg, line) == DATA + SPACE + text + [];
    assert NoNewline(line) && Lines(line) == [line];
    assert [line] == [line] + [];
    MapLinesCons(cfg, NOTHING_SEEN, line, []);
  }

  lemma PrefixSplits(s: Bytes, prefix: Bytes, rest: Bytes)
    requires HasPrefix(s, prefix) && rest == s[|prefix|..]
    ensures s == prefix + rest
  {
  }

  lemma Joined(a: Bytes, b: Bytes, c: Bytes, d: Bytes, e: Bytes)
    ensures a + b + c + d + e == a + b + (c + d + e) == a + (b + (c + d + e))
  {
  }

  // ---------------------------------------------------------------------------------------------
  // The incremental form, one byte at a time.

  datatype Fed = Fed(ok: bool, acc: Accounting, pending: Bytes, output: Bytes)

  function FeedByte(cfg: Config, f: Fed, b: Byte): Fed {
    if !f.ok then f
    else if |f.pending| + 1 > MAXIMUM_PENDING_BYTES then f.(ok := false)
    else if cfg.eventStream && b == LF then FeedLine(cfg, f, f.pending + [b])
    else f.(pending := f.pending + [b])
  }

  /** A complete line: account for it, and put out what it is rewritten to. */
  function FeedLine(cfg: Config, f: Fed, line: Bytes): Fed {
    var out := Rewrite(cfg, line);
    Fed(out.Some?, Account(cfg, f.acc, line), [], f.output + if out.Some? then out.value else [])
  }

  function Feed(cfg: Config, f: Fed, bytes: Bytes): Fed
    decreases |bytes|
  {
    if bytes == [] then f else Feed(cfg, FeedByte(cfg, f, bytes[0]), bytes[1..])
  }

  lemma {:induction false} FeedAppend(cfg: Config, f: Fed, a: Bytes, b: Bytes)
    ensures Feed(cfg, f, a + b) == Feed(cfg, Feed(cfg, f, a), b)
    decreases |a|
  {
    if a == [] {
      assert a + b == b;
    } else {
      assert (a + b)[0] == a[0] && (a + b)[1..] == a[1..] + b;
      FeedAppend(cfg, FeedByte(cfg, f, a[0]), a[1..], b);
    }
  }

  lemma {:induction false} FeedFrozen(cfg: Config, f: Fed, bytes: Bytes)
    requires !f.ok
    ensures Feed(cfg, f, bytes) == f
  {
    if bytes != [] { FeedFrozen(cfg, f, bytes[1..]); }
  }

  /** Bytes that complete no line only grow the pending line, until it is too long. */
  lemma {:induction false} FeedPlain(cfg: Config, f: Fed, bytes: Bytes)
    requires f.ok && (cfg.eventStream ==> NoNewline(bytes))
    ensures var g := Feed(cfg, f, bytes);
            && g.acc == f.acc && g.output == f.output
            && (g.ok <==> bytes == [] || |f.pending| + |bytes| <= MAXIMUM_PENDING_BYTES)
            && (g.ok ==> g.pending == f.pending + bytes)
    decreases |bytes|
  {
    if bytes != [] {
      var g := FeedByte(cfg, f, bytes[0]);
      if g.ok {
        FeedPlain(cfg, g, bytes[1..]);
        assert f.pending + [bytes[0]] + bytes[1..] == f.pending + bytes;
      } else {
        FeedFrozen(cfg, g, bytes[1..]);
      }
    }
  }

  /** A segment that ends in a newline completes the pending line. */
  lemma {:induction false} FeedSegment(cfg: Config, f: Fed, seg: Bytes)
    requires f.ok && cfg.eventStream && Ends(seg) && NoNewline(seg[..|seg| - 1])
    ensures var g := Feed(cfg, f, seg);
            if |f.pending| + |seg| <= MAXIMUM_PENDING_BYTES then g == FeedLine(cfg, f, f.pending + seg)
            else g == Fed(false, f.acc, g.pending, f.output)
  {
    var body := seg[..|seg| - 1];
    assert seg == body + [LF];
    FeedAppend(cfg, f, body, [LF]);
    FeedPlain(cfg, f, body);
    var g := Feed(cfg, f, body);
    assert Feed(cfg, g, [LF]) == FeedByte(cfg, g, LF);
    assert f.pending + body + [LF] == f.pending + seg;
  }

  /** The end of the upstream response: the pending bytes are the last line, or the whole body. */
  function Finish(cfg: Config, f: Fed): Outcome {
    if !f.ok then Outcome(false, f.acc, f.output)
    else if cfg.eventStream then
      var g := FeedLine(cfg, f, f.pending);
      Outcome(g.ok, g.acc, g.output)
    else
      var body := WholeBody(cfg, f.acc, f.pending);
      body.(output := f.output + body.output)
  }

  /** A response that is one JSON document. */
  function WholeBody(cfg: Config, acc: Accounting, body: Bytes): Outcome {
    var value := cfg.parse(body);
    if value.None? then Outcome(false, acc, [])
    else
      var rendered := cfg.render(WithModel(cfg, value.value));
      Outcome(rendered.Some?, Observe(cfg, acc, value.value, true), if rendered.Some? then rendered.value else [])
  }

  /** What a whole response is rewritten to, as a function of its bytes. */
  function Spec(cfg: Config, stream: Bytes): Outcome {
    if cfg.eventStream then MapLines(cfg, NOTHING_SEEN, Lines(stream))
    else if |stream| > MAXIMUM_PENDING_BYTES then Outcome(false, NOTHING_SEEN, [])
    else WholeBody(cfg, NOTHING_SEEN, stream)
  }

  /** With nothing pending, one complete line has the effect of that line alone. */
  lemma {:induction false} FeedOneLine(cfg: Config, f: Fed, line: Bytes)
    requires cfg.eventStream && f.ok && f.pending == [] && Ends(line) && NoNewline(line[..|line| - 1])
    ensures var g := Feed(cfg, f, line);
            && (g.ok <==> Rewrite(cfg, line).Some?)
            && g.acc == Account(cfg, f.acc, line)
            && g.output == f.output + OutputOf(cfg, line)
            && (g.ok ==> g.pending == [])
  {
    FeedSegment(cfg, f, line);
    assert [] + line == line;
    assert f.output + [] == f.output;
  }

  lemma {:induction false} FeedLastLine(cfg: Config, f: Fed, line: Bytes)
    requires cfg.eventStream && f.ok && f.pending == [] && NoNewline(line)
    ensures Finish(cfg, Feed(cfg, f, line))
         == Outcome(Rewrite(cfg, line).Some?, Account(cfg, f.acc, line), f.output + OutputOf(cfg, line))
  {
    FeedPlain(cfg, f, line);
    assert [] + line == line;
    assert f.output + [] == f.output;
  }

  function After(output: Bytes, end: Outcome): Outcome {
    end.(output := output + end.output)
  }

  /** If the rest of the stream behaves as its lines, so does the stream with one line before it. */
  lemma {:induction false} FeedLineThen(cfg: Config, f: Fed, line: Bytes, rest: Bytes, lines: seq<Bytes>)
    requires cfg.eventStream && f.ok && f.pending == [] && Ends(line) && NoNewline(line[..|line| - 1])
    requires var g := Feed(cfg, f, line);
             g.ok ==> Finish(cfg, Feed(cfg, g, rest)) == After(g.output, MapLines(cfg, g.acc, lines))
    ensures Finish(cfg, Feed(cfg, f, line + rest)) == After(f.output, MapLines(cfg, f.acc, [line] + lines))
  {
    var g := Feed(cfg, f, line);
    FeedOneLine(cfg, f, line);
    MapLinesCons(cfg, f.acc, line, lines);
    var all := MapLines(cfg, f.acc, [line] + lines);
    assert Feed(cfg, f, line + rest) == Feed(cfg, g, rest) by { FeedAppend(cfg, f, line, rest); }
    if g.ok {
      AfterTwice(f.output, OutputOf(cfg, line), MapLines(cfg, g.acc, lines), all);
    } else {
      assert Feed(cfg, g, rest) == g by { FeedFrozen(cfg, g, rest); }
      assert OutputOf(cfg, line) == [] && f.output + [] == f.output;
    }
  }

  lemma AfterTwice(a: Bytes, b: Bytes, end: Outcome, all: Outcome)
    requires all == After(b, end)
    ensures After(a, all) == After(a + b, end)
  {
    assert a + (b + end.output) == a + b + end.output;
  }

  lemma {:induction false} FeedLines(cfg: Config, f: Fed, s: Bytes)
    requires cfg.eventStream && f.ok && f.pending == []
    ensures Finish(cfg, Feed(cfg, f, s)) == After(f.output, MapLines(cfg, f.acc, Lines(s)))
    decreases |s|
  {
    var n := FirstLine(s);
    var line, rest := s[..n], s[n..];
    if Ends(line) {
      assert s == line + rest;
      FeedOneLine(cfg, f, line);
      var g := Feed(cfg, f, line);
      if g.ok { FeedLines(cfg, g, rest); }
      FeedLineThen(cfg, f, line, rest, Lines(rest));
    } else {
      FeedLastLine(cfg, f, s);
      assert [s] + [] == [s] && OutputOf(cfg, s) + [] == OutputOf(cfg, s);
      MapLinesCons(cfg, f.acc, s, []);
    }
  }

  lemma {:induction false} MapLinesCons(cfg: Config, acc: Accounting, line: Bytes, lines: seq<Bytes>)
    ensures var next, out := Account(cfg, acc, line), Rewrite(cfg, line);
            var rest := MapLines(cfg, next, lines);
            MapLines(cfg, acc, [line] + lines)
            == if out.None? then Outcome(false, next, []) else After(OutputOf(cfg, line), rest)
    ensures |line| > MAXIMUM_PENDING_BYTES ==> Account(cfg, acc, line) == acc && Rewrite(cfg, line).None?
  {
    assert ([line] + lines)[1..] == lines;
  }

  const START := Fed(true, NOTHING_SEEN, [], [])

  /** Feeding a response byte by byte and ending it gives the map over its lines. */
  lemma FeedMeetsSpec(cfg: Config, stream: Bytes)
    ensures Finish(cfg, Feed(cfg, START, stream)) == Spec(cfg, stream)
  {
    if cfg.eventStream {
      FeedLines(cfg, START, stream);
    } else {
      FeedPlain(cfg, START, stream);
      assert [] + stream == stream;
    }
  }

  function Shifted(before: Bytes, f: Fed): Fed {
    f.(output := before + f.output)
  }

  lemma FeedByteShift(cfg: Config, f: Fed, before: Bytes, b: Byte)
    ensures FeedByte(cfg, Shifted(before, f), b) == Shifted(before, FeedByte(cfg, f, b))
  {
    var out := OutputOf(cfg, f.pending + [b]);
    assert before + f.output + out == before + (f.output + out);
  }

  /** Earlier output does not influence the run. */
  lemma {:induction false} FeedShift(cfg: Config, f: Fed, before: Bytes, bytes: Bytes)
    ensures Feed(cfg, Shifted(before, f), bytes) == Shifted(before, Feed(cfg, f, bytes))
    decreases |bytes|
  {
    if bytes != [] {
      FeedByteShift(cfg, f, before, bytes[0]);
      FeedShift(cfg, FeedByte(cfg, f, bytes[0]), before, bytes[1..]);
    }
  }

  lemma {:induction false} FeedGrows(cfg: Config, f: Fed, bytes: Bytes)
    ensures f.output <= Feed(cfg, f, bytes).output
    decreases |bytes|
  {
    if bytes != [] {
      FeedGrows(cfg, FeedByte(cfg, f, bytes[0]), bytes[1..]);
    }
  }

  // ---------------------------------------------------------------------------------------------
  // The rewriter, updated in place.

  class Rewriter {
    const cfg: Config
    var pending: Bytes
    var observation: Observation
    var streamDone: bool
    var modelMismatch: bool

    ghost function Acc(): Accounting
      reads this
    {
      Accounting(observation, streamDone, modelMismatch)
    }

    ghost predicate Valid()
      reads this
    {
      |pending| <= MAXIMUM_PENDING_BYTES
    }

    constructor (cfg: Config)
      ensures this.cfg == cfg && Valid() && pending == [] && Acc() == NOTHING_SEEN
    {
      this.cfg := cfg;
      pending, observation, streamDone, modelMismatch := [], NO_OBSERVATION, false, false;
    }

    method ObserveValue(value: Value, finalUsage: bool)
      modifies this`observation, this`modelMismatch
      ensures Acc() == Observe(cfg, old(Acc()), value, finalUsage)
    {
      if cfg.expectedModel.Some? && GetString(value, "model") != cfg.expectedModel {
        modelMismatch := true;
      }
      if modelMismatch {
        observation := NO_OBSERVATION;
        return;
      }
      if HasObject(value, "usage") {
        var usage := Get(value, "usage").value;
        observation := Observation(
          AtMost(GetUnsigned(usage, "prompt_tokens")), AtMost(GetUnsigned(usage, "completion_tokens")),
          CachedTokens(usage), ReasoningTokens(usage), finalUsage);
        if observation.cached.Some? && observation.input.Some? && observation.cached.value > observation.input.value {
          observation := observation.(cached := None);
        }
        if observation.input.None? {
          observation := observation.(cached := None);
        }
        if observation.reasoning.Some? && observation.output.Some? && observation.reasoning.value > observation.output.value {
          observation := observation.(reasoning := None);
        }
        if observation.output.None? {
          observation := observation.(reasoning := None);
        }
      }
    }

    method Append(bytes: Bytes) returns (ok: bool)
      requires Valid()
      modifies this`pending
      ensures Valid()
      ensures ok <==> |old(pending)| + |bytes| <= MAXIMUM_PENDING_BYTES
      ensures pending == if ok then old(pending) + bytes else old(pending)
    {
      if |pending| + |bytes| > MAXIMUM_PENDING_BYTES { return false; }
      pending := pending + bytes;
      return true;
    }

    /** Process the pending line. It stays pending: the caller clears it. */
    method Line() returns (r: Option<Bytes>)
      requires Valid()
      modifies this`observation, this`modelMismatch, this`streamDone
      ensures r == Rewrite(cfg, pending)
      ensures Acc() == Account(cfg, old(Acc()), pending)
    {
      var kind := KindOf(pending);
      match kind {
        case Verbatim => return Some(pending);
        case Done =>
          streamDone := true;
          return Some(pending);
        case Payload(payload) =>
          var value := cfg.parse(payload);
          if value.None? { return None; }
          AccountOfFrame(cfg, Acc(), pending);
          var finalUsage := IsFinalUsage(value.value);
          ObserveValue(value.value, finalUsage);
          if finalUsage && cfg.hideFinalUsage { return Some([]); }
          var rendered := cfg.render(WithModel(cfg, value.value));
          if rendered.None? { return None; }
          return Some(DATA + SPACE + rendered.value + Ending(pending));
      }
    }

    /** Take one segment of an event stream: at most one line ending, at its end. */
    method PushSegment(segment: Bytes) returns (r: Option<Bytes>)
      requires Valid() && segment != []
      modifies this
      ensures var line := old(pending) + segment;
              if |line| > MAXIMUM_PENDING_BYTES then r == None && Acc() == old(Acc())
              else if Ends(segment) then
                r == Rewrite(cfg, line) && Acc() == Account(cfg, old(Acc()), line) && (r.Some? ==> pending == [])
              else r == Some([]) && Acc() == old(Acc()) && pending == line
    {
      var ok := Append(segment);
      if !ok { return None; }
      if !Ends(pending) { return Some([]); }
      r := Line();
      if r.Some? { pending := []; }
    }

    /** Take one chunk. On an error the accounting is what it was at the offending line. */
    method Push(bytes: Bytes) returns (r: Option<Bytes>)
      requires Valid()
      modifies this
      ensures var f := Feed(cfg, Fed(true, old(Acc()), old(pending), []), bytes);
              && (r.Some? <==> f.ok)
              && Acc() == f.acc
              && (r.Some? ==> Valid() && pending == f.pending && r.value == f.output)
    {
      if !cfg.eventStream {
        FeedPlain(cfg, Fed(true, Acc(), pending, []), bytes);
        var ok := Append(bytes);
        return if ok then Some([]) else None;
      }
      var output, rest: Bytes := [], bytes;
      ghost var goal := Feed(cfg, Fed(true, Acc(), pending, []), bytes);
      while rest != []
        invariant Valid() && goal == Feed(cfg, Fed(true, Acc(), pending, output), rest)
        decreases |rest|
      {
        var n := FirstLine(rest);
        FeedSplit(cfg, Fed(true, Acc(), pending, output), rest, n);
        var out := PushSegment(rest[..n]);
        if out.None? { return None; }
        output, rest := output + out.value, rest[n..];
      }
      return Some(output);
    }

    /** End of the upstream response. */
    method End() returns (r: Option<Bytes>)
      requires Valid()
      modifies this`observation, this`modelMismatch, this`streamDone
      ensures var end := Finish(cfg, Fed(true, old(Acc()), pending, []));
              && (r.Some? <==> end.ok)
              && Acc() == end.acc
              && (r.Some? ==> r.value == end.output)
    {
      if cfg.eventStream {
        r := Line();
        assert r.Some? ==> [] + r.value == r.value;
      } else {
        var value := cfg.parse(pending);
        if value.None? { return None; }
        ObserveValue(value.value, true);
        r := cfg.render(WithModel(cfg, value.value));
        assert r.Some? ==> [] + r.value == r.value;
      }
    }
  }

  lemma AccountOfFrame(cfg: Config, acc: Accounting, line: Bytes)
    requires |line| <= MAXIMUM_PENDING_BYTES && KindOf(line).Payload? && cfg.parse(KindOf(line).bytes).Some?
    ensures var value := cfg.parse(KindOf(line).bytes).value;
            Account(cfg, acc, line) == Observe(cfg, acc, value, IsFinalUsage(value))
  {
    var value := cfg.parse(KindOf(line).bytes).value;
    var frames: seq<Frame> := [(value, IsFinalUsage(value))];
    assert frames[1..] == [];
    assert ObserveAll(cfg, acc, frames) == Observe(cfg, acc, value, IsFinalUsage(value));
  }

  /** The first segment of a chunk, as the segment loop treats it. */
  lemma {:induction false} FeedSplit(cfg: Config, f: Fed, bytes: Bytes, n: nat)
    requires cfg.eventStream && f.ok && bytes != [] && n == FirstLine(bytes)
    ensures var seg, rest := bytes[..n], bytes[n..];
            var line := f.pending + seg;
            && Ends(line) == Ends(seg)
            && (|line| > MAXIMUM_PENDING_BYTES ==> !Feed(cfg, f, bytes).ok && Feed(cfg, f, bytes).acc == f.acc)
            && (|line| <= MAXIMUM_PENDING_BYTES ==>
                  var g := if Ends(seg) then FeedLine(cfg, f, line) else f.(pending := line);
                  Feed(cfg, f, bytes) == if g.ok then Feed(cfg, g, rest) else g)
  {
    var seg, rest := bytes[..n], bytes[n..];
    assert bytes == seg + rest;
    FeedAppend(cfg, f, seg, rest);
    if Ends(seg) {
      FeedSegment(cfg, f, seg);
    } else {
      FeedPlain(cfg, f, seg);
    }
    var g := Feed(cfg, f, seg);
    if !g.ok { FeedFrozen(cfg, g, rest); }
  }

  /** How many chunks are read before the one with the error, if there is one. */
  function GoodChunks(cfg: Config, f: Fed, chunks: seq<Bytes>): (k: nat)
    ensures k <= |chunks|
    decreases |chunks|
  {
    if chunks == [] || !Feed(cfg, f, chunks[0]).ok then 0
    else 1 + GoodChunks(cfg, Feed(cfg, f, chunks[0]), chunks[1..])
  }

  /** The observation the gateway records for a response: it takes the rewriter's after each chunk and
      after the end, but only when that succeeded. */
  function Recorded(cfg: Config, chunks: seq<Bytes>): Observation {
    var spec := Spec(cfg, Flatten(chunks));
    if spec.ok then spec.acc.observation
    else Feed(cfg, START, Flatten(chunks[..GoodChunks(cfg, START, chunks)])).acc.observation
  }

  /** The chunks read so far are good, and the rest is still to come. */
  lemma {:induction false} GoodChunksSplit(cfg: Config, f: Fed, chunks: seq<Bytes>, i: nat)
    requires i <= |chunks| && Feed(cfg, f, Flatten(chunks[..i])).ok
    ensures GoodChunks(cfg, f, chunks) == i + GoodChunks(cfg, Feed(cfg, f, Flatten(chunks[..i])), chunks[i..])
    decreases i
  {
    if i == 0 {
      assert chunks[..0] == [] && chunks[0..] == chunks;
    } else {
      var first, rest := chunks[0], chunks[1..];
      assert chunks[..i][0] == first && chunks[..i][1..] == rest[..i - 1] && rest[i - 1..] == chunks[i..];
      FeedAppend(cfg, f, first, Flatten(rest[..i - 1]));
      var g := Feed(cfg, f, first);
      if !g.ok { FeedFrozen(cfg, g, Flatten(rest[..i - 1])); }
      GoodChunksSplit(cfg, g, rest, i - 1);
    }
  }

  lemma {:induction false} FlattenSnoc(chunks: seq<Bytes>, i: nat)
    requires i < |chunks|
    ensures Flatten(chunks[..i + 1]) == Flatten(chunks[..i]) + chunks[i]
    decreases i
  {
    if i == 0 {
      assert chunks[..1] == [chunks[0]] + [] && chunks[..0] == [];
      FlattenCons(chunks[0], []);
    } else {
      FlattenSnoc(chunks[1..], i - 1);
      assert chunks[..i + 1][1..] == chunks[1..][..i] && chunks[..i][1..] == chunks[1..][..i - 1];
    }
  }

  /** What a successful read leaves of the state after `i` chunks. */
  ghost predicate ReadSoFar(cfg: Config, chunks: seq<Bytes>, i: nat, f: Fed)
    requires i <= |chunks|
  {
    f.ok && f == Feed(cfg, START, Flatten(chunks[..i]))
  }

  lemma ReadNext(cfg: Config, chunks: seq<Bytes>, i: nat, f: Fed)
    requires i < |chunks| && ReadSoFar(cfg, chunks, i, f)
    ensures Feed(cfg, START, Flatten(chunks[..i + 1])) == Feed(cfg, f, chunks[i])
    ensures Feed(cfg, f, chunks[i]).ok ==> ReadSoFar(cfg, chunks, i + 1, Feed(cfg, f, chunks[i]))
  {
    FlattenSnoc(chunks, i);
    FeedAppend(cfg, START, Flatten(chunks[..i]), chunks[i]);
  }

  /** An error in chunk `i` is the error of the whole response. */
  lemma FailsInChunk(cfg: Config, chunks: seq<Bytes>, i: nat, f: Fed)
    requires i < |chunks| && ReadSoFar(cfg, chunks, i, f) && !Feed(cfg, f, chunks[i]).ok
    ensures var g, spec := Feed(cfg, f, chunks[i]), Spec(cfg, Flatten(chunks));
            !spec.ok && spec.acc == g.acc && spec.output == g.output
    ensures f.output <= Feed(cfg, f, chunks[i]).output
    ensures Recorded(cfg, chunks) == f.acc.observation
  {
    var g := Feed(cfg, f, chunks[i]);
    ReadNext(cfg, chunks, i, f);
    FlattenSplit(chunks, i + 1);
    FeedAppend(cfg, START, Flatten(chunks[..i + 1]), Flatten(chunks[i + 1..]));
    FeedFrozen(cfg, g, Flatten(chunks[i + 1..]));
    FeedMeetsSpec(cfg, Flatten(chunks));
    FeedGrows(cfg, f, chunks[i]);
    GoodChunksSplit(cfg, START, chunks, i);
    assert chunks[i..][0] == chunks[i];
  }

  lemma {:induction false} FlattenSplit(chunks: seq<Bytes>, i: nat)
    requires i <= |chunks|
    ensures Flatten(chunks) == Flatten(chunks[..i]) + Flatten(chunks[i..])
    decreases i
  {
    if i == 0 {
      assert chunks[..0] == [] && chunks[0..] == chunks;
    } else {
      FlattenSplit(chunks[1..], i - 1);
      assert chunks[..i][1..] == chunks[1..][..i - 1] && chunks[i..] == chunks[1..][i - 1..];
    }
  }

  /** When every chunk is read, the end decides. */
  lemma AllChunksRead(cfg: Config, chunks: seq<Bytes>, f: Fed)
    requires ReadSoFar(cfg, chunks, |chunks|, f)
    ensures Spec(cfg, Flatten(chunks)) == Finish(cfg, f)
    ensures !Spec(cfg, Flatten(chunks)).ok ==> Recorded(cfg, chunks) == f.acc.observation
  {
    var n := |chunks|;
    assert chunks[..n] == chunks;
    assert Spec(cfg, Flatten(chunks)) == Finish(cfg, f) by { FeedMeetsSpec(cfg, Flatten(chunks)); }
    assert GoodChunks(cfg, START, chunks) == n by { GoodChunksSplit(cfg, START, chunks, n); }
  }

  /** The gateway's loop over one upstream response. However the response is cut into chunks, it
      ends in an error exactly when the map over its lines does, and the rewriter is left with the same
      accounting; a run without error puts out the whole rewrite, and a failed one a prefix of it. What
      the gateway records is the rewriter's observation after the last step that succeeded. */
  method Respond(cfg: Config, chunks: seq<Bytes>)
    returns (ok: bool, output: Bytes, acc: Accounting, recorded: Observation)
    ensures var spec := Spec(cfg, Flatten(chunks));
            ok == spec.ok && acc == spec.acc && (if ok then output == spec.output else output <= spec.output)
    ensures recorded == Recorded(cfg, chunks)
  {
    var response := new Rewriter(cfg);
    output, recorded := [], NO_OBSERVATION;
    var i := 0;
    assert chunks[..0] == [];
    while i < |chunks|
      invariant 0 <= i <= |chunks| && response.Valid() && response.cfg == cfg
      invariant ReadSoFar(cfg, chunks, i, Fed(true, response.Acc(), response.pending, output))
      invariant recorded == response.observation
    {
      ghost var f := Fed(true, response.Acc(), response.pending, output);
      FeedShift(cfg, f.(output := []), output, chunks[i]);
      assert Shifted(output, f.(output := [])) == f by { assert output + [] == output; }
      ReadNext(cfg, chunks, i, f);
      var out := response.Push(chunks[i]);
      if out.None? {
        FailsInChunk(cfg, chunks, i, f);
        acc := Accounting(response.observation, response.streamDone, response.modelMismatch);
        return false, output, acc, recorded;
      }
      recorded := response.observation;
      output := output + out.value;
      i := i + 1;
    }
    ghost var f := Fed(true, response.Acc(), response.pending, output);
    AllChunksRead(cfg, chunks, f);
    FinishShift(cfg, f.(output := []), output);
    var out := response.End();
    acc := Accounting(response.observation, response.streamDone, response.modelMismatch);
    ok := out.Some?;
    if ok {
      recorded := response.observation;
      output := output + out.value;
    }
  }

  lemma FinishShift(cfg: Config, f: Fed, before: Bytes)
    requires f.output == []
    ensures Finish(cfg, f.(output := before)) == After(before, Finish(cfg, f))
  {
    assert before + [] == before;
    assert forall x: Bytes :: [] + x == x;
  }

  // ---------------------------------------------------------------------------------------------
  // What is recorded of a failed response.

  /** The complete lines of a prefix of a stream. */
  function Complete(s: Bytes): seq<Bytes> {
    Lines(s)[..|Lines(s)| - 1]
  }

  /** A prefix of an event stream that is read without an error: no complete line is one, and the line
      begun is not too long. */
  predicate ReadsWell(cfg: Config, s: Bytes) {
    MapLines(cfg, NOTHING_SEEN, Complete(s)).ok && |Lines(s)[|Lines(s)| - 1]| <= MAXIMUM_PENDING_BYTES
  }

  /** What the complete lines of a prefix tell. */
  function Told(cfg: Config, s: Bytes): Observation {
    MapLines(cfg, NOTHING_SEEN, Complete(s)).acc.observation
  }

  lemma CompleteCons(line: Bytes, rest: Bytes)
    requires IsTerminated(line)
    ensures Lines(line + rest) == [line] + Lines(rest)
    ensures Complete(line + rest) == [line] + Complete(rest)
  {
    var s, n := line + rest, FirstLine(line + rest);
    assert s[|line| - 1] == LF && forall i :: 0 <= i < |line| - 1 ==> s[i] == line[i];
    assert n == |line|;
    assert s[..n] == line && s[n..] == rest;
  }

  /** Reading a prefix byte by byte fails exactly when its lines do, and accounts for its complete lines. */
  lemma {:induction false} FeedAccounts(cfg: Config, f: Fed, s: Bytes)
    requires cfg.eventStream && f.ok && f.pending == []
    ensures var g, told := Feed(cfg, f, s), MapLines(cfg, f.acc, Complete(s));
            && (g.ok <==> told.ok && |Lines(s)[|Lines(s)| - 1]| <= MAXIMUM_PENDING_BYTES)
            && (g.ok ==> g.acc == told.acc)
    decreases |s|
  {
    var n := FirstLine(s);
    var line, rest := s[..n], s[n..];
    if Ends(line) {
      assert s == line + rest && IsTerminated(line);
      CompleteCons(line, rest);
      MapLinesCons(cfg, f.acc, line, Complete(rest));
      FeedOneLine(cfg, f, line);
      FeedAppend(cfg, f, line, rest);
      var g := Feed(cfg, f, line);
      if g.ok { FeedAccounts(cfg, g, rest); } else { FeedFrozen(cfg, g, rest); }
    } else {
      assert Lines(s) == [s] && Complete(s) == [];
      FeedPlain(cfg, f, s);
    }
  }

  /** A failed response is recorded as what the complete lines of its good chunks tell. */
  lemma RecordedOnFailure(cfg: Config, chunks: seq<Bytes>)
    requires cfg.eventStream && !Spec(cfg, Flatten(chunks)).ok
    ensures var good := Flatten(chunks[..GoodChunks(cfg, START, chunks)]);
            ReadsWell(cfg, good) && Recorded(cfg, chunks) == Told(cfg, good)
  {
    GoodChunksAreGood(cfg, START, chunks);
    FeedAccounts(cfg, START, Flatten(chunks[..GoodChunks(cfg, START, chunks)]));
  }

  lemma {:induction false} GoodChunksAreGood(cfg: Config, f: Fed, chunks: seq<Bytes>)
    requires f.ok
    ensures var k := GoodChunks(cfg, f, chunks);
            && Feed(cfg, f, Flatten(chunks[..k])).ok
            && (k < |chunks| <==> !Feed(cfg, f, Flatten(chunks)).ok)
    decreases |chunks|
  {
    var k := GoodChunks(cfg, f, chunks);
    if chunks == [] { return; }
    var g, rest := Feed(cfg, f, chunks[0]), chunks[1..];
    FeedAppend(cfg, f, chunks[0], Flatten(rest));
    if g.ok {
      GoodChunksAreGood(cfg, g, rest);
      assert chunks[..k][1..] == rest[..k - 1];
      FeedAppend(cfg, f, chunks[0], Flatten(rest[..k - 1]));
    } else {
      FeedFrozen(cfg, g, Flatten(rest));
      assert chunks[..0] == [];
    }
  }

  /** The cutting decides: with a line that tells something before a line that is an error, one chunk
      records nothing, and a cut between the two lines records what the first line tells. */
  lemma CuttingDecidesTheRecord(cfg: Config, a: Bytes, b: Bytes)
    requires cfg.eventStream && IsTerminated(a) && IsTerminated(b)
    requires Rewrite(cfg, a).Some? && Rewrite(cfg, b).None?
    ensures !Spec(cfg, a + b).ok && Flatten([a + b]) == Flatten([a, b]) == a + b
    ensures Recorded(cfg, [a + b]) == NO_OBSERVATION
    ensures Recorded(cfg, [a, b]) == Account(cfg, NOTHING_SEEN, a).observation
    ensures Recorded(cfg, [a + b]) != Recorded(cfg, [a, b]) <==> Account(cfg, NOTHING_SEEN, a).observation != NO_OBSERVATION
  {
    FeedOneLine(cfg, START, a);
    var f := Feed(cfg, START, a);
    FeedOneLine(cfg, f, b);
    FeedAppend(cfg, START, a, b);
    FeedMeetsSpec(cfg, a + b);
    OneChunk(cfg, a + b);
    TwoChunks(cfg, a, b);
  }

  // One line that parses to a usage of one token, and one that does not parse.
  const COUNTING: Bytes := [123, 125]
  const BROKEN: Bytes := [123]

  function OneToken(): Value {
    Object(map["usage" := Object(map["prompt_tokens" := Unsigned(1)])])
  }

  function OneTokenConfig(): Config {
    Config("", true, false, None, (s: Bytes) => if s == COUNTING then Some(OneToken()) else None,
           (v: Value) => Some([]))
  }

  function LineOf(payload: Bytes): Bytes {
    DATA + payload + [LF]
  }

  lemma HeadOf(head: Bytes, rest: Bytes)
    ensures HasPrefix(head + rest, head) && (head + rest)[|head|..] == rest
  {
  }

  lemma StripsTo(payload: Bytes)
    requires payload != [] && payload[0] != SPACE[0] && payload[|payload| - 1] != CR
    ensures StripLast(StripLast(StripPrefix(payload + [LF], SPACE), LF), CR) == payload
  {
    assert !HasPrefix(payload + [LF], SPACE) by { assert (payload + [LF])[..1][0] == payload[0]; }
    assert (payload + [LF])[..|payload|] == payload;
  }

  /** A payload without white space at its ends comes out of its line again. */
  lemma LineOfKind(payload: Bytes)
    requires payload != [] && payload != DONE && payload[0] != SPACE[0] && payload[|payload| - 1] != CR
    ensures KindOf(LineOf(payload)) == Payload(payload)
  {
    StripsTo(payload);
    HeadOf(DATA, payload + [LF]);
    assert LineOf(payload) == DATA + (payload + [LF]);
  }

  lemma LineOfIsTerminated(payload: Bytes)
    requires NoNewline(payload)
    ensures IsTerminated(LineOf(payload))
  {
    var line := LineOf(payload);
    assert line[..|line| - 1] == DATA + payload && NoNewline(DATA);
  }

  lemma OneTokenCounted()
    ensures Rewrite(OneTokenConfig(), LineOf(COUNTING)).Some? && Rewrite(OneTokenConfig(), LineOf(BROKEN)).None?
    ensures IsTerminated(LineOf(COUNTING)) && IsTerminated(LineOf(BROKEN))
    ensures Account(OneTokenConfig(), NOTHING_SEEN, LineOf(COUNTING)).observation.input == Some(1)
  {
    LineOfKind(COUNTING);
    LineOfKind(BROKEN);
    LineOfIsTerminated(COUNTING);
    LineOfIsTerminated(BROKEN);
    var cfg, line := OneTokenConfig(), LineOf(COUNTING);
    var frames := FrameOf(cfg, line);
    assert frames == [(OneToken(), false)];
    assert ObserveAll(cfg, NOTHING_SEEN, frames) == ObserveAll(cfg, Observe(cfg, NOTHING_SEEN, OneToken(), false), frames[1..]);
  }

  /** So the same bytes are recorded as one prompt token when they are cut between their two lines, and as
      nothing when they are not. */
  lemma CuttingDecidesWitness()
    ensures var a, b := LineOf(COUNTING), LineOf(BROKEN);
            && Flatten([a + b]) == Flatten([a, b])
            && Recorded(OneTokenConfig(), [a, b]).input == Some(1)
            && Recorded(OneTokenConfig(), [a + b]).input == None
  {
    OneTokenCounted();
    CuttingDecidesTheRecord(OneTokenConfig(), LineOf(COUNTING), LineOf(BROKEN));
  }

  /** A response in one chunk, or in two, that fails in its last chunk. */
  lemma OneChunk(cfg: Config, s: Bytes)
    ensures Flatten([s]) == s
    ensures !Feed(cfg, START, s).ok ==> Recorded(cfg, [s]) == NO_OBSERVATION
  {
    assert [s] == [s] + [];
    FlattenCons(s, []);
    if !Feed(cfg, START, s).ok {
      FeedMeetsSpec(cfg, s);
      assert [s][..0] == [];
    }
  }

  lemma TwoChunks(cfg: Config, a: Bytes, b: Bytes)
    ensures Flatten([a, b]) == a + b
    ensures Feed(cfg, START, a).ok && !Feed(cfg, START, a + b).ok ==>
              Recorded(cfg, [a, b]) == Feed(cfg, START, a).acc.observation
  {
    assert [a, b] == [a] + [b];
    FlattenCons(a, [b]);
    OneChunk(cfg, b);
    if Feed(cfg, START, a).ok && !Feed(cfg, START, a + b).ok {
      FeedMeetsSpec(cfg, a + b);
      FeedAppend(cfg, START, a, b);
      var both, f := [a, b], Feed(cfg, START, a);
      assert both[0] == a && both[1..] == [b] && both[..1] == [a];
      assert GoodChunks(cfg, f, [b]) == 0;
      assert GoodChunks(cfg, START, both) == 1;
      OneChunk(cfg, a);
    }
  }

  predicate Cuts(chunks: seq<Bytes>, stream: Bytes) {
    Flatten(chunks) == stream
  }

  /** Every cutting of the response records the same. */
  ghost predicate CuttingsAgree(cfg: Config, stream: Bytes) {
    forall p: seq<Bytes>, q: seq<Bytes> :: Cuts(p, stream) && Cuts(q, stream) ==> Recorded(cfg, p) == Recorded(cfg, q)
  }

  /** No prefix that reads well tells anything. */
  ghost predicate Silent(cfg: Config, stream: Bytes) {
    forall n :: 0 <= n <= |stream| && ReadsWell(cfg, stream[..n]) ==> Told(cfg, stream[..n]) == NO_OBSERVATION
  }

  /** The exact condition under which the cutting does not matter for the record: the response is without
      error, or is one document, or reads well up to its last line and fails only there, or tells nothing
      before its error. */
  lemma CuttingsAgreeExactly(cfg: Config, stream: Bytes)
    ensures CuttingsAgree(cfg, stream)
       <==> Spec(cfg, stream).ok || !cfg.eventStream || ReadsWell(cfg, stream) || Silent(cfg, stream)
  {
    if Spec(cfg, stream).ok {
    } else if !cfg.eventStream {
      DocumentRecords(cfg, stream);
    } else {
      ReadsWellMeaning(cfg, stream);
      if ReadsWell(cfg, stream) {
        FullRecords(cfg, stream);
      } else if Silent(cfg, stream) {
        SilentRecords(cfg, stream);
      } else {
        SomeCuttingsDiffer(cfg, stream);
      }
    }
  }

  lemma SomeCuttingsDiffer(cfg: Config, stream: Bytes)
    requires cfg.eventStream && !Silent(cfg, stream) && !Feed(cfg, START, stream).ok
    ensures !CuttingsAgree(cfg, stream)
  {
    var n :| 0 <= n <= |stream| && ReadsWell(cfg, stream[..n]) && Told(cfg, stream[..n]) != NO_OBSERVATION;
    DifferAt(cfg, stream[..n], stream[n..], stream);
  }

  lemma DifferAt(cfg: Config, a: Bytes, b: Bytes, stream: Bytes)
    requires cfg.eventStream && stream == a + b && !Feed(cfg, START, stream).ok
    requires ReadsWell(cfg, a) && Told(cfg, a) != NO_OBSERVATION
    ensures !CuttingsAgree(cfg, stream)
  {
    assert Feed(cfg, START, a).ok && Feed(cfg, START, a).acc.observation != NO_OBSERVATION by { ReadsWellMeaning(cfg, a); }
    TwoCuttingsDiffer(cfg, a, b);
  }

  lemma ReadsWellMeaning(cfg: Config, s: Bytes)
    requires cfg.eventStream
    ensures ReadsWell(cfg, s) <==> Feed(cfg, START, s).ok
    ensures ReadsWell(cfg, s) ==> Told(cfg, s) == Feed(cfg, START, s).acc.observation
  {
    FeedAccounts(cfg, START, s);
  }

  lemma DocumentRecords(cfg: Config, stream: Bytes)
    requires !cfg.eventStream && !Spec(cfg, stream).ok
    ensures CuttingsAgree(cfg, stream)
  {
    forall p: seq<Bytes> | Cuts(p, stream)
      ensures Recorded(cfg, p) == NO_OBSERVATION
    {
      FeedPlain(cfg, START, Flatten(p[..GoodChunks(cfg, START, p)]));
    }
  }

  lemma FullRecords(cfg: Config, stream: Bytes)
    requires !Spec(cfg, stream).ok && Feed(cfg, START, stream).ok
    ensures CuttingsAgree(cfg, stream)
  {
    forall p: seq<Bytes> | Cuts(p, stream)
      ensures Recorded(cfg, p) == Feed(cfg, START, stream).acc.observation
    {
      GoodChunksAreGood(cfg, START, p);
      assert p[..|p|] == p;
    }
  }

  lemma SilentRecords(cfg: Config, stream: Bytes)
    requires cfg.eventStream && !Spec(cfg, stream).ok && Silent(cfg, stream)
    ensures CuttingsAgree(cfg, stream)
  {
    forall p: seq<Bytes> | Cuts(p, stream)
      ensures Recorded(cfg, p) == NO_OBSERVATION
    {
      var k := GoodChunks(cfg, START, p);
      var good := Flatten(p[..k]);
      RecordedOnFailure(cfg, p);
      FlattenSplit(p, k);
      assert stream[..|good|] == good;
    }
  }

  lemma TwoCuttingsDiffer(cfg: Config, a: Bytes, b: Bytes)
    requires Feed(cfg, START, a).ok && !Feed(cfg, START, a + b).ok
    requires Feed(cfg, START, a).acc.observation != NO_OBSERVATION
    ensures !CuttingsAgree(cfg, a + b)
  {
    OneChunk(cfg, a + b);
    TwoChunks(cfg, a, b);
    assert Cuts([a + b], a + b) && Cuts([a, b], a + b);
  }

  /** So two ways to cut one response agree: both fail, or both give the same output, and in either
      case the same observation and done flag. */
  lemma CuttingIsIrrelevant(cfg: Config, a: seq<Bytes>, b: seq<Bytes>)
    requires Flatten(a) == Flatten(b)
    ensures Finish(cfg, FeedChunks(cfg, START, a)) == Finish(cfg, FeedChunks(cfg, START, b)) == Spec(cfg, Flatten(a))
  {
    FeedChunksJoin(cfg, START, a);
    FeedChunksJoin(cfg, START, b);
    FeedMeetsSpec(cfg, Flatten(a));
  }

  function FeedChunks(cfg: Config, f: Fed, chunks: seq<Bytes>): Fed
    decreases |chunks|
  {
    if chunks == [] then f else FeedChunks(cfg, Feed(cfg, f, chunks[0]), chunks[1..])
  }

  lemma {:induction false} FeedChunksJoin(cfg: Config, f: Fed, chunks: seq<Bytes>)
    ensures FeedChunks(cfg, f, chunks) == Feed(cfg, f, Flatten(chunks))
    decreases |chunks|
  {
    if chunks != [] {
      FeedChunksJoin(cfg, Feed(cfg, f, chunks[0]), chunks[1..]);
      FeedAppend(cfg, f, chunks[0], Flatten(chunks[1..]));
    }
  }
}
