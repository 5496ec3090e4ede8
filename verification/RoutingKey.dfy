/** The routing key of an inference request (services/gateway/src/routing_key.rs). The MAC, HMAC of
    section 2 of RFC 2104, and JSON printing are parameters. */
module RoutingKey {
  import opened Common
  import opened Json

  const MAXIMUM_CLIENT_KEY_BYTES: nat := 128
  const CHAT_ROUTE: string := "/v1/chat/completions"

  /** "confidential.ai/gateway-routing-key/v1" */
  const CONTEXT: Bytes := [
    99, 111, 110, 102, 105, 100, 101, 110, 116, 105, 97, 108, 46, 97, 105, 47, 103, 97, 116, 101,
    119, 97, 121, 45, 114, 111, 117, 116, 105, 110, 103, 45, 107, 101, 121, 47, 118, 49]

  // ---------------------------------------------------------------------------------------------
  // The encoding of the MAC input.

  function Power256(k: nat): (p: nat)
    ensures p > 0
  {
    if k == 0 then 1 else 256 * Power256(k - 1)
  }

  /** `n` in `k` bytes, most significant first. */
  function BigEndian(n: nat, k: nat): (r: Bytes)
    ensures |r| == k
  {
    if k == 0 then [] else BigEndian(n / 256, k - 1) + [n % 256]
  }

  function FromBigEndian(bytes: Bytes): nat {
    if bytes == [] then 0 else 256 * FromBigEndian(bytes[..|bytes| - 1]) + bytes[|bytes| - 1]
  }

  lemma {:induction false} BigEndianRoundTrip(n: nat, k: nat)
    requires n < Power256(k)
    ensures FromBigEndian(BigEndian(n, k)) == n
  {
    if k > 0 {
      assert n / 256 < Power256(k - 1);
      BigEndianRoundTrip(n / 256, k - 1);
      assert BigEndian(n, k)[..k - 1] == BigEndian(n / 256, k - 1);
    }
  }

  /** A field with its length before it. */
  function Prefixed(field: Bytes): Bytes {
    BigEndian(|field|, 8) + field
  }

  function Encode(fields: seq<Bytes>): Bytes {
    if fields == [] then [] else Prefixed(fields[0]) + Encode(fields[1..])
  }

  /** Shorter than 2^64 bytes, so that the length fits its eight bytes. */
  predicate Fits(field: Bytes) {
    |field| < Power256(8)
  }

  lemma FieldReadsBack(f: Bytes, rest: Bytes, g: Bytes, other: Bytes)
    requires Fits(f) && Fits(g) && Prefixed(f) + rest == Prefixed(g) + other
    ensures f == g && rest == other
  {
    var s, t := Prefixed(f) + rest, Prefixed(g) + other;
    assert BigEndian(|f|, 8) == s[..8] == t[..8] == BigEndian(|g|, 8);
    BigEndianRoundTrip(|f|, 8);
    BigEndianRoundTrip(|g|, 8);
    assert f == s[8..8 + |f|] && g == t[8..8 + |g|];
    assert rest == s[8 + |f|..] && other == t[8 + |g|..];
  }

  /** No two lists of fields share an encoding. */
  lemma {:induction false} EncodingInjective(a: seq<Bytes>, b: seq<Bytes>)
    requires Encode(a) == Encode(b)
    requires (forall f :: f in a ==> Fits(f)) && (forall f :: f in b ==> Fits(f))
    ensures a == b
    decreases |a|
  {
    assert (a == [] <==> |Encode(a)| == 0) && (b == [] <==> |Encode(b)| == 0);
    if a != [] && b != [] {
      FieldReadsBack(a[0], Encode(a[1..]), b[0], Encode(b[1..]));
      EncodingInjective(a[1..], b[1..]);
      assert a == [a[0]] + a[1..] && b == [b[0]] + b[1..];
    }
  }

  lemma {:induction false} EncodeAppend(fields: seq<Bytes>, field: Bytes)
    ensures Encode(fields + [field]) == Encode(fields) + Prefixed(field)
  {
    if fields == [] {
      assert fields + [field] == [field] && [field][1..] == [];
    } else {
      assert (fields + [field])[1..] == fields[1..] + [field];
      EncodeAppend(fields[1..], field);
    }
  }

  /** The bytes fed to the MAC, field by field. */
  method MacInput(keyId: Bytes, kind: Bytes, material: Bytes) returns (input: Bytes)
    ensures input == Encode([CONTEXT, keyId, kind, material])
  {
    var fields := [CONTEXT, keyId, kind, material];
    input := [];
    for i := 0 to |fields|
      invariant input == Encode(fields[..i])
    {
      assert fields[..i + 1] == fields[..i] + [fields[i]];
      EncodeAppend(fields[..i], fields[i]);
      input := input + BigEndian(|fields[i]|, 8);
      input := input + fields[i];
    }
    assert fields[..|fields|] == fields;
  }

  // ---------------------------------------------------------------------------------------------
  // The opening of a conversation.

  /** The part of a message that identifies it: its role, and its content or null. */
  function Trimmed(message: Value): Option<Value> {
    var role := GetString(message, "role");
    if role.None? then None
    else
      var content := Get(message, "content");
      Some(Object(map["role" := String(role.value),
                      "content" := if content.Some? then content.value else Null]))
  }

  predicate IsUser(message: Value) {
    GetString(message, "role") == Some("user")
  }

  /** The trimmed messages up to and including the first user message. */
  function Opening(messages: seq<Value>): Option<seq<Value>> {
    if messages == [] || Trimmed(messages[0]).None? then None
    else if IsUser(messages[0]) then Some([Trimmed(messages[0]).value])
    else
      var rest := Opening(messages[1..]);
      if rest.None? then None else Some([Trimmed(messages[0]).value] + rest.value)
  }

  /** Message `k` is the first user message, and every message up to it has a role. */
  predicate OpensAt(messages: seq<Value>, k: int) {
    && 0 <= k < |messages| && IsUser(messages[k])
    && (forall i :: 0 <= i < k ==> !IsUser(messages[i]))
    && (forall i :: 0 <= i <= k ==> Trimmed(messages[i]).Some?)
  }

  /** The opening of a conversation that opens at message `k` holds just the messages up to it. */
  lemma {:induction false} OpeningHolds(messages: seq<Value>, k: nat)
    requires OpensAt(messages, k)
    ensures Opening(messages).Some? && |Opening(messages).value| == k + 1
    ensures forall i :: 0 <= i <= k ==> Opening(messages).value[i] == Trimmed(messages[i]).value
    decreases |messages|
  {
    if k > 0 {
      var rest := messages[1..];
      assert forall i :: 0 <= i < |rest| ==> rest[i] == messages[i + 1];
      OpeningHolds(rest, k - 1);
      assert forall i :: 0 < i <= k ==> Opening(messages).value[i] == Opening(rest).value[i - 1];
    }
  }

  /** A conversation with an opening opens at some message. */
  lemma {:induction false} OpeningFound(messages: seq<Value>) returns (k: nat)
    requires Opening(messages).Some?
    ensures OpensAt(messages, k)
    decreases |messages|
  {
    if IsUser(messages[0]) {
      k := 0;
    } else {
      var rest := messages[1..];
      var j := OpeningFound(rest);
      k := j + 1;
      assert forall i :: 0 < i <= k ==> messages[i] == rest[i - 1];
    }
  }

  /** An opening exists exactly when there is such a message, and holds just the messages up to it. */
  lemma OpeningMeaning(messages: seq<Value>)
    ensures Opening(messages).Some? <==> exists k :: OpensAt(messages, k)
    ensures forall k :: OpensAt(messages, k) ==>
              |Opening(messages).value| == k + 1
              && forall i :: 0 <= i <= k ==> Opening(messages).value[i] == Trimmed(messages[i]).value
  {
    if Opening(messages).Some? { var k := OpeningFound(messages); }
    forall k | OpensAt(messages, k)
      ensures Opening(messages).Some? && |Opening(messages).value| == k + 1
      ensures forall i :: 0 <= i <= k ==> Opening(messages).value[i] == Trimmed(messages[i]).value
    {
      OpeningHolds(messages, k);
    }
  }

  /** Once a user message is there, whatever is appended leaves the opening as it was. */
  lemma {:induction false} OpeningIsStable(messages: seq<Value>, more: seq<Value>)
    requires exists i :: 0 <= i < |messages| && IsUser(messages[i])
    ensures Opening(messages + more) == Opening(messages)
    decreases |messages|
  {
    assert (messages + more)[0] == messages[0] && (messages + more)[1..] == messages[1..] + more;
    if !IsUser(messages[0]) {
      var i :| 0 <= i < |messages| && IsUser(messages[i]);
      assert IsUser(messages[1..][i - 1]);
      OpeningIsStable(messages[1..], more);
    }
  }

  function ConversationOpening(payload: Value): Option<Value> {
    var model, messages := GetString(payload, "model"), Get(payload, "messages");
    if model.None? || messages.None? || !messages.value.Array? then None
    else
      var opening := Opening(messages.value.items);
      if opening.None? then None
      else Some(Object(map["model" := String(model.value), "messages" := Array(opening.value)]))
  }

  /** The loop over the messages, with its early exits. */
  method FindOpening(payload: Value) returns (r: Option<Value>)
    ensures r == ConversationOpening(payload)
  {
    var model := GetString(payload, "model");
    if model.None? { return None; }
    var messages := Get(payload, "messages");
    if messages.None? || !messages.value.Array? { return None; }
    var items := messages.value.items;
    var opening: seq<Value> := [];
    ghost var goal := Opening(items);
    assert items[0..] == items && (goal.Some? ==> opening + goal.value == goal.value);
    for i := 0 to |items|
      invariant goal == (var rest := Opening(items[i..]);
                         if rest.None? then None else Some(opening + rest.value))
    {
      var trimmed := Trimmed(items[i]);
      if trimmed.None? { return None; }
      assert items[i..][0] == items[i] && items[i..][1..] == items[i + 1..];
      ghost var before := opening;
      opening := opening + [trimmed.value];
      if IsUser(items[i]) {
        return Some(Object(map["model" := String(model.value), "messages" := Array(opening)]));
      }
      ghost var rest := Opening(items[i + 1..]);
      if rest.Some? { assert before + ([trimmed.value] + rest.value) == opening + rest.value; }
    }
    return None;
  }

  // ---------------------------------------------------------------------------------------------
  // Deriving the key.

  predicate ValidClientKey(value: Bytes) {
    1 <= |value| <= MAXIMUM_CLIENT_KEY_BYTES && forall b :: b in value ==> 33 <= b <= 126
  }

  const CLIENT: Bytes := [99, 108, 105, 101, 110, 116]  // "client"
  const CHAT: Bytes := [99, 104, 97, 116]               // "chat"

  datatype Request = Request(keyId: Bytes, route: string, clientKey: Option<Bytes>, payload: Value)

  /** The kind and material the MAC covers beside the API key id, or none when nothing identifies the
      conversation. */
  function Material(render: Value -> Option<Bytes>, q: Request): Option<(Bytes, Bytes)> {
    if q.clientKey.Some? && ValidClientKey(q.clientKey.value) then Some((CLIENT, q.clientKey.value))
    else if q.route != CHAT_ROUTE then None
    else
      var opening := ConversationOpening(q.payload);
      if opening.None? then None
      else
        var material := render(opening.value);
        if material.None? then None else Some((CHAT, material.value))
  }

  function MacInputOf(render: Value -> Option<Bytes>, q: Request): Option<Bytes> {
    var m := Material(render, q);
    if m.None? then None else Some(Encode([CONTEXT, q.keyId, m.value.0, m.value.1]))
  }

  /** Two requests get one MAC input only under one API key and for one conversation: the same client
      key, or, for a printer that is injective, the same model and opening. */
  lemma SameInputSameConversation(render: Value -> Option<Bytes>, q: Request, p: Request)
    requires MacInputOf(render, q).Some? && MacInputOf(render, q) == MacInputOf(render, p)
    requires forall v, w :: render(v).Some? && render(v) == render(w) ==> v == w
    requires Fits(q.keyId) && Fits(p.keyId)
    requires Fits(Material(render, q).value.1) && Fits(Material(render, p).value.1)
    ensures q.keyId == p.keyId && Material(render, q) == Material(render, p)
    ensures var byClient := q.clientKey.Some? && ValidClientKey(q.clientKey.value);
            if byClient then p.clientKey == q.clientKey
            else ConversationOpening(q.payload) == ConversationOpening(p.payload)
  {
    var m, n := Material(render, q).value, Material(render, p).value;
    var a, b := [CONTEXT, q.keyId, m.0, m.1], [CONTEXT, p.keyId, n.0, n.1];
    assert Power256(8) > 38 by { assert Power256(2) == 65536; PowerGrows(2, 8); }
    EncodingInjective(a, b);
    assert a[1] == b[1] && a[2] == b[2] && a[3] == b[3];
  }

  lemma {:induction false} PowerGrows(i: nat, j: nat)
    requires i <= j
    ensures Power256(i) <= Power256(j)
  {
    if i < j { PowerGrows(i, j - 1); }
  }

  /** Every later turn of a conversation gets the MAC input of the first: appending messages after a
      user message changes nothing. */
  lemma LaterTurnsKeepTheInput(render: Value -> Option<Bytes>, q: Request, more: seq<Value>)
    requires q.payload.Object? && "messages" in q.payload.fields && q.payload.fields["messages"].Array?
    requires exists i :: 0 <= i < |q.payload.fields["messages"].items| && IsUser(q.payload.fields["messages"].items[i])
    ensures var items := q.payload.fields["messages"].items;
            var later := q.(payload := Object(q.payload.fields["messages" := Array(items + more)]));
            MacInputOf(render, later) == MacInputOf(render, q)
  {
    OpeningIsStable(q.payload.fields["messages"].items, more);
  }
}
