/** The message envelope, its signature, and the in-memory broker (mahilo/message_protocol.py). */
module Protocol {
  import opened Common

  datatype MessageType = Direct | Broadcast | Response | Error

  /** The enum's `.value`, the text written to the store's `message_type` column. */
  function TypeValue(t: MessageType): string {
    match t
    case Direct => "direct"
    case Broadcast => "broadcast"
    case Response => "response"
    case Error => "error"
  }

  /** `MessageType(text)`: None stands for the ValueError raised on an unknown value. */
  function ParseType(text: string): (r: Option<MessageType>)
    ensures r.Some? ==> TypeValue(r.value) == text
  {
    if text == "direct" then Some(Direct)
    else if text == "broadcast" then Some(Broadcast)
    else if text == "response" then Some(Response)
    else if text == "error" then Some(Error)
    else None
  }

  /** Reading back the stored text of a message type gives the same type. */
  lemma ParseTypeValue(t: MessageType)
    ensures ParseType(TypeValue(t)) == Some(t)
  {
    match t
    case Direct =>
    case Broadcast =>
    case Response =>
    case Error =>
  }

  /** The signed claims `{"message_id": ..., "payload": ...}`. */
  datatype Claims = Claims(messageId: string, payload: string)

  /** A signature token. `Jwt` is what the HS256 encoder produces (the key it was made with
      stands for the HMAC); `Opaque` is any other text found in the signature field. */
  datatype Token = Jwt(claims: Claims, key: string) | Opaque(text: string)

  /** `jwt.encode(claims, key, algorithm="HS256")`. */
  function Encode(claims: Claims, key: string): Token {
    Jwt(claims, key)
  }

  /** `jwt.decode(token, key, algorithms=["HS256"])`; None stands for InvalidTokenError. */
  function Decode(token: Token, key: string): (r: Option<Claims>)
    ensures r.Some? ==> token == Encode(r.value, key)
  {
    match token
    case Jwt(claims, k) => if k == key then Some(claims) else None
    case Opaque(_) => None
  }

  /** Decoding with the key used for encoding gives back the claims; any other key fails. */
  lemma DecodeEncode(claims: Claims, key: string, other: string)
    ensures Decode(Encode(claims, key), key) == Some(claims)
    ensures other != key ==> Decode(Encode(claims, key), other) == None
  {
  }

  datatype Envelope = Envelope(
    messageId: string,
    sender: string,
    recipient: string,
    messageType: MessageType,
    payload: string,
    timestamp: real,
    correlationId: Option<string>,
    replyTo: Option<string>,
    signature: Option<Token>)

  /** `if secret_key:` -- a missing or empty key means the envelope is not signed. */
  predicate SignsWith(secretKey: Option<string>) {
    secretKey.Some? && secretKey.value != ""
  }

  /** `MessageEnvelope.create`. The fresh uuid and `time.time()` are the parameters `id` and `now`. */
  function Create(sender: string, recipient: string, payload: string, messageType: MessageType,
                  correlationId: Option<string>, replyTo: Option<string>, secretKey: Option<string>,
                  id: string, now: real): (e: Envelope)
    ensures e.messageId == id && e.timestamp == now
    ensures e.sender == sender && e.recipient == recipient && e.messageType == messageType
    ensures e.payload == payload && e.correlationId == correlationId && e.replyTo == replyTo
    ensures !SignsWith(secretKey) ==> e.signature == None
    ensures SignsWith(secretKey) ==> e.signature == Some(Encode(Claims(id, payload), secretKey.value))
    ensures SignsWith(secretKey) ==> Verify(e, secretKey.value)
  {
    var msg := Envelope(id, sender, recipient, messageType, payload, now, correlationId, replyTo, None);
    if SignsWith(secretKey) then
      msg.(signature := Some(Encode(Claims(msg.messageId, msg.payload), secretKey.value)))
    else msg
  }

  /** `MessageEnvelope.verify`: false without a signature or when decoding fails, otherwise
      whether the decoded id and payload are the envelope's own. */
  function Verify(e: Envelope, secretKey: string): (ok: bool)
    ensures ok <==> e.signature.Some? && Decode(e.signature.value, secretKey) == Some(Claims(e.messageId, e.payload))
  {
    match e.signature
    case None => false
    case Some(token) =>
      match Decode(token, secretKey)
      case None => false
      case Some(decoded) => decoded.messageId == e.messageId && decoded.payload == e.payload
  }

  /** A signed envelope stops verifying once its payload or id changes, and never verifies
      under a different key. */
  lemma TamperingBreaksSignature(e: Envelope, key: string, otherKey: string, payload: string, id: string)
    requires e.signature == Some(Encode(Claims(e.messageId, e.payload), key))
    ensures Verify(e, key)
    ensures payload != e.payload ==> !Verify(e.(payload := payload), key)
    ensures id != e.messageId ==> !Verify(e.(messageId := id), key)
    ensures otherKey != key ==> !Verify(e, otherKey)
  {
  }

  /** `MessageBroker.MAX_RETRIES`. */
  const MaxRetries: int := 3

  /** The entries of `queue` whose id differs from `id`, in their original order. */
  function WithoutId(queue: seq<Envelope>, id: string): (r: seq<Envelope>)
    ensures |r| <= |queue|
    ensures forall k :: 0 <= k < |r| ==> r[k].messageId != id
    decreases |queue|
  {
    if queue == [] then []
    else if queue[0].messageId == id then WithoutId(queue[1..], id)
    else [queue[0]] + WithoutId(queue[1..], id)
  }

  /** The entries kept are exactly those of the queue with another id. */
  lemma {:induction false} WithoutIdMembers(queue: seq<Envelope>, id: string)
    ensures forall e :: e in WithoutId(queue, id) <==> e in queue && e.messageId != id
    decreases |queue|
  {
    if queue != [] {
      WithoutIdMembers(queue[1..], id);
      assert queue == [queue[0]] + queue[1..];
    }
  }

  /** Filtering by id distributes over concatenation, so the kept entries stay in their
      original relative order. */
  lemma {:induction false} WithoutIdAppend(a: seq<Envelope>, b: seq<Envelope>, id: string)
    ensures WithoutId(a + b, id) == WithoutId(a, id) + WithoutId(b, id)
    decreases |a|
  {
    if a == [] {
      assert a + b == b;
    } else {
      var x, tail := a[0], a[1..];
      WithoutIdAppend(tail, b, id);
      var ab := a + b;
      assert ab[0] == x && ab[1..] == tail + b;
      if x.messageId != id {
        calc {
          WithoutId(ab, id);
          [x] + WithoutId(tail + b, id);
          [x] + (WithoutId(tail, id) + WithoutId(b, id));
          ([x] + WithoutId(tail, id)) + WithoutId(b, id);
        }
      }
    }
  }

  /** Removing an id that no entry carries leaves the list as it was. */
  lemma {:induction false} WithoutAbsentId(queue: seq<Envelope>, id: string)
    requires forall e :: e in queue ==> e.messageId != id
    ensures WithoutId(queue, id) == queue
    decreases |queue|
  {
    if queue != [] {
      WithoutAbsentId(queue[1..], id);
    }
  }

  /** The broker's pending lists and retry counters. */
  class MessageBroker {
    const secretKey: Option<string>
    var pendingMessages: map<string, seq<Envelope>>
    var retryCounts: map<string, int>

    constructor (secretKey: Option<string>)
      ensures this.secretKey == secretKey
      ensures pendingMessages == map[] && retryCounts == map[]
    {
      this.secretKey := secretKey;
      pendingMessages := map[];
      retryCounts := map[];
    }

    /** `get_pending_messages`: the recipient's list, or an empty list for an unknown recipient. */
    function PendingFor(recipient: string): (r: seq<Envelope>)
      reads this
      ensures recipient !in pendingMessages ==> r == []
      ensures recipient in pendingMessages ==> r == pendingMessages[recipient]
    {
      if recipient in pendingMessages then pendingMessages[recipient] else []
    }

    /** `send_message`: appends to the tail of the recipient's list, creating it if absent. */
    method SendMessage(message: Envelope)
      modifies this
      ensures pendingMessages == old(pendingMessages)[message.recipient := old(PendingFor(message.recipient)) + [message]]
      ensures PendingFor(message.recipient) == old(PendingFor(message.recipient)) + [message]
      ensures forall r :: r != message.recipient ==> PendingFor(r) == old(PendingFor(r))
      ensures retryCounts == old(retryCounts)
    {
      if message.recipient !in pendingMessages {
        pendingMessages := pendingMessages[message.recipient := []];
      }
      pendingMessages := pendingMessages[message.recipient := pendingMessages[message.recipient] + [message]];
    }

    /** `acknowledge_message`: drops every entry with the id from the recipient's list and
        forgets its retry count; a recipient without a list changes nothing. */
    method AcknowledgeMessage(messageId: string, recipient: string)
      modifies this
      ensures recipient in old(pendingMessages) ==>
        pendingMessages == old(pendingMessages)[recipient := WithoutId(old(pendingMessages[recipient]), messageId)] &&
        retryCounts == old(retryCounts) - {messageId}
      ensures recipient !in old(pendingMessages) ==>
        pendingMessages == old(pendingMessages) && retryCounts == old(retryCounts)
      ensures forall e :: e in PendingFor(recipient) ==> e.messageId != messageId
    {
      if recipient in pendingMessages {
        pendingMessages := pendingMessages[recipient := WithoutId(pendingMessages[recipient], messageId)];
        if messageId in retryCounts {
          retryCounts := retryCounts - {messageId};
        }
      }
    }

    /** The stored retry count of an id, 0 when none is stored. */
    function RetryCount(messageId: string): int
      reads this
    {
      if messageId in retryCounts then retryCounts[messageId] else 0
    }

    /** `handle_failure`: one more failure for the id; true while the count is within the budget. */
    method HandleFailure(messageId: string, recipient: string) returns (shouldRetry: bool)
      modifies this
      ensures retryCounts == old(retryCounts)[messageId := old(RetryCount(messageId)) + 1]
      ensures shouldRetry <==> old(RetryCount(messageId)) + 1 <= MaxRetries
      ensures pendingMessages == old(pendingMessages)
    {
      retryCounts := retryCounts[messageId := RetryCount(messageId) + 1];
      shouldRetry := retryCounts[messageId] <= MaxRetries;
    }
  }

  /** Four failures of one message on a fresh broker: the first three ask for a retry, the
      fourth does not, and an acknowledgement afterwards resets the count. */
  method RetryBudgetScenario(id: string, recipient: string) returns (replies: seq<bool>, countAfterAck: int)
    ensures replies == [true, true, true, false]
    ensures countAfterAck == 0
  {
    var broker := new MessageBroker(None);
    var e := Create("a", recipient, "hello there", Direct, None, None, None, id, 0.0);
    broker.SendMessage(e);
    var r1 := broker.HandleFailure(id, recipient);
    var r2 := broker.HandleFailure(id, recipient);
    var r3 := broker.HandleFailure(id, recipient);
    var r4 := broker.HandleFailure(id, recipient);
    replies := [r1, r2, r3, r4];
    broker.AcknowledgeMessage(id, recipient);
    countAfterAck := broker.RetryCount(id);
  }
}
