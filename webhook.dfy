/**
 * The webhook handler of api/axis.ts: the signature check on the incoming request and the `POST`
 * entry point, which answers 400 to an unsigned request, validates the body and hands the
 * assessment to the background as a `processConversation` task before answering 202.
 */
module Webhook {
  import opened Wrappers
  import opened Json
  import opened Schema
  import opened Effects

  const TimestampHeader := "x-front-request-timestamp"
  const SignatureHeader := "x-front-signature"

  const BadRequest := 400
  const Accepted := 202

  /**
   * The two library primitives the check relies on: HMAC-SHA256 of a message under a key, as a
   * base64 digest, and `JSON.stringify` of a parsed value.
   */
  datatype Primitives = Primitives(hmacSha256Base64: (string, string) -> string, stringify: Json -> string)

  /** `headers.get(name)` is truthy: the header is there and not empty. Header names are lower case. */
  predicate Present(headers: map<string, string>, name: string)
  {
    name in headers && headers[name] != ""
  }

  /** The signed message: the timestamp, a colon, and the body as `JSON.stringify` writes it. */
  function BaseString(timestamp: string, body: Json, prims: Primitives): (s: string)
    ensures |s| == |timestamp| + 1 + |prims.stringify(body)|
    ensures s[..|timestamp| + 1] == timestamp + ":" && s[|timestamp| + 1..] == prims.stringify(body)
  {
    timestamp + ":" + prims.stringify(body)
  }

  /** The signature the platform sends for this timestamp and body under the app secret. */
  function Signature(secret: string, timestamp: string, body: Json, prims: Primitives): string
  {
    prims.hmacSha256Base64(secret, BaseString(timestamp, body, prims))
  }

  /** `requestIntegrityCheck(body, headers)` with the app secret `secret`. */
  function RequestIntegrityCheck(body: Json, headers: map<string, string>, secret: string, prims: Primitives): (ok: bool)
    ensures ok ==> Present(headers, TimestampHeader) && Present(headers, SignatureHeader)
    ensures ok ==> headers[SignatureHeader] == Signature(secret, headers[TimestampHeader], body, prims)
  {
    if !Present(headers, TimestampHeader) || !Present(headers, SignatureHeader) then false
    else Signature(secret, headers[TimestampHeader], body, prims) == headers[SignatureHeader]
  }

  /**
   * The check passes exactly when both headers are present and not empty and the HMAC of
   * `<timestamp>:<JSON.stringify(body)>` under the secret equals the signature header.
   */
  lemma IntegrityCheckExactly(body: Json, headers: map<string, string>, secret: string, prims: Primitives)
    ensures RequestIntegrityCheck(body, headers, secret, prims) <==>
              && TimestampHeader in headers && headers[TimestampHeader] != ""
              && SignatureHeader in headers && headers[SignatureHeader] != ""
              && prims.hmacSha256Base64(secret, headers[TimestampHeader] + ":" + prims.stringify(body)) == headers[SignatureHeader]
  {
  }

  /** A request without either header, or with an empty one, fails the check whatever it carries. */
  lemma MissingHeaderRejected(body: Json, headers: map<string, string>, secret: string, prims: Primitives)
    requires TimestampHeader !in headers || SignatureHeader !in headers
             || headers[TimestampHeader] == "" || headers[SignatureHeader] == ""
    ensures !RequestIntegrityCheck(body, headers, secret, prims)
  {
  }

  /** The headers a correctly signed request carries, on top of any others. */
  function Signed(headers: map<string, string>, timestamp: string, secret: string, body: Json, prims: Primitives): (h: map<string, string>)
    ensures TimestampHeader in h && h[TimestampHeader] == timestamp
    ensures SignatureHeader in h && h[SignatureHeader] == Signature(secret, timestamp, body, prims)
    ensures forall name :: name in headers && name != TimestampHeader && name != SignatureHeader ==> name in h && h[name] == headers[name]
  {
    headers[TimestampHeader := timestamp][SignatureHeader := Signature(secret, timestamp, body, prims)]
  }

  /** A request signed with the app secret passes, whatever its other headers, for any non-empty timestamp. */
  lemma SignedRequestAccepted(headers: map<string, string>, timestamp: string, secret: string, body: Json, prims: Primitives)
    requires timestamp != "" && Signature(secret, timestamp, body, prims) != ""
    ensures RequestIntegrityCheck(body, Signed(headers, timestamp, secret, body, prims), secret, prims)
  {
  }

  /** With both headers present, any signature but the expected one fails the check. */
  lemma ForgedSignatureRejected(body: Json, headers: map<string, string>, secret: string, prims: Primitives)
    requires Present(headers, TimestampHeader) && Present(headers, SignatureHeader)
    requires headers[SignatureHeader] != Signature(secret, headers[TimestampHeader], body, prims)
    ensures !RequestIntegrityCheck(body, headers, secret, prims)
  {
  }

  /**
   * The worked example: with timestamp "1700000000" and a body that serialises as `{"a":1}`, the
   * check accepts exactly the digest of `1700000000:{"a":1}` as the signature.
   */
  lemma ExampleSignature(body: Json, signature: string, secret: string, prims: Primitives)
    requires prims.stringify(body) == "{\"a\":1}"
    requires signature != ""
    ensures var headers := map[TimestampHeader := "1700000000", SignatureHeader := signature];
            (RequestIntegrityCheck(body, headers, secret, prims)
             <==> signature == prims.hmacSha256Base64(secret, "1700000000:{\"a\":1}"))
  {
    var headers := map[TimestampHeader := "1700000000", SignatureHeader := signature];
    assert headers[TimestampHeader] == "1700000000";
    assert headers[SignatureHeader] == signature;
    assert BaseString("1700000000", body, prims) == "1700000000:{\"a\":1}";
  }

  /**
   * A signature made for one body accepts another body exactly when the two digests agree: the
   * check binds the signature to the body through the digest and nothing else.
   */
  lemma ReplacedBody(signedBody: Json, body: Json, headers: map<string, string>, timestamp: string,
                     secret: string, prims: Primitives)
    requires timestamp != "" && Signature(secret, timestamp, signedBody, prims) != ""
    ensures RequestIntegrityCheck(body, Signed(headers, timestamp, secret, signedBody, prims), secret, prims)
            <==> Signature(secret, timestamp, body, prims) == Signature(secret, timestamp, signedBody, prims)
  {
  }

  // ---------------------------------------------------------------------------------------------
  // `POST`

  /** Why the handler threw instead of answering. */
  datatype PostError =
    | MalformedJson             // `request.json()` rejected the body
    | BodyIsNull                // the body was `null`, so reading its keys threw a TypeError
    | Invalid(issues: seq<Issue>) // `requestSchema.parse` threw its validation error

  datatype PostOutcome = Respond(status: int) | Thrown(error: PostError)

  /** What the handler answers and the background tasks it hands over, in order. */
  datatype Decision = Decision(outcome: PostOutcome, scheduled: seq<Task>)

  /**
   * `POST(request)` given its parsed body (None when it is not JSON) and its headers. It answers
   * only 400 or 202; it schedules at most one task, and one exactly when it answers 202.
   */
  function Handle(body: Option<Json>, headers: map<string, string>, secret: string, prims: Primitives): (d: Decision)
    ensures d.outcome.Respond? ==> d.outcome.status == BadRequest || d.outcome.status == Accepted
    ensures |d.scheduled| <= 1
    ensures d.scheduled != [] <==> d.outcome == Respond(Accepted)
  {
    match body
    case None => Decision(Thrown(MalformedJson), [])
    case Some(raw) =>
      if !RequestIntegrityCheck(raw, headers, secret, prims) then Decision(Respond(BadRequest), [])
      else
        var conversationId, message := Get(raw, "conversation_id"), Get(raw, "message");
        if conversationId.Failure? || message.Failure? then Decision(Thrown(BodyIsNull), [])
        else match ParseRequest(conversationId.value, message.value)
          case Failure(issues) => Decision(Thrown(Invalid(issues)), [])
          case Success(request) =>
            Decision(Respond(Accepted), [ProcessConversation(request.message, request.conversationId)])
  }

  /** The events of handing `tasks` to the runtime. */
  function Announced(tasks: seq<Task>): (events: seq<Event>)
    ensures |events| == |tasks|
    ensures forall i :: 0 <= i < |tasks| ==> events[i] == Scheduled(tasks[i])
  {
    if tasks == [] then [] else [Scheduled(tasks[0])] + Announced(tasks[1..])
  }

  /** A parsed body that fails the signature check is answered 400 and nothing is scheduled. */
  lemma UnsignedRequestRejected(raw: Json, headers: map<string, string>, secret: string, prims: Primitives)
    requires !RequestIntegrityCheck(raw, headers, secret, prims)
    ensures Handle(Some(raw), headers, secret, prims) == Decision(Respond(BadRequest), [])
  {
  }

  /**
   * 202 exactly when the body is JSON, the signature matches, and the body is an object whose
   * `conversation_id` and `message` are strings of the required shape; the one task then carries
   * those two strings unchanged.
   */
  lemma AcceptedExactly(body: Option<Json>, headers: map<string, string>, secret: string, prims: Primitives)
    ensures var d := Handle(body, headers, secret, prims);
            d.outcome == Respond(Accepted) <==>
              && body.Some? && RequestIntegrityCheck(body.value, headers, secret, prims)
              && body.value.JObj?
              && var c, m := Find(body.value.members, "conversation_id"), Find(body.value.members, "message");
                 c.Some? && c.value.JStr? && m.Some? && m.value.JStr? && IsValidRequest(c.value.s, m.value.s)
    ensures var d := Handle(body, headers, secret, prims);
            d.outcome == Respond(Accepted) ==>
              var c, m := Find(body.value.members, "conversation_id"), Find(body.value.members, "message");
              d.scheduled == [ProcessConversation(m.value.s, c.value.s)]
  {
    var d := Handle(body, headers, secret, prims);
    if body.Some? && RequestIntegrityCheck(body.value, headers, secret, prims) && !body.value.JObj? && body.value != JNull {
      assert ParseRequest(None, None).Failure?;
    }
  }

  /** A signed object body of the wrong shape throws the schema's issues and schedules nothing. */
  lemma InvalidBodyThrows(members: seq<(string, Json)>, headers: map<string, string>, secret: string, prims: Primitives)
    requires RequestIntegrityCheck(JObj(members), headers, secret, prims)
    requires ParseRequest(Find(members, "conversation_id"), Find(members, "message")).Failure?
    ensures Handle(Some(JObj(members)), headers, secret, prims)
         == Decision(Thrown(Invalid(ParseRequest(Find(members, "conversation_id"), Find(members, "message")).error)), [])
  {
  }

  /**
   * A signed body that is neither an object nor `null` (a string, a number, an array, a boolean)
   * reads `undefined` for both keys, so the schema rejects it with at least one issue.
   */
  lemma NonObjectBodyThrows(raw: Json, headers: map<string, string>, secret: string, prims: Primitives)
    requires !raw.JObj? && raw != JNull
    requires RequestIntegrityCheck(raw, headers, secret, prims)
    ensures ParseRequest(None, None).Failure? && |ParseRequest(None, None).error| >= 1
    ensures Handle(Some(raw), headers, secret, prims) == Decision(Thrown(Invalid(ParseRequest(None, None).error)), [])
  {
    assert Get(raw, "conversation_id") == Success(None) && Get(raw, "message") == Success(None);
  }

  /** A worked example: a signed `{"conversation_id": "cnv_123", "message": "Thanks!"}` is accepted and scheduled. */
  lemma ExampleAccepted(timestamp: string, secret: string, prims: Primitives)
    requires timestamp != ""
    requires var body := JObj([("conversation_id", JStr("cnv_123")), ("message", JStr("Thanks!"))]);
             Signature(secret, timestamp, body, prims) != ""
    ensures var body := JObj([("conversation_id", JStr("cnv_123")), ("message", JStr("Thanks!"))]);
            Handle(Some(body), Signed(map[], timestamp, secret, body, prims), secret, prims)
              == Decision(Respond(Accepted), [ProcessConversation("Thanks!", "cnv_123")])
  {
    var body := JObj([("conversation_id", JStr("cnv_123")), ("message", JStr("Thanks!"))]);
    SignedRequestAccepted(map[], timestamp, secret, body, prims);
    assert Find(body.members, "conversation_id") == Some(JStr("cnv_123"));
    assert Find(body.members, "message") == Some(JStr("Thanks!"));
    assert ConversationPrefix <= "cnv_123";
  }

  /**
   * `POST`: read the body, check the signature, validate, hand the task to the runtime, answer.
   * The task is only scheduled here; running it is `Pipeline.ProcessConversation`.
   */
  method Post(rt: Runtime, body: Option<Json>, headers: map<string, string>, secret: string, prims: Primitives)
    returns (outcome: PostOutcome)
    modifies rt
    ensures var d := Handle(body, headers, secret, prims);
            && outcome == d.outcome
            && rt.trace == old(rt.trace) + Announced(d.scheduled)
            && rt.replies == old(rt.replies)
  {
    if body.None? {
      return Thrown(MalformedJson);
    }
    var raw := body.value;
    if !RequestIntegrityCheck(raw, headers, secret, prims) {
      return Respond(BadRequest);
    }
    var conversationId := Get(raw, "conversation_id");
    var message := Get(raw, "message");
    if conversationId.Failure? || message.Failure? {
      return Thrown(BodyIsNull);
    }
    var parsed := ParseRequest(conversationId.value, message.value);
    if parsed.Failure? {
      return Thrown(Invalid(parsed.error));
    }
    var task := ProcessConversation(parsed.value.message, parsed.value.conversationId);
    rt.Schedule(task);
    assert Announced([task]) == [Scheduled(task)];
    outcome := Respond(Accepted);
  }
}
