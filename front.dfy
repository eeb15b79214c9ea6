/**
 * The Front REST client of lib/front.ts: a client bound to one access token whose four operations
 * build a request and hand it to one sender, which backs off and retries on HTTP 429.
 */
module FrontClient {
  import opened Wrappers
  import opened Json
  import opened Effects

  const ApiBase := "https://api2.frontapp.com"
  const RateLimited := 429
  const NoContent := 204

  /** Why an operation failed; each is an exception that propagates to the caller. */
  datatype Error =
    | HttpError(message: string)  // a non-ok status other than 429
    | NetworkError                // `fetch` rejected
    | InvalidJsonBody             // `res.json()` rejected
    | PropertyOfNull              // reading `.id` of a `null` response
    | NoReply                     // the scripted replies ran out (exists only in the model)

  /** The four sub-scores written to the conversation's custom fields, in tenths. */
  datatype AxisData = AxisData(axis: int, ra: int, ie: int, hs: int)

  /** The outcome of one `sendRequest`, the effects it had, and how many replies it consumed. */
  datatype Exchange = Exchange(outcome: Result<Json, Error>, events: seq<Event>, used: nat)

  /** The header object fixed at construction. */
  function AuthHeaders(accessToken: string): seq<(string, string)>
  {
    [("Authorization", "Bearer " + accessToken), ("Content-Type", "application/json")]
  }

  predicate IsOk(status: int)
  {
    200 <= status <= 299
  }

  /** The wait before retry number `attempt + 1`. */
  function Backoff(attempt: nat): nat
  {
    3000 * attempt
  }

  function FailureMessage(statusText: string): string
  {
    "Failed to update conversation: " + statusText
  }

  /** What `sendRequest` returns for a 204, which has no body to parse. */
  const SuccessSentinel := JObj([("success", JBool(true))])

  /**
   * `sendRequest(path, method, body, attempt)` against the replies still to come, as the source
   * writes it: recursion on a 429. Every attempt fetches once and takes the next reply.
   */
  function SendOutcome(replies: seq<Reply>, attempt: nat, request: Request): (x: Exchange)
    ensures x.used <= |replies|
    ensures replies != [] ==> 1 <= x.used
    decreases |replies|
  {
    if replies == [] then Exchange(Failure(NoReply), [Fetched(request)], 0)
    else if replies[0].Reply? && replies[0].status == RateLimited then
      var rest := SendOutcome(replies[1..], attempt + 1, request);
      Exchange(rest.outcome, [Fetched(request), Slept(Backoff(attempt))] + rest.events, 1 + rest.used)
    else Exchange(FinalOutcome(Some(replies[0])), [Fetched(request)], 1)
  }

  /** One attempt that gets a reply other than 429 is the last: its reply alone decides the outcome. */
  lemma SendOutcomeStops(replies: seq<Reply>, attempt: nat, request: Request)
    requires replies != [] && !(replies[0].Reply? && replies[0].status == RateLimited)
    ensures SendOutcome(replies, attempt, request) == Exchange(FinalOutcome(Some(replies[0])), [Fetched(request)], 1)
  {
  }

  /** `exchange` after `events` already happened and `used` replies were already consumed. */
  function After(events: seq<Event>, used: nat, exchange: Exchange): Exchange
  {
    Exchange(exchange.outcome, events + exchange.events, used + exchange.used)
  }

  lemma AfterAfter(events: seq<Event>, used: nat, more: seq<Event>, moreUsed: nat, exchange: Exchange)
    ensures After(events, used, After(more, moreUsed, exchange)) == After(events + more, used + moreUsed, exchange)
  {
    assert events + (more + exchange.events) == events + more + exchange.events;
  }

  /** One rate-limited attempt of the loop: a fetch, a wait, one reply consumed, then the next attempt. */
  lemma RateLimitedStep(replies: seq<Reply>, done: seq<Event>, consumed: nat, attempt: nat, request: Request)
    requires consumed < |replies| && replies[consumed].Reply? && replies[consumed].status == RateLimited
    ensures After(done, consumed, SendOutcome(replies[consumed..], attempt, request))
         == After(done + [Fetched(request), Slept(Backoff(attempt))], consumed + 1,
                  SendOutcome(replies[consumed + 1..], attempt + 1, request))
  {
    var pending := replies[consumed..];
    assert pending[1..] == replies[consumed + 1..];
    assert SendOutcome(pending, attempt, request)
        == After([Fetched(request), Slept(Backoff(attempt))], 1, SendOutcome(pending[1..], attempt + 1, request));
    AfterAfter(done, consumed, [Fetched(request), Slept(Backoff(attempt))], 1, SendOutcome(pending[1..], attempt + 1, request));
  }

  /** An attempt after the script is used up fetches once, consumes nothing and fails. */
  lemma NoReplyStep(replies: seq<Reply>, done: seq<Event>, consumed: nat, attempt: nat, request: Request)
    requires consumed == |replies|
    ensures After(done, consumed, SendOutcome(replies[consumed..], attempt, request))
         == Exchange(Failure(NoReply), done + [Fetched(request)], consumed)
  {
    assert replies[consumed..] == [];
  }

  /** The attempt of the loop that gets any other reply is the last: one fetch, one reply consumed. */
  lemma FinalStep(replies: seq<Reply>, done: seq<Event>, consumed: nat, attempt: nat, request: Request)
    requires consumed < |replies| && !(replies[consumed].Reply? && replies[consumed].status == RateLimited)
    ensures After(done, consumed, SendOutcome(replies[consumed..], attempt, request))
         == Exchange(FinalOutcome(Some(replies[consumed])), done + [Fetched(request)], consumed + 1)
  {
    SendOutcomeStops(replies[consumed..], attempt, request);
  }

  // ---------------------------------------------------------------------------------------------
  // A closed form of the retry policy, proved equal to SendOutcome.

  /** How many 429 replies come first. */
  function LeadingRateLimits(replies: seq<Reply>): (k: nat)
    ensures k <= |replies|
    ensures forall i :: 0 <= i < k ==> replies[i].Reply? && replies[i].status == RateLimited
    ensures k < |replies| ==> !(replies[k].Reply? && replies[k].status == RateLimited)
  {
    if replies != [] && replies[0].Reply? && replies[0].status == RateLimited
    then 1 + LeadingRateLimits(replies[1..])
    else 0
  }

  /** k replies of 429 followed by another reply make a leading run of length k. */
  lemma {:induction false} LeadingRateLimitsCount(replies: seq<Reply>, k: nat)
    requires k < |replies|
    requires forall i :: 0 <= i < k ==> replies[i].Reply? && replies[i].status == RateLimited
    requires !(replies[k].Reply? && replies[k].status == RateLimited)
    ensures LeadingRateLimits(replies) == k
  {
    if k > 0 {
      assert replies[0].Reply? && replies[0].status == RateLimited;
      assert forall i :: 0 <= i < k - 1 ==> replies[1..][i] == replies[i + 1];
      LeadingRateLimitsCount(replies[1..], k - 1);
    }
  }

  /** `count` rate-limited attempts from attempt number `attempt` on: fetch, then wait. */
  function RateLimitedAttempts(request: Request, attempt: nat, count: nat): (events: seq<Event>)
    ensures |events| == 2 * count
    decreases count
  {
    if count == 0 then []
    else [Fetched(request), Slept(Backoff(attempt))] + RateLimitedAttempts(request, attempt + 1, count - 1)
  }

  /** The outcome of the last attempt, given the reply it got (None: no reply was left). */
  function FinalOutcome(reply: Option<Reply>): Result<Json, Error>
  {
    match reply
    case None => Failure(NoReply)
    case Some(FetchRejected) => Failure(NetworkError)
    case Some(Reply(status, statusText, body)) =>
      if !IsOk(status) then Failure(HttpError(FailureMessage(statusText)))
      else if status == NoContent then Success(SuccessSentinel)
      else if body.None? then Failure(InvalidJsonBody)
      else Success(body.value)
  }

  /**
   * The whole retry policy at once: after the leading run of k 429 replies, the events are k rounds
   * of fetch-and-wait and one final fetch, and the reply after the run decides the outcome.
   */
  lemma {:induction false} SendOutcomeClosedForm(replies: seq<Reply>, attempt: nat, request: Request)
    ensures var x := SendOutcome(replies, attempt, request);
            var k := LeadingRateLimits(replies);
            && x.events == RateLimitedAttempts(request, attempt, k) + [Fetched(request)]
            && x.used == (if k < |replies| then k + 1 else k)
            && x.outcome == FinalOutcome(if k < |replies| then Some(replies[k]) else None)
    decreases |replies|
  {
    if replies == [] {
      assert LeadingRateLimits(replies) == 0;
    } else if replies[0].Reply? && replies[0].status == RateLimited {
      var rest := SendOutcome(replies[1..], attempt + 1, request);
      SendOutcomeClosedForm(replies[1..], attempt + 1, request);
      var k := LeadingRateLimits(replies[1..]);
      assert LeadingRateLimits(replies) == k + 1;
      assert SendOutcome(replies, attempt, request)
          == Exchange(rest.outcome, [Fetched(request), Slept(Backoff(attempt))] + rest.events, 1 + rest.used);
      assert (if k < |replies[1..]| then Some(replies[1..][k]) else None)
          == (if k + 1 < |replies| then Some(replies[k + 1]) else None);
      assert [Fetched(request), Slept(Backoff(attempt))] + RateLimitedAttempts(request, attempt + 1, k) + [Fetched(request)]
          == [Fetched(request), Slept(Backoff(attempt))] + (RateLimitedAttempts(request, attempt + 1, k) + [Fetched(request)]);
    } else {
      SendOutcomeStops(replies, attempt, request);
      assert LeadingRateLimits(replies) == 0;
    }
  }

  /** The attempts fetch the same request each time and wait 3000, 6000, ... ms times the attempt number. */
  lemma {:induction false} RateLimitedAttemptsLogs(request: Request, attempt: nat, count: nat)
    ensures Fetches(RateLimitedAttempts(request, attempt, count)) == seq(count, _ => request)
    ensures var d := Delays(RateLimitedAttempts(request, attempt, count));
            |d| == count && forall i :: 0 <= i < count ==> d[i] == Backoff(attempt + i)
    decreases count
  {
    if count > 0 {
      var rest := RateLimitedAttempts(request, attempt + 1, count - 1);
      RateLimitedAttemptsLogs(request, attempt + 1, count - 1);
      FetchesAppend([Fetched(request), Slept(Backoff(attempt))], rest);
      DelaysAppend([Fetched(request), Slept(Backoff(attempt))], rest);
      assert Fetches([Fetched(request), Slept(Backoff(attempt))]) == [request];
      assert Delays([Fetched(request), Slept(Backoff(attempt))]) == [Backoff(attempt)];
    }
  }

  /**
   * Starting at attempt 1, `k` replies of 429 followed by an ok reply (other than 204) with a JSON
   * body take exactly k + 1 fetches of the same request, waits of 3000, 6000, ..., 3000 * k ms, and
   * succeed with that body.
   */
  lemma RetriesThenSuccess(replies: seq<Reply>, request: Request, k: nat, body: Json)
    requires k < |replies|
    requires forall i :: 0 <= i < k ==> replies[i].Reply? && replies[i].status == RateLimited
    requires replies[k].Reply? && IsOk(replies[k].status) && replies[k].status != NoContent
    requires replies[k].body == Some(body)
    ensures var x := SendOutcome(replies, 1, request);
            && x.outcome == Success(body)
            && x.used == k + 1
            && Fetches(x.events) == seq(k + 1, _ => request)
            && |Delays(x.events)| == k
            && forall i :: 0 <= i < k ==> Delays(x.events)[i] == 3000 * (i + 1)
  {
    LeadingRateLimitsCount(replies, k);
    SendOutcomeClosedForm(replies, 1, request);
    RateLimitedAttemptsLogs(request, 1, k);
    var x := SendOutcome(replies, 1, request);
    assert x.outcome == FinalOutcome(Some(replies[k])) == Success(body);
    FetchesAppend(RateLimitedAttempts(request, 1, k), [Fetched(request)]);
    DelaysAppend(RateLimitedAttempts(request, 1, k), [Fetched(request)]);
    assert Fetches([Fetched(request)]) == [request];
    assert Delays([Fetched(request)]) == [];
    assert Fetches(x.events) == seq(k, _ => request) + [request];
    assert Delays(x.events) == Delays(RateLimitedAttempts(request, 1, k));
  }

  /** Two 429s and then a 200: three fetches of the same request, waits of 3 and 6 seconds, then the body. */
  lemma TwoRateLimitsThenOk(request: Request, body: Json)
    ensures var replies := [Reply(RateLimited, "Too Many Requests", None), Reply(RateLimited, "Too Many Requests", None),
                            Reply(200, "OK", Some(body))];
            var x := SendOutcome(replies, 1, request);
            && x.outcome == Success(body) && x.used == 3
            && Fetches(x.events) == [request, request, request]
            && Delays(x.events) == [3000, 6000]
  {
    var replies := [Reply(RateLimited, "Too Many Requests", None), Reply(RateLimited, "Too Many Requests", None),
                    Reply(200, "OK", Some(body))];
    RetriesThenSuccess(replies, request, 2, body);
    var x := SendOutcome(replies, 1, request);
    assert Fetches(x.events) == seq(3, _ => request);
  }

  /** A non-ok status other than 429 ends the call at once: one fetch, an error carrying the status text. */
  lemma OtherErrorStopsAtOnce(replies: seq<Reply>, attempt: nat, request: Request)
    requires replies != [] && replies[0].Reply?
    requires !IsOk(replies[0].status) && replies[0].status != RateLimited
    ensures SendOutcome(replies, attempt, request)
         == Exchange(Failure(HttpError("Failed to update conversation: " + replies[0].statusText)), [Fetched(request)], 1)
  {
  }

  /** A 204 yields the `{success: true}` sentinel, whatever its body; any other ok status yields the parsed body. */
  lemma OkRepliesDecideResult(replies: seq<Reply>, attempt: nat, request: Request)
    requires replies != [] && replies[0].Reply? && IsOk(replies[0].status)
    ensures var x := SendOutcome(replies, attempt, request);
            && x.events == [Fetched(request)] && x.used == 1
            && (replies[0].status == NoContent ==> x.outcome == Success(JObj([("success", JBool(true))])))
            && (replies[0].status != NoContent && replies[0].body.Some? ==> x.outcome == Success(replies[0].body.value))
            && (replies[0].status != NoContent && replies[0].body.None? ==> x.outcome == Failure(InvalidJsonBody))
  {
  }

  /** Every fetch of one call sends the very request it was given, so its headers too. */
  lemma SendOutcomeFetchesRequest(replies: seq<Reply>, attempt: nat, request: Request)
    ensures var f := Fetches(SendOutcome(replies, attempt, request).events);
            |f| >= 1 && forall i :: 0 <= i < |f| ==> f[i] == request
  {
    SendOutcomeClosedForm(replies, attempt, request);
    var k := LeadingRateLimits(replies);
    RateLimitedAttemptsLogs(request, attempt, k);
    FetchesAppend(RateLimitedAttempts(request, attempt, k), [Fetched(request)]);
    assert Fetches([Fetched(request)]) == [request];
  }

  // ---------------------------------------------------------------------------------------------
  // The request of each public operation.

  function ConversationPath(conversationId: string): string
  {
    "/conversations/" + conversationId
  }

  const TagsPath := "/tags"

  /** A number of tenths as the JSON number it stands for. */
  function TenthsJson(t: int): Json
  {
    JNum(t as real / 10.0)
  }

  function UpdatePayload(data: AxisData): Json
  {
    JObj([("custom_fields", JObj([
      ("AXIS Score", TenthsJson(data.axis)),
      ("AXIS: RA", TenthsJson(data.ra)),
      ("AXIS: IE", TenthsJson(data.ie)),
      ("AXIS: HS", TenthsJson(data.hs))]))])
  }

  function UpdateConversationRequest(headers: seq<(string, string)>, conversationId: string, data: AxisData): Request
  {
    Request(ApiBase + ConversationPath(conversationId), PATCH, headers, Some(UpdatePayload(data)))
  }

  function CommentPayload(comment: string): Json
  {
    JObj([("body", JStr(comment))])
  }

  function AddCommentRequest(headers: seq<(string, string)>, conversationId: string, comment: string): Request
  {
    Request(ApiBase + ConversationPath(conversationId) + "/comments", POST, headers, Some(CommentPayload(comment)))
  }

  function TagPayload(name: string): Json
  {
    JObj([("name", JStr(name))])
  }

  function CreateTagRequest(headers: seq<(string, string)>, name: string): Request
  {
    Request(ApiBase + TagsPath, POST, headers, Some(TagPayload(name)))
  }

  /** A tag id as `JSON.stringify` writes it inside an array: `undefined` becomes `null`. */
  function TagIdJson(id: Option<Json>): Json
  {
    if id.Some? then id.value else JNull
  }

  function TagIdsJson(tagIds: seq<Option<Json>>): (items: seq<Json>)
    ensures |items| == |tagIds|
    ensures forall i :: 0 <= i < |tagIds| ==> items[i] == TagIdJson(tagIds[i])
  {
    if tagIds == [] then [] else [TagIdJson(tagIds[0])] + TagIdsJson(tagIds[1..])
  }

  function TagIdsPayload(tagIds: seq<Option<Json>>): (payload: Json)
  {
    JObj([("tag_ids", JArr(TagIdsJson(tagIds)))])
  }

  function AddTagsRequest(headers: seq<(string, string)>, conversationId: string, tagIds: seq<Option<Json>>): Request
  {
    Request(ApiBase + ConversationPath(conversationId) + "/tags", POST, headers, Some(TagIdsPayload(tagIds)))
  }

  /** `(response as { id: string }).id`: None is `undefined`; `null` has no properties. */
  function TagIdOf(response: Json): (r: Result<Option<Json>, Error>)
    ensures r.Failure? <==> response == JNull
    ensures response.JObj? ==> r == Success(Find(response.members, "id"))
    ensures !response.JNull? && !response.JObj? ==> r == Success(None)
  {
    match Get(response, "id")
    case Failure(_) => Failure(PropertyOfNull)
    case Success(id) => Success(id)
  }

  function Unit(outcome: Result<Json, Error>): (r: Result<(), Error>)
    ensures r.Failure? <==> outcome.Failure?
    ensures r.Failure? ==> r.error == outcome.error
  {
    match outcome
    case Success(_) => Success(())
    case Failure(e) => Failure(e)
  }

  // ---------------------------------------------------------------------------------------------
  // Reading the payloads back: nothing a payload builder is given is lost or reordered.

  /** The number of tenths a JSON number stands for, if it has at most one decimal place. */
  function TenthsOf(v: Json): Option<int>
  {
    if v.JNum? && (v.n * 10.0).Floor as real == v.n * 10.0 then Some((v.n * 10.0).Floor) else None
  }

  /** The four AXIS custom fields of an update payload. */
  function AxisDataOf(payload: Json): Option<AxisData>
  {
    match Get(payload, "custom_fields")
    case Success(Some(fields)) =>
      (match (Get(fields, "AXIS Score"), Get(fields, "AXIS: RA"), Get(fields, "AXIS: IE"), Get(fields, "AXIS: HS"))
       case (Success(Some(a)), Success(Some(r)), Success(Some(i)), Success(Some(h))) =>
         (match (TenthsOf(a), TenthsOf(r), TenthsOf(i), TenthsOf(h))
          case (Some(a'), Some(r'), Some(i'), Some(h')) => Some(AxisData(a', r', i', h'))
          case _ => None)
       case _ => None)
    case _ => None
  }

  lemma TenthsRoundTrip(t: int)
    ensures TenthsOf(TenthsJson(t)) == Some(t)
  {
    assert (t as real / 10.0) * 10.0 == t as real;
  }

  /** Each of the four field names finds its own value in the custom fields. */
  lemma UpdateFieldsFound(data: AxisData)
    ensures var fields := [("AXIS Score", TenthsJson(data.axis)), ("AXIS: RA", TenthsJson(data.ra)),
                           ("AXIS: IE", TenthsJson(data.ie)), ("AXIS: HS", TenthsJson(data.hs))];
            && Find(fields, "AXIS Score") == Some(TenthsJson(data.axis))
            && Find(fields, "AXIS: RA") == Some(TenthsJson(data.ra))
            && Find(fields, "AXIS: IE") == Some(TenthsJson(data.ie))
            && Find(fields, "AXIS: HS") == Some(TenthsJson(data.hs))
  {
    var fields := [("AXIS Score", TenthsJson(data.axis)), ("AXIS: RA", TenthsJson(data.ra)),
                   ("AXIS: IE", TenthsJson(data.ie)), ("AXIS: HS", TenthsJson(data.hs))];
    assert fields[..3][2].0 == "AXIS: IE";
    assert fields[..2][1].0 == "AXIS: RA";
    assert fields[..1][0].0 == "AXIS Score";
  }

  /** The update payload carries the axis score and the three sub-scores under their four field names. */
  lemma UpdatePayloadRoundTrip(data: AxisData)
    ensures AxisDataOf(UpdatePayload(data)) == Some(data)
  {
    TenthsRoundTrip(data.axis);
    TenthsRoundTrip(data.ra);
    TenthsRoundTrip(data.ie);
    TenthsRoundTrip(data.hs);
    UpdateFieldsFound(data);
    var fields := [("AXIS Score", TenthsJson(data.axis)), ("AXIS: RA", TenthsJson(data.ra)),
                   ("AXIS: IE", TenthsJson(data.ie)), ("AXIS: HS", TenthsJson(data.hs))];
    assert UpdatePayload(data) == JObj([("custom_fields", JObj(fields))]);
    assert Find([("custom_fields", JObj(fields))], "custom_fields") == Some(JObj(fields));
    var outer := Get(UpdatePayload(data), "custom_fields");
    assert outer == Success(Some(JObj(fields)));
    var f := JObj(fields);
    assert (Get(f, "AXIS Score"), Get(f, "AXIS: RA"), Get(f, "AXIS: IE"), Get(f, "AXIS: HS"))
        == (Success(Some(TenthsJson(data.axis))), Success(Some(TenthsJson(data.ra))),
            Success(Some(TenthsJson(data.ie))), Success(Some(TenthsJson(data.hs))));
  }

  /** The tag name of a tag payload. */
  function TagNameOf(payload: Json): Option<string>
  {
    match Get(payload, "name")
    case Success(Some(JStr(name))) => Some(name)
    case _ => None
  }

  lemma TagPayloadRoundTrip(name: string)
    ensures TagNameOf(TagPayload(name)) == Some(name)
  {
  }

  /** The comment text of a comment payload. */
  function CommentOf(payload: Json): Option<string>
  {
    match Get(payload, "body")
    case Success(Some(JStr(comment))) => Some(comment)
    case _ => None
  }

  lemma CommentPayloadRoundTrip(comment: string)
    ensures CommentOf(CommentPayload(comment)) == Some(comment)
  {
  }

  /** The ids of a tag-attach payload, in the order given; undefined ids are sent as null. */
  lemma TagIdsPayloadKeepsOrder(tagIds: seq<Option<Json>>)
    ensures var ids := Get(TagIdsPayload(tagIds), "tag_ids");
            && ids.Success? && ids.value.Some? && ids.value.value.JArr?
            && |ids.value.value.items| == |tagIds|
            && forall i :: 0 <= i < |tagIds| ==>
                 ids.value.value.items[i] == (if tagIds[i].Some? then tagIds[i].value else JNull)
  {
  }

  // ---------------------------------------------------------------------------------------------

  class Front {
    const accessToken: string
    const headers: seq<(string, string)>

    constructor (accessToken: string)
      ensures this.accessToken == accessToken
      ensures headers == [("Authorization", "Bearer " + accessToken), ("Content-Type", "application/json")]
    {
      this.accessToken := accessToken;
      headers := AuthHeaders(accessToken);
    }

    /**
     * `sendRequest`: fetch; on 429 wait 3000 ms times the attempt number and try again with the
     * next attempt number; fail on any other non-ok status; 204 gives the success sentinel and any
     * other ok status the parsed body. The loop ends because every attempt consumes a reply.
     */
    method SendRequest(rt: Runtime, path: string, verb: Method, body: Option<Json>) returns (r: Result<Json, Error>)
      requires |path| > 0 && path[0] == '/'
      modifies rt
      ensures var x := SendOutcome(old(rt.replies), 1, Request(ApiBase + path, verb, headers, body));
              && r == x.outcome
              && rt.trace == old(rt.trace) + x.events
              && rt.replies == old(rt.replies)[x.used..]
    {
      var request := Request(ApiBase + path, verb, headers, body);
      var attempts: nat := 1;
      ghost var done: seq<Event> := [];
      ghost var consumed: nat := 0;
      while true
        invariant consumed <= |old(rt.replies)| && rt.replies == old(rt.replies)[consumed..]
        invariant rt.trace == old(rt.trace) + done
        invariant SendOutcome(old(rt.replies), 1, request)
               == After(done, consumed, SendOutcome(old(rt.replies)[consumed..], attempts, request))
        decreases |rt.replies|
      {
        var reply := rt.Fetch(request);
        assert rt.trace == old(rt.trace) + (done + [Fetched(request)]);
        if reply.None? {
          NoReplyStep(old(rt.replies), done, consumed, attempts, request);
          return Failure(NoReply);
        }
        var res := reply.value;
        assert old(rt.replies)[consumed..][1..] == old(rt.replies)[consumed + 1..];
        assert res == old(rt.replies)[consumed] && rt.replies == old(rt.replies)[consumed + 1..];
        if res.Reply? && !IsOk(res.status) && res.status == RateLimited {
          rt.Sleep(Backoff(attempts));
          assert rt.trace == old(rt.trace) + (done + [Fetched(request), Slept(Backoff(attempts))]);
          RateLimitedStep(old(rt.replies), done, consumed, attempts, request);
          done := done + [Fetched(request), Slept(Backoff(attempts))];
          consumed := consumed + 1;
          attempts := attempts + 1;
          continue;
        }
        FinalStep(old(rt.replies), done, consumed, attempts, request);
        ghost var x := SendOutcome(old(rt.replies), 1, request);
        assert x.outcome == FinalOutcome(Some(res));
        assert rt.trace == old(rt.trace) + x.events && rt.replies == old(rt.replies)[x.used..];
        match res {
          case FetchRejected =>
            r := Failure(NetworkError);
          case Reply(status, statusText, resBody) =>
            if !IsOk(status) {
              r := Failure(HttpError(FailureMessage(statusText)));
            } else if status == NoContent {
              r := Success(SuccessSentinel);
            } else if resBody.None? {
              r := Failure(InvalidJsonBody);
            } else {
              r := Success(resBody.value);
            }
        }
        assert r == FinalOutcome(Some(res));
        return;
      }
    }

    /** `updateConversation`: PATCH the four AXIS custom fields of the conversation. */
    method UpdateConversation(rt: Runtime, conversationId: string, data: AxisData) returns (r: Result<(), Error>)
      modifies rt
      ensures var x := SendOutcome(old(rt.replies), 1, UpdateConversationRequest(headers, conversationId, data));
              && r == Unit(x.outcome)
              && rt.trace == old(rt.trace) + x.events
              && rt.replies == old(rt.replies)[x.used..]
    {
      var response := SendRequest(rt, ConversationPath(conversationId), PATCH, Some(UpdatePayload(data)));
      assert Request(ApiBase + ConversationPath(conversationId), PATCH, headers, Some(UpdatePayload(data)))
          == UpdateConversationRequest(headers, conversationId, data);
      r := Unit(response);
    }

    /** `addComment`: POST the comment text to the conversation's comments. */
    method AddComment(rt: Runtime, conversationId: string, comment: string) returns (r: Result<(), Error>)
      modifies rt
      ensures var x := SendOutcome(old(rt.replies), 1, AddCommentRequest(headers, conversationId, comment));
              && r == Unit(x.outcome)
              && rt.trace == old(rt.trace) + x.events
              && rt.replies == old(rt.replies)[x.used..]
    {
      var response := SendRequest(rt, ConversationPath(conversationId) + "/comments", POST, Some(CommentPayload(comment)));
      assert Request(ApiBase + (ConversationPath(conversationId) + "/comments"), POST, headers, Some(CommentPayload(comment)))
          == AddCommentRequest(headers, conversationId, comment);
      r := Unit(response);
    }

    /** `createTag`: POST `{name}` to the tags (the platform finds or creates it) and return the `id` of the response. */
    method CreateTag(rt: Runtime, name: string) returns (r: Result<Option<Json>, Error>)
      modifies rt
      ensures var x := SendOutcome(old(rt.replies), 1, CreateTagRequest(headers, name));
              && (x.outcome.Failure? ==> r == Failure(x.outcome.error))
              && (x.outcome.Success? ==> r == TagIdOf(x.outcome.value))
              && rt.trace == old(rt.trace) + x.events
              && rt.replies == old(rt.replies)[x.used..]
    {
      var response := SendRequest(rt, TagsPath, POST, Some(TagPayload(name)));
      if response.Failure? {
        return Failure(response.error);
      }
      r := TagIdOf(response.value);
    }

    /** `addTagsToConversation`: POST the tag ids, in the order given, to the conversation's tags. */
    method AddTagsToConversation(rt: Runtime, conversationId: string, tagIds: seq<Option<Json>>) returns (r: Result<(), Error>)
      modifies rt
      ensures var x := SendOutcome(old(rt.replies), 1, AddTagsRequest(headers, conversationId, tagIds));
              && r == Unit(x.outcome)
              && rt.trace == old(rt.trace) + x.events
              && rt.replies == old(rt.replies)[x.used..]
    {
      var response := SendRequest(rt, ConversationPath(conversationId) + "/tags", POST, Some(TagIdsPayload(tagIds)));
      assert Request(ApiBase + (ConversationPath(conversationId) + "/tags"), POST, headers, Some(TagIdsPayload(tagIds)))
          == AddTagsRequest(headers, conversationId, tagIds);
      r := Unit(response);
    }
  }
}
