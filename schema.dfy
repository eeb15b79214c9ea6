/**
 * The request shape of lib/schema.ts, `z.object({ conversationId: z.string().startsWith("cnv_"),
 * message: z.string().min(1) })`, as a parser that returns the validated values or every issue found.
 */
module Schema {
  import opened Wrappers
  import opened Json

  const ConversationPrefix := "cnv_"

  /** A validation issue, with the key it is about. */
  datatype Issue =
    | InvalidType(path: string)                   // absent (`undefined`) or not a string
    | MissingPrefix(path: string, prefix: string) // a string without the required prefix
    | TooSmall(path: string, minimum: nat)        // a string shorter than the minimum length

  datatype ParsedRequest = ParsedRequest(conversationId: string, message: string)

  /** The shape on plain strings: the identifier starts with "cnv_" and the message is not empty. */
  predicate IsValidRequest(conversationId: string, message: string)
  {
    ConversationPrefix <= conversationId && |message| >= 1
  }

  function ConversationIdIssues(v: Option<Json>): (issues: seq<Issue>)
    ensures issues == [] <==> v.Some? && v.value.JStr? && ConversationPrefix <= v.value.s
  {
    match v
    case Some(JStr(s)) =>
      if ConversationPrefix <= s then [] else [MissingPrefix("conversationId", ConversationPrefix)]
    case _ => [InvalidType("conversationId")]
  }

  function MessageIssues(v: Option<Json>): (issues: seq<Issue>)
    ensures issues == [] <==> v.Some? && v.value.JStr? && |v.value.s| >= 1
  {
    match v
    case Some(JStr(s)) => if |s| >= 1 then [] else [TooSmall("message", 1)]
    case _ => [InvalidType("message")]
  }

  /**
   * `requestSchema.parse({ conversationId, message })`: both keys are checked and all issues are
   * collected (the identifier's first); on success the values come back unchanged.
   */
  function ParseRequest(conversationId: Option<Json>, message: Option<Json>): (r: Result<ParsedRequest, seq<Issue>>)
    ensures r.Success? <==>
      conversationId.Some? && conversationId.value.JStr? && message.Some? && message.value.JStr?
      && IsValidRequest(conversationId.value.s, message.value.s)
    ensures r.Success? ==> r.value == ParsedRequest(conversationId.value.s, message.value.s)
    ensures r.Failure? ==> |r.error| >= 1
  {
    var issues := ConversationIdIssues(conversationId) + MessageIssues(message);
    if issues == [] then Success(ParsedRequest(conversationId.value.s, message.value.s))
    else Failure(issues)
  }

  /** An empty message is rejected whatever the identifier. */
  lemma EmptyMessageRejected(conversationId: Option<Json>)
    ensures ParseRequest(conversationId, Some(JStr(""))).Failure?
    ensures TooSmall("message", 1) in ParseRequest(conversationId, Some(JStr(""))).error
  {
  }

  /** An identifier without the "cnv_" prefix is rejected whatever the message. */
  lemma UnprefixedIdRejected(id: string, message: Option<Json>)
    requires !(ConversationPrefix <= id)
    ensures ParseRequest(Some(JStr(id)), message).Failure?
    ensures ParseRequest(Some(JStr(id)), message).error[0] == MissingPrefix("conversationId", ConversationPrefix)
  {
  }

  /** "cnv" (too short) and "abc_1" (wrong start) are two such identifiers. */
  lemma SampleIdsRejected(message: Option<Json>)
    ensures ParseRequest(Some(JStr("cnv")), message).Failure?
    ensures ParseRequest(Some(JStr("abc_1")), message).Failure?
  {
    UnprefixedIdRejected("cnv", message);
    assert "abc_1"[0] != ConversationPrefix[0];
    UnprefixedIdRejected("abc_1", message);
  }

  /** The bare prefix is a valid identifier. */
  lemma BarePrefixAccepted(message: string)
    requires |message| >= 1
    ensures ParseRequest(Some(JStr("cnv_")), Some(JStr(message))) == Success(ParsedRequest("cnv_", message))
  {
  }
}
