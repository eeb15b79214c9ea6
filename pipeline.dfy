/**
 * The background task of api/axis.ts, `processConversation`: ask the language model for an
 * assessment; if there is none, stop; otherwise score it and make five Front calls in order:
 * update the custom fields, create the "AXIS: <score>" and the "AXIS Range: <tier>" tags, attach
 * both to the conversation, add the report comment. The first failing call ends the task.
 */
module Pipeline {
  import opened Wrappers
  import opened Json
  import opened Axis
  import opened Llm
  import opened Effects
  import opened FrontClient

  // ---------------------------------------------------------------------------------------------
  // Tier of a score (the thresholds 3 and 4 are 30 and 40 tenths).

  datatype Tier = Poor | Fair | Excellent

  /** `axis < 3 ? 'Poor' : axis < 4 ? 'Fair' : 'Excellent'` on tenths. */
  function TierOf(axis: int): (t: Tier)
    ensures t == Poor <==> axis < 30
    ensures t == Fair <==> 30 <= axis < 40
    ensures t == Excellent <==> 40 <= axis
  {
    if axis < 30 then Poor else if axis < 40 then Fair else Excellent
  }

  function TierName(t: Tier): string
  {
    match t
    case Poor => "Poor"
    case Fair => "Fair"
    case Excellent => "Excellent"
  }

  /** The order of the tiers, worst first. */
  function Rank(t: Tier): (n: nat)
    ensures n <= 2
  {
    match t
    case Poor => 0
    case Fair => 1
    case Excellent => 2
  }

  /** A higher score never gets a worse tier. */
  lemma TierMonotone(a: int, b: int)
    requires a <= b
    ensures Rank(TierOf(a)) <= Rank(TierOf(b))
  {
  }

  /** The tier names are distinct, so the "AXIS Range: <tier>" tag names the tier. */
  lemma TierNamesDistinct(s: Tier, t: Tier)
    requires TierName(s) == TierName(t)
    ensures s == t
  {
  }

  /** The boundaries: 2.9 is Poor, 3.0 and 3.9 are Fair, 4.0 is Excellent; (2,2,2), (3,3,3), (4,4,4) give one tier each. */
  lemma TierBoundaries()
    ensures TierOf(29) == Poor && TierOf(30) == Fair && TierOf(39) == Fair && TierOf(40) == Excellent
    ensures TierOf(CalculateAxisScore(20, 20, 20)) == Poor
    ensures TierOf(CalculateAxisScore(30, 30, 30)) == Fair
    ensures TierOf(CalculateAxisScore(40, 40, 40)) == Excellent
  {
  }

  // ---------------------------------------------------------------------------------------------
  // The report comment.

  function AxisOf(a: Assessment): (axis: SubScore)
  {
    CalculateAxisScore(a.ra.score, a.ie.score, a.hs.score)
  }

  function Heading(axis: SubScore, tier: Tier): string
  {
    "AXIS score: **" + FormatTenths(axis) + "** - " + TierName(tier)
  }

  /** One dimension of the report: its name and score in bold, then its explanation in italics. */
  function Section(name: string, d: Dimension): string
  {
    "**" + name + ": " + FormatTenths(d.score) + "**\n  - _" + d.explanation + "_"
  }

  /** The markdown comment, with the template literal's line breaks and indentation. */
  function CommentText(axis: SubScore, tier: Tier, a: Assessment): string
  {
    Heading(axis, tier) + "\n  " + Section("RA", a.ra) + "\n\n  " + Section("IE", a.ie) + "\n  \n  " + Section("HS", a.hs)
  }

  /** The heading is one line: neither the score nor the tier name holds a line break. */
  lemma HeadingIsOneLine(axis: SubScore, tier: Tier)
    ensures '\n' !in Heading(axis, tier)
  {
    var f, t := FormatTenths(axis), TierName(tier);
    var h := Heading(axis, tier);
    assert h == "AXIS score: **" + f + "** - " + t;
    forall i | 0 <= i < |h| ensures h[i] != '\n' {
      if i < 14 {
        assert h[i] == "AXIS score: **"[i];
      } else if i < 14 + |f| {
        assert h[i] == f[i - 14];
      } else if i < 14 + |f| + 5 {
        assert h[i] == "** - "[i - 14 - |f|];
      } else {
        assert h[i] == t[i - 19 - |f|];
      }
    }
  }

  /** Where the parts of the comment template lie, for any heading and sections. */
  lemma TemplateLayout(h: string, ra: string, ie: string, hs: string)
    ensures var c := h + "\n  " + ra + "\n\n  " + ie + "\n  \n  " + hs;
            && |c| == |h| + 3 + |ra| + 4 + |ie| + 6 + |hs|
            && c[..|h|] == h && c[|h|] == '\n'
            && c[|h| + 3..|h| + 3 + |ra|] == ra
            && c[|h| + 3 + |ra| + 4..|h| + 3 + |ra| + 4 + |ie|] == ie
            && c[|h| + 3 + |ra| + 4 + |ie| + 6..] == hs
  {
    var c := h + "\n  " + ra + "\n\n  " + ie + "\n  \n  " + hs;
    var o1 := |h| + 3;
    var o2 := o1 + |ra| + 4;
    var o3 := o2 + |ie| + 6;
    assert c[..|h|] == h;
    assert c[o1..] == ra + "\n\n  " + ie + "\n  \n  " + hs;
    assert c[o1..][..|ra|] == ra;
    assert c[o2..] == ie + "\n  \n  " + hs;
    assert c[o2..][..|ie|] == ie;
    assert c[o3..] == hs;
  }

  /** Each section opens with its name and score in bold. */
  lemma SectionOpening(name: string, d: Dimension)
    ensures Section(name, d)[..|name| + 4] == "**" + name + ": "
  {
    var s := Section(name, d);
    assert s == ("**" + name + ": ") + (FormatTenths(d.score) + "**\n  - _" + d.explanation + "_");
  }

  /** The comment starts with its heading, on a line of its own. */
  lemma CommentHeadingLine(axis: SubScore, tier: Tier, a: Assessment)
    ensures var c, h := CommentText(axis, tier, a), Heading(axis, tier);
            |h| < |c| && c[|h|] == '\n' && '\n' !in h && c[..|h|] == h
  {
    HeadingIsOneLine(axis, tier);
    TemplateLayout(Heading(axis, tier), Section("RA", a.ra), Section("IE", a.ie), Section("HS", a.hs));
  }

  /**
   * After the heading come the RA, IE and HS sections, in that order, at fixed offsets, each with
   * its score and explanation, and nothing else.
   */
  lemma CommentSections(axis: SubScore, tier: Tier, a: Assessment)
    ensures var c, h, ra, ie, hs := CommentText(axis, tier, a), Heading(axis, tier), Section("RA", a.ra), Section("IE", a.ie), Section("HS", a.hs);
            && |c| == |h| + 3 + |ra| + 4 + |ie| + 6 + |hs|
            && c[|h| + 3..|h| + 3 + |ra|] == ra
            && c[|h| + 3 + |ra| + 4..|h| + 3 + |ra| + 4 + |ie|] == ie
            && c[|h| + 3 + |ra| + 4 + |ie| + 6..] == hs
  {
    TemplateLayout(Heading(axis, tier), Section("RA", a.ra), Section("IE", a.ie), Section("HS", a.hs));
  }

  // ---------------------------------------------------------------------------------------------
  // The task as a specification: its outcome, the Front calls it makes (one per `sendRequest`),
  // every effect, and how many scripted replies it consumes.

  datatype Run = Run(outcome: Result<(), Error>, calls: seq<Request>, events: seq<Event>, used: nat)

  /** A call that ends the task (it failed, or it was the last). */
  function Stop(request: Request, x: Exchange, outcome: Result<(), Error>): Run
  {
    Run(outcome, [request], x.events, x.used)
  }

  /** A call that succeeded, followed by the rest of the task. */
  function Then(request: Request, x: Exchange, rest: Run): Run
  {
    Run(rest.outcome, [request] + rest.calls, x.events + rest.events, x.used + rest.used)
  }

  function ScoreTagName(a: Assessment): string
  {
    "AXIS: " + FormatTenths(AxisOf(a))
  }

  function RangeTagName(a: Assessment): string
  {
    "AXIS Range: " + TierName(TierOf(AxisOf(a)))
  }

  function Comment(a: Assessment): string
  {
    CommentText(AxisOf(a), TierOf(AxisOf(a)), a)
  }

  /** What `createTag` gives the task: the error of its call, or the `id` of the response (or reading it fails on `null`). */
  function CreatedTag(x: Exchange): Result<Option<Json>, Error>
  {
    if x.outcome.Failure? then Failure(x.outcome.error) else TagIdOf(x.outcome.value)
  }

  function UpdateRequest(h: seq<(string, string)>, conversationId: string, a: Assessment): Request
  {
    UpdateConversationRequest(h, conversationId, AxisData(AxisOf(a), a.ra.score, a.ie.score, a.hs.score))
  }

  /** Step 1: `updateConversation` with the score and the three raw sub-scores. */
  function UpdateStep(replies: seq<Reply>, h: seq<(string, string)>, conversationId: string, a: Assessment): (p: Run)
    ensures p.used <= |replies|
  {
    var q := UpdateRequest(h, conversationId, a);
    var x := SendOutcome(replies, 1, q);
    if x.outcome.Failure? then Stop(q, x, Failure(x.outcome.error))
    else Then(q, x, ScoreTagStep(replies[x.used..], h, conversationId, a))
  }

  /** Step 2: `createTag("AXIS: <score>")`, keeping the id of the response. */
  function ScoreTagStep(replies: seq<Reply>, h: seq<(string, string)>, conversationId: string, a: Assessment): (p: Run)
    ensures p.used <= |replies|
  {
    var q := CreateTagRequest(h, ScoreTagName(a));
    var x := SendOutcome(replies, 1, q);
    if x.outcome.Failure? then Stop(q, x, Failure(x.outcome.error))
    else match TagIdOf(x.outcome.value)
      case Failure(e) => Stop(q, x, Failure(e))
      case Success(tagId) => Then(q, x, RangeTagStep(replies[x.used..], h, conversationId, a, tagId))
  }

  /** Step 3: `createTag("AXIS Range: <tier>")`. */
  function RangeTagStep(replies: seq<Reply>, h: seq<(string, string)>, conversationId: string, a: Assessment,
                        tagId: Option<Json>): (p: Run)
    ensures p.used <= |replies|
  {
    var q := CreateTagRequest(h, RangeTagName(a));
    var x := SendOutcome(replies, 1, q);
    if x.outcome.Failure? then Stop(q, x, Failure(x.outcome.error))
    else match TagIdOf(x.outcome.value)
      case Failure(e) => Stop(q, x, Failure(e))
      case Success(rangeTagId) => Then(q, x, AttachStep(replies[x.used..], h, conversationId, a, [tagId, rangeTagId]))
  }

  /** Step 4: `addTagsToConversation([tagId, axisRangeTagId])`. */
  function AttachStep(replies: seq<Reply>, h: seq<(string, string)>, conversationId: string, a: Assessment,
                      tagIds: seq<Option<Json>>): (p: Run)
    ensures p.used <= |replies|
  {
    var q := AddTagsRequest(h, conversationId, tagIds);
    var x := SendOutcome(replies, 1, q);
    if x.outcome.Failure? then Stop(q, x, Failure(x.outcome.error))
    else Then(q, x, CommentStep(replies[x.used..], h, conversationId, a))
  }

  /** Step 5: `addComment` with the report. */
  function CommentStep(replies: seq<Reply>, h: seq<(string, string)>, conversationId: string, a: Assessment): (p: Run)
    ensures p.used <= |replies|
  {
    var q := AddCommentRequest(h, conversationId, Comment(a));
    var x := SendOutcome(replies, 1, q);
    Stop(q, x, Unit(x.outcome))
  }

  /** `processConversation(message, conversationId)` with the client built from `apiKey`. */
  function Process(replies: seq<Reply>, llm: string -> Option<Assessment>, apiKey: string,
                   message: string, conversationId: string): (p: Run)
    ensures p.used <= |replies|
  {
    match llm(message)
    case None => Run(Success(()), [], [Prompted(message)], 0)
    case Some(a) =>
      var rest := UpdateStep(replies, AuthHeaders(apiKey), conversationId, a);
      Run(rest.outcome, rest.calls, [Prompted(message)] + rest.events, rest.used)
  }

  // ---------------------------------------------------------------------------------------------
  // What the task does.

  /** A failed assessment ends the task before any Front call: the conversation is left untouched. */
  lemma NullCompletionMakesNoCalls(replies: seq<Reply>, llm: string -> Option<Assessment>, apiKey: string,
                                   message: string, conversationId: string)
    requires llm(message) == None
    ensures var p := Process(replies, llm, apiKey, message, conversationId);
            && p.outcome == Success(()) && p.calls == [] && p.used == 0
            && p.events == [Prompted(message)] && Fetches(p.events) == []
  {
    assert Fetches([Prompted(message)]) == Fetches([]) + [];
  }

  /**
   * The fetches of a run, with retries of the same request merged, are exactly its calls, and
   * every fetch carries the client's headers.
   */
  ghost predicate Follows(p: Run, h: seq<(string, string)>)
  {
    var f := Fetches(p.events);
    && p.calls != [] && f != [] && f[0] == p.calls[0]
    && Collapse(f) == p.calls
    && forall i :: 0 <= i < |f| ==> f[i].headers == h
  }

  lemma StopFollows(replies: seq<Reply>, q: Request, outcome: Result<(), Error>, h: seq<(string, string)>)
    requires q.headers == h
    ensures Follows(Stop(q, SendOutcome(replies, 1, q), outcome), h)
  {
    var f := Fetches(SendOutcome(replies, 1, q).events);
    SendOutcomeFetchesRequest(replies, 1, q);
    CollapseRun(f, [], q);
    assert f + [] == f;
  }

  lemma ThenFollows(replies: seq<Reply>, q: Request, rest: Run, h: seq<(string, string)>)
    requires q.headers == h && Follows(rest, h) && rest.calls[0] != q
    ensures Follows(Then(q, SendOutcome(replies, 1, q), rest), h)
  {
    var x := SendOutcome(replies, 1, q);
    SendOutcomeFetchesRequest(replies, 1, q);
    FetchesAppend(x.events, rest.events);
    CollapseRun(Fetches(x.events), Fetches(rest.events), q);
    var f := Fetches(x.events) + Fetches(rest.events);
    assert forall i :: 0 <= i < |f| ==> f[i].headers == h by {
      forall i | 0 <= i < |f| ensures f[i].headers == h {
        if i >= |Fetches(x.events)| {
          assert f[i] == Fetches(rest.events)[i - |Fetches(x.events)|];
        }
      }
    }
  }

  /** The comment stage is exactly the add-comment call. */
  lemma CommentStepShape(replies: seq<Reply>, h: seq<(string, string)>, conversationId: string, a: Assessment)
    ensures var p := CommentStep(replies, h, conversationId, a);
            && Follows(p, h)
            && p.calls == [AddCommentRequest(h, conversationId, Comment(a))]
            && p.outcome == Unit(SendOutcome(replies, 1, AddCommentRequest(h, conversationId, Comment(a))).outcome)
  {
    var q := AddCommentRequest(h, conversationId, Comment(a));
    StopFollows(replies, q, Unit(SendOutcome(replies, 1, q).outcome), h);
  }

  lemma AttachStepFollows(replies: seq<Reply>, h: seq<(string, string)>, conversationId: string, a: Assessment,
                          tagIds: seq<Option<Json>>)
    ensures var p := AttachStep(replies, h, conversationId, a, tagIds);
            Follows(p, h) && p.calls[0] == AddTagsRequest(h, conversationId, tagIds)
  {
    var q := AddTagsRequest(h, conversationId, tagIds);
    var x := SendOutcome(replies, 1, q);
    if x.outcome.Failure? {
      StopFollows(replies, q, Failure(x.outcome.error), h);
    } else {
      var rest := CommentStep(replies[x.used..], h, conversationId, a);
      CommentStepShape(replies[x.used..], h, conversationId, a);
      assert rest.calls[0].body.value.members[0].0 == "body";
      ThenFollows(replies, q, rest, h);
    }
  }

  /**
   * Attach, then comment: a failing attach call is the last call and its error ends the task;
   * otherwise the comment call follows and decides the outcome.
   */
  lemma AttachStepShape(replies: seq<Reply>, h: seq<(string, string)>, conversationId: string, a: Assessment,
                        tagIds: seq<Option<Json>>)
    ensures var p := AttachStep(replies, h, conversationId, a, tagIds);
            var x := SendOutcome(replies, 1, AddTagsRequest(h, conversationId, tagIds));
            && 1 <= |p.calls| <= 2
            && p.calls[0] == AddTagsRequest(h, conversationId, tagIds)
            && (x.outcome.Failure? ==> |p.calls| == 1 && p.outcome == Failure(x.outcome.error))
            && (x.outcome.Success? ==>
                  && |p.calls| == 2
                  && p.calls[1] == AddCommentRequest(h, conversationId, Comment(a))
                  && p.outcome == Unit(SendOutcome(replies[x.used..], 1, p.calls[1]).outcome))
            && (p.outcome.Success? ==> |p.calls| == 2)
  {
    var x := SendOutcome(replies, 1, AddTagsRequest(h, conversationId, tagIds));
    if x.outcome.Success? {
      CommentStepShape(replies[x.used..], h, conversationId, a);
    }
  }

  lemma RangeTagStepFollows(replies: seq<Reply>, h: seq<(string, string)>, conversationId: string, a: Assessment,
                            tagId: Option<Json>)
    ensures var p := RangeTagStep(replies, h, conversationId, a, tagId);
            Follows(p, h) && p.calls[0] == CreateTagRequest(h, RangeTagName(a))
  {
    var q := CreateTagRequest(h, RangeTagName(a));
    var x := SendOutcome(replies, 1, q);
    if x.outcome.Failure? {
      StopFollows(replies, q, Failure(x.outcome.error), h);
    } else if TagIdOf(x.outcome.value).Failure? {
      StopFollows(replies, q, Failure(TagIdOf(x.outcome.value).error), h);
    } else {
      var rangeTagId := TagIdOf(x.outcome.value).value;
      var rest := AttachStep(replies[x.used..], h, conversationId, a, [tagId, rangeTagId]);
      AttachStepFollows(replies[x.used..], h, conversationId, a, [tagId, rangeTagId]);
      assert rest.calls[0].body.value.members[0].0 == "tag_ids";
      ThenFollows(replies, q, rest, h);
    }
  }

  /**
   * Range tag, attach, comment. The attach call carries the given score tag id and the `id` of the
   * range tag response; each failing call is the last call and its error ends the task.
   */
  lemma RangeTagStepShape(replies: seq<Reply>, h: seq<(string, string)>, conversationId: string, a: Assessment,
                          tagId: Option<Json>)
    ensures var p := RangeTagStep(replies, h, conversationId, a, tagId);
            var x := SendOutcome(replies, 1, CreateTagRequest(h, RangeTagName(a)));
            var t := CreatedTag(x);
            && 1 <= |p.calls| <= 3
            && p.calls[0] == CreateTagRequest(h, RangeTagName(a))
            && (t.Failure? ==> |p.calls| == 1 && p.outcome == Failure(t.error))
            && (t.Success? ==> (
                  var r := replies[x.used..];
                  var y := SendOutcome(r, 1, AddTagsRequest(h, conversationId, [tagId, t.value]));
                  && |p.calls| >= 2
                  && p.calls[1] == AddTagsRequest(h, conversationId, [tagId, t.value])
                  && (y.outcome.Failure? ==> |p.calls| == 2 && p.outcome == Failure(y.outcome.error))
                  && (y.outcome.Success? ==>
                        && |p.calls| == 3
                        && p.calls[2] == AddCommentRequest(h, conversationId, Comment(a))
                        && p.outcome == Unit(SendOutcome(r[y.used..], 1, p.calls[2]).outcome))))
            && (p.outcome.Success? ==> |p.calls| == 3)
  {
    var q := CreateTagRequest(h, RangeTagName(a));
    var x := SendOutcome(replies, 1, q);
    var t := CreatedTag(x);
    if t.Success? {
      var rest := AttachStep(replies[x.used..], h, conversationId, a, [tagId, t.value]);
      AttachStepShape(replies[x.used..], h, conversationId, a, [tagId, t.value]);
      assert RangeTagStep(replies, h, conversationId, a, tagId) == Then(q, x, rest);
    }
  }

  /** The score tag and the range tag are different tags, so the two create calls differ. */
  lemma TagRequestsDiffer(h: seq<(string, string)>, a: Assessment)
    ensures CreateTagRequest(h, ScoreTagName(a)) != CreateTagRequest(h, RangeTagName(a))
  {
    assert ScoreTagName(a)[4] == ':' && RangeTagName(a)[4] == ' ';
    TagPayloadRoundTrip(ScoreTagName(a));
    TagPayloadRoundTrip(RangeTagName(a));
  }

  lemma ScoreTagStepFollows(replies: seq<Reply>, h: seq<(string, string)>, conversationId: string, a: Assessment)
    ensures var p := ScoreTagStep(replies, h, conversationId, a);
            Follows(p, h) && p.calls[0] == CreateTagRequest(h, ScoreTagName(a))
  {
    var q := CreateTagRequest(h, ScoreTagName(a));
    var x := SendOutcome(replies, 1, q);
    if x.outcome.Failure? {
      StopFollows(replies, q, Failure(x.outcome.error), h);
    } else if TagIdOf(x.outcome.value).Failure? {
      StopFollows(replies, q, Failure(TagIdOf(x.outcome.value).error), h);
    } else {
      var tagId := TagIdOf(x.outcome.value).value;
      var rest := RangeTagStep(replies[x.used..], h, conversationId, a, tagId);
      RangeTagStepFollows(replies[x.used..], h, conversationId, a, tagId);
      TagRequestsDiffer(h, a);
      ThenFollows(replies, q, rest, h);
    }
  }

  /**
   * Score tag, range tag, attach, comment. The attach call carries the `id`s of the two tag
   * responses, score tag first; each failing call is the last call and its error ends the task.
   */
  lemma ScoreTagStepShape(replies: seq<Reply>, h: seq<(string, string)>, conversationId: string, a: Assessment)
    ensures var p := ScoreTagStep(replies, h, conversationId, a);
            var x := SendOutcome(replies, 1, CreateTagRequest(h, ScoreTagName(a)));
            var t := CreatedTag(x);
            && 1 <= |p.calls| <= 4
            && p.calls[0] == CreateTagRequest(h, ScoreTagName(a))
            && (t.Failure? ==> |p.calls| == 1 && p.outcome == Failure(t.error))
            && (t.Success? ==> (
                  var r := replies[x.used..];
                  var y := SendOutcome(r, 1, CreateTagRequest(h, RangeTagName(a)));
                  var u := CreatedTag(y);
                  && |p.calls| >= 2
                  && p.calls[1] == CreateTagRequest(h, RangeTagName(a))
                  && (u.Failure? ==> |p.calls| == 2 && p.outcome == Failure(u.error))
                  && (u.Success? ==> (
                        var r2 := r[y.used..];
                        var z := SendOutcome(r2, 1, AddTagsRequest(h, conversationId, [t.value, u.value]));
                        && |p.calls| >= 3
                        && p.calls[2] == AddTagsRequest(h, conversationId, [t.value, u.value])
                        && (z.outcome.Failure? ==> |p.calls| == 3 && p.outcome == Failure(z.outcome.error))
                        && (z.outcome.Success? ==>
                              && |p.calls| == 4
                              && p.calls[3] == AddCommentRequest(h, conversationId, Comment(a))
                              && p.outcome == Unit(SendOutcome(r2[z.used..], 1, p.calls[3]).outcome))))))
            && (p.outcome.Success? ==> |p.calls| == 4)
  {
    var q := CreateTagRequest(h, ScoreTagName(a));
    var x := SendOutcome(replies, 1, q);
    var t := CreatedTag(x);
    if t.Success? {
      var rest := RangeTagStep(replies[x.used..], h, conversationId, a, t.value);
      RangeTagStepShape(replies[x.used..], h, conversationId, a, t.value);
      assert ScoreTagStep(replies, h, conversationId, a) == Then(q, x, rest);
    }
  }

  lemma UpdateStepFollows(replies: seq<Reply>, h: seq<(string, string)>, conversationId: string, a: Assessment)
    ensures var p := UpdateStep(replies, h, conversationId, a);
            Follows(p, h) && p.calls[0] == UpdateRequest(h, conversationId, a)
  {
    var q := UpdateRequest(h, conversationId, a);
    var x := SendOutcome(replies, 1, q);
    if x.outcome.Failure? {
      StopFollows(replies, q, Failure(x.outcome.error), h);
    } else {
      var rest := ScoreTagStep(replies[x.used..], h, conversationId, a);
      ScoreTagStepFollows(replies[x.used..], h, conversationId, a);
      ThenFollows(replies, q, rest, h);
    }
  }

  /**
   * Update, score tag, range tag, attach, comment. The attach call carries the `id`s of the two tag
   * responses, score tag first; each failing call is the last call and its error ends the task.
   */
  lemma UpdateStepShape(replies: seq<Reply>, h: seq<(string, string)>, conversationId: string, a: Assessment)
    ensures var p := UpdateStep(replies, h, conversationId, a);
            var w := SendOutcome(replies, 1, UpdateRequest(h, conversationId, a));
            && 1 <= |p.calls| <= 5
            && p.calls[0] == UpdateRequest(h, conversationId, a)
            && (w.outcome.Failure? ==> |p.calls| == 1 && p.outcome == Failure(w.outcome.error))
            && (w.outcome.Success? ==> (
                  var r := replies[w.used..];
                  var x := SendOutcome(r, 1, CreateTagRequest(h, ScoreTagName(a)));
                  var t := CreatedTag(x);
                  && |p.calls| >= 2
                  && p.calls[1] == CreateTagRequest(h, ScoreTagName(a))
                  && (t.Failure? ==> |p.calls| == 2 && p.outcome == Failure(t.error))
                  && (t.Success? ==> (
                        var r2 := r[x.used..];
                        var y := SendOutcome(r2, 1, CreateTagRequest(h, RangeTagName(a)));
                        var u := CreatedTag(y);
                        && |p.calls| >= 3
                        && p.calls[2] == CreateTagRequest(h, RangeTagName(a))
                        && (u.Failure? ==> |p.calls| == 3 && p.outcome == Failure(u.error))
                        && (u.Success? ==> (
                              var r3 := r2[y.used..];
                              var z := SendOutcome(r3, 1, AddTagsRequest(h, conversationId, [t.value, u.value]));
                              && |p.calls| >= 4
                              && p.calls[3] == AddTagsRequest(h, conversationId, [t.value, u.value])
                              && (z.outcome.Failure? ==> |p.calls| == 4 && p.outcome == Failure(z.outcome.error))
                              && (z.outcome.Success? ==>
                                    && |p.calls| == 5
                                    && p.calls[4] == AddCommentRequest(h, conversationId, Comment(a))
                                    && p.outcome == Unit(SendOutcome(r3[z.used..], 1, p.calls[4]).outcome))))))))
            && (p.outcome.Success? ==> |p.calls| == 5)
  {
    var q := UpdateRequest(h, conversationId, a);
    var w := SendOutcome(replies, 1, q);
    if w.outcome.Success? {
      var rest := ScoreTagStep(replies[w.used..], h, conversationId, a);
      ScoreTagStepShape(replies[w.used..], h, conversationId, a);
      assert UpdateStep(replies, h, conversationId, a) == Then(q, w, rest);
    }
  }

  /**
   * With an assessment, the task makes at most five Front calls, in this order: update the custom
   * fields with the score and the raw sub-scores, create the "AXIS: <score>" tag, create the
   * "AXIS Range: <tier>" tag, attach the `id`s of the two tag responses, add the report. A failing
   * call (or a tag response of `null`) is the last call made and its error is the task's outcome;
   * the task succeeds only if it made all five and the comment call succeeded.
   */
  lemma ProcessCallOrder(replies: seq<Reply>, llm: string -> Option<Assessment>, apiKey: string,
                         message: string, conversationId: string, a: Assessment)
    requires llm(message) == Some(a)
    ensures var p := Process(replies, llm, apiKey, message, conversationId);
            var h := AuthHeaders(apiKey);
            var axis := CalculateAxisScore(a.ra.score, a.ie.score, a.hs.score);
            && p.events[0] == Prompted(message)
            && 1 <= |p.calls| <= 5
            && p.calls[0] == UpdateConversationRequest(h, conversationId, AxisData(axis, a.ra.score, a.ie.score, a.hs.score))
            && (|p.calls| > 1 ==> p.calls[1] == CreateTagRequest(h, "AXIS: " + FormatTenths(axis)))
            && (|p.calls| > 2 ==> p.calls[2] == CreateTagRequest(h, "AXIS Range: " + TierName(TierOf(axis))))
            && (|p.calls| > 4 ==> p.calls[4] == AddCommentRequest(h, conversationId, CommentText(axis, TierOf(axis), a)))
            && (p.outcome.Success? ==> |p.calls| == 5)
    ensures var p := Process(replies, llm, apiKey, message, conversationId);
            var h := AuthHeaders(apiKey);
            var w := SendOutcome(replies, 1, p.calls[0]);
            && (w.outcome.Failure? ==> |p.calls| == 1 && p.outcome == Failure(w.outcome.error))
            && (w.outcome.Success? ==> (
                  var r := replies[w.used..];
                  var x := SendOutcome(r, 1, CreateTagRequest(h, ScoreTagName(a)));
                  var t := CreatedTag(x);
                  && |p.calls| >= 2
                  && (t.Failure? ==> |p.calls| == 2 && p.outcome == Failure(t.error))
                  && (t.Success? ==> (
                        var r2 := r[x.used..];
                        var y := SendOutcome(r2, 1, CreateTagRequest(h, RangeTagName(a)));
                        var u := CreatedTag(y);
                        && |p.calls| >= 3
                        && (u.Failure? ==> |p.calls| == 3 && p.outcome == Failure(u.error))
                        && (u.Success? ==> (
                              var r3 := r2[y.used..];
                              var z := SendOutcome(r3, 1, AddTagsRequest(h, conversationId, [t.value, u.value]));
                              && |p.calls| >= 4
                              && p.calls[3] == AddTagsRequest(h, conversationId, [t.value, u.value])
                              && (z.outcome.Failure? ==> |p.calls| == 4 && p.outcome == Failure(z.outcome.error))
                              && (z.outcome.Success? ==>
                                    && |p.calls| == 5
                                    && p.outcome == Unit(SendOutcome(r3[z.used..], 1, p.calls[4]).outcome))))))))
  {
    UpdateStepShape(replies, AuthHeaders(apiKey), conversationId, a);
    var p := Process(replies, llm, apiKey, message, conversationId);
    var rest := UpdateStep(replies, AuthHeaders(apiKey), conversationId, a);
    assert p.calls == rest.calls && p.outcome == rest.outcome;
  }

  /**
   * A worked failure: the update is accepted and the score tag call is answered 500, so the task
   * stops after those two calls with the "Failed to update conversation" error; no tag is
   * attached and no comment is added.
   */
  lemma ScoreTagRejectedStops(replies: seq<Reply>, llm: string -> Option<Assessment>, apiKey: string,
                              message: string, conversationId: string, a: Assessment, body: Json)
    requires llm(message) == Some(a)
    requires |replies| >= 2 && replies[0] == Reply(200, "OK", Some(body)) && replies[1] == Reply(500, "Server Error", None)
    ensures var p := Process(replies, llm, apiKey, message, conversationId);
            && p.calls == [UpdateRequest(AuthHeaders(apiKey), conversationId, a), CreateTagRequest(AuthHeaders(apiKey), ScoreTagName(a))]
            && p.outcome == Failure(HttpError("Failed to update conversation: Server Error"))
            && p.used == 2
  {
    var h := AuthHeaders(apiKey);
    AcceptedCall(replies, UpdateRequest(h, conversationId, a));
    OtherErrorStopsAtOnce(replies[1..], 1, CreateTagRequest(h, ScoreTagName(a)));
    var score := ScoreTagStep(replies[1..], h, conversationId, a);
    assert "Failed to update conversation: " + "Server Error" == "Failed to update conversation: Server Error";
    assert score.calls == [CreateTagRequest(h, ScoreTagName(a))] && score.used == 1;
  }

  /**
   * Retries do not hide or add calls: merging repeated fetches of one request gives exactly the
   * calls, in order, and every fetch carries `Bearer <apiKey>` and the JSON content type.
   */
  lemma ProcessFetchesFollowCalls(replies: seq<Reply>, llm: string -> Option<Assessment>, apiKey: string,
                                  message: string, conversationId: string)
    ensures var p := Process(replies, llm, apiKey, message, conversationId);
            var f := Fetches(p.events);
            && Collapse(f) == p.calls
            && forall i :: 0 <= i < |f| ==>
                 f[i].headers == [("Authorization", "Bearer " + apiKey), ("Content-Type", "application/json")]
  {
    var p := Process(replies, llm, apiKey, message, conversationId);
    assert Fetches([Prompted(message)]) == [];
    match llm(message)
    case None =>
    case Some(a) =>
      var rest := UpdateStep(replies, AuthHeaders(apiKey), conversationId, a);
      UpdateStepFollows(replies, AuthHeaders(apiKey), conversationId, a);
      FetchesAppend([Prompted(message)], rest.events);
      assert Fetches(p.events) == Fetches(rest.events);
  }

  /** The first `n` replies all accept their call with a body. */
  predicate AcceptedReplies(replies: seq<Reply>, n: nat)
  {
    && |replies| >= n
    && forall i :: 0 <= i < n ==>
         replies[i].Reply? && IsOk(replies[i].status) && replies[i].status != NoContent && replies[i].body.Some?
  }

  /** One accepted reply answers a call on its first attempt. */
  lemma AcceptedCall(replies: seq<Reply>, request: Request)
    requires AcceptedReplies(replies, 1)
    ensures var x := SendOutcome(replies, 1, request);
            x.outcome == Success(replies[0].body.value) && x.used == 1
  {
    RetriesThenSuccess(replies, request, 0, replies[0].body.value);
  }

  lemma AttachAccepted(replies: seq<Reply>, h: seq<(string, string)>, conversationId: string, a: Assessment,
                       tagIds: seq<Option<Json>>)
    requires AcceptedReplies(replies, 2)
    ensures var p := AttachStep(replies, h, conversationId, a, tagIds);
            p.outcome == Success(()) && |p.calls| == 2 && p.used == 2
  {
    AcceptedCall(replies, AddTagsRequest(h, conversationId, tagIds));
    assert AcceptedReplies(replies[1..], 1);
    AcceptedCall(replies[1..], AddCommentRequest(h, conversationId, Comment(a)));
  }

  lemma RangeTagAccepted(replies: seq<Reply>, h: seq<(string, string)>, conversationId: string, a: Assessment,
                         tagId: Option<Json>)
    requires AcceptedReplies(replies, 3) && replies[0].body.value.JObj?
    ensures var p := RangeTagStep(replies, h, conversationId, a, tagId);
            && p.outcome == Success(()) && |p.calls| == 3 && p.used == 3
            && p.calls[1] == AddTagsRequest(h, conversationId, [tagId, Find(replies[0].body.value.members, "id")])
  {
    var tagIds := [tagId, Find(replies[0].body.value.members, "id")];
    var q := CreateTagRequest(h, RangeTagName(a));
    AcceptedCall(replies, q);
    assert TagIdOf(SendOutcome(replies, 1, q).outcome.value) == Success(tagIds[1]);
    assert AcceptedReplies(replies[1..], 2);
    AttachAccepted(replies[1..], h, conversationId, a, tagIds);
    var rest := AttachStep(replies[1..], h, conversationId, a, tagIds);
    assert RangeTagStep(replies, h, conversationId, a, tagId) == Then(q, SendOutcome(replies, 1, q), rest);
  }

  lemma ScoreTagAccepted(replies: seq<Reply>, h: seq<(string, string)>, conversationId: string, a: Assessment)
    requires AcceptedReplies(replies, 4) && replies[0].body.value.JObj? && replies[1].body.value.JObj?
    ensures var p := ScoreTagStep(replies, h, conversationId, a);
            && p.outcome == Success(()) && |p.calls| == 4 && p.used == 4
            && p.calls[2] == AddTagsRequest(h, conversationId,
                                            [Find(replies[0].body.value.members, "id"), Find(replies[1].body.value.members, "id")])
  {
    var q := CreateTagRequest(h, ScoreTagName(a));
    var tagId := Find(replies[0].body.value.members, "id");
    AcceptedCall(replies, q);
    assert TagIdOf(SendOutcome(replies, 1, q).outcome.value) == Success(tagId);
    assert AcceptedReplies(replies[1..], 3);
    RangeTagAccepted(replies[1..], h, conversationId, a, tagId);
    var rest := RangeTagStep(replies[1..], h, conversationId, a, tagId);
    assert ScoreTagStep(replies, h, conversationId, a) == Then(q, SendOutcome(replies, 1, q), rest);
  }

  lemma UpdateAccepted(replies: seq<Reply>, h: seq<(string, string)>, conversationId: string, a: Assessment)
    requires AcceptedReplies(replies, 5) && replies[1].body.value.JObj? && replies[2].body.value.JObj?
    ensures var p := UpdateStep(replies, h, conversationId, a);
            && p.outcome == Success(()) && |p.calls| == 5 && p.used == 5
            && p.calls[3] == AddTagsRequest(h, conversationId,
                                            [Find(replies[1].body.value.members, "id"), Find(replies[2].body.value.members, "id")])
  {
    var q := UpdateRequest(h, conversationId, a);
    AcceptedCall(replies, q);
    assert AcceptedReplies(replies[1..], 4);
    ScoreTagAccepted(replies[1..], h, conversationId, a);
    var rest := ScoreTagStep(replies[1..], h, conversationId, a);
    assert UpdateStep(replies, h, conversationId, a) == Then(q, SendOutcome(replies, 1, q), rest);
  }

  /**
   * The happy path: when the first five replies are all accepted with a body, and both tag
   * responses are objects, the task succeeds after exactly five calls, consuming five replies, and
   * attaches the two `id`s the tag responses carry, score tag first.
   */
  lemma ProcessAcceptedCompletes(replies: seq<Reply>, llm: string -> Option<Assessment>, apiKey: string,
                                 message: string, conversationId: string, a: Assessment)
    requires llm(message) == Some(a)
    requires AcceptedReplies(replies, 5)
    requires replies[1].body.value.JObj? && replies[2].body.value.JObj?
    ensures var p := Process(replies, llm, apiKey, message, conversationId);
            && p.outcome == Success(())
            && |p.calls| == 5 && p.used == 5
            && p.calls[3] == AddTagsRequest(AuthHeaders(apiKey), conversationId,
                                            [Find(replies[1].body.value.members, "id"), Find(replies[2].body.value.members, "id")])
  {
    UpdateAccepted(replies, AuthHeaders(apiKey), conversationId, a);
  }

  /**
   * A worked example: scores 4, 4.5 and 3 give 3.8333…, shown as 3.8, in the Fair tier, so the two
   * tags are "AXIS: 3.8" and "AXIS Range: Fair".
   */
  lemma ExampleTagNames(explanation: string)
    ensures var a := Assessment(Dimension(40, explanation), Dimension(45, explanation), Dimension(30, explanation));
            && AxisOf(a) == 38
            && ScoreTagName(a) == "AXIS: 3.8"
            && RangeTagName(a) == "AXIS Range: Fair"
  {
    var a := Assessment(Dimension(40, explanation), Dimension(45, explanation), Dimension(30, explanation));
    assert AxisOf(a) == 38;
    assert FormatTenths(38) == "3.8";
  }

  /**
   * The end-to-end scenario: scores 4, 5 and 3 give 4, in the Excellent tier; with five accepted
   * replies the task makes the five calls, tags "AXIS: 4" and "AXIS Range: Excellent", and the
   * report opens with "AXIS score: **4** - Excellent".
   */
  lemma ExampleScenario(replies: seq<Reply>, llm: string -> Option<Assessment>, apiKey: string, message: string,
                        a: Assessment)
    requires a.ra.score == 40 && a.ie.score == 50 && a.hs.score == 30
    requires llm(message) == Some(a)
    requires AcceptedReplies(replies, 5)
    requires replies[1].body.value.JObj? && replies[2].body.value.JObj?
    ensures var p := Process(replies, llm, apiKey, message, "cnv_123");
            var h := AuthHeaders(apiKey);
            && p.outcome == Success(()) && |p.calls| == 5
            && p.calls[1] == CreateTagRequest(h, "AXIS: 4")
            && p.calls[2] == CreateTagRequest(h, "AXIS Range: Excellent")
            && p.calls[4] == AddCommentRequest(h, "cnv_123", Comment(a))
    ensures Comment(a)[..29] == "AXIS score: **4** - Excellent"
  {
    ExampleScenarioTexts(a);
    ProcessAcceptedCompletes(replies, llm, apiKey, message, "cnv_123", a);
    ProcessCallOrder(replies, llm, apiKey, message, "cnv_123", a);
  }

  lemma ExampleScenarioTexts(a: Assessment)
    requires a.ra.score == 40 && a.ie.score == 50 && a.hs.score == 30
    ensures AxisOf(a) == 40 && TierOf(AxisOf(a)) == Excellent
    ensures ScoreTagName(a) == "AXIS: 4" && RangeTagName(a) == "AXIS Range: Excellent"
    ensures Comment(a)[..29] == "AXIS score: **4** - Excellent"
  {
    assert AxisOf(a) == 40;
    ExampleHeading();
    CommentHeadingLine(40, Excellent, a);
  }

  lemma ExampleHeading()
    ensures FormatTenths(40) == "4"
    ensures Heading(40, Excellent) == "AXIS score: **4** - Excellent"
  {
    assert FormatTenths(40) == "4";
  }

  // ---------------------------------------------------------------------------------------------
  // The task as the program runs it.

  /**
   * `processConversation`: ask the model for an assessment, then make the five Front calls one
   * after the other. A call that fails ends the task with its error (the rejected promise).
   */
  method ProcessConversation(rt: Runtime, apiKey: string, message: string, conversationId: string)
    returns (r: Result<(), Error>)
    modifies rt
    ensures var p := Process(old(rt.replies), rt.llm, apiKey, message, conversationId);
            && r == p.outcome
            && rt.trace == old(rt.trace) + p.events
            && rt.replies == old(rt.replies)[p.used..]
  {
    var completion := rt.Generate(message);
    if completion.None? {
      return Success(());
    }
    var a := completion.value;
    var front := new Front(apiKey);
    var axis := CalculateAxisScore(a.ra.score, a.ie.score, a.hs.score);
    ghost var r0 := rt.replies;
    ghost var p := UpdateStep(r0, front.headers, conversationId, a);
    ProcessUnfolds(r0, rt.llm, apiKey, message, conversationId, a);
    r := Update(rt, front, conversationId, a, axis);
    PromptedFirst(old(rt.trace), message, p.events, rt.trace);
  }

  /** With an assessment, the task is the prompt followed by the update stage and what comes after it. */
  lemma ProcessUnfolds(replies: seq<Reply>, llm: string -> Option<Assessment>, apiKey: string,
                       message: string, conversationId: string, a: Assessment)
    requires llm(message) == Some(a)
    ensures var p := UpdateStep(replies, AuthHeaders(apiKey), conversationId, a);
            Process(replies, llm, apiKey, message, conversationId) == Run(p.outcome, p.calls, [Prompted(message)] + p.events, p.used)
  {
  }

  lemma PromptedFirst(t0: seq<Event>, message: string, events: seq<Event>, t2: seq<Event>)
    requires t2 == t0 + [Prompted(message)] + events
    ensures t2 == t0 + ([Prompted(message)] + events)
  {
  }

  // The five awaited calls of the task, each followed by the rest of it; each method is proved
  // against the step function of the same stage. `axis` is the score computed once for the task.

  method Update(rt: Runtime, front: Front, conversationId: string, a: Assessment, axis: SubScore)
    returns (r: Result<(), Error>)
    requires axis == AxisOf(a)
    modifies rt
    ensures var p := UpdateStep(old(rt.replies), front.headers, conversationId, a);
            && r == p.outcome && rt.trace == old(rt.trace) + p.events && rt.replies == old(rt.replies)[p.used..]
  {
    ghost var t0, r0 := rt.trace, rt.replies;
    ghost var q := UpdateRequest(front.headers, conversationId, a);
    ghost var x := SendOutcome(r0, 1, q);
    r := front.UpdateConversation(rt, conversationId, AxisData(axis, a.ra.score, a.ie.score, a.hs.score));
    if r.Failure? {
      assert UpdateStep(r0, front.headers, conversationId, a) == Stop(q, x, Failure(x.outcome.error));
      return;
    }
    ghost var t1, r1 := rt.trace, rt.replies;
    ghost var rest := ScoreTagStep(r1, front.headers, conversationId, a);
    assert UpdateStep(r0, front.headers, conversationId, a) == Then(q, x, rest);
    r := ScoreTag(rt, front, conversationId, a, axis);
    Sequenced(t0, r0, x, rest, t1, r1, rt.trace, rt.replies);
  }

  method ScoreTag(rt: Runtime, front: Front, conversationId: string, a: Assessment, axis: SubScore)
    returns (r: Result<(), Error>)
    requires axis == AxisOf(a)
    modifies rt
    ensures var p := ScoreTagStep(old(rt.replies), front.headers, conversationId, a);
            && r == p.outcome && rt.trace == old(rt.trace) + p.events && rt.replies == old(rt.replies)[p.used..]
  {
    ghost var t0, r0 := rt.trace, rt.replies;
    ghost var q := CreateTagRequest(front.headers, ScoreTagName(a));
    ghost var x := SendOutcome(r0, 1, q);
    var tagId := front.CreateTag(rt, "AXIS: " + FormatTenths(axis));
    if tagId.Failure? {
      assert ScoreTagStep(r0, front.headers, conversationId, a) == Stop(q, x, Failure(tagId.error));
      return Failure(tagId.error);
    }
    ghost var t1, r1 := rt.trace, rt.replies;
    ghost var rest := RangeTagStep(r1, front.headers, conversationId, a, tagId.value);
    assert ScoreTagStep(r0, front.headers, conversationId, a) == Then(q, x, rest);
    r := RangeTag(rt, front, conversationId, a, axis, tagId.value);
    Sequenced(t0, r0, x, rest, t1, r1, rt.trace, rt.replies);
  }

  method RangeTag(rt: Runtime, front: Front, conversationId: string, a: Assessment, axis: SubScore, tagId: Option<Json>)
    returns (r: Result<(), Error>)
    requires axis == AxisOf(a)
    modifies rt
    ensures var p := RangeTagStep(old(rt.replies), front.headers, conversationId, a, tagId);
            && r == p.outcome && rt.trace == old(rt.trace) + p.events && rt.replies == old(rt.replies)[p.used..]
  {
    ghost var t0, r0 := rt.trace, rt.replies;
    ghost var q := CreateTagRequest(front.headers, RangeTagName(a));
    ghost var x := SendOutcome(r0, 1, q);
    var axisRange := TierOf(axis);
    var axisRangeTagId := front.CreateTag(rt, "AXIS Range: " + TierName(axisRange));
    if axisRangeTagId.Failure? {
      assert RangeTagStep(r0, front.headers, conversationId, a, tagId) == Stop(q, x, Failure(axisRangeTagId.error));
      return Failure(axisRangeTagId.error);
    }
    ghost var t1, r1 := rt.trace, rt.replies;
    ghost var rest := AttachStep(r1, front.headers, conversationId, a, [tagId, axisRangeTagId.value]);
    assert RangeTagStep(r0, front.headers, conversationId, a, tagId) == Then(q, x, rest);
    r := Attach(rt, front, conversationId, a, axis, [tagId, axisRangeTagId.value]);
    Sequenced(t0, r0, x, rest, t1, r1, rt.trace, rt.replies);
  }

  method Attach(rt: Runtime, front: Front, conversationId: string, a: Assessment, axis: SubScore,
                tagIds: seq<Option<Json>>)
    returns (r: Result<(), Error>)
    requires axis == AxisOf(a)
    modifies rt
    ensures var p := AttachStep(old(rt.replies), front.headers, conversationId, a, tagIds);
            && r == p.outcome && rt.trace == old(rt.trace) + p.events && rt.replies == old(rt.replies)[p.used..]
  {
    ghost var t0, r0 := rt.trace, rt.replies;
    ghost var q := AddTagsRequest(front.headers, conversationId, tagIds);
    ghost var x := SendOutcome(r0, 1, q);
    r := front.AddTagsToConversation(rt, conversationId, tagIds);
    if r.Failure? {
      assert AttachStep(r0, front.headers, conversationId, a, tagIds) == Stop(q, x, Failure(x.outcome.error));
      return;
    }
    ghost var t1, r1 := rt.trace, rt.replies;
    ghost var rest := CommentStep(r1, front.headers, conversationId, a);
    assert AttachStep(r0, front.headers, conversationId, a, tagIds) == Then(q, x, rest);
    r := front.AddComment(rt, conversationId, CommentText(axis, TierOf(axis), a));
    Sequenced(t0, r0, x, rest, t1, r1, rt.trace, rt.replies);
  }

  /** Two stages run one after the other: their events and their consumed replies add up. */
  lemma Sequenced(t0: seq<Event>, r0: seq<Reply>, x: Exchange, rest: Run,
                  t1: seq<Event>, r1: seq<Reply>, t2: seq<Event>, r2: seq<Reply>)
    requires x.used <= |r0| && t1 == t0 + x.events && r1 == r0[x.used..]
    requires rest.used <= |r1| && t2 == t1 + rest.events && r2 == r1[rest.used..]
    ensures t2 == t0 + (x.events + rest.events) && r2 == r0[x.used + rest.used..]
  {
    assert t0 + x.events + rest.events == t0 + (x.events + rest.events);
  }
}
