/**
 * The world outside the handler, made explicit: the remote API answering `fetch` (a finite list of
 * scripted replies), the timer behind `setTimeout`, the language model, and the runtime's
 * `waitUntil`. Every effect is appended to a trace, so the order of calls can be stated and proved.
 */
module Effects {
  import opened Wrappers
  import opened Json
  import opened Llm

  datatype Method = GET | POST | PATCH

  /** What `fetch` is given: the full URL, the method, the header object and the value that `JSON.stringify` turned into the body. */
  datatype Request = Request(url: string, verb: Method, headers: seq<(string, string)>, body: Option<Json>)

  /** What `fetch` resolves to (status, status text, body; None for a body that is not JSON), or a rejected `fetch`. */
  datatype Reply = Reply(status: int, statusText: string, body: Option<Json>) | FetchRejected

  /** A background task handed to `waitUntil`. */
  datatype Task = ProcessConversation(message: string, conversationId: string)

  datatype Event =
    | Fetched(request: Request)
    | Slept(ms: nat)
    | Prompted(prompt: string)
    | Scheduled(task: Task)

  class Runtime {
    /** The replies the remote API still has to give, in order. */
    var replies: seq<Reply>
    /** Every effect so far, oldest first. */
    var trace: seq<Event>
    /** The language model: the assessment it returns for a prompt, or None when the call fails. */
    const llm: string -> Option<Assessment>

    constructor (replies: seq<Reply>, llm: string -> Option<Assessment>)
      ensures this.replies == replies && this.llm == llm && trace == []
    {
      this.replies := replies;
      this.llm := llm;
      trace := [];
    }

    /** Sends a request; the answer is the next scripted reply, None once the script is used up. */
    method Fetch(request: Request) returns (reply: Option<Reply>)
      modifies this
      ensures trace == old(trace) + [Fetched(request)]
      ensures old(replies) == [] ==> reply == None && replies == []
      ensures old(replies) != [] ==> reply == Some(old(replies)[0]) && replies == old(replies)[1..]
    {
      trace := trace + [Fetched(request)];
      if replies == [] {
        reply := None;
      } else {
        reply := Some(replies[0]);
        replies := replies[1..];
      }
    }

    method Sleep(ms: nat)
      modifies this
      ensures trace == old(trace) + [Slept(ms)] && replies == old(replies)
    {
      trace := trace + [Slept(ms)];
    }

    method Generate(prompt: string) returns (completion: Option<Assessment>)
      modifies this
      ensures completion == llm(prompt)
      ensures trace == old(trace) + [Prompted(prompt)] && replies == old(replies)
    {
      trace := trace + [Prompted(prompt)];
      completion := llm(prompt);
    }

    method Schedule(task: Task)
      modifies this
      ensures trace == old(trace) + [Scheduled(task)] && replies == old(replies)
    {
      trace := trace + [Scheduled(task)];
    }
  }

  /** The requests sent, in order. */
  function Fetches(events: seq<Event>): (r: seq<Request>)
  {
    if events == [] then []
    else (if events[0].Fetched? then [events[0].request] else []) + Fetches(events[1..])
  }

  /** The delays waited, in order. */
  function Delays(events: seq<Event>): (r: seq<nat>)
  {
    if events == [] then []
    else (if events[0].Slept? then [events[0].ms] else []) + Delays(events[1..])
  }

  lemma {:induction false} FetchesAppend(a: seq<Event>, b: seq<Event>)
    ensures Fetches(a + b) == Fetches(a) + Fetches(b)
  {
    if a == [] {
      assert a + b == b;
    } else {
      assert (a + b)[0] == a[0] && (a + b)[1..] == a[1..] + b;
      FetchesAppend(a[1..], b);
    }
  }

  lemma {:induction false} DelaysAppend(a: seq<Event>, b: seq<Event>)
    ensures Delays(a + b) == Delays(a) + Delays(b)
  {
    if a == [] {
      assert a + b == b;
    } else {
      assert (a + b)[0] == a[0] && (a + b)[1..] == a[1..] + b;
      DelaysAppend(a[1..], b);
    }
  }

  /** The sequence with each run of equal neighbours kept once: the distinct calls behind repeated fetches. */
  function Collapse<T(==)>(s: seq<T>): (r: seq<T>)
  {
    if |s| <= 1 then s
    else if s[0] == s[1] then Collapse(s[1..])
    else [s[0]] + Collapse(s[1..])
  }

  /** A non-empty run of `x`, followed by something that does not start with `x`, collapses to one `x`. */
  lemma {:induction false} CollapseRun<T>(a: seq<T>, b: seq<T>, x: T)
    requires a != [] && forall i :: 0 <= i < |a| ==> a[i] == x
    requires b == [] || b[0] != x
    ensures Collapse(a + b) == [x] + Collapse(b)
    decreases |a|
  {
    var s := a + b;
    if |a| == 1 {
      assert s == [x] + b;
      if b == [] {
        assert s == [x];
      } else {
        assert s[1] == b[0] && s[1..] == b;
      }
    } else {
      assert s[0] == x && s[1] == a[1] == x;
      assert s[1..] == a[1..] + b;
      CollapseRun(a[1..], b, x);
    }
  }
}
