/**
 The bounded tool-calling loop of an agent that does not stream: what it sends to the
 model, what it records, and how it ends.
 */
module ToolLoop {
  import opened Wrappers

  datatype ToolCall = ToolCall(id: string, name: string, arguments: string)

  /** `Earlier` stands for the system prompt, the caller's history and the query. */
  datatype Message = Earlier(text: string) | Assistant(calls: seq<ToolCall>) | ToolReply(id: string, content: string)

  datatype Response = Response(toolCalls: seq<ToolCall>, content: Option<string>)

  datatype Event =
    | CallEvent(call: ToolCall)
    | ResultEvent(name: string)
    | ErrorEvent(stage: string)
    | RequestEvent
    | ResponseEvent
    | RunEnd(success: bool)

  // ----- The environment -----

  datatype Preparation = Prepared(arguments: string) | Barred(error: string) | PreparationRaises
  datatype Dispatch = Output(text: string) | DispatchRaises

  /** Everything outside the loop, consulted at increasing ticks. Request hooks may block but do not replace. */
  datatype Env = Env(
    decodes: string -> bool,
    jsonError: string -> string,
    prepare: (nat, ToolCall) -> Preparation,
    dispatch: (nat, string, string) -> Dispatch,
    requestHook: nat -> Option<string>,
    model: (nat, seq<Message>) -> Option<Response>,
    modelError: nat -> string,
    guardReply: (nat, Option<string>) -> Option<string>)

  /** The agent's state: its messages, the calls it recorded, its trace and the histories it sent. */
  datatype Talk = Talk(
    messages: seq<Message>, toolCalls: seq<ToolCall>, trace: seq<Event>, requests: seq<seq<Message>>, clock: nat)

  datatype Ending = Returned(text: Option<string>) | Escaped

  function Noted(t: Talk, e: Event): Talk {
    t.(trace := t.trace + [e])
  }

  function Replied(t: Talk, id: string, content: string): Talk {
    t.(messages := t.messages + [ToolReply(id, content)])
  }

  // ----- One tool call -----

  /** The talk afterwards, and whether the tool was dispatched; None when an exception escapes. */
  function HandleCall(env: Env, t: Talk, c: ToolCall): (Talk, Option<bool>) {
    var t1 := Noted(t.(toolCalls := t.toolCalls + [c], clock := t.clock + 1), CallEvent(c));
    if !env.decodes(c.arguments) then
      (Replied(Noted(t1, ErrorEvent("tool_arguments")), c.id, env.jsonError(c.arguments)), Some(false))
    else
      match env.prepare(t.clock, c)
      case PreparationRaises => (t1, None)
      case Barred(error) => (Replied(Noted(t1, ErrorEvent("tool_guardrail")), c.id, error), Some(false))
      case Prepared(arguments) =>
        match env.dispatch(t.clock, c.name, arguments)
        case DispatchRaises => (t1, None)
        case Output(text) => (Replied(Noted(t1, ResultEvent(c.name)), c.id, text), Some(true))
  }

  /** All calls of an answer, with the name of the last one dispatched. */
  function HandleCalls(env: Env, t: Talk, calls: seq<ToolCall>, last: string): (Talk, Option<string>)
    decreases |calls|
  {
    if calls == [] then (t, Some(last))
    else
      var (t1, dispatched) := HandleCall(env, t, calls[0]);
      if dispatched.None? then (t1, None)
      else HandleCalls(env, t1, calls[1..], if dispatched.value then calls[0].name else last)
  }

  /** The talk once an answer with calls has joined the messages. */
  function Heard(t: Talk, calls: seq<ToolCall>): Talk {
    t.(messages := t.messages + [Assistant(calls)])
  }

  // ----- Requests and rounds -----

  datatype Reply = Answer(response: Response) | Stopped(error: string)

  /** Sends the whole history, unless a hook blocks the request or the client raises. */
  function Ask(env: Env, t: Talk): (Talk, Reply) {
    var t1 := t.(clock := t.clock + 1);
    if env.requestHook(t.clock).Some? then (Noted(t1, RunEnd(false)), Stopped(env.requestHook(t.clock).value))
    else
      var t2 := Noted(t1.(requests := t.requests + [t.messages]), RequestEvent);
      match env.model(t.clock, t.messages)
      case None => (Noted(Noted(t2, ErrorEvent("model_request")), RunEnd(false)), Stopped(env.modelError(t.clock)))
      case Some(response) => (t2, Answer(response))
  }

  const GuardrailPrefix := "[LA-GUARDRAIL]"

  function Conclude(env: Env, t: Talk, content: Option<string>): (Talk, Ending) {
    var reply := env.guardReply(t.clock, content);
    var t1 := Noted(t.(clock := t.clock + 1), ResponseEvent);
    if reply.Some? && GuardrailPrefix <= reply.value then
      (Noted(Noted(t1, ErrorEvent("output_guardrail")), RunEnd(false)), Returned(reply))
    else (Noted(t1, RunEnd(true)), Returned(reply))
  }

  /** The answer in hand and up to `left` turns on it and what follows. */
  function Rounds(env: Env, t: Talk, response: Response, left: nat): (Talk, Ending)
    decreases left, 0
  {
    if left == 0 then
      (Noted(Noted(t, ErrorEvent("max_retry")), RunEnd(false)), Returned(Some("Failed to generate a valid response.")))
    else if response.toolCalls == [] then Conclude(env, t, response.content)
    else
      var (t1, last) := HandleCalls(env, Heard(t, response.toolCalls), response.toolCalls, "");
      if last.None? then (t1, Escaped)
      else if last.value == "finish" then (Noted(t1, RunEnd(true)), Returned(None))
      else Converse(env, t1, left - 1)
  }

  /** Asks the model, and works on its answer. */
  function Converse(env: Env, t: Talk, left: nat): (Talk, Ending)
    decreases left, 1
  {
    var (t1, reply) := Ask(env, t);
    match reply
    case Stopped(error) => (t1, Returned(Some(error)))
    case Answer(response) => Rounds(env, t1, response, left)
  }

  // ----- The agent -----

  class ToolAgent {
    var messages: seq<Message>
    var currentToolCalls: seq<ToolCall>
    var trace: seq<Event>
    var requests: seq<seq<Message>>
    var clock: nat

    constructor (earlier: seq<Message>)
      ensures State() == Talk(earlier, [], [], [], 0)
    {
      messages, currentToolCalls, trace, requests, clock := earlier, [], [], [], 0;
    }

    ghost function State(): Talk
      reads this
    {
      Talk(messages, currentToolCalls, trace, requests, clock)
    }

    /** The calls of one answer, each answered by a message; None when an exception escapes. */
    method CallTools(env: Env, toolCalls: seq<ToolCall>) returns (last: Option<string>)
      modifies this
      ensures (State(), last) == HandleCalls(env, old(State()), toolCalls, "")
    {
      var functionCallName := "";
      for i := 0 to |toolCalls|
        invariant HandleCalls(env, State(), toolCalls[i..], functionCallName) == HandleCalls(env, old(State()), toolCalls, "")
      {
        var toolCall := toolCalls[i];
        assert toolCalls[i..][0] == toolCall && toolCalls[i..][1..] == toolCalls[i + 1..];
        var tick := clock;
        currentToolCalls, trace, clock := currentToolCalls + [toolCall], trace + [CallEvent(toolCall)], clock + 1;
        if !env.decodes(toolCall.arguments) {
          trace := trace + [ErrorEvent("tool_arguments")];
          messages := messages + [ToolReply(toolCall.id, env.jsonError(toolCall.arguments))];
          continue;
        }
        var preparation := env.prepare(tick, toolCall);
        if preparation.PreparationRaises? {
          return None;
        }
        if preparation.Barred? {
          trace := trace + [ErrorEvent("tool_guardrail")];
          messages := messages + [ToolReply(toolCall.id, preparation.error)];
          continue;
        }
        var output := env.dispatch(tick, toolCall.name, preparation.arguments);
        if output.DispatchRaises? {
          return None;
        }
        functionCallName := toolCall.name;
        trace := trace + [ResultEvent(toolCall.name)];
        messages := messages + [ToolReply(toolCall.id, output.text)];
      }
      last := Some(functionCallName);
    }

    method RequestModel(env: Env) returns (reply: Reply)
      modifies this
      ensures (State(), reply) == Ask(env, old(State()))
    {
      var tick := clock;
      clock := clock + 1;
      var blocked := env.requestHook(tick);
      if blocked.Some? {
        trace := trace + [RunEnd(false)];
        return Stopped(blocked.value);
      }
      requests, trace := requests + [messages], trace + [RequestEvent];
      var response := env.model(tick, messages);
      if response.None? {
        trace := trace + [ErrorEvent("model_request")];
        trace := trace + [RunEnd(false)];
        return Stopped(env.modelError(tick));
      }
      reply := Answer(response.value);
    }

    method RunNonStream(env: Env, first: Response, maxRetry: nat) returns (ending: Ending)
      modifies this
      ensures (State(), ending) == Rounds(env, old(State()), first, maxRetry)
    {
      var response := first;
      for i := 0 to maxRetry
        invariant Rounds(env, State(), response, maxRetry - i) == Rounds(env, old(State()), first, maxRetry)
      {
        if response.toolCalls == [] {
          var reply := env.guardReply(clock, response.content);
          clock, trace := clock + 1, trace + [ResponseEvent];
          if reply.Some? && GuardrailPrefix <= reply.value {
            trace := trace + [ErrorEvent("output_guardrail")];
            trace := trace + [RunEnd(false)];
            return Returned(reply);
          }
          trace := trace + [RunEnd(true)];
          return Returned(reply);
        }
        messages := messages + [Assistant(response.toolCalls)];
        var last := CallTools(env, response.toolCalls);
        if last.None? {
          return Escaped;
        }
        if last.value == "finish" {
          trace := trace + [RunEnd(true)];
          return Returned(None);
        }
        var reply := RequestModel(env);
        if reply.Stopped? {
          return Returned(Some(reply.error));
        }
        response := reply.response;
      }
      trace := trace + [ErrorEvent("max_retry")];
      trace := trace + [RunEnd(false)];
      ending := Returned(Some("Failed to generate a valid response."));
    }

    method Run(env: Env, maxRetry: nat) returns (ending: Ending)
      modifies this
      ensures (State(), ending) == Converse(env, old(State()), maxRetry)
    {
      var reply := RequestModel(env);
      if reply.Stopped? {
        return Returned(Some(reply.error));
      }
      ending := RunNonStream(env, reply.response, maxRetry);
    }
  }

  // ----- Well-formed histories -----

  /** The replies to these calls, in order. */
  predicate Replies(calls: seq<ToolCall>, replies: seq<Message>) {
    |replies| == |calls| && forall k | 0 <= k < |calls| :: replies[k].ToolReply? && replies[k].id == calls[k].id
  }

  /** Each assistant message is followed at once by one reply to each of its calls, in order, and replies stand nowhere else. */
  predicate AllAnswered(ms: seq<Message>)
    decreases |ms|
  {
    if ms == [] then true
    else
      match ms[0]
      case Earlier(_) => AllAnswered(ms[1..])
      case ToolReply(_, _) => false
      case Assistant(calls) =>
        var n := |calls| + 1;
        n <= |ms| && Replies(calls, ms[1..n]) && AllAnswered(ms[n..])
  }

  /** The calls of all assistant messages. */
  function CallsIn(ms: seq<Message>): seq<ToolCall> {
    if ms == [] then []
    else CallsIn(ms[..|ms| - 1]) + if ms[|ms| - 1].Assistant? then ms[|ms| - 1].calls else []
  }

  function RunEnds(trace: seq<Event>): nat {
    if trace == [] then 0
    else RunEnds(trace[..|trace| - 1]) + if trace[|trace| - 1].RunEnd? then 1 else 0
  }

  lemma NotedCounts(t: Talk, e: Event)
    ensures RunEnds(Noted(t, e).trace) == RunEnds(t.trace) + if e.RunEnd? then 1 else 0
  {
    assert (t.trace + [e])[..|t.trace|] == t.trace;
  }

  /** The messages of the block that begins a history. */
  function BlockLength(ms: seq<Message>): nat
    requires ms != []
  {
    if ms[0].Assistant? then |ms[0].calls| + 1 else 1
  }

  lemma BlockOfConcat(a: seq<Message>, b: seq<Message>)
    requires a != [] && AllAnswered(a)
    ensures BlockLength(a) <= |a| && AllAnswered(a[BlockLength(a)..])
    ensures AllAnswered(a[BlockLength(a)..] + b) ==> AllAnswered(a + b)
  {
    var n := BlockLength(a);
    assert (a + b)[0] == a[0] && (a + b)[n..] == a[n..] + b;
    assert (a + b)[1..n] == a[1..n];
  }

  lemma {:induction false} AnsweredConcat(a: seq<Message>, b: seq<Message>)
    requires AllAnswered(a) && AllAnswered(b)
    ensures AllAnswered(a + b)
    decreases |a|
  {
    if a == [] {
      assert a + b == b;
    } else {
      BlockOfConcat(a, b);
      AnsweredConcat(a[BlockLength(a)..], b);
    }
  }

  lemma AnsweredAppends(ms: seq<Message>, calls: seq<ToolCall>, replies: seq<Message>)
    requires AllAnswered(ms) && Replies(calls, replies)
    ensures AllAnswered(ms + ([Assistant(calls)] + replies))
  {
    var block := [Assistant(calls)] + replies;
    assert block[1..|calls| + 1] == replies && block[|calls| + 1..] == [];
    AnsweredConcat(ms, block);
  }

  lemma {:induction false} RepliesHoldNoCalls(ms: seq<Message>, replies: seq<Message>)
    requires forall k | 0 <= k < |replies| :: replies[k].ToolReply?
    ensures CallsIn(ms + replies) == CallsIn(ms)
    decreases |replies|
  {
    if replies == [] {
      assert ms + replies == ms;
    } else {
      var init := replies[..|replies| - 1];
      assert (ms + replies)[..|ms + replies| - 1] == ms + init;
      RepliesHoldNoCalls(ms, init);
    }
  }

  lemma CallsAppend(ms: seq<Message>, calls: seq<ToolCall>, replies: seq<Message>)
    requires Replies(calls, replies)
    ensures CallsIn(ms + ([Assistant(calls)] + replies)) == CallsIn(ms) + calls
  {
    RepliesHoldNoCalls(ms + [Assistant(calls)], replies);
    assert (ms + [Assistant(calls)])[..|ms|] == ms;
    assert ms + ([Assistant(calls)] + replies) == (ms + [Assistant(calls)]) + replies;
  }

  // ----- What the rounds keep -----

  /** The messages are `base` and an answered history whose calls are those recorded since; every request since was such a history. */
  ghost predicate Orderly(base: seq<Message>, t0: Talk, t: Talk, grown: seq<Message>) {
    && t.messages == base + grown && AllAnswered(grown)
    && t.toolCalls == t0.toolCalls + CallsIn(grown)
    && Sent(base, t0, t)
  }

  ghost predicate Sent(base: seq<Message>, t0: Talk, t: Talk) {
    && t0.requests <= t.requests
    && forall i | |t0.requests| <= i < |t.requests| :: exists sent :: t.requests[i] == base + sent && AllAnswered(sent)
  }

  /** From `t` to `t1` the calls were recorded and answered, nothing was sent, and no end was noted. */
  ghost predicate Handled(t: Talk, t1: Talk, calls: seq<ToolCall>, replies: seq<Message>) {
    && t1.requests == t.requests && RunEnds(t1.trace) == RunEnds(t.trace)
    && Replies(calls, replies) && t1.messages == t.messages + replies && t1.toolCalls == t.toolCalls + calls
  }

  lemma HandledComposes(t: Talk, t1: Talk, t2: Talk, c: ToolCall, reply: Message, calls: seq<ToolCall>, replies: seq<Message>)
    requires Handled(t, t1, [c], [reply]) && Handled(t1, t2, calls, replies)
    ensures Handled(t, t2, [c] + calls, [reply] + replies)
  {
    assert t.messages + [reply] + replies == t.messages + ([reply] + replies);
    assert t.toolCalls + [c] + calls == t.toolCalls + ([c] + calls);
    assert [reply][0].id == [c][0].id;
  }

  /** Handling calls answers them in order, records them, and sends nothing. */
  lemma {:induction false} CallsAreAnswered(env: Env, t: Talk, calls: seq<ToolCall>, last: string) returns (replies: seq<Message>)
    ensures var (t1, r) := HandleCalls(env, t, calls, last);
            && t1.requests == t.requests && RunEnds(t1.trace) == RunEnds(t.trace)
            && (r.Some? ==> Handled(t, t1, calls, replies))
    decreases |calls|
  {
    replies := [];
    if calls == [] {
      assert t.messages + [] == t.messages && t.toolCalls + [] == t.toolCalls;
    } else {
      var (t1, dispatched) := HandleCall(env, t, calls[0]);
      var reply := OneCallIsAnswered(env, t, calls[0]);
      if dispatched.Some? {
        var name := if dispatched.value then calls[0].name else last;
        var rest := CallsAreAnswered(env, t1, calls[1..], name);
        replies := [reply] + rest;
        var (t2, r) := HandleCalls(env, t1, calls[1..], name);
        if r.Some? {
          HandledComposes(t, t1, t2, calls[0], reply, calls[1..], rest);
          assert [calls[0]] + calls[1..] == calls;
        }
      }
    }
  }

  /** A call recorded, something noted of it, and its reply. */
  lemma ReplyIsHandled(t: Talk, c: ToolCall, clock: nat, e: Event, content: string)
    requires !e.RunEnd?
    ensures var t0 := Noted(t.(toolCalls := t.toolCalls + [c], clock := clock), CallEvent(c));
            && RunEnds(t0.trace) == RunEnds(t.trace)
            && Handled(t, Replied(Noted(t0, e), c.id, content), [c], [ToolReply(c.id, content)])
  {
    var called := t.(toolCalls := t.toolCalls + [c], clock := clock);
    NotedCounts(called, CallEvent(c));
    NotedCounts(Noted(called, CallEvent(c)), e);
  }

  lemma OneCallIsAnswered(env: Env, t: Talk, c: ToolCall) returns (reply: Message)
    ensures var (t1, dispatched) := HandleCall(env, t, c);
            && t1.requests == t.requests && RunEnds(t1.trace) == RunEnds(t.trace)
            && (dispatched.Some? ==> Handled(t, t1, [c], [reply]))
  {
    reply := ToolReply(c.id, env.jsonError(c.arguments));
    ReplyIsHandled(t, c, t.clock + 1, ErrorEvent("tool_arguments"), env.jsonError(c.arguments));
    if env.decodes(c.arguments) {
      match env.prepare(t.clock, c) {
        case PreparationRaises =>
        case Barred(error) =>
          reply := ToolReply(c.id, error);
          ReplyIsHandled(t, c, t.clock + 1, ErrorEvent("tool_guardrail"), error);
        case Prepared(arguments) =>
          match env.dispatch(t.clock, c.name, arguments) {
            case DispatchRaises =>
            case Output(text) =>
              reply := ToolReply(c.id, text);
              ReplyIsHandled(t, c, t.clock + 1, ResultEvent(c.name), text);
          }
      }
    }
  }

  lemma NotedIsOrderly(base: seq<Message>, t0: Talk, t: Talk, grown: seq<Message>, e: Event)
    requires Orderly(base, t0, t, grown)
    ensures Orderly(base, t0, Noted(t, e), grown) && Noted(t, e).requests == t.requests
    ensures RunEnds(Noted(t, e).trace) == RunEnds(t.trace) + if e.RunEnd? then 1 else 0
  {
    NotedCounts(t, e);
  }

  lemma SentIsOrderly(base: seq<Message>, t0: Talk, t: Talk, grown: seq<Message>)
    requires Orderly(base, t0, t, grown)
    ensures Orderly(base, t0, t.(requests := t.requests + [t.messages]), grown)
  {
    var requests := t.requests + [t.messages];
    forall i | |t0.requests| <= i < |requests|
      ensures exists sent :: requests[i] == base + sent && AllAnswered(sent)
    {
      if i < |t.requests| {
        assert requests[i] == t.requests[i];
      } else {
        assert requests[i] == base + grown;
      }
    }
  }

  lemma AskIsOrderly(env: Env, base: seq<Message>, t0: Talk, t: Talk, grown: seq<Message>)
    requires Orderly(base, t0, t, grown)
    ensures var (t1, reply) := Ask(env, t);
            && Orderly(base, t0, t1, grown) && |t1.requests| <= |t.requests| + 1
            && RunEnds(t1.trace) == RunEnds(t.trace) + if reply.Stopped? then 1 else 0
  {
    var moved := t.(clock := t.clock + 1);
    if env.requestHook(t.clock).Some? {
      NotedIsOrderly(base, t0, moved, grown, RunEnd(false));
    } else {
      var sent := moved.(requests := t.requests + [t.messages]);
      SentIsOrderly(base, t0, moved, grown);
      NotedIsOrderly(base, t0, sent, grown, RequestEvent);
      if env.model(t.clock, t.messages).None? {
        var noted := Noted(sent, RequestEvent);
        NotedIsOrderly(base, t0, noted, grown, ErrorEvent("model_request"));
        NotedIsOrderly(base, t0, Noted(noted, ErrorEvent("model_request")), grown, RunEnd(false));
      }
    }
  }

  /** One answer with calls, handled completely. */
  lemma RoundIsOrderly(env: Env, base: seq<Message>, t0: Talk, t: Talk, grown: seq<Message>, calls: seq<ToolCall>)
      returns (grown1: seq<Message>)
    requires Orderly(base, t0, t, grown)
    ensures var (t1, last) := HandleCalls(env, Heard(t, calls), calls, "");
            && t1.requests == t.requests && RunEnds(t1.trace) == RunEnds(t.trace)
            && (last.Some? ==> Orderly(base, t0, t1, grown1))
  {
    var replies := CallsAreAnswered(env, Heard(t, calls), calls, "");
    grown1 := grown + ([Assistant(calls)] + replies);
    var (t1, last) := HandleCalls(env, Heard(t, calls), calls, "");
    if last.Some? {
      HandledIsOrderly(base, t0, t, t1, grown, calls, replies);
    }
  }

  lemma HandledIsOrderly(base: seq<Message>, t0: Talk, t: Talk, t1: Talk, grown: seq<Message>, calls: seq<ToolCall>, replies: seq<Message>)
    requires Orderly(base, t0, t, grown) && Handled(Heard(t, calls), t1, calls, replies)
    ensures Orderly(base, t0, t1, grown + ([Assistant(calls)] + replies))
  {
    var grown1 := grown + ([Assistant(calls)] + replies);
    AnsweredAppends(grown, calls, replies);
    CallsAppend(grown, calls, replies);
    Regroup(base, grown, [Assistant(calls)], replies);
    assert t0.toolCalls + CallsIn(grown) + calls == t0.toolCalls + (CallsIn(grown) + calls);
  }

  lemma Regroup<T>(a: seq<T>, b: seq<T>, c: seq<T>, d: seq<T>)
    ensures a + b + c + d == a + (b + (c + d))
  {
  }

  ghost predicate Ended(base: seq<Message>, t0: Talk, t: Talk, ending: Ending, grown: seq<Message>) {
    && Sent(base, t0, t)
    && (ending.Returned? ==> Orderly(base, t0, t, grown))
  }

  lemma ConcludesOrderly(env: Env, base: seq<Message>, t0: Talk, t: Talk, grown: seq<Message>, content: Option<string>)
    requires Orderly(base, t0, t, grown)
    ensures var (t1, ending) := Conclude(env, t, content);
            && Ended(base, t0, t1, ending, grown) && ending.Returned? && t1.requests == t.requests
            && RunEnds(t1.trace) == RunEnds(t.trace) + 1
  {
    ConcludeNotes(env, t, content);
  }

  lemma ConcludeNotes(env: Env, t: Talk, content: Option<string>)
    ensures var (t1, ending) := Conclude(env, t, content);
            && ending.Returned? && t1 == t.(clock := t1.clock, trace := t1.trace)
            && RunEnds(t1.trace) == RunEnds(t.trace) + 1
  {
    var moved := t.(clock := t.clock + 1);
    NotedCounts(moved, ResponseEvent);
    var noted := Noted(moved, ResponseEvent);
    NotedCounts(noted, RunEnd(true));
    NotedCounts(noted, ErrorEvent("output_guardrail"));
    NotedCounts(Noted(noted, ErrorEvent("output_guardrail")), RunEnd(false));
  }

  /** What is known when an execution of up to `left` turns from `t` ends. */
  ghost predicate Settled(base: seq<Message>, t0: Talk, t: Talk, t1: Talk, ending: Ending, grown: seq<Message>, asks: nat) {
    && Ended(base, t0, t1, ending, grown)
    && |t1.requests| <= |t.requests| + asks
    && RunEnds(t1.trace) == RunEnds(t.trace) + if ending.Returned? then 1 else 0
  }

  lemma {:induction false} RoundsAreOrderly(env: Env, base: seq<Message>, t0: Talk, t: Talk, grown: seq<Message>, response: Response, left: nat)
      returns (last: seq<Message>)
    requires Orderly(base, t0, t, grown)
    ensures var (t1, ending) := Rounds(env, t, response, left); Settled(base, t0, t, t1, ending, last, left)
    decreases left, 0
  {
    last := grown;
    if left == 0 {
      NotedCounts(t, ErrorEvent("max_retry"));
      NotedCounts(Noted(t, ErrorEvent("max_retry")), RunEnd(false));
    } else if response.toolCalls == [] {
      ConcludesOrderly(env, base, t0, t, grown, response.content);
    } else {
      var grown1 := RoundIsOrderly(env, base, t0, t, grown, response.toolCalls);
      var (t1, name) := HandleCalls(env, Heard(t, response.toolCalls), response.toolCalls, "");
      last := grown1;
      if name.Some? && name.value != "finish" {
        last := ConversesOrderly(env, base, t0, t1, grown1, left - 1);
      } else {
        NotedCounts(t1, RunEnd(true));
      }
    }
  }

  lemma {:induction false} ConversesOrderly(env: Env, base: seq<Message>, t0: Talk, t: Talk, grown: seq<Message>, left: nat)
      returns (last: seq<Message>)
    requires Orderly(base, t0, t, grown)
    ensures var (t1, ending) := Converse(env, t, left); Settled(base, t0, t, t1, ending, last, 1 + left)
    decreases left, 1
  {
    last := grown;
    AskIsOrderly(env, base, t0, t, grown);
    var (t1, reply) := Ask(env, t);
    if reply.Answer? {
      last := RoundsAreOrderly(env, base, t0, t1, grown, reply.response, left);
    }
  }

  // ----- Main results -----

  /**
   Every request carries the earlier messages and then a history in which each assistant
   message is followed by exactly its replies, in order. A run that returns leaves such a
   history, has recorded exactly its calls, made at most one request more than `maxRetry`, and
   noted exactly one end; a run that an exception leaves has noted none.
   */
  lemma RunIsOrderly(env: Env, t: Talk, maxRetry: nat) returns (grown: seq<Message>)
    ensures var (t1, ending) := Converse(env, t, maxRetry);
            && Sent(t.messages, t, t1)
            && (ending.Returned? ==>
                  && t1.messages == t.messages + grown && AllAnswered(grown)
                  && t1.toolCalls == t.toolCalls + CallsIn(grown))
            && |t1.requests| <= |t.requests| + 1 + maxRetry
            && RunEnds(t1.trace) == RunEnds(t.trace) + if ending.Returned? then 1 else 0
  {
    grown := [];
    assert t.messages + [] == t.messages && t.toolCalls + [] == t.toolCalls;
    assert Orderly(t.messages, t, t, []);
    grown := ConversesOrderly(env, t.messages, t, t, [], maxRetry);
  }

  // ----- The finish tool -----

  /** The names of the calls of an answer that reached their tool, in order. */
  function DispatchedNames(env: Env, t: Talk, calls: seq<ToolCall>): seq<string>
    decreases |calls|
  {
    if calls == [] then []
    else
      var (t1, dispatched) := HandleCall(env, t, calls[0]);
      if dispatched.None? then []
      else (if dispatched.value then [calls[0].name] else []) + DispatchedNames(env, t1, calls[1..])
  }

  lemma {:induction false} LastDispatched(env: Env, t: Talk, calls: seq<ToolCall>, last: string)
    requires HandleCalls(env, t, calls, last).1.Some?
    ensures var names := DispatchedNames(env, t, calls);
            HandleCalls(env, t, calls, last).1.value == if names == [] then last else names[|names| - 1]
    decreases |calls|
  {
    if calls != [] {
      var (t1, dispatched) := HandleCall(env, t, calls[0]);
      LastDispatched(env, t1, calls[1..], if dispatched.value then calls[0].name else last);
    }
  }

  /** A handled answer ends the run at once exactly when "finish" was the last tool it reached; a later tool undoes it. */
  lemma FinishIsExact(env: Env, t: Talk, response: Response, left: nat)
    requires left > 0 && response.toolCalls != []
    requires var asked := Heard(t, response.toolCalls);
             HandleCalls(env, asked, response.toolCalls, "").1.Some?
    ensures var asked := Heard(t, response.toolCalls);
            var names := DispatchedNames(env, asked, response.toolCalls);
            Rounds(env, t, response, left) == (Noted(HandleCalls(env, asked, response.toolCalls, "").0, RunEnd(true)), Returned(None))
            <==> names != [] && names[|names| - 1] == "finish"
  {
    var asked := Heard(t, response.toolCalls);
    LastDispatched(env, asked, response.toolCalls, "");
    var (t1, last) := HandleCalls(env, asked, response.toolCalls, "");
    if last.value != "finish" {
      ClockMovesOn(env, t1, left - 1);
    }
  }

  /** A conversation that goes on consults the environment once more. */
  lemma {:induction false} ClockMovesOn(env: Env, t: Talk, left: nat)
    ensures t.clock < Converse(env, t, left).0.clock
    decreases left
  {
    var (t1, reply) := Ask(env, t);
    if reply.Answer? && left > 0 && reply.response.toolCalls != [] {
      var calls := reply.response.toolCalls;
      CallsMoveClock(env, Heard(t1, calls), calls, "");
      var (t2, last) := HandleCalls(env, Heard(t1, calls), calls, "");
      if last.Some? && last.value != "finish" {
        ClockMovesOn(env, t2, left - 1);
      }
    }
  }

  lemma {:induction false} CallsMoveClock(env: Env, t: Talk, calls: seq<ToolCall>, last: string)
    ensures t.clock <= HandleCalls(env, t, calls, last).0.clock
    decreases |calls|
  {
    if calls != [] {
      var (t1, dispatched) := HandleCall(env, t, calls[0]);
      if dispatched.Some? {
        CallsMoveClock(env, t1, calls[1..], if dispatched.value then calls[0].name else last);
      }
    }
  }
}
