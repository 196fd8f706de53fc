/** The graph around the model in `callAgent` (server/agent.ts): the state's `messages`
    channel whose reducer concatenates, the conditional edge `shouldContinue` that sends the
    run to the tool node while the last message asks for tool calls, and the translation of a
    caught error into one of three errors the caller sees. */
module AgentGraph {
  import opened Js
  import Retry

  datatype Role = Human | Ai | Tool

  datatype ToolCall = ToolCall(id: string, name: string, query: string, n: Option<int>)

  /** A message of the conversation; `toolCalls` is the optional `tool_calls` array. */
  datatype Message = Message(role: Role, content: string, toolCalls: Option<seq<ToolCall>>)

  /** What `shouldContinue` returns: "tools" or "_end_". */
  datatype Route = ToTools | ToEnd

  /** `lastMessage.tool_calls?.length` is truthy. */
  predicate HasToolCalls(m: Message) {
    m.toolCalls.Some? && |m.toolCalls.value| > 0
  }

  /** The reducer of the `messages` channel, `(x, y) => x.concat(y)`: the old history is kept
      as it is, and the update follows it in its own order. */
  function Reduce(x: seq<Message>, y: seq<Message>): (r: seq<Message>)
    ensures |r| == |x| + |y|
    ensures r[..|x|] == x && r[|x|..] == y
  {
    x + y
  }

  /** The state after a run of node updates, each merged by the reducer. */
  function ApplyUpdates(history: seq<Message>, updates: seq<seq<Message>>): seq<Message>
    decreases |updates|
  {
    if updates == [] then history else ApplyUpdates(Reduce(history, updates[0]), updates[1..])
  }

  function Flatten(updates: seq<seq<Message>>): seq<Message> {
    if updates == [] then [] else updates[0] + Flatten(updates[1..])
  }

  /** However many updates the nodes return, the history is append-only: the state is the
      original history followed by every update's messages, in the order they came. */
  lemma {:induction false} HistoryAppendOnly(history: seq<Message>, updates: seq<seq<Message>>)
    ensures ApplyUpdates(history, updates) == history + Flatten(updates)
    ensures history <= ApplyUpdates(history, updates)
    decreases |updates|
  {
    if updates != [] {
      HistoryAppendOnly(Reduce(history, updates[0]), updates[1..]);
      assert history + updates[0] + Flatten(updates[1..]) == history + Flatten(updates);
    }
  }

  /** `shouldContinue`: to the tool node exactly when the last message asks for at least one
      tool call, to the end otherwise. `messages[messages.length - 1]` must exist. */
  function ShouldContinue(messages: seq<Message>): (route: Route)
    requires |messages| > 0
    ensures route == ToTools <==> HasToolCalls(messages[|messages| - 1])
  {
    if HasToolCalls(messages[|messages| - 1]) then ToTools else ToEnd
  }

  /** After a node's non-empty update is merged, the route depends on that update alone. */
  lemma RouteFollowsLatestUpdate(history: seq<Message>, update: seq<Message>)
    requires |update| > 0
    ensures ShouldContinue(Reduce(history, update)) == ShouldContinue(update)
  {
    var r := Reduce(history, update);
    assert r[|r| - 1] == update[|update| - 1];
  }

  const RateLimitedMessage := "Service temporaly due to rate limits, Please try agian in a minutes"
  const AuthenticationFailedMessage := "Authentication failed. Check API config"
  const AgentFailedPrefix := "Agent failed:"
  /** The message of the `Error` `retryWithBackOff` throws when no attempt is allowed. */
  const MaxRetriesMessage := "Max retries exceeded"

  datatype AgentErrorKind = RateLimited | AuthenticationFailed | AgentFailed

  /** The `Error` that `callAgent` throws from its catch block. */
  datatype AgentError = AgentError(kind: AgentErrorKind, message: string)

  /** The catch block of `callAgent`: a 429 status becomes the rate-limit error, then a 401
      status the authentication error, and anything else the generic failure carrying the
      original message. */
  function ClassifyAgentError(e: JsError): (r: AgentError)
    ensures r.kind == RateLimited <==> e.status == Some(429)
    ensures r.kind == AuthenticationFailed <==> e.status == Some(401)
    ensures r.kind == RateLimited ==> r.message == RateLimitedMessage
    ensures r.kind == AuthenticationFailed ==> r.message == AuthenticationFailedMessage
    ensures r.kind == AgentFailed ==> r.message == AgentFailedPrefix + Render(e.message)
  {
    if e.status == Some(429) then AgentError(RateLimited, RateLimitedMessage)
    else if e.status == Some(401) then AgentError(AuthenticationFailed, AuthenticationFailedMessage)
    else AgentError(AgentFailed, AgentFailedPrefix + Render(e.message))
  }

  /** The errors `retryWithBackOff` retries are exactly those `callAgent` reports as the
      rate-limit error. */
  lemma RetriedExactlyWhenRateLimited(e: JsError)
    ensures Retry.IsRateLimited(e) <==> ClassifyAgentError(e).kind == RateLimited
  {
  }

  /** What `retryWithBackOff` throws when it does not resolve. */
  function RetryError<T>(outcome: Retry.RetryOutcome<T>): (e: JsError)
    requires !outcome.Resolved?
    ensures outcome.Rethrown? ==> e == outcome.error
    ensures outcome.MaxRetriesExceeded? ==> e.status == None && e.message == Some(MaxRetriesMessage)
  {
    match outcome
    case Rethrown(e) => e
    case MaxRetriesExceeded => JsError(None, Some(MaxRetriesMessage))
  }

  /** A model call whose every attempt hits the rate limit reaches the caller as the
      rate-limit error once the `maxRetries` attempts are used up. */
  lemma RateLimitExhaustionReported<T>(fn: nat -> Completion<T>, maxRetries: int)
    requires maxRetries >= 1
    requires forall j :: 1 <= j <= maxRetries ==> Retry.RateLimitedCall(fn(j))
    ensures var run := Retry.RetryRun(fn, maxRetries, 1);
      && !run.outcome.Resolved?
      && ClassifyAgentError(RetryError(run.outcome)) == AgentError(RateLimited, RateLimitedMessage)
  {
    Retry.AlwaysRateLimited(fn, maxRetries);
    var e := fn(maxRetries).error;
    assert e.status == Some(429);
  }

  /** With no attempt allowed, the model is never called and the caller sees
      "Agent failed:Max retries exceeded". */
  lemma NoAttemptReported<T>(fn: nat -> Completion<T>, maxRetries: int)
    requires maxRetries < 1
    ensures var run := Retry.RetryRun(fn, maxRetries, 1);
      && run.outcome == Retry.MaxRetriesExceeded
      && ClassifyAgentError(RetryError(run.outcome))
         == AgentError(AgentFailed, AgentFailedPrefix + MaxRetriesMessage)
  {
    Retry.MaxRetriesExceededOnlyWithoutAttempts(fn, maxRetries);
  }
}
