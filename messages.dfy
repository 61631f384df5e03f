/** The LangGraph message vocabulary the agent nodes use: a model response
    with its tool-call list, tool-result messages, the `tool_calls` lookups
    (`tool_calls?.[0]`, `tool_calls?.find(...)`, `tc.id ?? ""`), the
    "internal:" id prefix, and the UI collector that `typedUi` returns.

    A response is generic in the type `A` of its tool-call arguments. */
module AgentMessages {
  import opened Wrappers
  import opened Strings

  /** Ids starting with this prefix are not rendered by the client. */
  const DoNotRenderIdPrefix: string := "internal:"

  datatype ToolCall<A> = ToolCall(id: Option<string>, name: string, args: A)

  /** A chat-model response: its content and its optional tool-call list. */
  datatype AIResponse<A> = AIResponse(content: Option<string>, toolCalls: Option<seq<ToolCall<A>>>)

  datatype Message<A> =
    | AI(response: AIResponse<A>)
    | Tool(id: string, toolCallId: string, content: string)

  /** The state update of an extraction node: the parameter slot it sets
      (`None` when the key is absent from the update) and the messages it
      appends. */
  datatype SlotUpdate<P, A> = SlotUpdate(slot: Option<P>, messages: seq<Message<A>>)

  /** Every tool message in `ms` has an id with the "internal:" prefix. */
  predicate ToolIdsInternal<A>(ms: seq<Message<A>>)
  {
    forall k :: 0 <= k < |ms| && ms[k].Tool? ==> StartsWith(ms[k].id, DoNotRenderIdPrefix)
  }

  /** `response.tool_calls ?? []`. */
  function Calls<A>(r: AIResponse<A>): (cs: seq<ToolCall<A>>)
    ensures r.toolCalls.Some? ==> cs == r.toolCalls.value
    ensures r.toolCalls.None? ==> cs == []
  {
    if r.toolCalls.Some? then r.toolCalls.value else []
  }

  /** `response.tool_calls?.[0]`. */
  function FirstToolCall<A>(r: AIResponse<A>): (c: Option<ToolCall<A>>)
    ensures c.Some? <==> |Calls(r)| > 0
    ensures c.Some? ==> c.value == Calls(r)[0]
  {
    if |Calls(r)| > 0 then Some(Calls(r)[0]) else None
  }

  /** `tc.id ?? ""`. */
  function CallId<A>(c: ToolCall<A>): (id: string)
    ensures c.id.Some? ==> id == c.id.value
    ensures c.id.None? ==> id == ""
  {
    if c.id.Some? then c.id.value else ""
  }

  /** `response.tool_calls?.[0]?.id ?? ""`. */
  function FirstCallId<A>(r: AIResponse<A>): (id: string)
    ensures |Calls(r)| > 0 ==> id == CallId(Calls(r)[0])
    ensures |Calls(r)| == 0 ==> id == ""
  {
    match FirstToolCall(r)
    case Some(c) => CallId(c)
    case None => ""
  }

  /** The index of the first call named `name` at position `i` or later. */
  function FindFrom<A>(cs: seq<ToolCall<A>>, name: string, i: nat): (k: Option<nat>)
    decreases |cs| - i
    ensures k.Some? ==> i <= k.value < |cs| && cs[k.value].name == name &&
                        forall j :: i <= j < k.value ==> cs[j].name != name
    ensures k.None? ==> forall j :: i <= j < |cs| ==> cs[j].name != name
  {
    if i >= |cs| then None
    else if cs[i].name == name then Some(i)
    else FindFrom(cs, name, i + 1)
  }

  /** `response.tool_calls?.find(tc => tc.name === name)`: the first call
      with that name. */
  function FindToolCall<A>(r: AIResponse<A>, name: string): (c: Option<ToolCall<A>>)
    ensures c.Some? <==> exists j :: 0 <= j < |Calls(r)| && Calls(r)[j].name == name
    ensures c.Some? ==>
              c.value.name == name &&
              exists j :: 0 <= j < |Calls(r)| && Calls(r)[j] == c.value &&
                          forall i :: 0 <= i < j ==> Calls(r)[i].name != name
  {
    match FindFrom(Calls(r), name, 0)
    case Some(k) => Some(Calls(r)[k])
    case None => None
  }

  /** An id built as `internal:<suffix>`. */
  function InternalId(suffix: string): (id: string)
    ensures StartsWith(id, DoNotRenderIdPrefix)
    ensures id[|DoNotRenderIdPrefix|..] == suffix
  {
    DoNotRenderIdPrefix + suffix
  }

  /** `calls.map(tc => ({ id: ids(k), tool_call_id: tc.id ?? "", content }))`:
      one tool message per call, in order, answering that call. */
  function ToolMessages<A>(calls: seq<ToolCall<A>>, ids: nat -> string,
                           content: ToolCall<A> -> string): (ms: seq<Message<A>>)
    ensures |ms| == |calls|
    ensures forall k :: 0 <= k < |calls| ==>
              ms[k].Tool? && ms[k].toolCallId == CallId(calls[k]) &&
              ms[k].id == ids(k) && ms[k].content == content(calls[k])
  {
    seq(|calls|, k requires 0 <= k < |calls| => Tool(ids(k), CallId(calls[k]), content(calls[k])))
  }

  /** Whether `ms` holds exactly one tool message per call, in call order. */
  predicate AnswersInOrder<A>(ms: seq<Message<A>>, calls: seq<ToolCall<A>>)
  {
    |ms| == |calls| &&
    forall k :: 0 <= k < |calls| ==> ms[k].Tool? && ms[k].toolCallId == CallId(calls[k])
  }

  lemma ToolMessagesAnswer<A>(calls: seq<ToolCall<A>>, ids: nat -> string, content: ToolCall<A> -> string)
    ensures AnswersInOrder(ToolMessages(calls, ids, content), calls)
  {
  }

  /** The message list a node returns when the response has no usable first
      tool call: the response, followed by one placeholder per tool call when
      the list is non-empty. The placeholder ids are `internal:` + `uuids(k)`. */
  function NoCallMessages<A>(response: AIResponse<A>, uuids: nat -> string, placeholder: string)
    : (ms: seq<Message<A>>)
    ensures |ms| >= 1 && ms[0] == AI(response)
    ensures ms[1..] == ToolMessages(Calls(response), (k: nat) => InternalId(uuids(k)), _ => placeholder)
  {
    if response.toolCalls.Some? && |response.toolCalls.value| > 0 then
      [AI(response)] + ToolMessages(Calls(response), (k: nat) => InternalId(uuids(k)), _ => placeholder)
    else [AI(response)]
  }

  /** The placeholders answer every call in order, carry the placeholder
      text, and have internal ids. */
  lemma NoCallMessagesAnswer<A>(response: AIResponse<A>, uuids: nat -> string, placeholder: string)
    ensures var ms := NoCallMessages(response, uuids, placeholder);
            |ms| == |Calls(response)| + 1 && AnswersInOrder(ms[1..], Calls(response)) &&
            forall k :: 1 <= k < |ms| ==>
              ms[k].Tool? && ms[k].content == placeholder && StartsWith(ms[k].id, DoNotRenderIdPrefix)
  {
    var ms := NoCallMessages(response, uuids, placeholder);
    var tail := ToolMessages(Calls(response), (k: nat) => InternalId(uuids(k)), _ => placeholder);
    forall k | 1 <= k < |ms|
      ensures ms[k].Tool? && ms[k].content == placeholder && StartsWith(ms[k].id, DoNotRenderIdPrefix)
    {
      assert ms[k] == tail[k - 1];
      assert ms[k].id == InternalId(uuids(k - 1));
    }
  }

  /** Tool-call list elements are always call objects, so a missing first
      call means an empty or absent list, and the placeholder branch of the
      extraction nodes never produces a placeholder: the result is exactly
      the response. */
  lemma NoFirstCallIsResponseOnly<A>(response: AIResponse<A>, uuids: nat -> string, placeholder: string)
    requires FirstToolCall(response).None?
    ensures NoCallMessages(response, uuids, placeholder) == [AI(response)]
  {
  }

  /** The update a tool node returns: its messages, and the UI directives and
      timestamp it sets only on success (`None` when the key is absent). */
  datatype ToolsUpdate<A, U> = ToolsUpdate(messages: seq<Message<A>>, ui: Option<seq<U>>, timestamp: Option<int>)

  /** The `catch` block of both tool nodes: the response, then one tool
      message whose id and `tool_call_id` are both the first call's id, with
      the error's message, or "Unknown error" for a thrown non-Error. */
  function CaughtError<A, U>(response: AIResponse<A>, e: Error): (u: ToolsUpdate<A, U>)
    ensures u.ui.None? && u.timestamp.None? && |u.messages| == 2 && u.messages[0] == AI(response)
    ensures u.messages[1].Tool? && u.messages[1].id == u.messages[1].toolCallId == FirstCallId(response)
    ensures StartsWith(u.messages[1].content, "Error: ")
    ensures e.Error? ==> u.messages[1].content == "Error: " + e.message
    ensures e.NotAnError? ==> u.messages[1].content == "Error: Unknown error"
  {
    ToolsUpdate([AI(response), Tool(FirstCallId(response), FirstCallId(response), "Error: " + MessageOr(e, "Unknown error"))],
                None, None)
  }

  /** The collector returned by `typedUi(config)`: `push` appends a UI
      directive, `items` lists the directives pushed so far. */
  class UiCollector<U> {
    var items: seq<U>

    constructor()
      ensures items == []
    {
      items := [];
    }

    method Push(u: U)
      modifies this
      ensures items == old(items) + [u]
    {
      items := items + [u];
    }
  }
}
