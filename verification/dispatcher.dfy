/** The `channel.subscribe` callback of src/App.tsx as a pure function: one
    inbound message, the chat history, the registry and the generation server
    in; the new history, the messages published back, the backend requests
    made and the error reported out. */
module Dispatcher {
  import opened Wrappers
  import opened Agents
  import opened AgentRegistry

  /** `msg.data`: the fields of both channel message shapes. An absent field
      (`undefined`) is `None`. */
  datatype Payload = Payload(
    kind: Option<string>,  // the `type` discriminator
    text: Option<string>,
    from: Option<string>,
    to: Option<string>,
    tool: Option<string>,
    input: Option<Input>,
    conversationId: Option<string>,
    timestamp: Option<int>)

  /** An Ably message: its name and its data. */
  datatype Message = Message(name: string, data: Payload)

  /** One `channel.publish(name, { text })`. */
  datatype Publish = Publish(name: string, text: string)

  /** What the callback reports instead of publishing. */
  datatype DispatchError =
      /** the agent-not-found console error, naming the requested target */
    | AgentNotFound(to: Option<string>)
      /** the awaited `invoke` threw */
    | InvokeFailed(error: InvokeError)

  datatype Outcome = Outcome(
    history: seq<Message>,
    published: seq<Publish>,
    requests: seq<GenerateRequest>,
    error: Option<DispatchError>)

  const InvokeType := "invoke"

  /** The name of the response to an invoke addressed to `to`. */
  function ResponseName(to: string): (n: string)
    ensures |n| == |to| + 18
    ensures n[..16] == "Agent-Response ("
    ensures n[16..|n| - 2] == to
    ensures n[|n| - 2..] == "):"
  {
    "Agent-Response (" + to + "):"
  }

  /** Responses to different agents carry different names. */
  lemma ResponseNameInjective(t1: string, t2: string)
    requires ResponseName(t1) == ResponseName(t2)
    ensures t1 == t2
  {
  }

  /** `AgentRegistry.find(data.to)`: an absent `to` is never a key. */
  function LookUp(r: Registry, to: Option<string>): (o: Option<Agent>)
    ensures o.Some? <==> to.Some? && to.value in r.agents
    ensures o.Some? ==> o.value == r.agents[to.value]
  {
    match to
    case None => None
    case Some(id) => Find(r, id)
  }

  /** The subscribe callback for one message. */
  function Dispatch(history: seq<Message>, r: Registry, msg: Message, backend: Backend): (out: Outcome)
    // every message is recorded, invoke or not
    ensures out.history == history + [msg]
    ensures |out.published| <= 1
    // a message that is not an invoke request does nothing else
    ensures msg.data.kind != Some(InvokeType) ==>
              out.published == [] && out.requests == [] && out.error == None
    // an invoke to an unknown agent is reported and publishes nothing
    ensures msg.data.kind == Some(InvokeType) && LookUp(r, msg.data.to).None? ==>
              out.published == [] && out.requests == [] && out.error == Some(AgentNotFound(msg.data.to))
    // an invoke to a known agent runs that agent's invoke ...
    ensures msg.data.kind == Some(InvokeType) && LookUp(r, msg.data.to).Some? ==>
              var v := Invoke(LookUp(r, msg.data.to).value, msg.data.input, msg.data.tool, backend);
              && out.requests == v.requests
              // ... publishes its result once when it succeeds ...
              && (v.outcome.Success? ==>
                    out.published == [Publish(ResponseName(msg.data.to.value), v.outcome.value)] && out.error == None)
              // ... and publishes nothing when it throws
              && (v.outcome.Failure? ==>
                    out.published == [] && out.error == Some(InvokeFailed(v.outcome.error)))
    // a publish happens only as the answer to an invoke addressed to a registered agent
    ensures out.published != [] ==>
              msg.data.kind == Some(InvokeType) && msg.data.to.Some? && msg.data.to.value in r.agents
    ensures out.published != [] <==> out.error.None? && msg.data.kind == Some(InvokeType)
  {
    var history' := history + [msg];
    if msg.data.kind == Some(InvokeType) then
      match LookUp(r, msg.data.to)
      case None => Outcome(history', [], [], Some(AgentNotFound(msg.data.to)))
      case Some(agent) =>
        var v := Invoke(agent, msg.data.input, msg.data.tool, backend);
        match v.outcome
        case Success(response) => Outcome(history', [Publish(ResponseName(msg.data.to.value), response)], v.requests, None)
        case Failure(e) => Outcome(history', [], v.requests, Some(InvokeFailed(e)))
    else
      Outcome(history', [], [], None)
  }

  /** The number of invoke requests among `msgs`. */
  function InvokeCount(msgs: seq<Message>): nat {
    if |msgs| == 0 then 0
    else InvokeCount(msgs[..|msgs| - 1]) + (if msgs[|msgs| - 1].data.kind == Some(InvokeType) then 1 else 0)
  }

  /** The effect of a run of messages: the history, every publish, every
      backend request and every reported error. */
  datatype Session = Session(
    history: seq<Message>,
    published: seq<Publish>,
    requests: seq<GenerateRequest>,
    errors: seq<DispatchError>)

  /** Every message of `msgs` dispatched in arrival order, each on its own,
      message `i` served by `backends[i]`: the generation server samples its
      answers and a request may fail once and succeed later, so each dispatch
      gets its own view of the server. The history is appended in arrival
      order; publishes, requests and errors are collected in the order the
      dispatches completed, which here is arrival order. */
  function DispatchAll(history: seq<Message>, r: Registry, msgs: seq<Message>, backends: seq<Backend>): (s: Session)
    requires |backends| == |msgs|
    ensures s.history == history + msgs
    // every invoke request ends in exactly one response or one reported error,
    // and chat messages in neither
    ensures |s.published| + |s.errors| == InvokeCount(msgs)
  {
    if |msgs| == 0 then Session(history, [], [], [])
    else
      var n := |msgs| - 1;
      assert msgs == msgs[..n] + [msgs[n]];
      Step(DispatchAll(history, r, msgs[..n], backends[..n]), r, msgs[n], backends[n])
  }

  /** A session followed by the dispatch of one more message. */
  function Step(s: Session, r: Registry, msg: Message, backend: Backend): (s': Session)
    ensures s'.history == s.history + [msg]
    // the message adds one response or one error exactly when it is an invoke request
    ensures |s'.published| + |s'.errors|
              == |s.published| + |s.errors| + (if msg.data.kind == Some(InvokeType) then 1 else 0)
  {
    var o := Dispatch(s.history, r, msg, backend);
    Session(o.history, s.published + o.published, s.requests + o.requests, s.errors + ErrorList(o.error))
  }

  /** A session followed by another that started where it ended. */
  function Concat(s1: Session, s2: Session): Session {
    Session(s2.history, s1.published + s2.published, s1.requests + s2.requests, s1.errors + s2.errors)
  }

  /** Dispatching one more message after two concatenated sessions extends the second. */
  lemma ConcatStep(s1: Session, s2: Session, r: Registry, msg: Message, backend: Backend)
    ensures Step(Concat(s1, s2), r, msg, backend) == Concat(s1, Step(s2, r, msg, backend))
  {
    var o := Dispatch(s2.history, r, msg, backend);
    assert s1.published + s2.published + o.published == s1.published + (s2.published + o.published);
    assert s1.requests + s2.requests + o.requests == s1.requests + (s2.requests + o.requests);
    assert s1.errors + s2.errors + ErrorList(o.error) == s1.errors + (s2.errors + ErrorList(o.error));
  }

  /** A reported error as a list of zero or one errors. */
  function ErrorList(e: Option<DispatchError>): seq<DispatchError> {
    if e.Some? then [e.value] else []
  }

  /** A run followed by one more message is the run, then a step. */
  lemma DispatchAllSnoc(history: seq<Message>, r: Registry, msgs: seq<Message>, msg: Message,
                        backends: seq<Backend>, backend: Backend)
    requires |backends| == |msgs|
    ensures DispatchAll(history, r, msgs + [msg], backends + [backend])
         == Step(DispatchAll(history, r, msgs, backends), r, msg, backend)
  {
    assert (msgs + [msg])[..|msgs|] == msgs;
    assert (backends + [backend])[..|msgs|] == backends;
  }

  /** A run of messages can be dispatched in pieces: dispatching `a + b` is
      dispatching `a`, then `b` on the history `a` left, with the outputs of
      the two pieces concatenated. */
  lemma {:induction false} DispatchAllSplit(history: seq<Message>, r: Registry, a: seq<Message>, b: seq<Message>,
                                            ba: seq<Backend>, bb: seq<Backend>)
    requires |ba| == |a| && |bb| == |b|
    ensures var s1 := DispatchAll(history, r, a, ba);
            var s2 := DispatchAll(history + a, r, b, bb);
            DispatchAll(history, r, a + b, ba + bb) == Concat(s1, s2)
  {
    var s1 := DispatchAll(history, r, a, ba);
    if |b| == 0 {
      assert a + b == a && ba + bb == ba;
      assert DispatchAll(history + a, r, b, bb) == Session(history + a, [], [], []);
    } else {
      var b', m := b[..|b| - 1], b[|b| - 1];
      var bb', be := bb[..|b| - 1], bb[|b| - 1];
      assert b == b' + [m] && bb == bb' + [be];
      assert a + b == (a + b') + [m] && ba + bb == (ba + bb') + [be];
      DispatchAllSplit(history, r, a, b', ba, bb');
      var s2' := DispatchAll(history + a, r, b', bb');
      DispatchAllSnoc(history, r, a + b', m, ba + bb', be);
      DispatchAllSnoc(history + a, r, b', m, bb', be);
      // both sides end with the same dispatch of the last message of `b`
      ConcatStep(s1, s2', r, m, be);
    }
  }

  /** The payload the Send button publishes. */
  function ChatPayload(text: string, from: string, timestamp: int): (p: Payload)
    ensures p.kind.None? && p.text == Some(text)
  {
    Payload(None, Some(text), Some(from), None, None, None, None, Some(timestamp))
  }

  /** The payload the Invoke LLM button publishes. */
  function InvokeRequestPayload(text: string, from: string, conversationId: string): (p: Payload)
    ensures p.kind == Some(InvokeType)
    ensures p.to == Some(OllamaAgent.id) && p.tool == Some(SummarizeTool)
    ensures p.input == Some(Input(text))
  {
    Payload(Some(InvokeType), None, Some(from), Some("agent:ollama"), Some("summarize"), Some(Input(text)),
            Some(conversationId), None)
  }

  /** A chat message is recorded and nothing else happens. */
  lemma ChatMessageOnlyRecorded(history: seq<Message>, r: Registry, name: string, text: string, from: string,
                                timestamp: int, backend: Backend)
    ensures var msg := Message(name, ChatPayload(text, from, timestamp));
            Dispatch(history, r, msg, backend) == Outcome(history + [msg], [], [], None)
  {
  }

  /** The Invoke LLM button, against a registry holding the start-up agent:
      one request for the typed text, and one response carrying the server's
      answer, named after the Ollama agent, exactly when the server answers. */
  lemma SummarizeRoundTrip(history: seq<Message>, r0: Registry, name: string, text: string, from: string,
                           conversationId: string, backend: Backend)
    ensures var msg := Message(name, InvokeRequestPayload(text, from, conversationId));
            var out := Dispatch(history, Register(r0, OllamaAgent), msg, backend);
            var answer := backend(SummarizeRequest(text));
            && out.requests == [SummarizeRequest(text)]
            && (answer.Success? ==> out.published == [Publish("Agent-Response (agent:ollama):", answer.value)])
            && (answer.Failure? ==> out.published == [] && out.error == Some(InvokeFailed(BackendError(answer.error))))
  {
    var msg := Message(name, InvokeRequestPayload(text, from, conversationId));
    var r := Register(r0, OllamaAgent);
    assert LookUp(r, msg.data.to) == Some(OllamaAgent);
    assert Invoke(OllamaAgent, msg.data.input, msg.data.tool, backend)
        == LlamaInvoke(Some(Input(text)), Some(SummarizeTool), backend);
    assert ResponseName(msg.data.to.value) == "Agent-Response (agent:ollama):";
  }

  /** An invoke naming a tool other than `summarize` to the Ollama agent is
      reported as unsupported, makes no request and publishes nothing. */
  lemma UnsupportedToolPublishesNothing(history: seq<Message>, r0: Registry, msg: Message, backend: Backend)
    requires msg.data.kind == Some(InvokeType) && msg.data.to == Some(OllamaAgent.id)
    requires msg.data.tool != Some(SummarizeTool)
    ensures var out := Dispatch(history, Register(r0, OllamaAgent), msg, backend);
            && out.published == [] && out.requests == []
            && out.error == Some(InvokeFailed(UnsupportedTool(JsText(msg.data.tool))))
  {
    assert LookUp(Register(r0, OllamaAgent), msg.data.to) == Some(OllamaAgent);
  }
}
