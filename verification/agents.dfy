/** The agents of src/App.tsx: the base `Agent` class, whose `invoke` only
    formats its arguments, and `LlamaAgent`, whose `invoke` sends the
    `summarize` tool to a local generation server and rejects every other tool. */
module Agents {
  import opened Wrappers

  /** Which class the agent object was built from. */
  datatype AgentKind = Basic | Llama

  /** An agent descriptor. `tools` is the declared capability list; it is
      carried for presence announcements, and invocation never consults it. */
  datatype Agent = Agent(id: string, name: string, description: string, tools: seq<string>, kind: AgentKind)

  /** The `input` of an invoke request: the record `{ text: ... }`. */
  datatype Input = Input(text: string)

  /** The body of the POST the `summarize` tool sends, with its endpoint. */
  datatype GenerateRequest = GenerateRequest(url: string, model: string, prompt: string, stream: bool)

  /** What an `invoke` may throw. */
  datatype InvokeError =
    | UnsupportedTool(tool: string)
      /** reading `input.text` when the request carried no `input` */
    | MissingInput
      /** the fetch rejected, the reply body was not JSON, or the JSON value was `null` */
    | BackendError(reason: string)

  /** The text of the thrown `Error`. The `MissingInput` text is the V8
      engine's wording of the `TypeError`; other engines word it differently. */
  function ErrorMessage(e: InvokeError): (m: string)
    // the unsupported-tool message names the rejected tool after a fixed prefix
    ensures e.UnsupportedTool? ==> |m| == 18 + |e.tool| && m[..18] == "Unsupported tool: " && m[18..] == e.tool
    // a backend failure is passed on unchanged
    ensures e.BackendError? ==> m == e.reason
  {
    match e
    case UnsupportedTool(t) => "Unsupported tool: " + t
    case MissingInput => "Cannot read properties of undefined (reading 'text')"
    case BackendError(reason) => reason
  }

  /** The generation server: everything from `fetch` to `result.response`,
      left uninterpreted. */
  type Backend = GenerateRequest -> Result<string, string>

  /** The outcome of one `invoke` together with every backend request it made. */
  datatype Invocation = Invocation(outcome: Result<string, InvokeError>, requests: seq<GenerateRequest>)

  const SummarizeTool := "summarize"
  const GenerateUrl := "http://localhost:11434/api/generate"
  const GenerateModel := "llama3"

  /** How a JavaScript template literal renders a value that may be undefined. */
  function JsText(s: Option<string>): (r: string)
    ensures s.Some? ==> r == s.value
    ensures s.None? ==> r == "undefined"
  {
    match s
    case Some(v) => v
    case None => "undefined"
  }

  /** How a template literal renders the `input` record the dispatcher passes:
      an object prints as "[object Object]", an absent one as "undefined". */
  function InputText(input: Option<Input>): (r: string)
    // the record's text never shows through
    ensures input.Some? <==> r == "[object Object]"
    ensures input.None? <==> r == "undefined"
  {
    match input
    case Some(_) => "[object Object]"
    case None => "undefined"
  }

  /** `Agent.invoke`: the text reads `tool: <tool>, input: <input>`. The
      contract takes the result apart field by field. */
  function BaseInvoke(input: string, tool: string): (r: string)
    ensures |r| == |tool| + |input| + 15
    ensures r[..6] == "tool: "
    ensures r[6..6 + |tool|] == tool
    ensures r[6 + |tool|..15 + |tool|] == ", input: "
    ensures r[15 + |tool|..] == input
  {
    "tool: " + tool + ", input: " + input
  }

  /** The request the `summarize` tool sends for a prompt. */
  function SummarizeRequest(prompt: string): (q: GenerateRequest)
    ensures q.prompt == prompt && !q.stream
    ensures q.url == GenerateUrl && q.model == GenerateModel
  {
    GenerateRequest(GenerateUrl, GenerateModel, prompt, false)
  }

  /** `LlamaAgent.invoke`: a closed switch on the tool name. */
  function LlamaInvoke(input: Option<Input>, tool: Option<string>, backend: Backend): (v: Invocation)
    // any tool but `summarize` throws before any request is made
    ensures tool != Some(SummarizeTool) ==>
              v == Invocation(Failure(UnsupportedTool(JsText(tool))), [])
    // `summarize` without an input fails on `input.text`, also before any request
    ensures tool == Some(SummarizeTool) && input.None? ==> v == Invocation(Failure(MissingInput), [])
    // `summarize` makes exactly one request, for the input's text, and returns its answer
    ensures tool == Some(SummarizeTool) && input.Some? ==>
              && v.requests == [SummarizeRequest(input.value.text)]
              && (v.outcome.Success? <==> backend(SummarizeRequest(input.value.text)).Success?)
              && (v.outcome.Success? ==> v.outcome.value == backend(SummarizeRequest(input.value.text)).value)
    ensures |v.requests| <= 1
  {
    if tool == Some(SummarizeTool) then
      match input
      case None => Invocation(Failure(MissingInput), [])
      case Some(i) =>
        var q := SummarizeRequest(i.text);
        match backend(q)
        case Success(response) => Invocation(Success(response), [q])
        case Failure(reason) => Invocation(Failure(BackendError(reason)), [q])
    else
      Invocation(Failure(UnsupportedTool(JsText(tool))), [])
  }

  /** `agent.invoke(input, tool)` on whichever class the agent was built from. */
  function Invoke(a: Agent, input: Option<Input>, tool: Option<string>, backend: Backend): (v: Invocation)
    // a base agent never throws and never calls the server
    ensures a.kind == Basic ==> v.outcome.Success? && v.requests == []
    // only a Llama agent asked to summarize an input calls the server, and at most once
    ensures v.requests != [] ==> a.kind == Llama && tool == Some(SummarizeTool) && input.Some?
    ensures |v.requests| <= 1
    // a failure is always a LlamaAgent's
    ensures v.outcome.Failure? ==> a.kind == Llama
  {
    match a.kind
    case Basic => Invocation(Success(BaseInvoke(InputText(input), JsText(tool))), [])
    case Llama => LlamaInvoke(input, tool, backend)
  }

  /** The unsupported-tool error names the tool it rejected. */
  lemma UnsupportedToolMessage(input: Option<Input>, t: string, backend: Backend)
    requires t != SummarizeTool
    ensures LlamaInvoke(input, Some(t), backend).outcome.Failure?
    ensures ErrorMessage(LlamaInvoke(input, Some(t), backend).outcome.error) == "Unsupported tool: " + t
  {
  }

  /** The base formatter loses nothing: for one tool, different inputs give
      different texts. */
  lemma BaseInvokeInjective(i1: string, i2: string, tool: string)
    requires BaseInvoke(i1, tool) == BaseInvoke(i2, tool)
    ensures i1 == i2
  {
  }
}
