# Allochory agent exchange: registry, agents and invoke dispatcher

A model, in Dafny, of the decision logic of the Allochory client (`src/App.tsx`):
a chat page that relays messages and "agent invoke" requests over one Ably
channel and hands `summarize` requests to a local Ollama server. The logic
modelled is:

- **Agents** (`agents.dfy`, module `Agents`): the base `Agent.invoke`, which
  formats `tool: <tool>, input: <input>`, and `LlamaAgent.invoke`, a closed
  switch on the tool name where `summarize` sends one generation request
  (endpoint `http://localhost:11434/api/generate`, model `llama3`, `stream`
  false, prompt `input.text`) and every other tool throws
  `Unsupported tool: <tool>`. The server is an uninterpreted `Backend`
  function from request to `Result<string, string>`. An `Invocation` records
  the requests made, so "no server call" can be stated.
- **AgentRegistry** (`registry.dfy`): the static `Map` from id to agent,
  modelled as an insertion-ordered map. This is the ids in first-insertion
  order plus a `map`. `register` is `Map.set`, `find` is `Map.get` returning
  `None` for unknown ids, and `list` is `Array.from(map.values())`. It also
  models the registration on every render of `App` (line 65).
- **RegistryReference** (`registry_reference.dfy`): a second description of
  the registry built from the history of `register` calls alone. `find(id)` is
  the last agent registered under `id`. `list()` holds one agent per id ever
  registered, ordered by the id's first registration. Lemmas prove that the
  map-based registry agrees with this description for every history.
- **Dispatcher** (`dispatcher.dfy`): the `channel.subscribe` callback as a
  pure function. It takes the history, the registry, one message and the
  server, and returns the new history, the publishes, the server requests and
  the reported error. `DispatchAll` runs it over a sequence of messages, giving each message its own server function, since the server's answers are sampled and need not repeat. The
  two button payloads are modelled as constructors.

JavaScript `undefined` in the message fields the callback reads (`type`, `to`,
`tool`, `input`) is `None`. A template literal renders it as `undefined`.

Three places where the code's behaviour differs from what its declarations suggest; the model follows the code:

- `LlamaAgent.invoke` dispatches on the tool name alone. It never consults the
  agent's declared `tools` list. A base `Agent` accepts every tool name.
- When the invoke throws, the callback has no `catch`. The exception becomes an
  unhandled rejection of the async callback. The model reports it as
  `InvokeFailed` and publishes nothing.
- `invoke` declares `input: string`, but `LlamaAgent.invoke` reads `input.text`
  and the dispatcher passes the request's `{ text }` record. The model types
  the input as that record. So a base `Agent` reached through the dispatcher
  renders its input as `[object Object]`, which is JavaScript's rendering of a
  plain object. `BaseInvoke` itself is stated on the declared string input.

## Model

| member | source | states |
|---|---|---|
| Agents.BaseInvoke | src/App.tsx:17-19 | The text is `tool: `, then the tool, then `, input: `, then the input, with nothing else (length and each slice pinned). |
| Agents.BaseInvokeInjective | src/App.tsx:17-19 | For a fixed tool, two inputs with the same formatted text are equal, so the format loses nothing. |
| Agents.SummarizeRequest | src/App.tsx:26-34 | The summarize request posts the prompt to the fixed local endpoint with model `llama3` and streaming off. |
| Agents.LlamaInvoke | src/App.tsx:23-39 | A tool other than `summarize` (including an absent one) fails with UnsupportedTool naming the tool and makes no request. `summarize` without an input fails before any request. `summarize` with an input makes exactly one request, for `input.text`, and succeeds exactly when the server does, returning its answer. |
| Agents.UnsupportedToolMessage | src/App.tsx:37-38 | The thrown error's message for tool `t` is `Unsupported tool: ` followed by `t`. |
| Agents.Invoke | src/App.tsx:17-40 | A base agent never throws and never calls the server. Only a Llama agent asked to `summarize` a present input calls the server, and at most once. Every failure comes from a Llama agent. |
| Agents.ErrorMessage | src/App.tsx:38 | The unsupported-tool message is `Unsupported tool: ` followed by the rejected tool, nothing else. A backend failure's message is passed on unchanged. |
| Agents.JsText | src/App.tsx:18 | A template literal renders a present value as itself and an absent one as `undefined`. |
| Agents.InputText | src/App.tsx:18 | The `{ text }` record renders as `[object Object]` and never shows its text; an absent input renders as `undefined`. |
| AgentRegistry.Empty | src/App.tsx:44 | The fresh registry is valid, finds nothing and lists nothing. |
| AgentRegistry.Register | src/App.tsx:46-48 | Validity is preserved. Afterwards `find(a.id)` is `a` (last write wins) and `find(y)` is unchanged for every other id. A known id keeps its place in the order, and a new id is appended. |
| AgentRegistry.Find | src/App.tsx:50-52 | The result is absent exactly for ids not in the registry. It is not an error. |
| AgentRegistry.List | src/App.tsx:54-56 | There is one entry per ordered id, each the agent `find` returns for it. Ids are pairwise distinct, and an agent is listed exactly when it is the registered agent for its id. |
| AgentRegistry.RegisterKnownKeepsList | src/App.tsx:46-56 | Re-registering a known id keeps the list's length and every position. Only that id's entry becomes the new agent. |
| AgentRegistry.RegisterNewAppends | src/App.tsx:46-56 | Registering a new id appends exactly its agent to the list. |
| AgentRegistry.RegisterTwice | src/App.tsx:46-48 | Registering the same agent twice gives the same registry as registering it once. |
| AgentRegistry.RegisterRepeatedly | src/App.tsx:46-48 | Zero registrations leave the registry unchanged. Any positive number makes `find` return the agent. Validity is preserved. |
| AgentRegistry.RegisterIdempotent | src/App.tsx:65 | Any number n >= 1 of registrations of one agent gives the same registry as one registration. |
| AgentRegistry.AfterRenders | src/App.tsx:65 | After any positive number of renders, the registry equals one registration of the Ollama agent and finds it under `agent:ollama`. |
| RegistryReference.Build | src/App.tsx:46-48 | Every registry reached by a sequence of registrations from empty is valid. |
| RegistryReference.LastWith | src/App.tsx:46-52 | The reference lookup returns only an agent of the history that carries the requested id. |
| RegistryReference.LastWithAbsent | src/App.tsx:50-52 | The reference lookup is absent exactly for ids never registered. |
| RegistryReference.BuildKeys | src/App.tsx:44-52 | The registry's keys are exactly the ids that were ever registered. |
| RegistryReference.BuildFind | src/App.tsx:46-52 | For every history, `find(id)` is the last agent registered under `id`, and absent if there is none. |
| RegistryReference.BuildOrder | src/App.tsx:54-56 | For every history, the registry's order puts an id first exactly when its first registration came earlier. |
| RegistryReference.BuildListEntries | src/App.tsx:54-56 | For every history, `list()` has distinct ids. Each entry is a registered id's last registration, and every registered id appears. |
| RegistryReference.BuildListOrder | src/App.tsx:54-56 | For every history, `list()` entries are ordered by the first registration of their ids. |
| Dispatcher.ResponseName | src/App.tsx:112 | The response name is `Agent-Response (`, then the target id, then `):`. |
| Dispatcher.ResponseNameInjective | src/App.tsx:112 | Responses for different targets carry different names. |
| Dispatcher.LookUp | src/App.tsx:109 | The lookup of `data.to` finds an agent exactly when `to` is present and registered. An absent `to` finds nothing. |
| Dispatcher.Dispatch | src/App.tsx:97-117 | Every message is appended to the history. A non-invoke does nothing else. An invoke to an unknown target reports AgentNotFound, with no request and no publish. Otherwise the target's invoke runs, and its requests are the only ones made. Success gives exactly one publish, named after the target and carrying the result text. A throw gives zero publishes and reports InvokeFailed. There is at most one publish, and there is one exactly when an invoke reported no error. |
| Dispatcher.DispatchAll | src/App.tsx:97-117 | Over a run of messages, each served by its own view of the server, the history is extended by exactly those messages. The number of publishes plus the number of reported errors equals the number of invoke requests. |
| Dispatcher.Step | src/App.tsx:97-117 | One more message extends the history by that message, and adds one publish or one reported error exactly when it is an invoke request. |
| Dispatcher.DispatchAllSplit | src/App.tsx:97-117 | Dispatching two consecutive runs of messages together equals dispatching the first, then the second on the history the first left, with the publishes, requests and errors of the two concatenated. |
| Dispatcher.ChatPayload | src/App.tsx:155-159 | The Send payload has no `type` and carries the typed text. |
| Dispatcher.InvokeRequestPayload | src/App.tsx:170-177 | The Invoke LLM payload is an invoke of `summarize` addressed to `agent:ollama` with input `{ text }`. |
| Dispatcher.ChatMessageOnlyRecorded | src/App.tsx:99-104 | A Send-button message is recorded in the history, with no request, publish or error. |
| Dispatcher.SummarizeRoundTrip | src/App.tsx:104-112 | With the start-up agent registered, the Invoke LLM message makes one request for the typed text. It publishes `Agent-Response (agent:ollama):` with the server's answer exactly when the server answers, and otherwise reports the server's failure. |
| Dispatcher.UnsupportedToolPublishesNothing | src/App.tsx:104-112 | An invoke to the Ollama agent naming another tool reports UnsupportedTool for that tool, makes no request and publishes nothing. |

## Left out

- React state, hooks and JSX rendering (`App`, lines 59-63 and 128-199) are UI only. The history is a plain sequence of messages.
- Creating the Ably client and handling connection events are left out. So are getting the channel, presence enter/get/subscribe (including the presence records built from `list()`), the greeting publish and teardown (lines 68-95, 119-125). They are calls into the external SDK. Only the effect of `channel.publish` inside the callback is modelled, as an entry in `published`.
- The HTTP `fetch`, the JSON decoding and the read of `result.response` (lines 26-36) are one uninterpreted `Backend` function. It fails when the fetch rejects, the body is not JSON, or the JSON value is `null` (reading `response` of `null` throws).
- Agents.LlamaInvoke: the HTTP status is never checked, so any JSON reply without a `response` field, whatever its status, resolves normally and the source publishes `{ text: undefined }`. `Publish(text: string)` cannot represent that, so the model treats every backend success as a string answer.
- `Date.now()` and `crypto.randomUUID()` in the button handlers (lines 151-182) are nondeterministic, so they are parameters of the payload constructors. Publishing from the buttons is not modelled.
- The log lines (`console.log`, `console.error`) are not modelled. The "agent not found" log is the `AgentNotFound` error.
- Dispatcher.Dispatch: `msg.data` that is `null` or not an object is not modelled, so `data.type` always reads a field. An `input` that is present but not a record is not modelled either.
- Dispatcher.DispatchAll: it fixes one interleaving, with dispatches completing in arrival order. In the source, concurrent async callbacks may publish in any order. Only the history order and the counts are claimed. The count covers only dispatches whose backend call settles: the `fetch` has no timeout, so an invoke whose server never answers ends in neither a publish nor an error, which the total `Backend` function cannot express.
- Agents are values: each render creates a new `LlamaAgent` object, so in the source the `Map` holds a different object after every render. Object identity is not modelled; AgentRegistry.RegisterIdempotent and AgentRegistry.AfterRenders state equality of the descriptor's fields, and nothing in the code compares agents by identity.
- Only absent (`undefined`) message fields are modelled. `null` or non-string `to`, `tool` and `type` values are not; for example a `null` tool throws `Unsupported tool: null` and a `null` target is logged as not found.
