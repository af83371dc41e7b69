# MetaCognitionEngine orchestration, in Dafny

A model of the decision engine of `DecisionEngine` in `MetaCognitionApp.jsx`. The engine
puts a user's query to a panel of four agents (A, B, C and a chairman). Each agent is a
`status` (waiting, thinking or done) plus the text it shows. It runs one of two protocols
against a text-generation service:

- **Council** (`runCouncil`): three debaters (Visionary, Skeptic, Historian) answer the
  bare query in parallel (`Promise.all`). The chairman then synthesises their answers.
- **DxO** (`runDxO`): a strict pipeline. A lead researcher answers the query, a critical
  reviewer critiques the research, and a final decision maker corrects it. Agent C only
  shows a fixed placeholder text.

`handleStart` guards on the query and the key. It raises the processing flag, runs the
selected protocol and lowers the flag again. `generateContent` turns one service reply into
a text or an error.

How the model is built:

- `wrappers.dfy`: `Option` and `Result`.
- `agents.dfy`: statuses, their rank (waiting < thinking < done), agents, the four-slot
  `Board`, and the initial board where everyone is waiting and empty.
- `generation.dfy`: the reply of the service as a datatype (unreachable, or a response
  with an `ok` flag and an optional parsed body). Also the optional-chaining extraction
  of the first candidate's text, with the `"No response generated."` fallback, and
  `GenerateContent` with its three error cases.
- `prompts.dfy`: the seven roles and their fixed system instructions (a role → text
  table), the prompts as structured values, and their rendering with the fixed text
  segments of the source. It also holds `Splices`: "these strings occur in this order",
  stated as `s == pre + x + post` one part at a time.
- `trace.dfy`: the event log of a run. The events are requests issued, `set*` writes and
  processing-flag writes. `Exec` carries the log plus the views read off it: the current
  board, the requests issued, the board at each request, and one snapshot per write.
  `Recorded()` says the views are exactly what the log determines. The service is an
  *oracle*, `nat -> Reply`: the reply to the k-th request issued. A request is only
  logged when the key is present, because `generateContent` throws before `fetch` without
  one.
- `council.dfy`: `RunCouncil` is the reset writes, then `Debate`, then `Synthesise`.
  `Debate` is the three debater requests issued back to back before any reply is looked
  at. `Synthesise` is the writes showing the answers, the chairman's request, and the
  final write.
- `dxo.dfy`: `RunDxO` is the reset writes followed by `Pipeline`, a recursion over the
  answers heard so far. `StageCall` and `StageBoard` are independent tables. One says
  which request each stage sends. The other says which board each stage's agents show
  once the answers before it are in. The lemmas tie the run to these tables.
- `engine.dfy`: the component's state (query, key, framework, processing flag, board) and
  `HandleStart`.

The model follows the code where a reader might expect otherwise:

- There is no `failed` status. When a request fails, the error is caught inside the run.
  Every agent that was thinking stays thinking, and nothing after the failure is written.
- The council reset writes the three debaters straight to `thinking`. It does not write
  them to `waiting` first.
- In DxO, agent C goes from `waiting` straight to `done`, with the placeholder. This
  happens only after the chairman's final write.
- `Promise.all` issues all three debater requests even when the first one fails. The run
  aborts only after that.

## Model

| member | source | states |
|---|---|---|
| Generation.ExtractText | MetaCognitionApp.jsx:36 | the text is never empty: it is the first candidate's text when that exists and is non-empty, and exactly "No response generated." otherwise |
| Generation.GenerateContent | MetaCognitionApp.jsx:19-36 | an empty key fails with the missing-key error whatever the reply; a non-ok response fails; an unreachable service fails; otherwise (and only then) the result is the extracted, non-empty text |
| Generation.AnswerRoundTrip | MetaCognitionApp.jsx:36 | a service answering text t is heard as t when t is non-empty, and as the fallback text when t is empty |
| Trace.Exec.Request | MetaCognitionApp.jsx:19-36 | one awaited `generateContent` call; no contract of its own: `Trace.RequestEffect` and `Trace.RequestRecorded` characterise it |
| Trace.RequestEffect | MetaCognitionApp.jsx:19-36 | without a key the request fails with the missing-key error and nothing is sent; with one, exactly that request is sent, from the current board, and no agent is written; the reply is the service's answer for that request, never an empty text |
| Trace.RequestRecorded | MetaCognitionApp.jsx:19-36 | a request, sent or not, keeps the board, requests and snapshots equal to what the log determines |
| Trace.ResetTo | MetaCognitionApp.jsx:118-121 | the four reset writes leave exactly the target board, whatever the start board was, after exactly four snapshots and with no request issued |
| Prompts.Instruction | MetaCognitionApp.jsx:126-198 | the seven system-instruction strings of lines 126-128, 152, 170, 184 and 198, verbatim; no contract of its own: `StartCalls`, `CouncilCallRoles` and `DxoCallRoles` state that the i-th request carries the i-th role's instruction |
| Prompts.SynthesisPrompt | MetaCognitionApp.jsx:137-151 | the chairman's template; no contract of its own: `Prompts.SynthesisPromptOrder` characterises it |
| Prompts.SynthesisPromptOrder | MetaCognitionApp.jsx:137-151 | the synthesis prompt contains the query, then the Visionary's, the Skeptic's and the Historian's answers, in that order |
| Prompts.CritiquePrompt | MetaCognitionApp.jsx:175-183 | the critical reviewer's template; no contract of its own: `Prompts.CritiquePromptOrder` characterises it |
| Prompts.CritiquePromptOrder | MetaCognitionApp.jsx:175-183 | the critique prompt names recency, era and confirmation bias, in that order, and then contains the research |
| Prompts.FinalPrompt | MetaCognitionApp.jsx:189-197 | the final decision maker's template; no contract of its own: `Prompts.FinalPromptOrder` characterises it |
| Prompts.FinalPromptOrder | MetaCognitionApp.jsx:189-197 | the final prompt contains the query, then the research, then the critique |
| CouncilProtocol.RunCouncil | MetaCognitionApp.jsx:116-159 | `runCouncil`; no contract of its own: `CouncilOutcome`, `CouncilMonotone`, `CouncilDebaterCalls`, `CouncilSynthesis`, `CouncilCallRoles` and `CouncilRecorded` characterise it |
| CouncilProtocol.Debate | MetaCognitionApp.jsx:125-129 | `Promise.all` always yields three replies, one per debater |
| CouncilProtocol.DebateReplies | MetaCognitionApp.jsx:125-129 | the debate hears the service's first three answers, whatever they are, and writes no agent |
| CouncilProtocol.DebateCalls | MetaCognitionApp.jsx:125-129 | with a key every remaining debater's request leaves, with the bare query and that debater's role, from the board the debate started on; without a key none leaves |
| CouncilProtocol.CouncilDebate | MetaCognitionApp.jsx:118-129 | after the reset, the debate leaves the board `Debating`, the three answers, and (with a key) the three debater requests, all sent from `Debating` |
| CouncilProtocol.SynthesiseResult | MetaCognitionApp.jsx:131-153 | the chairman's stage sends the synthesis request (with a key) once the three answers are shown and the chairman thinks, completes exactly when that request is answered, and then shows the verdict |
| CouncilProtocol.SynthesiseAdvances | MetaCognitionApp.jsx:131-153 | from the debating board the chairman's stage never moves an agent backwards |
| CouncilProtocol.CouncilRecorded | MetaCognitionApp.jsx:116-159 | the run's board, requests, request boards and snapshots are those its log determines, and the run never writes the processing flag |
| CouncilProtocol.CouncilStart | MetaCognitionApp.jsx:118-121 | the first four writes leave A, B and C thinking and empty and the chairman waiting and empty, whatever the previous run left |
| CouncilProtocol.CouncilMonotone | MetaCognitionApp.jsx:116-159 | after the reset writes, no agent's status rank ever decreases from one snapshot to any later one |
| CouncilProtocol.CouncilDebaterCalls | MetaCognitionApp.jsx:125-129 | without a key nothing is sent; with one, the first three requests are the bare query to Visionary, Skeptic and Historian, each sent while the board is `Debating` |
| CouncilProtocol.CouncilSynthesisIssued | MetaCognitionApp.jsx:125-152 | a fourth (synthesis) request is issued if and only if all three debaters answered |
| CouncilProtocol.CouncilSynthesis | MetaCognitionApp.jsx:136-152 | the synthesis request carries the query and the three answers and speaks to the council chairman |
| CouncilProtocol.CouncilSynthesisBoard | MetaCognitionApp.jsx:131-152 | the synthesis request leaves while A, B and C are done with their answers and the chairman thinks |
| CouncilProtocol.CouncilCallRoles | MetaCognitionApp.jsx:125-152 | at most four requests, the i-th always carrying the i-th council instruction |
| CouncilProtocol.CouncilOutcome | MetaCognitionApp.jsx:116-159 | completed if and only if all four answers arrive, and then A, B, C and the chairman are done with answers 1 to 4; a failed debater leaves the reset board; a failed synthesis leaves the chairman thinking |
| CouncilProtocol.SynthesisCarriesDebate | MetaCognitionApp.jsx:136-152 | the rendered synthesis prompt contains the query, then the Visionary's, the Skeptic's and the Historian's answers, in that order |
| CouncilProtocol.SteadyService | MetaCognitionApp.jsx:116-159 | against a service that always answers the same non-empty text, the run completes and all four agents show that text |
| DxoProtocol.RunDxO | MetaCognitionApp.jsx:161-206 | `runDxO`; no contract of its own: `DxoOutcome`, `DxoMonotone`, `DxoPlaceholderLast`, `DxoCalls`, `DxoCallRoles` and `DxoRecorded` characterise it |
| DxoProtocol.StageCall | MetaCognitionApp.jsx:170-198 | the request of stage i speaks to the i-th DxO role |
| DxoProtocol.HandoffBoard | MetaCognitionApp.jsx:171-200 | the writes after a stage's answer move the board from that stage's board to the next, touching no request |
| DxoProtocol.HandoffAdvances | MetaCognitionApp.jsx:171-200 | those writes never move an agent backwards |
| DxoProtocol.HandoffPlaceholder | MetaCognitionApp.jsx:199-200 | those writes show the placeholder in C only beside a done chairman |
| DxoProtocol.PipelineRecorded | MetaCognitionApp.jsx:168-205 | the rest of a run keeps its views equal to what its log determines |
| DxoProtocol.PipelineExtends | MetaCognitionApp.jsx:168-205 | the rest of a run only appends snapshots |
| DxoProtocol.PipelineAdvances | MetaCognitionApp.jsx:168-205 | the rest of a run never moves an agent backwards |
| DxoProtocol.PipelinePlaceholder | MetaCognitionApp.jsx:168-205 | the rest of a run shows the placeholder in C only beside a done chairman |
| DxoProtocol.PipelineOutcome | MetaCognitionApp.jsx:168-205 | the rest of a run completes exactly when every stage is answered, and leaves the board of the last answer heard |
| DxoProtocol.PipelineCalls | MetaCognitionApp.jsx:168-198 | the rest of a run sends one request per stage reached: that stage's request for the answers before it, from the board they left |
| DxoProtocol.DxoRecorded | MetaCognitionApp.jsx:161-206 | the run's views are those its log determines, and the run never writes the processing flag |
| DxoProtocol.DxoStart | MetaCognitionApp.jsx:163-166 | the first four writes leave the researcher thinking and everyone else waiting and empty, whatever the previous run left |
| DxoProtocol.DxoMonotone | MetaCognitionApp.jsx:161-206 | after the reset writes, no agent's status rank ever decreases from one snapshot to any later one |
| DxoProtocol.DxoPlaceholderLast | MetaCognitionApp.jsx:199-200 | after the reset, C is either waiting and empty or done with the placeholder, and it is done only in snapshots where the chairman is done |
| DxoProtocol.DxoOutcome | MetaCognitionApp.jsx:161-206 | the run completes if and only if all three stages are answered, and ends on the board of the answers heard: the failed stage's agent thinking and every later agent waiting |
| DxoProtocol.DxoCalls | MetaCognitionApp.jsx:168-198 | without a key nothing is sent; with one, the requests are strictly sequential, stage i is reached exactly when every earlier stage was answered, and request i is stage i's request for the earlier answers, sent from the board they left |
| DxoProtocol.DxoCallRoles | MetaCognitionApp.jsx:170-198 | at most three requests, the i-th always carrying the i-th DxO instruction |
| DxoProtocol.DxoCompletes | MetaCognitionApp.jsx:168-205 | the run completes if and only if all three requests succeed |
| DxoProtocol.DxoFailure | MetaCognitionApp.jsx:168-205 | a failed research leaves the reset board; a failed critique leaves A done and B thinking; a failed final answer leaves A and B done and the chairman thinking; C stays waiting in each case |
| DxoProtocol.DxoSuccess | MetaCognitionApp.jsx:171-200 | when all three stages are answered, A shows the research, B the critique, C the placeholder and the chairman the final answer, all done |
| DxoProtocol.StageCallCarries | MetaCognitionApp.jsx:170-198 | the research prompt is the bare query, the critique prompt contains the research, and the final prompt contains the query, the research and the critique, in that order |
| DxoProtocol.DxoCritiqueCarries | MetaCognitionApp.jsx:175-184 | in a run, the critique request contains the research that was heard |
| DxoProtocol.DxoFinalCarries | MetaCognitionApp.jsx:189-198 | in a run, the final request contains the query, then the research, then the critique |
| Engine.HandleStart | MetaCognitionApp.jsx:208-223 | `handleStart`; no contract of its own: `StartGuard`, `StartBracketsRun` and `StartCalls` characterise it |
| Engine.FreshIdle | MetaCognitionApp.jsx:102-112 | the component state `Engine.Fresh`, built on the board `Agents.Initial` (two constants, with no contract of their own), has the flag down and every agent waiting and empty, and starting it then does nothing |
| Engine.StartGuard | MetaCognitionApp.jsx:208-214 | a start logs nothing if and only if the query or the key is empty, and then changes no state |
| Engine.StartBracketsRun | MetaCognitionApp.jsx:208-223 | otherwise the flag is raised first and lowered last, whether the run completed or failed; nothing in between writes it; and the agents end as the log's writes leave them |
| Engine.StartCalls | MetaCognitionApp.jsx:208-223 | with a query and a key, the requests of a start are exactly the selected run's requests, prompts included; without either there are none; the i-th request carries the system instruction of the i-th role of the selected protocol |

## Left out

- The JSX rendering, the framework selector, the input fields and the key handler are UI.
  The query, key and framework are fields of the engine state that the model never
  changes.
- The `fetch` call, the URL, the request's JSON encoding and `response.json()` are network
  I/O. A reply is modelled as unreachable (the promise rejects), or as a response with
  an `ok` flag and an optional parsed body. A body that does not parse is read as
  `json == None` and fails the same way a rejected promise does. JSON values of the wrong
  type, such as a number where the text should be, are not modelled.
- The real concurrency of `Promise.all` is left out. The three debater requests are taken
  to be issued in the order Visionary, Skeptic, Historian, and the oracle is indexed by
  issue order. The final state does not depend on that order.
- Which error `Promise.all` rejects with, and the error message in general, are left out.
  The message only reaches `alert` and `console.error`, which are not modelled, so a run
  ends as `Completed` or `Aborted` with no error attached.
- A service that never answers is left out: the oracle always replies.
- Re-entrancy is left out: pressing Enter while a run is in flight would interleave two
  asynchronous runs.
- React's batching of state updates is left out. Every `set*` call is one write and one
  snapshot, taken in program order.
- The exact whitespace and indentation of the template literals is kept only as the
  fixed segments between interpolations. The prompts' properties are stated as
  containment and order.
