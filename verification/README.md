# yas-harness, modelled and proved

A Dafny 4.11 model of the state machines and text algorithms of the yas-harness agent chassis, with proofs
about every run of them. `dafny verify dfyconfig.toml` checks the whole project.

| files | what they model |
|---|---|
| `Template`, `WorkflowConfig`, `Workflow`, `WorkflowSafety`, `WorkflowGates`, `WorkflowAnswers`, `WorkflowRunner` | the workflow engine: a validated configuration, a resumable run, two kinds of pause |
| `Approvals`, `Agent`, `AgentSafety`, `Transcript`, `Conversation`, `ChatMessages`, `AgentRunner` | the agent loop with human approval, and the wire format its conversations must fit |
| `JsonExtract`, `Json` | the router's extraction of a JSON object from a reply |
| `Routing`, `Availability`, `Gateway`, `GatewaySafety`, `GatewayWalk`, `GatewayAnswers`, `RoutedGateway` | model routing: fallback over retry, a circuit breaker, own keys, usage rows |
| `FlatKeys`, `PoolStore`, `ResourceCache`, `CachedConnections` | flat keys for nested names, and the cache kept in step with a paginated source |
| `Compression`, `Lines`, `Engines`, `Ansi`, `Tables` | the compression pipeline under its gate, and three engines |
| `Chunking`, `ChunkLayout` | cutting documents into overlapping chunks |
| `Envelope`, `Vault`, `VaultAnswers`, `KeyVault` | vaults racing for one data key a tenant |
| `ExportQueue`, `Spend`, `Embedder` | span export, spend breakdown, batched embedding |
| `Basics`, `Text`, `Sorting` | shared vocabulary |

## How the model is built

Each state machine is a set of functions from state to state. What the program cannot decide itself is a
parameter: what a model, a tool, an agent or a provider answers, what a clock reads, which bytes a random
source gives, what a regular expression finds. A statement about every `Setup` is therefore a statement about
every behaviour of those. The theorems are about all schedules of calls, from the empty state.

Beside the functions stand classes with the program's own fields, loops and update in place. Every method
says that it carries out the transition of the same name, so what is proved of the transitions holds of it.

A log of events (a tool ran, a provider was called, a person decided) is part of the modelled state; it is
what the theorems speak about: what is stored, sent, recorded or waited for is stated against the answers
those parameters gave, by their place in the log, so that the transitions are pinned by what they show.

## What the proofs found

- Tenant ids with a colon can share a circuit-breaker memory with another tenant's model:
  `TenantsCanCollide` gives a pair, and `CredentialScopesCollide` says exactly which pairs do.
- The cooldown is min(first wait times 2 to the k, ceiling) from the first failed probe on; for no probe at
  all it is the first wait, capped or not (`CooldownIsCapped`).
- A tenant with own keys can still be served on the platform's key, when the key disappears between being
  listed and being used (`PlatformCanPay`). With a vault that keeps its answers, it never is, whatever the
  providers do, exactly when no candidate's key is gone before one that cannot be unsealed
  (`OwnKeysPayForAllIff`).
- A lossless engine that moves a value into a system prompt passes the gate although the value is dropped
  with a declared prefix (`AHiddenValueIsLost`). One lossless engine loses nothing, for every finder of protected
  values and every request, exactly when it adds no system prompt to the regions it shrinks
  (`OneEngineKeepsTheRestIff`); for several, adding none to any request they shrink is enough
  (`LosslessKeepsTheRest`).
- Stripping control sequences twice can strip more than once did (`StrippingTwiceDiffers`). It strips the same
  exactly when no escape that is kept is followed, behind what is removed after it, by a bracket
  (`StrippingTwiceIff`).
- A workflow step whose approval asks for changes goes ahead (`ChangesRequestedGoesAhead`), although the approval
  port describes that answer (`src/approval/approval-store.ts:16`) as sending the arguments back; the model does
  what the code does. A gated step that was started had been approved exactly when the decision on its gate does
  not ask for changes (`GatedStartsAreApprovedIff`); the gate itself lets go of every decision but a rejection
  (`GoIff`).
- The row of a step that fails at its first call keeps the prompt as it was declared, not as rendered
  (`AFirstFailureShowsTheTemplate`); it keeps the rendered one if the step is gated or its agent was called again
  (`FailedStepsShow`).
- After a cooldown every caller that finds it over is let through (`ProbesAreNotCounted`): that only one probe goes
  out holds because callers here come one after another. The `probing` test in `blocked` changes no answer
  (`ProbingIsNotRead`).
- Whether a held tool call needs its approval is read off the scope it is resumed under, not the one it was held
  under: unapproved, it can run exactly when that scope knows its tool and does not gate it, and nothing else the
  scope gates in that turn is undecided (`UnapprovedCallCanRunIff`; `AnotherScopeRunsIt` is a schedule).

## Model

| member | source | states |
|---|---|---|
| `Template.PiecesAreTheTemplate` | src/workflows/template.ts:19-20 | A template is read as plain characters and placeholders without losing or rereading a character |
| `Template.RenderTotal` | src/workflows/template.ts:46-54 | Rendering succeeds exactly when every name asked for has a value; an error names one that has none |
| `Template.FillDependsOnNames` | src/workflows/template.ts:46-54 | What is rendered depends only on the values of the names the template asks for |
| `Template.FillIs` | src/workflows/template.ts:46-54 | What is rendered is the pieces one after another: a character stands for itself, a placeholder for the value of its name, and nothing is added |
| `Template.FillStopsAtTheFirst` | src/workflows/template.ts:46-54 | A refusal names the first placeholder without a value |
| `Template.MatchAtIff` | src/workflows/template.ts:19-20 | A placeholder is read exactly where two braces, white space, a name, white space and two braces stand, and all of it |
| `Template.PiecesAreRead` | src/workflows/template.ts:19-20 | From left to right a template is read as the placeholder that stands at each place, or else as the character there |
| `Template.References` | src/workflows/template.ts:30-36 | The loop lists exactly the names of the placeholders, each once, in the order they are first asked for |
| `WorkflowConfig.Parse` | src/workflows/workflow-config.ts:86-119 | A configuration is accepted exactly when step ids are unique and prompts name only the input or an earlier step; a refusal explains the first bad step |
| `WorkflowConfig.IdsAreDistinct` | src/workflows/workflow-config.ts:86-95 | An accepted configuration has no two steps of one id |
| `WorkflowConfig.MissingAgents` | src/workflows/workflow-config.ts:132-140 | The agents a workflow names that are not known, all of them and no others |
| `WorkflowSafety.RenderingIsTotal` | src/workflows/workflow-runner.ts:167-230 | In every state any schedule reaches, no step failed for a missing name, and the row of every step that has not failed stores the prompt its template renders to from the steps before it; rows of failed steps are the next row's |
| `WorkflowGates.FailedStepsShow` | src/workflows/workflow-runner.ts:183-194 | In every such state the row of a failed step stores the rendered prompt if the step is gated or its agent was called again after it was held, and its template as declared otherwise |
| `WorkflowGates.AFirstFailureShowsTheTemplate` | src/workflows/workflow-runner.ts:183-194 | A run whose ungated step fails at its first call: the agent was sent the input, the row stores the template |
| `WorkflowSafety.RunsStandWhereTheirStepsDo` | src/workflows/workflow-runner.ts:167-216 | Done steps are a prefix of the workflow; a run awaits, is completed or has failed exactly according to its first step not done |
| `WorkflowSafety.FinishedIsFinal` | src/workflows/workflow-runner.ts:142-151 | A completed or failed run and its steps never change again, whatever is called |
| `WorkflowSafety.AgentsAreStartedOnce` | src/workflows/workflow-runner.ts:219-275 | An agent is started at most once for a step of a run; a held turn is only continued, in the session it was started in |
| `WorkflowSafety.GatedStepsAreDecidedFirst` | src/workflows/workflow-runner.ts:278-344 | A gated step reaches its agent only after its approval was decided and not rejected, with the prompt that person saw; what was decided is the next row's |
| `WorkflowGates.GatedStartsAreApprovedIff` | src/workflows/workflow-runner.ts:278-344 | A step's gate is decided at most once in any schedule; where a gated step's agent was started it was decided before, and it had been approved exactly when the decision logged for that gate does not ask for changes |
| `WorkflowGates.GoIff` | src/workflows/workflow-runner.ts:293-316 | A waiting step goes ahead exactly when its approval is found and neither pending nor rejected |
| `WorkflowGates.ChangesRequestedGoesAhead` | src/workflows/workflow-runner.ts:293-316 | Started, answered with changes requested and resumed, a gated step's agent is started all the same |
| `WorkflowSafety.EveryScheduleKeeps` | src/workflows/workflow-runner.ts:105-216 | The invariant behind these holds after every schedule of start, resume and decisions |
| `WorkflowAnswers.RowsSayWhatHappened` | src/workflows/workflow-runner.ts:347-383 | After every schedule a finished step's output is the answer the last call of its agent gave, a step waiting on a tool was held by that call, a failed one says what it threw, and a declined one names the approval a person rejected and the reason |
| `WorkflowAnswers.AgentsAreSentTheAnswers` | src/workflows/workflow-runner.ts:219-275 | What an agent is sent, after every schedule, is its step's template piece by piece, the holes filled with the run's input and the last answers of the agents of earlier steps |
| `WorkflowAnswers.StartsAreRuns` | src/workflows/workflow-runner.ts:105-133 | A start is a run of that tenant, workflow and input through every later schedule; it is refused, changing nothing, exactly when the workflow or an agent is unknown or a gate has no queue |
| `WorkflowAnswers.ResumptionsAct` | src/workflows/workflow-runner.ts:278-344 | In every reachable state a resumed run acts on what it waits for: nothing while its gate is undecided, failure without a call when it was declined, the agent started with the prompt the person saw otherwise, and a held agent called again in its session |
| `WorkflowAnswers.EveryScheduleTells` | src/workflows/workflow-runner.ts:105-216 | The invariant behind these holds after every schedule |
| `WorkflowGates.EveryScheduleKeepsAlso` | src/workflows/workflow-runner.ts:105-216 | Beside it, after every schedule: one approval a gate, one decision an approval, and the prompts of failed steps |
| `WorkflowRunner.InMemoryWorkflowRunStore.SetStatus` | src/workflows/in-memory-workflow-run-store.ts:66-85 | A run's status is replaced for its own tenant only, and an error is kept only by a finished run |
| `WorkflowRunner.InMemoryWorkflowRunStore.RecordStep` | src/workflows/in-memory-workflow-run-store.ts:87-121 | A step's row is replaced in place or added, keeping the session and output it had unless new ones come |
| `WorkflowRunner.WorkflowRunner.Values` | src/workflows/workflow-runner.ts:386-394 | The map a prompt is rendered from is the input and the answers of the finished steps |
| `WorkflowRunner.WorkflowRunner.Gate` | src/workflows/workflow-runner.ts:278-344 | Asking a person, or reading the answer given, over the stores: the gate transition of the state machine |
| `WorkflowRunner.WorkflowRunner.TakeStep` | src/workflows/workflow-runner.ts:219-275 | One step over the stores is the step transition of the state machine |
| `WorkflowRunner.WorkflowRunner.Record` | src/workflows/workflow-runner.ts:347-383 | Writing down what a turn produced is the settling transition; that the row then holds what the agent answered is RowsSayWhatHappened |
| `WorkflowRunner.WorkflowRunner.Drive` | src/workflows/workflow-runner.ts:167-216 | The loop over steps, with its map of finished rows, is the walk of the state machine |
| `WorkflowRunner.WorkflowRunner.Start` | src/workflows/workflow-runner.ts:105-133 | Starting over the stores is the start transition; it is refused exactly when workflow, agents or queue are missing |
| `WorkflowRunner.WorkflowRunner.Resume` | src/workflows/workflow-runner.ts:142-151 | Resuming over the stores is the resume transition |
| `Approvals.RequestAppends` | src/approval/in-memory-approval-store.ts:29-58 | The rows a request creates, in order, are all that changes, also when it stops at a call that has a row |
| `Approvals.RequestKeeps` | src/approval/in-memory-approval-store.ts:29-58 | Requests keep ids and calls unique and leave every earlier row as it was |
| `Approvals.FreshRequestsAreAllCreated` | src/approval/in-memory-approval-store.ts:29-58 | Calls that have no row and are asked for once are never refused |
| `Approvals.DecideKeeps` | src/approval/in-memory-approval-store.ts:117-137 | A decision keeps every row's identity and never replaces a decision |
| `Approvals.DecideSets` | src/approval/in-memory-approval-store.ts:117-137 | A decision gives the tenant's pending row of that id its status, who decided and why, and changes nothing else; without such a row nothing changes |
| `Approvals.FindIsTheRow` | src/approval/in-memory-approval-store.ts:60-63 | Looking a row up by its id and tenant finds that row |
| `Approvals.InMemoryApprovalStore.Request` | src/approval/in-memory-approval-store.ts:29-58 | The loop over inputs creates the rows of the abstract queue and stops where it does |
| `Approvals.InMemoryApprovalStore.Decide` | src/approval/in-memory-approval-store.ts:117-137 | Only a pending row of the tenant is decided; nothing else changes |
| `Approvals.InMemoryApprovalStore.ForToolCalls` | src/approval/in-memory-approval-store.ts:65-77 | The loop over the rows gives those of the tenant, the session and the calls asked about, and no others |
| `Approvals.RowsForInOrder` | src/approval/in-memory-approval-store.ts:65-77 | They are the rows at exactly the matching places of the queue, in its order, at most one for each call |
| `AgentSafety.ToolsRunOnlyWhenAllowed` | src/core/agent.ts:447-581 | Every tool that ran was called for; a gated one was approved before, with a queue wired; and with a queue every gated call of that turn had been decided |
| `AgentSafety.CallRunsExactlyWhenAllowed` | src/core/agent.ts:536-581 | A call runs exactly when its tool is known, takes the input and is ungated or approved; every other call comes back as an error result for its id |
| `AgentSafety.UnapprovedCallCanRunIff` | src/core/agent.ts:447-534 | A call of a held turn that nobody approved can be run by settling the turn exactly when the scope it is settled under knows its tool and does not gate it, and whatever that scope gates of the turn was decided, if there is a queue |
| `AgentSafety.HeldCallRunsUnapprovedIff` | src/core/agent.ts:293-319 | A call that is all a session is paused on, and that nobody approved, is the first thing a resumption runs, exactly when the scope named then knows its tool without gating it and the tool takes the input |
| `AgentSafety.AnotherScopeRunsIt` | src/core/agent.ts:293-319 | Such a schedule: held by the fallback's gate, run by naming a module that does not gate the tool, while its approval is still pending |
| `AgentSafety.EachCallRunsOnce` | src/core/agent.ts:293-319 | With call ids unique in a session, a call runs at most once, and its approval row shows the very tool and input |
| `AgentSafety.DecisionsAreFinal` | src/approval/in-memory-approval-store.ts:117-137 | No later run, resume or decision changes a decided approval |
| `AgentSafety.ScheduleKeeps` | src/core/agent.ts:259-415 | The invariant behind these holds after every schedule of run, resume, opening and decisions |
| `Transcript.InputsAreStoredAndSent` | src/core/agent.ts:259-284 | The words a turn is run with are stored behind the conversation and stay there through every later schedule, and the first request of the turn carries exactly that; in a session of somebody else, or under an unknown module, nothing changes |
| `Transcript.AnswersAreStored` | src/core/agent.ts:338-386 | After every schedule the model's answer to the n-th request is stored right behind the conversation that was sent |
| `Transcript.MessagesAreSaidOrTold` | src/core/agent.ts:259-415 | There is nothing else in a conversation: an assistant's message is what the model answered to the conversation before it; any other is somebody's words or, behind a turn with calls, one result a call in order, each what the tool gave back when it ran for that call, or an error |
| `Transcript.WhatRanIsReported` | src/core/agent.ts:447-581 | Whatever a tool gave back stands behind the turn that asked, at the place of a call like it |
| `Transcript.RejectionsReachTheModel` | src/core/agent.ts:549-555 | Who rejected a call, and why, is in the error result of the call |
| `Transcript.CorrectionsReachTheModel` | src/core/agent.ts:556-568 | Who asked for changes, and which, is in the error result of the call |
| `Transcript.RefusalsReachTheModel` | src/core/tool.ts:192-210 | Why a tool's schema refused an input is in the error result of the call |
| `Transcript.DriveReplies` | src/core/agent.ts:322-415 | What a turn replies: how the model's last stored answer stopped, the undecided approvals of the held calls, or, at the limit, that the model was asked as often as the scope allows |
| `Transcript.TurnSettlesIff` | src/core/agent.ts:447-534 | Under the invariant of all schedules a turn settles exactly when each call of it the scope gates was decided or there is no queue, and with different ids it is never refused |
| `Transcript.EveryScheduleIsFaithful` | src/core/agent.ts:259-415 | The invariant behind these holds after every schedule |
| `Conversation.CallsAreAnswered` | src/core/agent.ts:322-415 | Every assistant turn with tool calls is directly followed by its results, one for each call in order, unless it is the last and held |
| `Conversation.ScheduleShape` | src/core/agent.ts:259-319 | The shape of every conversation, stored or sent, survives every schedule that leaves paused sessions to resume |
| `ChatMessages.ToChatMessages` | src/models/openai-compatible-provider.ts:191-230 | The loop that translates messages computes the translation message by message: results first, then the calls with their arguments printed, or the text |
| `ChatMessages.NothingIsLost` | src/models/openai-compatible-provider.ts:191-230 | Behind the system prompt, message by message: one tool message a result, in order; then one message of all calls, each with its id, name and printed input, and the text if there is any; or the text alone under the role, left out when empty behind results |
| `ChatMessages.SentHistoriesAreWired` | src/models/openai-compatible-provider.ts:191-230 | In every conversation sent, each tool_calls message is directly followed by exactly one tool message per id, and every tool message is one of those |
| `AgentRunner.InMemorySessionStore.Append` | src/memory/in-memory-session-store.ts:65-83 | A message is added to the session of its own tenant only |
| `AgentRunner.Agent.Execute` | src/core/tool.ts:192-210 | Unknown tools and refused input are error results and run nothing; a throwing tool is an error result |
| `AgentRunner.Agent.RunCall` | src/core/agent.ts:536-581 | The branches over the approval, in the program's order, are the call transition |
| `AgentRunner.Agent.Settle` | src/core/agent.ts:447-534 | Settling with a map of decisions filled row by row is the settling transition: nothing runs while a gated call is undecided |
| `AgentRunner.Agent.Drive` | src/core/agent.ts:322-415 | The loop, which keeps its own copy of the conversation beside the stored one, is the loop of the state machine |
| `AgentRunner.Agent.Run` | src/core/agent.ts:259-284 | Running a turn over the stores is the run transition; what is then stored and sent is InputsAreStoredAndSent and AnswersAreStored |
| `AgentRunner.Agent.Resume` | src/core/agent.ts:293-319 | Resuming from the stores alone is the resume transition |
| `JsonExtract.ExtractJsonObject` | src/router/router.ts:192-229 | The scan over depth, string and escape state computes the extraction |
| `JsonExtract.ExtractFinds` | src/router/router.ts:192-229 | A balanced object behind any text without a brace is what is extracted, whatever follows |
| `JsonExtract.ExtractIsBalanced` | src/router/router.ts:192-229 | What is extracted is a balanced object |
| `JsonExtract.ExtractSpec` | src/router/router.ts:192-229 | Extraction gives exactly the balanced object that starts at the first brace, and nothing exactly when there is none |
| `JsonExtract.ExtractIsShortest` | src/router/router.ts:192-229 | No shorter stretch from the first brace is balanced |
| `Json.ExtractPrinted` | src/router/router.ts:192-229 | Extraction is a left inverse of printing: any JSON object of RFC 8259, printed behind text without a brace and before any text, is extracted as printed |
| `Routing.ParseIffAccepted` | src/models/routing.ts:223-281 | A configuration is accepted exactly when it keeps every rule: declared providers, base URLs, a separate embedding name, known models, and no cheap model for sensitive work |
| `Routing.CandidatesAre` | src/models/routing.ts:316-322 | The candidates of a task are the models its route names, in that order, each with its own provider, model and tier |
| `Availability.CredentialScopesCollide` | src/models/availability.ts:178-189 | Two tenants' keys share a memory exactly when they are the same key or their ids slide into each other across a colon |
| `Availability.TenantsCanCollide` | src/models/availability.ts:187-189 | A pair of tenants and models that share a memory |
| `Availability.ProviderScopesDiffer` | src/models/availability.ts:178-180 | Providers never share a memory |
| `Availability.CooldownDoubles` | src/models/availability.ts:139-142 | A failed probe turns the wait after k probes into the wait after k + 1 |
| `Availability.CooldownIsCapped` | src/models/availability.ts:139-142 | The wait is min(first wait times 2 to the k, ceiling) for every k exactly when the first wait is within the ceiling |
| `Availability.InMemoryAvailability.IsBlocked` | src/models/availability.ts:108-127 | A scope is held back until its wait is over, and then probed |
| `Availability.ProbesAreNotCounted` | src/models/availability.ts:108-127 | Of any callers that check one after another, those that find the wait over are let through, all of them, and no others: a probe that is out holds nobody back |
| `Availability.InMemoryAvailability.Fail` | src/models/availability.ts:129-160 | A fault counts, doubles the wait of a failed probe and holds the scope back from its threshold on |
| `GatewaySafety.NeverCalledWhileWaiting` | src/models/routed-gateway.ts:132-201 | Over any requests and any clock that does not go back, no provider is called before a wait it was given is over, for any tenant, and no key before its own |
| `GatewaySafety.WaitsDouble` | src/models/availability.ts:129-160 | The n-th fault in a row of a scope waits not at all below the threshold, then as long as the provider asked or the doubled, capped cooldown |
| `GatewaySafety.CallsAreSpaced` | src/models/routed-gateway.ts:132-201 | A provider that keeps failing without saying when to return is called, past its threshold, at gaps of at least that cooldown |
| `GatewaySafety.SkippedOnlyForItsOwnFaults` | src/models/routed-gateway.ts:226-232 | A candidate is skipped only for its provider's last fault or one of its own key, not over and not recovered from |
| `GatewaySafety.SuccessForgets` | src/models/routed-gateway.ts:151-163 | An answer clears what was remembered of the provider that gave it and of the key |
| `GatewaySafety.FromTheStart` | src/models/routed-gateway.ts:113-201 | The memory of every scope is what the log of calls says, after any requests |
| `GatewayAnswers.CallsAreFollowed` | src/models/routed-gateway.ts:151-201 | Over any requests the n-th call is followed by what the provider's n-th outcome asks for: a recovery and the row of a success, or the row of a failure and, if it is worth another try, a fault with the kind and the Retry-After the provider gave, none for a timeout |
| `GatewayAnswers.FaultsComeOfCalls` | src/models/routed-gateway.ts:235-249 | Nothing is charged or forgiven but by such a call |
| `GatewayAnswers.RetryAfterIsKept` | src/models/availability.ts:129-160 | A provider that says when to return is not called before that time after the call it said it to; nor is the key, when the fault was the key's |
| `GatewayAnswers.CandidatesAreTried` | src/models/routed-gateway.ts:140-200 | A candidate is called again after pauses that double from a quarter of a second, and left before its attempts are used up only for a fault of the key or a wait just begun |
| `GatewayAnswers.RaisesOnlyFor` | src/models/routed-gateway.ts:177-182 | A request gives up early only when the vault cannot be read, a key cannot be unsealed or a failure is not worth another try |
| `GatewayAnswers.OwnKeysDecide` | src/models/routed-gateway.ts:325-349 | A tenant's candidates are those of the task kept to the providers it brought keys for, the embedding provider aside; all of them when it brought no other |
| `GatewayWalk.CompleteWalks` | src/models/routed-gateway.ts:113-223 | A request is a first-success walk over the candidates it may use: one row for each call, numbered from one, success only last; each call with the key its own ask was answered with; calls and waiting are bounded; sensitive work stays on premium models |
| `GatewayWalk.WalkTrace` | src/models/routed-gateway.ts:132-201 | Candidates are visited in order, each skipped or called at least once and at most as often as configured, all of them when nothing answers |
| `GatewayWalk.OwnKeysPay` | src/models/routed-gateway.ts:325-362 | A tenant with own keys is called only on providers it brought a key for, and the i-th call goes out with the vault's answer to the i-th ask, which was for this tenant and the call's provider: the key, or none if there is none |
| `GatewayWalk.OwnKeysPayForAllIff` | src/models/routed-gateway.ts:132-201 | With a vault that keeps its answers and no fault remembered where there is no key: all calls are on the tenant's own keys whatever the providers do, exactly when going through the candidates none has its key gone before one that cannot be unsealed |
| `GatewayWalk.PlatformCanPay` | src/models/routed-gateway.ts:145-149 | A key gone between listing and use: the call goes out on the platform's key |
| `GatewayWalk.EligibleMayBeUsed` | src/models/routed-gateway.ts:123-127 | The eligible candidates are exactly those of the kind of work asked for, kept to the providers a tenant has keys for |
| `RoutedGateway.RoutedGateway.Complete` | src/models/routed-gateway.ts:113-223 | The nested loops over candidates and attempts, with the memory changed in place, are the walk |
| `RoutedGateway.RoutedGateway.Attempts` | src/models/routed-gateway.ts:140-200 | The attempts at one candidate, with backoff, are those of the walk |
| `RoutedGateway.RoutedGateway.TryOnce` | src/models/routed-gateway.ts:140-200 | One attempt: the tenant's key for this provider, call, row, memory and the check after a failure; what an outcome leaves behind it is CallsAreFollowed |
| `RoutedGateway.RoutedGateway.Unavailable` | src/models/routed-gateway.ts:226-232 | The provider's memory is asked before the key's, at one moment |
| `RoutedGateway.RoutedGateway.Remember` | src/models/routed-gateway.ts:235-249 | A failure is charged to the key when it is the key's and to the provider otherwise |
| `RoutedGateway.RoutedGateway.OwnProviders` | src/models/routed-gateway.ts:325-349 | The completion providers this tenant has keys for, without the embedding provider; an unreadable vault is an error |
| `FlatKeys.ScanIsExact` | src/pools/in-memory-pool-store.ts:48-60 | A prefix scan finds exactly the scope's own entries whose key has the prefix, whatever the ids contain |
| `FlatKeys.IdInjective` | src/connections/in-memory-resource-cache-store.ts:103-110 | Different scopes or keys never share a flat key |
| `FlatKeys.ScopeKeyInjective` | src/connections/in-memory-resource-cache-store.ts:103-106 | Different scopes never share a scope key |
| `FlatKeys.CredentialIdInjective` | src/connections/in-memory-connection-store.ts:120-122 | Different credentials never share a flat key |
| `PoolStore.InMemoryPoolStore.Set` | src/pools/in-memory-pool-store.ts:31-41 | Setting in the flat map sets one entry of one scope's map |
| `PoolStore.InMemoryPoolStore.Delete` | src/pools/in-memory-pool-store.ts:43-46 | Deleting from the flat map deletes one entry of one scope's map |
| `PoolStore.InMemoryPoolStore.List` | src/pools/in-memory-pool-store.ts:48-54 | Listing gives the scope's entries under the prefix, each once, all of them and no others, in the order of their keys |
| `ResourceCache.InMemoryResourceCacheStore.PutAll` | src/connections/in-memory-resource-cache-store.ts:55-65 | Rows are upserted one by one in one scope of the nested map the flat one stands for |
| `ResourceCache.InMemoryResourceCacheStore.List` | src/connections/in-memory-resource-cache-store.ts:71-75 | The snapshots of a scope under the parent rule, each once, all of them and no others, in the order of their ids |
| `ResourceCache.InMemoryResourceCacheStore.Prune` | src/connections/in-memory-resource-cache-store.ts:77-90 | Exactly the scope's rows under the parent rule that are not kept go, and the count is theirs |
| `ResourceCache.InMemoryResourceCacheStore.Delete` | src/connections/in-memory-resource-cache-store.ts:67-69 | One snapshot goes, if it was there |
| `CachedConnections.PollIsTheListing` | src/connections/memory-connector.ts:159-171 | Polling a listing that stays as it is collects it once, in order, and is cut short exactly when it has more pages than max(1, the cap) |
| `CachedConnections.PollIs` | src/connections/cached-connections.ts:202-225 | For any source: page n + 1 is asked with page n's cursor, up to the cap; polling raises exactly when a page it asks for does, and otherwise gives the resources of all pages in order, cut short exactly when the last one has a cursor |
| `CachedConnections.MemoryPollIsInOrder` | src/connections/memory-connector.ts:71-79 | Polling the memory connector collects the resources under the parent, each once, in the order of their ids; cut short, the first of that order |
| `CachedConnections.ReconciledAt` | src/connections/cached-connections.ts:227-231 | After a refresh each listed resource has its last listed snapshot; any other is as it was unless a complete listing of its parent left it out |
| `CachedConnections.WholeRefreshIsExact` | src/connections/cached-connections.ts:194-232 | A complete refresh of a whole connection leaves exactly the listed ids and counts exactly those that went |
| `CachedConnections.RefreshKeepsTheRest` | src/connections/cached-connections.ts:222-231 | A refresh that was cut short removes nothing, and none touches another connection |
| `CachedConnections.RefreshMirrorsTheListing` | src/connections/cached-connections.ts:194-232 | Within the page cap the scope becomes a mirror of the source's listing |
| `CachedConnections.CachedConnections.PollAll` | src/connections/cached-connections.ts:202-225 | The loop over pages, for any source, collects what the abstract poll does, with the ids seen; what that is, page by page, is PollIs |
| `CachedConnections.CachedConnections.Refresh` | src/connections/cached-connections.ts:194-232 | For any source, page by page: if any page asked for raises, nothing changes and there is no summary; otherwise the cache becomes the reconciled one and the summary counts it; every snapshot still came from its own connection |
| `CachedConnections.CachedConnections.Read` | src/connections/cached-connections.ts:99-115 | A fresh snapshot is served without the source; otherwise the source's answer, cached; a stale snapshot when the source fails |
| `CachedConnections.CachedConnections.Invalidate` | src/connections/cached-connections.ts:239-241 | Exactly one snapshot is dropped |
| `Compression.Covered` | src/compression/sensitivity-gate.ts:59-79 | The gate's loop over counts decides multiset inclusion |
| `Compression.LosslessKeeps` | src/compression/compression-pipeline.ts:91-165 | However wrong the engines, lossless ones lose no protected value, with multiplicity |
| `Compression.LossyAddsNone` | src/compression/compression-pipeline.ts:91-165 | However wrong the engines, lossy ones bring no protected value in |
| `Compression.ReportsTelescope` | src/compression/compression-pipeline.ts:91-165 | Reports start where the one before ended, from the first text to the last; text never grows and shrinks whenever anything was applied |
| `Compression.PassIsJudged` | src/compression/compression-pipeline.ts:91-165 | Engine by engine: applied exactly when its text is shorter and, lossy, the protected tokens after are among those before or, lossless, those before among those after, as multisets; refused exactly when it is shorter and that fails; and no reduction otherwise |
| `Compression.CompressionIsJudged` | src/compression/compression-pipeline.ts:49-80 | A compression is such a pass over the whole request or, behind a declared prefix, over what follows it, put back behind the prefix |
| `Compression.RenderIs` | src/compression/request-text.ts:12-30 | What is judged of a request is its system prompt and the texts of its messages in order, a line each |
| `Compression.PrefixIsClamped` | src/models/model-gateway.ts:217-223 | The prefix covers the declared messages, truncated and clamped to those present |
| `Compression.PrefixIsUntouched` | src/compression/compression-pipeline.ts:49-80 | The declared prefix, system prompt and tools go out as they came in |
| `Compression.LosslessKeepsTheRest` | src/compression/compression-pipeline.ts:49-80 | With a prefix, lossless engines that add no system prompt where they shrink lose no protected value of what follows it |
| `Compression.OneEngineKeepsTheRestIff` | src/compression/compression-pipeline.ts:49-80 | One lossless engine loses no protected value behind a prefix, for every finder and request, exactly when it adds no system prompt to the regions it shrinks |
| `Compression.AnAddedSystemLoses` | src/compression/compression-pipeline.ts:66-80 | Wherever a lossless engine adds a system prompt to a region it shrinks, it passes the gate and some protected value is lost |
| `Compression.AHiddenValueIsLost` | src/compression/compression-pipeline.ts:66-80 | An engine that moves a value into a system prompt passes the gate, and the value is dropped when the prefix is put back |
| `Compression.CompressionPipeline.Run` | src/compression/compression-pipeline.ts:91-165 | The loop over engines, with its running text and counts, is the pass; what the pass does with each engine is PassIsJudged |
| `Compression.CompressionPipeline.Compress` | src/compression/compression-pipeline.ts:49-70 | Splitting the prefix off and putting it back around the pass |
| `Lines.SplitOfJoin` | src/compression/engines/whitespace-engine.ts:69-86 | Splitting joined lines gives the lines back |
| `Lines.JoinOfSplit` | src/compression/engines/whitespace-engine.ts:69-86 | Joining split text gives the text back |
| `Engines.Collapse` | src/compression/engines/whitespace-engine.ts:69-86 | The loop over lines trims each and caps blank runs |
| `Engines.TrimTrailing` | src/compression/engines/whitespace-engine.ts:89-95 | The scan from the end removes exactly the trailing blanks |
| `Engines.CollapseIsIdempotent` | src/compression/engines/whitespace-engine.ts:69-86 | Collapsing twice is collapsing once, on texts |
| `Engines.CollapseKeepsWhatIsSaid` | src/compression/engines/whitespace-engine.ts:69-86 | Every line that says something stays, trimmed, in order |
| `Engines.CollapseCapsRuns` | src/compression/engines/whitespace-engine.ts:69-86 | No run of blank lines is longer than allowed |
| `Engines.DedupeConsecutive` | src/compression/engines/tool-result-engine.ts:143-153 | The loop keeps a line when it differs from the one before |
| `Engines.DedupeIsIdempotent` | src/compression/engines/tool-result-engine.ts:143-153 | Deduplicating twice is deduplicating once, on texts |
| `Engines.DedupeStutters` | src/compression/engines/tool-result-engine.ts:143-153 | Repeating each kept line once or more gives the lines back |
| `Engines.NoEqualNeighbours` | src/compression/engines/tool-result-engine.ts:143-153 | No two neighbouring kept lines are equal |
| `Engines.Truncate` | src/compression/engines/tool-result-engine.ts:84-117 | The array of marks and the loop over it compute the truncation |
| `Engines.TruncationIsExact` | src/compression/engines/tool-result-engine.ts:84-117 | Head, tail and error lines are shown, exactly and in order, with one marker for each run of dropped lines; the text has as many lines as that, and no more than before |
| `Ansi.StripAnsi` | src/compression/engines/tool-result-engine.ts:120-140 | The scan with its two indices strips the text from the left |
| `Ansi.StrippingIsExact` | src/compression/engines/tool-result-engine.ts:120-140 | What is removed is whole control sequences, and every other character stays, in order |
| `Ansi.StripsNothingIff` | src/compression/engines/tool-result-engine.ts:120-140 | A text is left alone exactly when nothing in it introduces a sequence |
| `Ansi.StrippingTwiceIff` | src/compression/engines/tool-result-engine.ts:120-140 | Stripping again changes nothing exactly when no escape that is kept is followed, behind the sequences removed after it, by a bracket |
| `Ansi.StrippingTwiceDiffers` | src/compression/engines/tool-result-engine.ts:120-140 | A text for which stripping twice is not stripping once |
| `Tables.Tabulate` | src/compression/engines/json-table-engine.ts:73-101 | A table is made exactly of enough records with the same keys, and reading it gives the same records as maps, in order |
| `Tables.HasKeys` | src/compression/engines/json-table-engine.ts:112-119 | Counting and membership decide equality of key sets |
| `Chunking.Chunk` | src/memory/chunking.ts:36-69 | The loop packs pieces into chunks as the abstract packing does |
| `Chunking.SplitText` | src/memory/chunking.ts:72-97 | The nested loops cut paragraphs, then sentences, then stretches |
| `Chunking.PiecesKeepTheInk` | src/memory/chunking.ts:72-97 | The pieces, one after another, are the document up to white space |
| `Chunking.ChunksAreSized` | src/memory/chunking.ts:36-69 | No chunk is empty or longer than size, overlap and two |
| `Chunking.ChunksAreRuns` | src/memory/chunking.ts:46-69 | The chunks of any document are its parts in order, each once, in runs as long as fit: a run of several is within the size, and the next piece would not have fitted; every chunk but the first starts with the end of the one before, at most min(overlap, size / 2) characters, from behind its first space; there are none exactly when it is white space |
| `ChunkLayout.NormalisedIs` | src/memory/chunking.ts:40 | A document is normalised by leaving out each carriage return before a line feed and the white space at both ends, and nothing else |
| `ChunkLayout.PiecesAre` | src/memory/chunking.ts:72-97 | A text is cut at whole runs of two line feeds or more; a block, trimmed, that fits stays whole; else it is cut at whole runs of white space behind a full stop or the like; a sentence that fits stays whole; else it is cut into stretches of the size and what is left |
| `ChunkLayout.ChunksAre` | src/memory/chunking.ts:36-97 | The chunks of any document, read off its text alone: none, itself, or such pieces in such runs |
| `Envelope.OpenOfSeal` | src/connections/envelope-cipher.ts:91-115 | Nonce, tag and ciphertext framed one after another open again with the same key |
| `Vault.StoredOnce` | src/connections/in-memory-connection-store.ts:89-98 | In every interleaving a tenant's stored data key is written once |
| `Vault.CachesAgree` | src/connections/credential-vault.ts:88-104 | Every cached data key is the one the stored blob opens to, so all vaults agree |
| `Vault.ResolvesToWhatWasStored` | src/connections/credential-vault.ts:55-81 | Every finished resolve answers what the name stood for when it was read, through whichever vault, and never fails to open it |
| `Vault.ResolveOnlyReads` | src/models/model-keys.ts:101-108 | Resolving a model key never stores a data key or a secret |
| `Vault.AnyVaultResolves` | src/models/model-keys.ts:88-154 | From any reachable state, a resolve through any vault of the kind ends with what is stored |
| `VaultAnswers.StoredIsResolved` | src/connections/credential-vault.ts:55-81 | What a store wrote is what a resolve through any vault of the kind answers, from any later state of any interleaving, until another store writes that name or somebody forgets it |
| `VaultAnswers.ForgottenIsNothing` | src/connections/credential-vault.ts:83-85 | A name that was forgotten, or never stored, resolves to nothing, until a store writes it |
| `VaultAnswers.StoresFinish` | src/models/model-keys.ts:88-99 | A store begun in any reachable state is done within four steps of its own, and refused exactly for an empty model key |
| `VaultAnswers.SecretsAreWrapped` | src/connections/envelope-cipher.ts:62-97 | In every interleaving a tenant's stored key is a drawn data key encrypted under the master key, and each of its secrets is encrypted under that data key |
| `KeyVault.KeyVault.DataKey` | src/connections/credential-vault.ts:88-104 | Cache, find, ensure, open and cache are the steps of the protocol |
| `KeyVault.KeyVault.Save` | src/models/model-keys.ts:88-99 | Storing, left alone, is the store operation of the protocol carried through |
| `KeyVault.KeyVault.Answer` | src/models/model-keys.ts:101-108 | Resolving, left alone, is the resolve operation of the protocol carried through |
| `KeyVault.InMemoryTenantKeyStore.Ensure` | src/connections/in-memory-connection-store.ts:89-98 | The first key stored wins and everyone gets it back |
| `ExportQueue.EverySpanIsSomewhereOnce` | src/telemetry/otlp-trace-recorder.ts:141-216 | Every accepted span is queued, in flight, delivered or reported dropped, one of them and once |
| `ExportQueue.BatchesAreInOrder` | src/telemetry/otlp-trace-recorder.ts:141-147 | Batches go out in record order without sharing a span, before anything still queued |
| `ExportQueue.QueueIsBounded` | src/telemetry/otlp-trace-recorder.ts:155-188 | The queue holds at most min(its limit, a batch less one), and never without a timer set or a flush under way |
| `ExportQueue.StepsDecide` | src/telemetry/otlp-trace-recorder.ts:141-216 | Step by step: spans are delivered exactly by a good answer to their batch, and given up exactly by a bad one or, the oldest first, by a span for which there is no room; once closed nothing is accepted |
| `ExportQueue.OtlpQueue.Push` | src/telemetry/otlp-trace-recorder.ts:155-176 | Enqueueing, dropping the oldest and flushing a full batch are the record step |
| `ExportQueue.OtlpQueue.TakeBatch` | src/telemetry/otlp-trace-recorder.ts:141-147 | One round of the flush loop |
| `ExportQueue.OtlpQueue.Answer` | src/telemetry/otlp-trace-recorder.ts:197-216 | An answer delivers a batch or reports it dropped, and the loop goes on |
| `Spend.InMemoryUsageRecorder.Breakdown` | src/telemetry/model-usage.ts:185-202 | One slice a key there are records for, up to the limit, each the sum of its own records, the dearest first and none dearer left out; with room for every key, by model or task they sum to the tenant's spend |
| `Spend.InMemoryUsageRecorder.Spend` | src/telemetry/model-usage.ts:172-183 | The loops over a tenant's records, of one session or all, give their cost, their number and their tokens |
| `Spend.SlicesAre` | src/telemetry/model-usage.ts:222-247 | Each slice adds up, figure by figure, the records that name its key: their model, their task or their session |
| `Spend.LeftOutAtTheLimit` | src/telemetry/model-usage.ts:185-202 | A key some record names has a slice, unless the limit is used up by slices that all cost at least as much |
| `Spend.TotalAddsUp` | src/telemetry/model-usage.ts:172-183 | A total is the number of the records and the sums of their costs and tokens |
| `Spend.SpendSplits` | src/telemetry/model-usage.ts:172-183 | What a tenant spent is what it spent in a session and what it spent outside of it |
| `Spend.SlicesAreTheSpend` | src/telemetry/model-usage.ts:185-202 | With room for every key, slices by model or task sum to the spend in cost, calls and tokens |
| `Spend.SessionSlicesAreTheSpendInSessions` | src/telemetry/model-usage.ts:222-235 | Slices by session sum to the spend of the records that have one |
| `Spend.SortedIs` | src/telemetry/model-usage.ts:197-201 | Sorting puts the dearest first and loses nothing |
| `Spend.CostIsCloseAndMonotone` | src/telemetry/model-usage.ts:256-266 | A cost is within half of 1e-8 of tokens times price per million, summed over input, output and cached input, and never falls when a call takes more tokens |
| `Embedder.BatchEmbed` | src/memory/openai-compatible-embedder.ts:87-144 | A batch fails exactly when the request fails, the count is wrong or a vector is missing; otherwise each place holds the last vector answered for it; answers in any order are put back in the order of the texts |
| `Embedder.Embed` | src/memory/openai-compatible-embedder.ts:78-85 | It fails exactly when one of its requests does; otherwise the result is what they were answered with, one after another; and for any batch size and any order of full answers it is the vector of each text, in order |

## Left out

- Postgres adapters and migrations: their logic is SQL.
- HTTP, provider SDKs, external connectors and the console: plumbing and translation of fields.
- Shape checks of configuration files and JSON parsing: the model starts from parsed records. Names such as `toString`, which a JavaScript object answers to without having them, are taken as absent.
- Concurrent callers of one workflow run or one session: the code has no guard there, so schedules are sequential; a crash in the middle of a call is not modelled either.
- Ids: UUIDs and counters are fresh numbers; that two of them never agree is built in.
- Traces, redaction, loggers, timestamps, risk and consequence texts, and the wording of errors: errors are a cause.
- The router beyond extraction: choosing a module and truncating its reason.
- The agent's usage totals and reply texts, and a response's own parts in the provider adapter (`toResponseParts`, `toUsage`).
- ChatMessages.ToChatMessages: how an input is printed as JSON is a parameter.
- GatewayWalk.CompleteWalks: the wording of the final error, the cap on output tokens and latency are not modelled; a usage row stands for one offered to the recorder, whose failure the code ignores.
- The order in which several faulty models of one configuration are reported is that of the file, given as a parameter.
- Assignment of engines to priorities: the pipeline's theorems hold for every order of engines.
- The parts of a request an engine maps over (`#compressMessage`, `#compressPart`), which leave all but texts as they are, and the exemption of error results from truncation.
- Chunking.Chunk: sizes below one, for which the hard cut would not end, are excluded; so is a batch size of zero in Embedder.Embed.
- Tables.Tabulate: takes the parsed array; printing the table as text is not part of it.
- PoolStore.InMemoryPoolStore.List: `localeCompare` is a parameter, here and in ResourceCache.InMemoryResourceCacheStore.List; the order is stated for every comparison that orders strings.
- CachedConnections.MemoryPollIsInOrder: listings are not kept to a type of resource, which no refresh asks for; search, create and update only pass through the source and put what it returns.
- PoolStore.InMemoryPoolStore.Set: the check on the form of keys is not modelled; the statement holds for every key.
- AES-GCM and randomness: the cipher is any that opens what it sealed, with any keys and nonces of the right length.
- JSON and UTF-8 encoding of secrets: secrets are bytes.
- ExportQueue.OtlpQueue.Push: span contents and the numbering of steps without a store are not modelled; a batch size of zero, for which the flush loop would not end, is excluded.
- Spend.InMemoryUsageRecorder.Breakdown: money is a real number, so rounding inside sums is not modelled; a day has no records in memory.
- Embedder.Embed: the check of vector dimensions that follows the loop is not modelled.
