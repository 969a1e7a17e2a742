# Code-agent workflow: a Dafny model

This project models the control logic of the `code-agent` workflow in
`src/inngest/functions.ts`. The workflow does the following in order:

1. It provisions a sandbox.
2. It runs an agent network with one coding agent and three tools (`terminals`, `CreateOrUpdateFiles`, `readFiles`).
3. The agent's completion hook records a summary when the agent's last text contains `<task_summary>`.
4. The router stops once that summary is set, or after 15 iterations.
5. The run is classified as an error or a result.
6. Exactly one message is saved.
7. `{url, title, files, summary}` is returned.

Everything outside the workflow is an input. That covers the sandbox, the language model, the step runner and the database. Each sandbox call either answers or throws an error, represented as a string. Each agent invocation is arbitrary too: it either responds with a turn (the tool calls the model requests and its last assistant text) or rejects, which rejects the whole network run.

The files map is a plain JavaScript object. Assigning the key `__proto__` on it runs the inherited prototype setter, which ignores a string, so that path is never stored and `Object.keys` never counts it. The model follows this (`Tools.Assign`).

Modules:

- `Wrappers` (`wrappers.dfy`): `Option`.
- `Text` (`text.dfy`): the `<task_summary>` marker and `includes`.
- `State` (`agent_state.dfy`): `AgentState`, JavaScript truthiness of the summary, `files || {}`.
- `Tools` (`tools.dfy`): the three tool handlers with their sandbox oracles.
- `Agent` (`agent.dfy`): the `onResponse` hook and the effect of one agent turn.
- `Network` (`network.dfy`): the router and the loop bounded by `maxIter`.
- `Workflow` (`workflow.dfy`): `isError`, the `save-result` branch, the whole run.

The batch write is **not** atomic, with each `step.run` a plain call (see Left out). A comparison with the handler's outward shape:

- The handler commits only when the step returns an object. That looks like compute-then-commit.
- But `updatedFiles` is the shared map itself whenever the state already has one.
- So each file written before a failing write is already in the shared state.
- The commit being skipped does not undo those writes.
- `Tools.BatchFailure` states the exact partial effect. `Tools.BatchIsNotAtomic` gives a concrete batch whose second write fails, which still changes the state.

The summary is write-once only because of the router. The hook itself overwrites the summary whenever it sees the marker. The router stops the network as soon as the summary is truthy, so the hook never runs again. `Agent.DoneIsStable` shows that a turn could not unset the summary anyway.

## Model

| member | source | states |
|---|---|---|
| Text.IncludesIffOccurs | src/inngest/functions.ts:129 | the `includes` test holds exactly when the marker occurs at some index of the text |
| Text.MarkerTextIsNonEmpty | src/inngest/functions.ts:128-129 | a text containing `<task_summary>` is non-empty, so the truthiness test before the marker test never decides alone |
| Tools.Terminals | src/inngest/functions.ts:42-63 | `terminals` never throws: it returns the command's stdout exactly when the sandbox attaches and the command returns; otherwise it returns "Command failed: " with the error and everything streamed to stdout and stderr before the throw (empty when `getSandbox` throws) |
| Tools.CommandFailureShape | src/inngest/functions.ts:60 | a `terminals` diagnostic starts with "Command failed: " followed by the error, and ends with the captured stderr |
| Tools.CompletedWrites | src/inngest/functions.ts:84-87 | the number of writes performed before the first throwing one: all earlier writes succeed and the one at that index throws, unless the whole batch went through |
| Tools.WriteFilesStep | src/inngest/functions.ts:80-93 | the step returns the files object exactly when every sandbox call succeeds, and it is then the old map (or `{}`) with the batch applied; otherwise an "Error : " string; it never touches the summary, and it leaves the state alone when no files map existed |
| Tools.CreateOrUpdateFiles | src/inngest/functions.ts:76-98 | the handler is the step followed by `Tools.Commit`, which stores the step's value only when it is the files object; the handler never changes the summary, never removes a path, never makes an existing files map absent; on success the files are the old map with the batch applied; on a failure with no prior map the state is unchanged |
| Tools.ApplyKeepsKeys | src/inngest/functions.ts:84-87 | applying writes never removes a path |
| Tools.ApplyIsLastWriteWins | src/inngest/functions.ts:82-89 | after a batch a path is present iff it was present or written (and is not `__proto__`); a written path other than `__proto__` holds its last write's content; any other path keeps its old value |
| Tools.LastWriteIsLastIndex | src/inngest/functions.ts:84-87 | the content a path ends with is the content at the last index of the batch naming that path |
| Tools.LastWriteOfUnwrittenPath | src/inngest/functions.ts:84-87 | a path that no write names has no last write (so, by `Tools.ApplyIsLastWriteWins`, it keeps its old value and presence) |
| Tools.BatchSuccess | src/inngest/functions.ts:80-97 | a batch whose sandbox calls all succeed commits the old files (or the empty map) with every write applied, last write winning, `__proto__` never added, and other paths unchanged |
| Tools.BatchAttachFailure | src/inngest/functions.ts:81-83 | when `getSandbox` throws, the step yields "Error : " and the error, and the state is unchanged |
| Tools.BatchFailure | src/inngest/functions.ts:80-97 | when write k throws, the step yields "Error : " and that error, the commit is skipped, and the first k writes stay applied to a pre-existing files map (and vanish when there was none) |
| Tools.BatchIsNotAtomic | src/inngest/functions.ts:82-96 | a concrete batch whose second write throws still changes a pre-existing files map |
| Tools.ReadFiles | src/inngest/functions.ts:106-120 | `readFiles` never throws: it returns one `{path, content}` per requested path, in request order, exactly when every read succeeds; otherwise "Error : " with the `getSandbox` error or the first failing read's error |
| Agent.OnResponse | src/inngest/functions.ts:124-135 | the hook sets the summary to the whole last assistant text iff that text exists and contains `<task_summary>` (with the network present); otherwise the state is untouched; the files never change; the result is returned unchanged |
| Agent.RunCalls | src/inngest/functions.ts:35-122 | running a turn's tool calls never changes the summary and never removes a file path |
| Agent.RunTurn | src/inngest/functions.ts:35-135 | a turn's files are those its tool calls leave, keeping every earlier path; the summary becomes the turn's last text whenever that text contains the marker, and stays as it was otherwise |
| Agent.HookCommutesWithCalls | src/inngest/functions.ts:35-135 | the completion hook commutes with a whole sequence of tool calls, so running it before or after a turn's calls gives the same state |
| Agent.OnlyWritesChangeState | src/inngest/functions.ts:42-120 | a sequence of `terminals` (lines 42-63) and `readFiles` (lines 106-120) calls leaves the shared state exactly as it was |
| Agent.HookCommutesWithWrite | src/inngest/functions.ts:76-135 | the completion hook and a batch write commute, so their order within a turn does not affect the state |
| Agent.WriteStepDependsOnFiles | src/inngest/functions.ts:80-97 | the write handler's effect depends only on the files field and preserves the summary it finds |
| Agent.DoneIsStable | src/inngest/functions.ts:128-131 | once the summary is truthy, no turn can make it falsy |
| Network.Route | src/inngest/functions.ts:143-150 | the router returns no agent exactly when the summary is a non-empty string, and the code agent otherwise |
| Network.EmptySummaryIsNotDone | src/inngest/functions.ts:146 | an empty-string summary does not stop the network |
| Network.RunFrom | src/inngest/functions.ts:139-153 | reference loop: it takes at most 15 turns; a run that ends before the 15th turn without rejection ends with a truthy summary; a rejected run names the iteration whose agent invocation threw and its error; a run from a state with a truthy summary takes no turn |
| Network.Run | src/inngest/functions.ts:139-153 | the loop ends exactly as the reference loop does; its trace starts at the initial state, and each turn is taken from a state with no truthy summary and is the turn function applied to the previous state; a finished run ends in the last state of the trace, and a rejected run is rejected from a state with no truthy summary |
| Workflow.SaveResult | src/inngest/functions.ts:155-192 | the message is ERROR iff the summary is unset or empty or the files map is absent or empty; ERROR carries the fixed text and no fragment; RESULT carries the summary and a fragment with the URL, "Fragment" and the files |
| Workflow.CodeAgentRun | src/inngest/functions.ts:17-201 | the run completes exactly when the sandbox is created, the network run is not rejected, and the URL and save steps do not throw. Otherwise it is aborted at the first failure, with that stage ("get-sandbox-id", "network.run", "get-sandbox-url" or "save-result") and its error, and appends no message. The trace is the network run from the initial state. A completed run appends exactly one message, computed from the network's last state, and returns `{url: "https://" + host, title: "Fragment", files, summary}` with that state's files and summary on both branches |
| Workflow.ClassificationTable | src/inngest/functions.ts:155-157 | `Workflow.IsError`, the model of `isError`, on all nine combinations of summary (unset, empty, set) and files (absent, empty, non-empty): each is an error except a set summary with a non-empty files map |
| Workflow.FilesWithoutSummaryIsError | src/inngest/functions.ts:155-175 | files without a summary are saved as the generic ERROR message |
| Workflow.ProtoOnlyBatchIsError | src/inngest/functions.ts:86-175 | a turn whose only write is to `__proto__` and which then declares completion leaves an empty files map, so the run is saved as the generic ERROR message |
| Workflow.HelloNetworkRun | src/inngest/functions.ts:76-153 | when the agent writes "hi" to hello.txt and answers with the marker and "Done.", the network takes exactly one turn and ends with that file and the full text as summary |
| Workflow.HelloWorkflow | src/inngest/functions.ts:17-201 | the whole hello.txt scenario takes one agent turn, returns the file and the full marker text, and saves exactly one RESULT message with a fragment holding hello.txt |

## Left out

- Sandbox calls (`Sandbox.create`, `getSandbox`, `commands.run`, `files.write`, `files.read`, `getHost`): remote I/O. Each is an input that answers or throws.
- The language model, the system prompt, the model parameters and `lastAssistantTextMessageContent`: the inference call and the `./utils` helper are not part of this model. Each turn's tool calls and last text are inputs. So is the task text `event.data.value`, which only reaches the language model.
- The agent-kit network loop: this library code is not part of this model. It is taken to be "while fewer than `maxIter` turns: ask the router, stop on no agent, otherwise invoke the agent; a rejected invocation rejects the run". Within a turn the tool calls run before the hook; `Agent.HookCommutesWithCalls` shows the order does not matter. Where inside a turn a rejection happens is not modelled, since a rejected run returns nothing and saves nothing.
- Step durability: the step runner's memoization, replay, retries and JSON round trip of step values are library behaviour. Each `step.run` is a plain call, so replay idempotence is not modelled. `step` is taken to be present; with `step?.run` on an absent `step`, no tool would do anything.
- Prisma: `prisma.message.create` appends a record to a log that the run is given. A throw from it is an input, and no record is appended then.
- Exact JSON encoding of the `readFiles` reply: the model returns the list of `{path, content}` entries that `JSON.stringify` would encode. How JavaScript renders an error as a string is also left out: errors are strings from the start.
- `console.error` logging in `terminals`: output only.
- Concurrent tool calls within one turn: tool calls run in order.
- A read oracle that answers the same path differently within one `readFiles` call: the sandbox gets one fixed answer per path, since reads do not change it.
- The project procedures (`createProject` with its 1 to 10000 character check, `getOne`, `getMany`), the user control and the theme hook: persistence plumbing and UI outside the workflow.
