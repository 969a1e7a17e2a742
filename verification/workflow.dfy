/** The `code-agent` workflow: provision a sandbox, run the network, resolve the
    preview URL, classify the outcome, save exactly one message, return the result. */
module Workflow {
  import opened Wrappers
  import opened State
  import opened Text
  import opened Tools
  import opened Agent
  import opened Network

  /** The user-facing text of every failed run. */
  const GenericFailure: string := "Something went wrong. Please try again."

  /** The title of every fragment and of the returned object. */
  const FragmentTitle: string := "Fragment"

  /** The `code-agent/run` event. */
  datatype Event = Event(value: string, projectId: string)

  datatype Role = ASSISTANT

  datatype MessageType = ERROR | RESULT

  /** The fragment record nested in a RESULT message. */
  datatype Fragment = Fragment(sandboxUrl: string, title: string, files: Files)

  /** A message record as handed to the persistence layer. */
  datatype Message = Message(projectId: string, content: string, role: Role, kind: MessageType, fragment: Option<Fragment>)

  /** The object the workflow returns; `files` and `summary` are whatever the
      shared state holds, `undefined` included. */
  datatype RunResult = RunResult(url: string, title: string, files: Option<Files>, summary: Option<string>)

  /** The outcome of a step that talks to the outside world. */
  datatype StepResult<T> = Done(value: T) | Thrown(error: string)

  /** The outside world for one run: sandbox creation (its id), how each agent
      invocation of the network ends, the host `getHost(3000)` resolves to, and whether
      creating the message throws. */
  datatype WorkflowIo = WorkflowIo(sandbox: StepResult<string>, steps: nat -> AgentStep, host: StepResult<string>, save: Option<string>)

  /** How a run ends: with the returned object, or rejected where `stage` says
      (a step name, or "network.run"). */
  datatype Outcome = Completed(result: RunResult) | Aborted(stage: string, error: string)

  /** `isError`: the summary is unset or empty, or there are no files. */
  predicate IsError(st: AgentState) {
    !Truthy(st.summary) || |FilesOrEmpty(st)| == 0
  }

  /** The `save-result` step: an ERROR message with the fixed text when the run
      is an error, a RESULT message with the summary and a fragment otherwise. */
  function SaveResult(projectId: string, st: AgentState, url: string): (m: Message)
    ensures m.projectId == projectId && m.role == ASSISTANT
    ensures m.kind == ERROR <==> (st.summary.None? || st.summary.value == "" || st.files.None? || st.files.value == map[])
    ensures m.kind == ERROR ==> m.content == GenericFailure && m.fragment.None?
    ensures m.kind == RESULT ==>
              && st.summary == Some(m.content) && m.content != ""
              && st.files.Some? && |st.files.value| > 0
              && m.fragment == Some(Fragment(url, FragmentTitle, st.files.value))
  {
    if IsError(st) then
      Message(projectId, GenericFailure, ASSISTANT, ERROR, None)
    else
      Message(projectId, st.summary.value, ASSISTANT, RESULT, Some(Fragment(url, FragmentTitle, st.files.value)))
  }

  /** The workflow. `log` holds the messages saved so far; a completed run
      appends exactly one, an aborted run none. `states` is the network's trace:
      the state before each agent turn, then the state the network ends in
      (empty when the sandbox cannot be created). The returned `files` and
      `summary`, and the saved message, are those of the network's last state. */
  method CodeAgentRun(event: Event, io: WorkflowIo, log: seq<Message>) returns (out: Outcome, log': seq<Message>, states: seq<AgentState>)
    ensures out.Completed? <==>
              io.sandbox.Done? && RunFrom(Initial, io.steps, 0).Finished? && io.host.Done? && io.save.None?
    ensures io.sandbox.Thrown? ==> out == Aborted("get-sandbox-id", io.sandbox.error)
    ensures io.sandbox.Done? && RunFrom(Initial, io.steps, 0).Failed? ==>
              out == Aborted("network.run", RunFrom(Initial, io.steps, 0).error)
    ensures io.sandbox.Done? && RunFrom(Initial, io.steps, 0).Finished? && io.host.Thrown? ==>
              out == Aborted("get-sandbox-url", io.host.error)
    ensures io.sandbox.Done? && RunFrom(Initial, io.steps, 0).Finished? && io.host.Done? && io.save.Some? ==>
              out == Aborted("save-result", io.save.value)
    ensures out.Aborted? ==> log' == log
    ensures io.sandbox.Done? ==>
              && |states| == RunFrom(Initial, io.steps, 0).turnsTaken + 1
              && states[0] == Initial
              && forall j :: 0 <= j < |states| - 1 ==> TakesTurn(io.steps, j, states[j], states[j + 1])
    ensures out.Completed? ==>
              && RunFrom(Initial, io.steps, 0) == Finished(states[|states| - 1], |states| - 1)
              && AgentState(out.result.summary, out.result.files) == states[|states| - 1]
              && out.result.url == "https://" + io.host.value
              && out.result.title == FragmentTitle
              && |log'| == |log| + 1 && log'[..|log|] == log
              && log'[|log|] == SaveResult(event.projectId, states[|states| - 1], out.result.url)
  {
    log', states := log, [];
    if io.sandbox.Thrown? {
      return Aborted("get-sandbox-id", io.sandbox.error), log', states;
    }
    var run;
    run, states := Run(Initial, io.steps);
    if run.Failed? {
      return Aborted("network.run", run.error), log', states;
    }
    var final := run.final;
    var isError := IsError(final);
    if io.host.Thrown? {
      return Aborted("get-sandbox-url", io.host.error), log', states;
    }
    var url := "https://" + io.host.value;
    if io.save.Some? {
      return Aborted("save-result", io.save.value), log', states;
    }
    var message := SaveResult(event.projectId, final, url);
    assert message.kind == ERROR <==> isError;
    log' := log + [message];
    out := Completed(RunResult(url, FragmentTitle, final.files, final.summary));
  }

  /** The classification table: every combination of summary (unset, empty,
      set) and files (absent, empty, non-empty) is an error except a set summary
      with at least one file. */
  lemma ClassificationTable(summary: string, files: Files)
    requires summary != "" && |files| > 0
    ensures IsError(AgentState(None, None)) && IsError(AgentState(None, Some(files)))
    ensures IsError(AgentState(None, Some(map[])))
    ensures IsError(AgentState(Some(""), None)) && IsError(AgentState(Some(""), Some(map[])))
    ensures IsError(AgentState(Some(""), Some(files)))
    ensures IsError(AgentState(Some(summary), None)) && IsError(AgentState(Some(summary), Some(map[])))
    ensures !IsError(AgentState(Some(summary), Some(files)))
  {
  }

  /** A run whose last turn wrote files without ever emitting the marker is an
      error, however much work was done. */
  lemma FilesWithoutSummaryIsError(projectId: string, st: AgentState, url: string)
    requires !Truthy(st.summary) && st.files.Some? && |st.files.value| > 0
    ensures SaveResult(projectId, st, url) == Message(projectId, GenericFailure, ASSISTANT, ERROR, None)
  {
  }

  /** A batch that only writes `__proto__` adds no key to a plain object, so a
      turn that does only that and then declares completion still ends in an
      ERROR message: `Object.keys` finds no file. */
  lemma ProtoOnlyBatchIsError(projectId: string, url: string)
    ensures var turn := Turn([WriteFilesCall([FileWrite(ProtoKey, "x")], WriteIo(None, []))], Some(HelloText));
            && RunTurn(Initial, turn) == AgentState(Some(HelloText), Some(map[]))
            && SaveResult(projectId, RunTurn(Initial, turn), url) == Message(projectId, GenericFailure, ASSISTANT, ERROR, None)
  {
    var batch := [FileWrite(ProtoKey, "x")];
    var calls := [WriteFilesCall(batch, WriteIo(None, []))];
    assert OccursAt(HelloText, Marker, 0);
    assert batch[1..] == [];
    assert Apply(map[], batch) == map[];
    assert WritesSucceed(WriteIo(None, []), |batch|);
    assert CreateOrUpdateFiles(Initial, batch, WriteIo(None, [])) == AgentState(None, Some(map[]));
    assert calls[1..] == [];
    assert RunCalls(Initial, calls) == AgentState(None, Some(map[]));
  }

  /** The completion scenario: in every invocation the agent writes "hi" to
      hello.txt and answers with the marker followed by "Done.". */
  const HelloText: string := Marker + "Done."

  const HelloFiles: Files := map["hello.txt" := "hi"]

  function HelloSteps(j: nat): AgentStep {
    Responded(Turn([WriteFilesCall([FileWrite("hello.txt", "hi")], WriteIo(None, []))], Some(HelloText)))
  }

  /** The scenario's first turn writes the file and sets the summary. */
  lemma HelloTurn()
    ensures RunTurn(Initial, HelloSteps(0).turn) == AgentState(Some(HelloText), Some(HelloFiles))
  {
    var batch := [FileWrite("hello.txt", "hi")];
    assert OccursAt(HelloText, Marker, 0);
    assert Apply(map[], batch) == HelloFiles;
    assert [WriteFilesCall(batch, WriteIo(None, []))][1..] == [];
  }

  /** The network takes exactly one turn in the scenario and stops. */
  lemma HelloNetworkRun()
    ensures RunFrom(Initial, HelloSteps, 0) == Finished(AgentState(Some(HelloText), Some(HelloFiles)), 1)
  {
    HelloTurn();
    RunFromUnfold(Initial, HelloSteps, 0);
  }

  /** The whole scenario as a run of the workflow: one agent turn, the returned
      object carries the file and the full marker text, and one RESULT message
      with a fragment holding hello.txt is saved. */
  method HelloWorkflow(projectId: string, host: string) returns (out: Outcome, log: seq<Message>, turnsTaken: nat)
    ensures turnsTaken == 1
    ensures out == Completed(RunResult("https://" + host, FragmentTitle, Some(HelloFiles), Some(HelloText)))
    ensures log == [Message(projectId, HelloText, ASSISTANT, RESULT, Some(Fragment("https://" + host, FragmentTitle, HelloFiles)))]
  {
    var io := WorkflowIo(Done("sandbox"), HelloSteps, Done(host), None);
    HelloNetworkRun();
    var states;
    out, log, states := CodeAgentRun(Event("create a file hello.txt with content 'hi'", projectId), io, []);
    turnsTaken := |states| - 1;
  }
}
