/** The code agent: its completion hook (`lifecycle.onResponse`) and the effect
    of one agent turn on the shared state. The inference call is not modelled:
    the tool calls it requests and its last assistant text are inputs. */
module Agent {
  import opened Wrappers
  import opened State
  import opened Text
  import opened Tools

  /** The hook's return value: the state it leaves and the result it hands back. */
  datatype Response<R> = Response(state: AgentState, result: R)

  /** `onResponse`: when the last assistant text is present, truthy, the network
      is present and the text contains the marker, the whole text becomes the
      summary. The inference result is handed back as it came. */
  function OnResponse<R>(st: AgentState, lastText: Option<string>, hasNetwork: bool, result: R): (out: Response<R>)
    ensures out.result == result
    ensures out.state.files == st.files
    ensures lastText.Some? && hasNetwork && (exists i: nat :: OccursAt(lastText.value, Marker, i)) ==>
              out.state.summary == lastText
    ensures !(lastText.Some? && hasNetwork && exists i: nat :: OccursAt(lastText.value, Marker, i)) ==>
              out.state == st
  {
    IncludesIffOccurs(lastText.GetOr(""), Marker);
    if Truthy(lastText) && hasNetwork && Includes(lastText.value, Marker) then
      Response(st.(summary := lastText), result)
    else
      Response(st, result)
  }

  /** A tool call the model requested, with the sandbox's behaviour for it. */
  datatype ToolCall =
    | TerminalsCall(command: string, cio: CommandIo)
    | WriteFilesCall(batch: seq<FileWrite>, wio: WriteIo)
    | ReadFilesCall(paths: seq<Path>, rio: ReadIo)

  /** What the model does in one agent turn: the tool calls, in order, and the
      last assistant text message of the response (None when there is none). */
  datatype Turn = Turn(calls: seq<ToolCall>, lastText: Option<string>)

  /** How one invocation of the agent ends: it responds with a turn, or it
      rejects (the inference call throws, say), which rejects `network.run`. */
  datatype AgentStep = Responded(turn: Turn) | Threw(error: string)

  /** The effect of one tool call on the shared state: only `CreateOrUpdateFiles`
      has access to it. */
  function RunCall(st: AgentState, call: ToolCall): AgentState {
    match call
    case WriteFilesCall(batch, wio) => CreateOrUpdateFiles(st, batch, wio)
    case _ => st
  }

  /** The tool calls of a turn, in order. */
  function RunCalls(st: AgentState, calls: seq<ToolCall>): (r: AgentState)
    ensures r.summary == st.summary
    ensures FilesOrEmpty(st).Keys <= FilesOrEmpty(r).Keys
    decreases |calls|
  {
    if |calls| == 0 then st else RunCalls(RunCall(st, calls[0]), calls[1..])
  }

  /** One agent turn: its tool calls, then the completion hook. */
  function RunTurn(st: AgentState, turn: Turn): (r: AgentState)
    ensures FilesOrEmpty(st).Keys <= FilesOrEmpty(r).Keys
    ensures r.files == RunCalls(st, turn.calls).files
    ensures turn.lastText.Some? && (exists i: nat :: OccursAt(turn.lastText.value, Marker, i)) ==>
              r.summary == turn.lastText
    ensures !(turn.lastText.Some? && exists i: nat :: OccursAt(turn.lastText.value, Marker, i)) ==>
              r.summary == st.summary
  {
    IncludesIffOccurs(turn.lastText.GetOr(""), Marker);
    OnResponse(RunCalls(st, turn.calls), turn.lastText, true, ()).state
  }

  /** Reading files and running commands never change the shared state. */
  lemma {:induction false} OnlyWritesChangeState(st: AgentState, calls: seq<ToolCall>)
    requires forall i :: 0 <= i < |calls| ==> !calls[i].WriteFilesCall?
    ensures RunCalls(st, calls) == st
    decreases |calls|
  {
    if |calls| > 0 {
      OnlyWritesChangeState(st, calls[1..]);
    }
  }

  /** The hook and a batch write touch disjoint fields, so the order in which the
      library runs them within a turn does not matter. */
  lemma HookCommutesWithWrite(st: AgentState, text: Option<string>, batch: seq<FileWrite>, io: WriteIo)
    ensures OnResponse(CreateOrUpdateFiles(st, batch, io), text, true, ()).state
         == CreateOrUpdateFiles(OnResponse(st, text, true, ()).state, batch, io)
  {
    var a := OnResponse(st, text, true, ()).state;
    var b := CreateOrUpdateFiles(st, batch, io);
    assert FilesOrEmpty(a) == FilesOrEmpty(st);
    WriteStepDependsOnFiles(st, a, batch, io);
  }

  /** The hook commutes with a whole sequence of tool calls, so running it after
      the calls of a turn or before them gives the same state. */
  lemma {:induction false} HookCommutesWithCalls(st: AgentState, text: Option<string>, calls: seq<ToolCall>)
    ensures OnResponse(RunCalls(st, calls), text, true, ()).state
         == RunCalls(OnResponse(st, text, true, ()).state, calls)
    decreases |calls|
  {
    if |calls| > 0 {
      var next := RunCall(st, calls[0]);
      HookCommutesWithCalls(next, text, calls[1..]);
      match calls[0]
      case WriteFilesCall(batch, wio) =>
        HookCommutesWithWrite(st, text, batch, wio);
      case _ =>
    }
  }

  /** The write handler reads nothing of the state but its files. */
  lemma WriteStepDependsOnFiles(s1: AgentState, s2: AgentState, batch: seq<FileWrite>, io: WriteIo)
    requires s1.files == s2.files
    ensures CreateOrUpdateFiles(s2, batch, io) == CreateOrUpdateFiles(s1, batch, io).(summary := s2.summary)
  {
  }

  /** A turn never undoes completion: once the summary is set it stays truthy,
      since the hook only ever writes a text that contains the marker. */
  lemma DoneIsStable(st: AgentState, turn: Turn)
    requires IsDone(st)
    ensures IsDone(RunTurn(st, turn))
  {
    var r := RunTurn(st, turn);
    if r.summary != st.summary {
      MarkerTextIsNonEmpty(turn.lastText.value);
    }
  }
}
