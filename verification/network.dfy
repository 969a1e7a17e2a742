/** The agent network: a router over the shared state and a loop bounded by
    `maxIter`. What the model does in each turn is an arbitrary input. */
module Network {
  import opened Wrappers
  import opened State
  import opened Agent

  /** `maxIter` of the network. */
  const MaxIter: nat := 15

  /** The network's only agent. */
  datatype AgentName = CodeAgent

  /** The router: no agent once the summary is truthy, the code agent otherwise. */
  function Route(st: AgentState): (next: Option<AgentName>)
    ensures next.None? <==> st.summary.Some? && |st.summary.value| > 0
    ensures next.Some? ==> next.value == CodeAgent
  {
    if IsDone(st) then None else Some(CodeAgent)
  }

  /** An empty summary does not stop the network. */
  lemma EmptySummaryIsNotDone(st: AgentState)
    requires st.summary == Some("")
    ensures Route(st) == Some(CodeAgent)
  {
  }

  /** How `network.run` ends: with the final state after `turnsTaken` agent
      turns, or rejected by the agent invocation numbered `turnsTaken`. */
  datatype NetworkRun = Finished(final: AgentState, turnsTaken: nat) | Failed(error: string, turnsTaken: nat)

  /** Reference definition of the network loop from iteration `count` on:
      stop at the ceiling or when the router picks no agent, otherwise invoke the
      agent, whose outcome in iteration `j` is `steps(j)`. */
  function RunFrom(st: AgentState, steps: nat -> AgentStep, count: nat): (r: NetworkRun)
    requires count <= MaxIter
    ensures count <= r.turnsTaken <= MaxIter
    ensures r.Finished? && r.turnsTaken < MaxIter ==> IsDone(r.final)
    ensures r.Failed? ==> r.turnsTaken < MaxIter && steps(r.turnsTaken).Threw? && r.error == steps(r.turnsTaken).error
    ensures IsDone(st) ==> r == Finished(st, count)
    decreases MaxIter - count
  {
    if count == MaxIter || Route(st).None? then Finished(st, count)
    else match steps(count)
      case Threw(e) => Failed(e, count)
      case Responded(turn) => RunFrom(RunTurn(st, turn), steps, count + 1)
  }

  /** Runs the network from `init`, where `steps(j)` is how the agent invocation
      of iteration `j` ends. Returns how the run ends and the state before each
      turn taken, followed by the state it ends in. A turn happens only while the
      summary is not truthy, so the run stops right after the turn that sets it;
      with the contract of `RunFrom`, a run that never sets it and is not
      rejected takes exactly `MaxIter` turns. */
  method Run(init: AgentState, steps: nat -> AgentStep) returns (run: NetworkRun, states: seq<AgentState>)
    ensures run == RunFrom(init, steps, 0)
    ensures |states| == run.turnsTaken + 1 && states[0] == init
    ensures forall j :: 0 <= j < run.turnsTaken ==> TakesTurn(steps, j, states[j], states[j + 1])
    ensures run.Finished? ==> states[run.turnsTaken] == run.final
    ensures run.Failed? ==> !IsDone(states[run.turnsTaken])
  {
    ghost var target := RunFrom(init, steps, 0);
    var st, count := init, 0;
    states := [init];
    while true
      invariant count <= MaxIter
      invariant |states| == count + 1 && states[0] == init && states[count] == st
      invariant forall j :: 0 <= j < count ==> TakesTurn(steps, j, states[j], states[j + 1])
      invariant RunFrom(st, steps, count) == target
      decreases MaxIter - count
    {
      if count == MaxIter || Route(st).None? {
        return Finished(st, count), states;
      }
      var step := steps(count);
      if step.Threw? {
        return Failed(step.error, count), states;
      }
      var next := RunTurn(st, step.turn);
      RunFromUnfold(st, steps, count);
      assert TakesTurn(steps, count, st, next);
      states := states + [next];
      st, count := next, count + 1;
    }
  }

  /** Iteration `j` invokes the agent from `before`, which responds with a turn
      that leads to `after`. */
  predicate TakesTurn(steps: nat -> AgentStep, j: nat, before: AgentState, after: AgentState) {
    !IsDone(before) && steps(j).Responded? && after == RunTurn(before, steps(j).turn)
  }

  /** One iteration of the reference loop when the agent responds. */
  lemma RunFromUnfold(st: AgentState, steps: nat -> AgentStep, count: nat)
    requires count < MaxIter && !IsDone(st) && steps(count).Responded?
    ensures RunFrom(st, steps, count) == RunFrom(RunTurn(st, steps(count).turn), steps, count + 1)
  {
  }
}
