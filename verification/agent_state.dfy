/** The state shared by the tools, the completion hook and the router of one run. */
module State {
  import opened Wrappers

  type Path = string

  /** Generated files, keyed by path. */
  type Files = map<Path, string>

  /** The one key a plain JavaScript object does not store on assignment:
      `obj["__proto__"] = text` runs the inherited prototype setter, which
      ignores a string, so no own key is added and `Object.keys` never lists it. */
  const ProtoKey: Path := "__proto__"

  /** `AgentState` of the workflow; both fields start out `undefined` (`None`). */
  datatype AgentState = AgentState(summary: Option<string>, files: Option<Files>)

  /** The state a network run starts from: no summary, no files map. */
  const Initial: AgentState := AgentState(None, None)

  /** JavaScript truthiness of an optional string: present and non-empty. */
  predicate Truthy(s: Option<string>) {
    s.Some? && s.value != ""
  }

  /** The agent has declared completion. */
  predicate IsDone(st: AgentState) {
    Truthy(st.summary)
  }

  /** `state.files || {}`. */
  function FilesOrEmpty(st: AgentState): Files {
    st.files.GetOr(map[])
  }
}
