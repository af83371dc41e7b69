/** `handleStart`: the guard on the query and the key, the processing flag
    around the run, and the choice between the two protocols. */
module Engine {
  import opened Agents
  import opened Prompts
  import opened Trace
  import opened CouncilProtocol
  import opened DxoProtocol

  /** The protocol selected for the next run: `'council'` or `'dxo'`. */
  datatype Framework = Council | DxO

  /** The component's state that the engine reads and writes. */
  datatype Engine = Engine(query: string, apiKey: string, framework: Framework, processing: bool, agents: Board)

  /** The state the component is created with. */
  const Fresh: Engine := Engine("", "", Council, false, Initial)

  /** What one press of the start button does: the events it causes, and the state after. */
  datatype Step = Step(log: seq<Event>, after: Engine)

  /** The role the i-th request of a run of `f` speaks to. */
  function Roles(f: Framework): seq<Role>
  {
    match f
    case Council => CouncilRoles
    case DxO => DxoRoles
  }

  /** The run `handleStart` awaits for the selected protocol. */
  function RunSelected(s: Engine, oracle: Oracle): Run
  {
    match s.framework
    case Council => RunCouncil(s.apiKey, s.query, s.agents, oracle)
    case DxO => RunDxO(s.apiKey, s.query, s.agents, oracle)
  }

  /** `handleStart`: nothing happens without a query or without a key (the
      latter only raises an alert); otherwise the selected run is bracketed by
      the two processing-flag writes. Errors never escape the run. */
  function HandleStart(s: Engine, oracle: Oracle): Step
  {
    if s.query == "" then Step([], s)
    else if s.apiKey == "" then Step([], s)
    else
      var run := RunSelected(s, oracle);
      Step([Processing(true)] + run.exec.log + [Processing(false)],
           s.(processing := false, agents := run.exec.agents))
  }

  /** The views of the selected run are those of its log. */
  lemma {:induction false} SelectedRecorded(s: Engine, oracle: Oracle)
    ensures RunSelected(s, oracle).exec.start == s.agents && RunSelected(s, oracle).exec.Recorded()
  {
    match s.framework
    case Council => CouncilRecorded(s.apiKey, s.query, s.agents, oracle);
    case DxO => DxoRecorded(s.apiKey, s.query, s.agents, oracle);
  }

  /** The component starts idle: not processing, every agent waiting and
      empty, and pressing start does nothing until a query and a key are typed. */
  lemma {:induction false} FreshIdle(oracle: Oracle)
    ensures !Fresh.processing
    ensures forall slot: Slot :: Fresh.agents.Get(slot) == Agent(Waiting, "")
    ensures HandleStart(Fresh, oracle) == Step([], Fresh)
  {
    forall slot: Slot
      ensures Fresh.agents.Get(slot) == Agent(Waiting, "")
    {
      match slot
      case A =>
      case B =>
      case C =>
      case Chairman =>
    }
  }

  /** A start does anything at all exactly when there is a query and a key;
      otherwise no request is issued and no state changes. */
  lemma StartGuard(s: Engine, oracle: Oracle)
    ensures HandleStart(s, oracle).log == [] <==> s.query == "" || s.apiKey == ""
    ensures s.query == "" || s.apiKey == "" ==> HandleStart(s, oracle).after == s
  {
  }

  /** Otherwise the flag is raised before anything else happens and lowered
      after everything else, whether the run completed or failed; nothing in
      between touches it; and the agents end as the log's writes leave them. */
  lemma {:induction false} StartBracketsRun(s: Engine, oracle: Oracle)
    requires s.query != "" && s.apiKey != ""
    ensures var step := HandleStart(s, oracle);
      && |step.log| >= 2
      && step.log[0] == Processing(true)
      && step.log[|step.log| - 1] == Processing(false)
      && (forall i :: 0 < i < |step.log| - 1 ==> !step.log[i].Processing?)
      && step.after.processing == false
      && step.after.agents == Replay(s.agents, step.log)
      && (step.after.query, step.after.apiKey, step.after.framework) == (s.query, s.apiKey, s.framework)
  {
    var run := RunSelected(s, oracle);
    SelectedRecorded(s, oracle);
    Bracketed(s.agents, run.exec.log);
  }

  /** The requests of a start are exactly the selected run's, prompts and all,
      or none when the guard stops it; and the i-th carries the instruction of
      the i-th role of the selected protocol: switching the protocol switches
      the instructions. */
  lemma {:induction false} StartCalls(s: Engine, oracle: Oracle)
    ensures s.query != "" && s.apiKey != "" ==> CallsOf(HandleStart(s, oracle).log) == RunSelected(s, oracle).exec.calls
    ensures s.query == "" || s.apiKey == "" ==> CallsOf(HandleStart(s, oracle).log) == []
    ensures var step := HandleStart(s, oracle);
      && |CallsOf(step.log)| <= |Roles(s.framework)|
      && (forall i :: 0 <= i < |CallsOf(step.log)| ==>
            CallsOf(step.log)[i].role == Roles(s.framework)[i]
            && CallsOf(step.log)[i].SystemInstruction() == Instruction(Roles(s.framework)[i]))
  {
    if s.query != "" && s.apiKey != "" {
      var run := RunSelected(s, oracle);
      SelectedRecorded(s, oracle);
      Bracketed(s.agents, run.exec.log);
      SelectedCallRoles(s, oracle);
    }
  }

  /** The i-th request of the selected run speaks to the i-th role of its protocol. */
  lemma {:induction false} SelectedCallRoles(s: Engine, oracle: Oracle)
    ensures var calls := RunSelected(s, oracle).exec.calls;
      && |calls| <= |Roles(s.framework)|
      && (forall i :: 0 <= i < |calls| ==> calls[i].role == Roles(s.framework)[i])
  {
    match s.framework
    case Council => CouncilCallRoles(s.apiKey, s.query, s.agents, oracle);
    case DxO => DxoCallRoles(s.apiKey, s.query, s.agents, oracle);
  }
}
