/** `runDxO`: a strictly sequential pipeline in which the lead researcher's
    report is critiqued and the final decision maker corrects it. Agent C
    takes no part and is only marked done once the chairman is done.

    The run is written as a pipeline over the answers heard so far: stage
    `|heard|` sends `StageCall(query, heard)` from the board
    `StageBoard(heard)`, and on an answer makes the `Handoff` writes. */
module DxoProtocol {
  import opened Wrappers
  import opened Agents
  import opened Prompts
  import opened Trace

  /** The role whose instruction the i-th request of a DxO run carries. */
  const DxoRoles: seq<Role> := [LeadResearcher, CriticalReviewer, FinalDecisionMaker]

  /** The fixed text agent C shows after a completed DxO run; never a generated answer. */
  const Placeholder: string := "Protocol skipped for 2-step DxO (Research -> Critique -> Synthesis)"

  /** The board after the reset writes: the researcher thinking, everyone else waiting. */
  const Researching: Board := Board(Agent(Thinking, ""), Idle, Idle, Idle)

  /** The request of the stage that follows the answers `heard`: the bare
      query, then the critique of the research, then the final prompt. */
  function StageCall(query: string, heard: seq<string>): (c: Call)
    requires |heard| < 3
    ensures c.role == DxoRoles[|heard|]
  {
    if |heard| == 0 then Call(Query(query), LeadResearcher)
    else if |heard| == 1 then Call(Critique(heard[0]), CriticalReviewer)
    else Call(Final(query, heard[0], heard[1]), FinalDecisionMaker)
  }

  /** The board once the answers `heard` have arrived and been shown: every
      answered stage done with its answer, the next stage's agent thinking,
      the rest waiting; after the last stage C shows the placeholder. */
  function StageBoard(heard: seq<string>): Board
    requires |heard| <= 3
  {
    if |heard| == 0 then Researching
    else if |heard| == 1 then Board(Agent(Done, heard[0]), Agent(Thinking, ""), Idle, Idle)
    else if |heard| == 2 then Board(Agent(Done, heard[0]), Agent(Done, heard[1]), Idle, Agent(Thinking, ""))
    else Board(Agent(Done, heard[0]), Agent(Done, heard[1]), Agent(Done, Placeholder), Agent(Done, heard[2]))
  }

  /** The writes made once stage `|heard|` answered `t`, in source order. */
  function Handoff(e: Exec, heard: seq<string>, t: string): Exec
    requires |heard| < 3
  {
    if |heard| == 0 then e.Write(A, Agent(Done, t)).Write(B, Agent(Thinking, ""))
    else if |heard| == 1 then e.Write(B, Agent(Done, t)).Write(Chairman, Agent(Thinking, ""))
    else e.Write(Chairman, Agent(Done, t)).Write(C, Agent(Done, Placeholder))
  }

  /** The rest of a DxO run once the answers `heard` have arrived; the first
      failed request ends it. */
  function Pipeline(apiKey: string, query: string, oracle: Oracle, e: Exec, heard: seq<string>): Run
    requires |heard| <= 3
    decreases 3 - |heard|
  {
    if |heard| == 3 then Run(e, Completed)
    else
      var (e', answer) := e.Request(apiKey, StageCall(query, heard), oracle);
      if answer.Err? then Run(e', Aborted)
      else Pipeline(apiKey, query, oracle, Handoff(e', heard, answer.value), heard + [answer.value])
  }

  /** One DxO run on `query` from whatever board the previous run left. */
  function RunDxO(apiKey: string, query: string, start: Board, oracle: Oracle): Run
  {
    Pipeline(apiKey, query, oracle, ResetTo(start, Researching), [])
  }

  /** The answers a DxO run hears from the service: the research, the
      critique and the final answer, cut at the first failed request. */
  function Heard(apiKey: string, oracle: Oracle): seq<string>
  {
    var research := Answer(apiKey, oracle, 0);
    var critique := Answer(apiKey, oracle, 1);
    var final := Answer(apiKey, oracle, 2);
    if research.Err? then []
    else if critique.Err? then [research.value]
    else if final.Err? then [research.value, critique.value]
    else [research.value, critique.value, final.value]
  }

  /** Agent C is waiting and empty, or shows the placeholder beside a done chairman. */
  predicate PlaceholderAfterChairman(b: Board)
  {
    b.c == Idle || (b.c == Agent(Done, Placeholder) && b.chairman.status == Done)
  }

  /** Every snapshot from the k-th on satisfies `PlaceholderAfterChairman`. */
  ghost predicate PlaceholderLastFrom(snaps: seq<Board>, k: nat)
  {
    forall i :: k <= i < |snaps| ==> PlaceholderAfterChairman(snaps[i])
  }

  // ----- one stage -----

  /** The next answer is heard exactly when the answers so far are not all
      there are, and it is then the next one of them. */
  lemma {:induction false} HeardStep(apiKey: string, oracle: Oracle, heard: seq<string>)
    requires |heard| < 3 && heard <= Heard(apiKey, oracle)
    ensures Answer(apiKey, oracle, |heard|).Ok? <==> |heard| < |Heard(apiKey, oracle)|
    ensures Answer(apiKey, oracle, |heard|).Ok? ==> heard + [Answer(apiKey, oracle, |heard|).value] <= Heard(apiKey, oracle)
  {
    var h := Heard(apiKey, oracle);
    if Answer(apiKey, oracle, |heard|).Ok? {
      assert |heard| < |h|;
      assert (heard + [Answer(apiKey, oracle, |heard|).value]) == h[..|heard| + 1];
    }
  }

  /** A hand-off moves the board from one stage to the next and touches
      neither the requests nor the run's starting board. */
  lemma {:induction false} HandoffBoard(e: Exec, heard: seq<string>, t: string)
    requires |heard| < 3 && e.agents == StageBoard(heard)
    ensures var e' := Handoff(e, heard, t);
      && e'.agents == StageBoard(heard + [t])
      && e'.start == e.start && e'.calls == e.calls && e'.callBoards == e.callBoards
      && e.snapshots <= e'.snapshots
  {
    var h := heard + [t];
    assert h[..|heard|] == heard;
  }

  /** A hand-off keeps the views equal to what the log determines. */
  lemma {:induction false} HandoffRecorded(e: Exec, heard: seq<string>, t: string)
    requires |heard| < 3 && e.Recorded()
    ensures Handoff(e, heard, t).Recorded() && Handoff(e, heard, t).start == e.start
  {
    var (s1, v1, s2, v2) :=
      if |heard| == 0 then (A, Agent(Done, t), B, Agent(Thinking, ""))
      else if |heard| == 1 then (B, Agent(Done, t), Chairman, Agent(Thinking, ""))
      else (Chairman, Agent(Done, t), C, Agent(Done, Placeholder));
    assert Handoff(e, heard, t) == e.Write(s1, v1).Write(s2, v2);
    WriteRecorded(e, s1, v1);
    WriteRecorded(e.Write(s1, v1), s2, v2);
  }

  /** A hand-off only moves agents forwards. */
  lemma {:induction false} HandoffAdvances(e: Exec, heard: seq<string>, t: string)
    requires |heard| < 3 && e.agents == StageBoard(heard)
    requires e.Current() && NonDecreasingFrom(e.snapshots, 3)
    ensures Handoff(e, heard, t).Current() && NonDecreasingFrom(Handoff(e, heard, t).snapshots, 3)
  {
    var (s1, v1, s2, v2) :=
      if |heard| == 0 then (A, Agent(Done, t), B, Agent(Thinking, ""))
      else if |heard| == 1 then (B, Agent(Done, t), Chairman, Agent(Thinking, ""))
      else (Chairman, Agent(Done, t), C, Agent(Done, Placeholder));
    assert Handoff(e, heard, t) == e.Write(s1, v1).Write(s2, v2);
    WriteAdvances(e, s1, v1, 3);
    WriteAdvances(e.Write(s1, v1), s2, v2, 3);
  }

  /** A hand-off shows the placeholder only beside a done chairman. */
  lemma {:induction false} HandoffPlaceholder(e: Exec, heard: seq<string>, t: string, k: nat)
    requires |heard| < 3 && e.agents == StageBoard(heard) && PlaceholderLastFrom(e.snapshots, k)
    ensures PlaceholderLastFrom(Handoff(e, heard, t).snapshots, k)
  {
    var e' := Handoff(e, heard, t);
    var n := |e.snapshots|;
    assert e'.snapshots == e.snapshots + [e'.snapshots[n], e'.snapshots[n + 1]];
    assert PlaceholderAfterChairman(e'.snapshots[n]);
    assert PlaceholderAfterChairman(e'.snapshots[n + 1]);
  }

  // ----- the rest of a run -----

  /** The rest of a run keeps the views equal to what its log determines. */
  lemma {:induction false} PipelineRecorded(apiKey: string, query: string, oracle: Oracle, e: Exec, heard: seq<string>)
    requires |heard| <= 3 && e.Recorded()
    ensures var r := Pipeline(apiKey, query, oracle, e, heard);
      r.exec.start == e.start && r.exec.Recorded()
    decreases 3 - |heard|
  {
    if |heard| < 3 {
      var call := StageCall(query, heard);
      var (e', answer) := e.Request(apiKey, call, oracle);
      RequestRecorded(e, apiKey, call, oracle);
      if answer.Ok? {
        HandoffRecorded(e', heard, answer.value);
        PipelineRecorded(apiKey, query, oracle, Handoff(e', heard, answer.value), heard + [answer.value]);
      }
    }
  }

  /** The rest of a run only appends snapshots. */
  lemma {:induction false} PipelineExtends(apiKey: string, query: string, oracle: Oracle, e: Exec, heard: seq<string>)
    requires |heard| <= 3 && e.agents == StageBoard(heard)
    ensures e.snapshots <= Pipeline(apiKey, query, oracle, e, heard).exec.snapshots
    decreases 3 - |heard|
  {
    if |heard| < 3 {
      var (e', answer) := e.Request(apiKey, StageCall(query, heard), oracle);
      if answer.Ok? {
        HandoffBoard(e', heard, answer.value);
        PipelineExtends(apiKey, query, oracle, Handoff(e', heard, answer.value), heard + [answer.value]);
      }
    }
  }

  /** The rest of a run never moves an agent backwards. */
  lemma {:induction false} PipelineAdvances(apiKey: string, query: string, oracle: Oracle, e: Exec, heard: seq<string>)
    requires |heard| <= 3 && e.agents == StageBoard(heard)
    requires e.Current() && NonDecreasingFrom(e.snapshots, 3)
    ensures NonDecreasingFrom(Pipeline(apiKey, query, oracle, e, heard).exec.snapshots, 3)
    decreases 3 - |heard|
  {
    if |heard| < 3 {
      var (e', answer) := e.Request(apiKey, StageCall(query, heard), oracle);
      if answer.Ok? {
        HandoffAdvances(e', heard, answer.value);
        HandoffBoard(e', heard, answer.value);
        PipelineAdvances(apiKey, query, oracle, Handoff(e', heard, answer.value), heard + [answer.value]);
      }
    }
  }

  /** The rest of a run shows the placeholder only beside a done chairman. */
  lemma {:induction false} PipelinePlaceholder(apiKey: string, query: string, oracle: Oracle, e: Exec, heard: seq<string>, k: nat)
    requires |heard| <= 3 && e.agents == StageBoard(heard) && PlaceholderLastFrom(e.snapshots, k)
    ensures PlaceholderLastFrom(Pipeline(apiKey, query, oracle, e, heard).exec.snapshots, k)
    decreases 3 - |heard|
  {
    if |heard| < 3 {
      var (e', answer) := e.Request(apiKey, StageCall(query, heard), oracle);
      if answer.Ok? {
        HandoffPlaceholder(e', heard, answer.value, k);
        HandoffBoard(e', heard, answer.value);
        PipelinePlaceholder(apiKey, query, oracle, Handoff(e', heard, answer.value), heard + [answer.value], k);
      }
    }
  }

  /** The rest of a run completes exactly when every stage is answered, and
      leaves the board of the last answer heard. */
  lemma {:induction false} PipelineOutcome(apiKey: string, query: string, oracle: Oracle, e: Exec, heard: seq<string>)
    requires |heard| <= 3 && heard <= Heard(apiKey, oracle)
    requires |e.calls| == |heard| && e.agents == StageBoard(heard)
    ensures var r := Pipeline(apiKey, query, oracle, e, heard);
      && (r.outcome.Completed? <==> |Heard(apiKey, oracle)| == 3)
      && r.exec.agents == StageBoard(Heard(apiKey, oracle))
    decreases 3 - |heard|
  {
    var h := Heard(apiKey, oracle);
    if |heard| == 3 {
      assert heard == h;
    } else {
      var (e', answer) := e.Request(apiKey, StageCall(query, heard), oracle);
      HeardStep(apiKey, oracle, heard);
      if answer.Ok? {
        HandoffBoard(e', heard, answer.value);
        PipelineOutcome(apiKey, query, oracle, Handoff(e', heard, answer.value), heard + [answer.value]);
      } else {
        assert heard == h;
      }
    }
  }

  /** With a key, the rest of a run sends one request per stage reached:
      each the stage's request for the answers before it, sent from the
      board those answers left. */
  lemma {:induction false} PipelineCalls(apiKey: string, query: string, oracle: Oracle, e: Exec, heard: seq<string>)
    requires apiKey != ""
    requires |heard| <= 3 && heard <= Heard(apiKey, oracle)
    requires |e.calls| == |heard| && |e.callBoards| == |heard| && e.agents == StageBoard(heard)
    ensures var r := Pipeline(apiKey, query, oracle, e, heard);
      var h := Heard(apiKey, oracle);
      && |r.exec.calls| == (if |h| == 3 then 3 else |h| + 1)
      && |r.exec.callBoards| == |r.exec.calls|
      && e.calls <= r.exec.calls && e.callBoards <= r.exec.callBoards
      && (forall i :: |heard| <= i < |r.exec.calls| ==>
            r.exec.calls[i] == StageCall(query, h[..i]) && r.exec.callBoards[i] == StageBoard(h[..i]))
    decreases 3 - |heard|
  {
    var h := Heard(apiKey, oracle);
    if |heard| == 3 {
      assert heard == h;
    } else {
      var (e', answer) := e.Request(apiKey, StageCall(query, heard), oracle);
      HeardStep(apiKey, oracle, heard);
      assert h[..|heard|] == heard;
      if answer.Ok? {
        HandoffBoard(e', heard, answer.value);
        PipelineCalls(apiKey, query, oracle, Handoff(e', heard, answer.value), heard + [answer.value]);
      } else {
        assert heard == h;
      }
    }
  }

  // ----- a whole run -----

  /** The run's views are those of its log, and the log never touches the processing flag. */
  lemma {:induction false} DxoRecorded(apiKey: string, query: string, start: Board, oracle: Oracle)
    ensures var r := RunDxO(apiKey, query, start, oracle);
      r.exec.start == start && r.exec.Recorded()
  {
    ResetRecorded(start, Researching);
    PipelineRecorded(apiKey, query, oracle, ResetTo(start, Researching), []);
  }

  /** The first four writes reset the board to `Researching`, whatever it held before. */
  lemma {:induction false} DxoStart(apiKey: string, query: string, start: Board, oracle: Oracle)
    ensures var r := RunDxO(apiKey, query, start, oracle);
      |r.exec.snapshots| >= 4 && r.exec.snapshots[3] == Researching
  {
    PipelineExtends(apiKey, query, oracle, ResetTo(start, Researching), []);
  }

  /** After the reset writes, no agent's status ever moves backwards. */
  lemma {:induction false} DxoMonotone(apiKey: string, query: string, start: Board, oracle: Oracle)
    ensures NonDecreasingFrom(RunDxO(apiKey, query, start, oracle).exec.snapshots, 3)
  {
    PipelineAdvances(apiKey, query, oracle, ResetTo(start, Researching), []);
  }

  /** After the reset writes, agent C is either waiting and empty or shows the
      placeholder, and it shows it only in a snapshot where the chairman is done. */
  lemma {:induction false} DxoPlaceholderLast(apiKey: string, query: string, start: Board, oracle: Oracle)
    ensures PlaceholderLastFrom(RunDxO(apiKey, query, start, oracle).exec.snapshots, 3)
  {
    PipelinePlaceholder(apiKey, query, oracle, ResetTo(start, Researching), [], 3);
  }

  /** The run completes exactly when all three stages are answered, and the
      board ends as the answers heard leave it: a failed stage's agent stays
      thinking and every later agent stays waiting. */
  lemma {:induction false} DxoOutcome(apiKey: string, query: string, start: Board, oracle: Oracle)
    ensures var r := RunDxO(apiKey, query, start, oracle);
      && (r.outcome.Completed? <==> |Heard(apiKey, oracle)| == 3)
      && r.exec.agents == StageBoard(Heard(apiKey, oracle))
  {
    PipelineOutcome(apiKey, query, oracle, ResetTo(start, Researching), []);
  }

  /** Without a key nothing is sent; with one, the i-th request is stage i's
      request for the answers before it, sent from the board they left, and a
      stage is reached exactly when every earlier one was answered. */
  lemma {:induction false} DxoCalls(apiKey: string, query: string, start: Board, oracle: Oracle)
    ensures var r := RunDxO(apiKey, query, start, oracle);
      var h := Heard(apiKey, oracle);
      && (apiKey == "" ==> r.exec.calls == [])
      && (apiKey != "" ==>
            && |r.exec.calls| == (if |h| == 3 then 3 else |h| + 1)
            && |r.exec.callBoards| == |r.exec.calls|
            && (forall i :: 0 <= i < |r.exec.calls| ==>
                  r.exec.calls[i] == StageCall(query, h[..i]) && r.exec.callBoards[i] == StageBoard(h[..i])))
  {
    if apiKey != "" {
      PipelineCalls(apiKey, query, oracle, ResetTo(start, Researching), []);
    }
  }

  /** At most three requests, the i-th always speaking to the i-th DxO role. */
  lemma {:induction false} DxoCallRoles(apiKey: string, query: string, start: Board, oracle: Oracle)
    ensures var r := RunDxO(apiKey, query, start, oracle);
      && |r.exec.calls| <= |DxoRoles|
      && (forall i :: 0 <= i < |r.exec.calls| ==> r.exec.calls[i].role == DxoRoles[i])
  {
    DxoCalls(apiKey, query, start, oracle);
  }

  /** The run completes exactly when all three requests succeed. */
  lemma {:induction false} DxoCompletes(apiKey: string, query: string, start: Board, oracle: Oracle)
    ensures RunDxO(apiKey, query, start, oracle).outcome.Completed? <==>
      Answer(apiKey, oracle, 0).Ok? && Answer(apiKey, oracle, 1).Ok? && Answer(apiKey, oracle, 2).Ok?
  {
    DxoOutcome(apiKey, query, start, oracle);
  }

  /** The stage that fails stays thinking, every earlier agent keeps its
      answer, and every later agent stays waiting and empty. */
  lemma {:induction false} DxoFailure(apiKey: string, query: string, start: Board, oracle: Oracle)
    ensures var r := RunDxO(apiKey, query, start, oracle);
      var research := Answer(apiKey, oracle, 0);
      var critique := Answer(apiKey, oracle, 1);
      var final := Answer(apiKey, oracle, 2);
      && (research.Err? ==> r.exec.agents == Researching)
      && (research.Ok? && critique.Err? ==>
            r.exec.agents == Board(Agent(Done, research.value), Agent(Thinking, ""), Idle, Idle))
      && (research.Ok? && critique.Ok? && final.Err? ==>
            r.exec.agents == Board(Agent(Done, research.value), Agent(Done, critique.value), Idle, Agent(Thinking, "")))
  {
    DxoOutcome(apiKey, query, start, oracle);
  }

  /** When all three stages are answered, the run shows the research, the
      critique, the placeholder and the final answer. */
  lemma {:induction false} DxoSuccess(apiKey: string, query: string, start: Board, oracle: Oracle)
    ensures var r := RunDxO(apiKey, query, start, oracle);
      Answer(apiKey, oracle, 0).Ok? && Answer(apiKey, oracle, 1).Ok? && Answer(apiKey, oracle, 2).Ok? ==>
        r.exec.agents == Board(Agent(Done, Answer(apiKey, oracle, 0).value), Agent(Done, Answer(apiKey, oracle, 1).value),
                               Agent(Done, Placeholder), Agent(Done, Answer(apiKey, oracle, 2).value))
  {
    DxoOutcome(apiKey, query, start, oracle);
  }

  /** Each stage's prompt is built on what was heard before it: the research
      prompt is the bare query, the critique prompt holds the research, and
      the final prompt holds the query, the research and the critique, in that order. */
  lemma {:induction false} StageCallCarries(query: string, heard: seq<string>)
    requires |heard| < 3
    ensures var text := Render(StageCall(query, heard).prompt);
      && (|heard| == 0 ==> text == query)
      && (|heard| == 1 ==> Contains(text, heard[0]))
      && (|heard| == 2 ==> Splices(text, [query, heard[0], heard[1]]))
  {
    var text := Render(StageCall(query, heard).prompt);
    if |heard| == 1 {
      CritiquePromptOrder(heard[0]);
      SplicesContains(text, [RecencyBias, EraBias, ConfirmationBias, heard[0]], 3);
    } else if |heard| == 2 {
      FinalPromptOrder(query, heard[0], heard[1]);
    }
  }

  /** In a run, the critique request carries the research. */
  lemma {:induction false} DxoCritiqueCarries(apiKey: string, query: string, start: Board, oracle: Oracle)
    ensures var r := RunDxO(apiKey, query, start, oracle);
      var h := Heard(apiKey, oracle);
      |r.exec.calls| >= 2 ==> |h| >= 1 && Contains(r.exec.calls[1].PromptText(), h[0])
  {
    DxoCalls(apiKey, query, start, oracle);
    var h := Heard(apiKey, oracle);
    if |RunDxO(apiKey, query, start, oracle).exec.calls| >= 2 {
      assert h[..1] == [h[0]];
      StageCallCarries(query, h[..1]);
    }
  }

  /** In a run, the final request carries the query, the research and the
      critique, in that order. */
  lemma {:induction false} DxoFinalCarries(apiKey: string, query: string, start: Board, oracle: Oracle)
    ensures var r := RunDxO(apiKey, query, start, oracle);
      var h := Heard(apiKey, oracle);
      |r.exec.calls| == 3 ==> |h| >= 2 && Splices(r.exec.calls[2].PromptText(), [query, h[0], h[1]])
  {
    DxoCalls(apiKey, query, start, oracle);
    var h := Heard(apiKey, oracle);
    if |RunDxO(apiKey, query, start, oracle).exec.calls| == 3 {
      assert h[..2] == [h[0], h[1]];
      StageCallCarries(query, h[..2]);
    }
  }
}
