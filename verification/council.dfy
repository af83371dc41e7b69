/** `runCouncil`: three debaters answer the query in parallel, then the
    chairman synthesises their answers. */
module CouncilProtocol {
  import opened Wrappers
  import opened Agents
  import opened Generation
  import opened Prompts
  import opened Trace

  /** The role whose instruction the i-th request of a council run carries. */
  const CouncilRoles: seq<Role> := [Visionary, Skeptic, Historian, CouncilChairman]

  /** The board after the reset writes: the three debaters thinking, the chairman waiting. */
  const Debating: Board := Board(Agent(Thinking, ""), Agent(Thinking, ""), Agent(Thinking, ""), Idle)

  /** The debate of `Promise.all`: every debater's request is issued, one after
      the other and from the same board, before any reply is looked at;
      `replies` holds the replies of the requests already issued. */
  function Debate(apiKey: string, query: string, oracle: Oracle, e: Exec, replies: seq<Result<string, Error>>)
    : (out: (Exec, seq<Result<string, Error>>))
    requires |replies| <= 3
    ensures |out.1| == 3
    decreases 3 - |replies|
  {
    if |replies| == 3 then (e, replies)
    else
      var (e', reply) := e.Request(apiKey, Call(Query(query), CouncilRoles[|replies|]), oracle);
      Debate(apiKey, query, oracle, e', replies + [reply])
  }

  /** The writes once the debaters answered `a`, `b` and `c`: the three
      answers are shown, then the chairman starts thinking. */
  function ShowDebate(e: Exec, a: string, b: string, c: string): Exec
  {
    e.Write(A, Agent(Done, a)).Write(B, Agent(Done, b)).Write(C, Agent(Done, c)).Write(Chairman, Agent(Thinking, ""))
  }

  /** The chairman's stage, once the debaters answered `a`, `b` and `c`: their
      answers are shown, the chairman thinks over the synthesis prompt, and
      is done with its verdict unless that request fails. */
  function Synthesise(apiKey: string, query: string, oracle: Oracle, e: Exec, a: string, b: string, c: string): Run
  {
    var e' := ShowDebate(e, a, b, c);
    var (e'', verdict) := e'.Request(apiKey, Call(Synthesis(query, a, b, c), CouncilChairman), oracle);
    if verdict.Err? then Run(e'', Aborted)
    else Run(e''.Write(Chairman, Agent(Done, verdict.value)), Completed)
  }

  /** One council run on `query` from whatever board the previous run left;
      a failed debater aborts it after all three requests have been issued. */
  function RunCouncil(apiKey: string, query: string, start: Board, oracle: Oracle): Run
  {
    var (debated, replies) := Debate(apiKey, query, oracle, ResetTo(start, Debating), []);
    if replies[0].Err? || replies[1].Err? || replies[2].Err? then Run(debated, Aborted)
    else Synthesise(apiKey, query, oracle, debated, replies[0].value, replies[1].value, replies[2].value)
  }

  /** All three debater requests succeed. */
  predicate DebateSucceeds(apiKey: string, oracle: Oracle)
  {
    Answer(apiKey, oracle, 0).Ok? && Answer(apiKey, oracle, 1).Ok? && Answer(apiKey, oracle, 2).Ok?
  }

  /** The board once all three debaters have answered, with the chairman as given. */
  function Debated(apiKey: string, oracle: Oracle, chairman: Agent): Board
    requires DebateSucceeds(apiKey, oracle)
  {
    Board(Agent(Done, Answer(apiKey, oracle, 0).value),
          Agent(Done, Answer(apiKey, oracle, 1).value),
          Agent(Done, Answer(apiKey, oracle, 2).value),
          chairman)
  }

  // ----- the debate -----

  /** The debate keeps the views equal to what the log determines. */
  lemma {:induction false} DebateRecorded(apiKey: string, query: string, oracle: Oracle, e: Exec, replies: seq<Result<string, Error>>)
    requires |replies| <= 3 && e.Recorded()
    ensures var out := Debate(apiKey, query, oracle, e, replies);
      out.0.start == e.start && out.0.Recorded()
    decreases 3 - |replies|
  {
    if |replies| < 3 {
      var call := Call(Query(query), CouncilRoles[|replies|]);
      var (e', reply) := e.Request(apiKey, call, oracle);
      RequestRecorded(e, apiKey, call, oracle);
      DebateRecorded(apiKey, query, oracle, e', replies + [reply]);
    }
  }

  /** The debate hears the first three answers of the service whatever they
      are, and writes no agent. */
  lemma {:induction false} DebateReplies(apiKey: string, query: string, oracle: Oracle, e: Exec, replies: seq<Result<string, Error>>)
    requires |replies| <= 3
    requires forall i :: 0 <= i < |replies| ==> replies[i] == Answer(apiKey, oracle, i)
    requires |e.calls| == (if apiKey == "" then 0 else |replies|)
    ensures var out := Debate(apiKey, query, oracle, e, replies);
      && out.1 == [Answer(apiKey, oracle, 0), Answer(apiKey, oracle, 1), Answer(apiKey, oracle, 2)]
      && out.0.agents == e.agents && out.0.snapshots == e.snapshots
    decreases 3 - |replies|
  {
    if |replies| < 3 {
      var (e', reply) := e.Request(apiKey, Call(Query(query), CouncilRoles[|replies|]), oracle);
      DebateReplies(apiKey, query, oracle, e', replies + [reply]);
    }
  }

  /** With a key, the debate sends every remaining debater's request, with the
      bare query, from the board it started on; without one it sends nothing. */
  lemma {:induction false} DebateCalls(apiKey: string, query: string, oracle: Oracle, e: Exec, replies: seq<Result<string, Error>>)
    requires |replies| <= 3
    requires |e.calls| == (if apiKey == "" then 0 else |replies|) && |e.callBoards| == |e.calls|
    ensures var out := Debate(apiKey, query, oracle, e, replies);
      && |out.0.calls| == (if apiKey == "" then 0 else 3) && |out.0.callBoards| == |out.0.calls|
      && e.calls <= out.0.calls && e.callBoards <= out.0.callBoards
      && (forall i :: |e.calls| <= i < |out.0.calls| ==>
            out.0.calls[i] == Call(Query(query), CouncilRoles[i]) && out.0.callBoards[i] == e.agents)
    decreases 3 - |replies|
  {
    if |replies| < 3 {
      var (e', reply) := e.Request(apiKey, Call(Query(query), CouncilRoles[|replies|]), oracle);
      DebateCalls(apiKey, query, oracle, e', replies + [reply]);
    }
  }

  /** What the debate leaves behind on a freshly reset board. */
  lemma {:induction false} CouncilDebate(apiKey: string, query: string, start: Board, oracle: Oracle)
    ensures var out := Debate(apiKey, query, oracle, ResetTo(start, Debating), []);
      && out.1 == [Answer(apiKey, oracle, 0), Answer(apiKey, oracle, 1), Answer(apiKey, oracle, 2)]
      && out.0.agents == Debating && out.0.snapshots == ResetTo(start, Debating).snapshots
      && |out.0.calls| == (if apiKey == "" then 0 else 3) && |out.0.callBoards| == |out.0.calls|
      && (forall i :: 0 <= i < |out.0.calls| ==>
            out.0.calls[i] == Call(Query(query), CouncilRoles[i]) && out.0.callBoards[i] == Debating)
  {
    DebateReplies(apiKey, query, oracle, ResetTo(start, Debating), []);
    DebateCalls(apiKey, query, oracle, ResetTo(start, Debating), []);
  }

  // ----- the chairman's stage -----

  /** Showing the debate keeps the views equal to what the log determines. */
  lemma {:induction false} ShowRecorded(e: Exec, a: string, b: string, c: string)
    requires e.Recorded()
    ensures ShowDebate(e, a, b, c).Recorded() && ShowDebate(e, a, b, c).start == e.start
  {
    WriteRecorded(e, A, Agent(Done, a));
    var e1 := e.Write(A, Agent(Done, a));
    WriteRecorded(e1, B, Agent(Done, b));
    var e2 := e1.Write(B, Agent(Done, b));
    WriteRecorded(e2, C, Agent(Done, c));
    WriteRecorded(e2.Write(C, Agent(Done, c)), Chairman, Agent(Thinking, ""));
  }

  /** The chairman's stage keeps the views equal to what the log determines. */
  lemma {:induction false} SynthesiseRecorded(apiKey: string, query: string, oracle: Oracle, e: Exec, a: string, b: string, c: string)
    requires e.Recorded()
    ensures var r := Synthesise(apiKey, query, oracle, e, a, b, c);
      r.exec.start == e.start && r.exec.Recorded()
  {
    ShowRecorded(e, a, b, c);
    var e4 := ShowDebate(e, a, b, c);
    var synthesis := Call(Synthesis(query, a, b, c), CouncilChairman);
    RequestRecorded(e4, apiKey, synthesis, oracle);
    var (e5, verdict) := e4.Request(apiKey, synthesis, oracle);
    if verdict.Ok? {
      WriteRecorded(e5, Chairman, Agent(Done, verdict.value));
    }
  }

  /** From the debating board, showing the debate only moves agents forwards. */
  lemma {:induction false} ShowAdvances(e: Exec, a: string, b: string, c: string)
    requires e.agents == Debating && e.Current() && NonDecreasingFrom(e.snapshots, 3)
    ensures ShowDebate(e, a, b, c).Current() && NonDecreasingFrom(ShowDebate(e, a, b, c).snapshots, 3)
  {
    WriteAdvances(e, A, Agent(Done, a), 3);
    var e1 := e.Write(A, Agent(Done, a));
    WriteAdvances(e1, B, Agent(Done, b), 3);
    var e2 := e1.Write(B, Agent(Done, b));
    WriteAdvances(e2, C, Agent(Done, c), 3);
    WriteAdvances(e2.Write(C, Agent(Done, c)), Chairman, Agent(Thinking, ""), 3);
  }

  /** From the debating board, the chairman's stage only moves agents forwards. */
  lemma {:induction false} SynthesiseAdvances(apiKey: string, query: string, oracle: Oracle, e: Exec, a: string, b: string, c: string)
    requires e.agents == Debating && e.Current() && NonDecreasingFrom(e.snapshots, 3)
    ensures NonDecreasingFrom(Synthesise(apiKey, query, oracle, e, a, b, c).exec.snapshots, 3)
  {
    ShowAdvances(e, a, b, c);
    var e4 := ShowDebate(e, a, b, c);
    var (e5, verdict) := e4.Request(apiKey, Call(Synthesis(query, a, b, c), CouncilChairman), oracle);
    if verdict.Ok? {
      WriteAdvances(e5, Chairman, Agent(Done, verdict.value), 3);
    }
  }

  /** The chairman's stage sends the synthesis request (when there is a key)
      once the three answers are shown and the chairman thinks; it completes
      exactly when that request is answered, and the chairman then shows the verdict. */
  lemma {:induction false} SynthesiseResult(apiKey: string, query: string, oracle: Oracle, e: Exec, a: string, b: string, c: string)
    ensures var r := Synthesise(apiKey, query, oracle, e, a, b, c);
      var verdict := Answer(apiKey, oracle, |e.calls|);
      var shown := Board(Agent(Done, a), Agent(Done, b), Agent(Done, c), Agent(Thinking, ""));
      && e.snapshots <= r.exec.snapshots
      && r.exec.calls == e.calls + (if apiKey == "" then [] else [Call(Synthesis(query, a, b, c), CouncilChairman)])
      && r.exec.callBoards == e.callBoards + (if apiKey == "" then [] else [shown])
      && (r.outcome.Completed? <==> verdict.Ok?)
      && r.exec.agents == (if verdict.Ok? then shown.With(Chairman, Agent(Done, verdict.value)) else shown)
  {
  }

  // ----- a whole run -----

  /** The run's views are those of its log, and the log never touches the processing flag. */
  lemma {:induction false} CouncilRecorded(apiKey: string, query: string, start: Board, oracle: Oracle)
    ensures var r := RunCouncil(apiKey, query, start, oracle);
      r.exec.start == start && r.exec.Recorded()
  {
    var reset := ResetTo(start, Debating);
    ResetRecorded(start, Debating);
    DebateRecorded(apiKey, query, oracle, reset, []);
    var (e, replies) := Debate(apiKey, query, oracle, reset, []);
    if replies[0].Ok? && replies[1].Ok? && replies[2].Ok? {
      SynthesiseRecorded(apiKey, query, oracle, e, replies[0].value, replies[1].value, replies[2].value);
    }
  }

  /** The first four writes reset the board to `Debating`, whatever it held before. */
  lemma {:induction false} CouncilStart(apiKey: string, query: string, start: Board, oracle: Oracle)
    ensures var r := RunCouncil(apiKey, query, start, oracle);
      |r.exec.snapshots| >= 4 && r.exec.snapshots[3] == Debating
  {
    CouncilDebate(apiKey, query, start, oracle);
    var (e, replies) := Debate(apiKey, query, oracle, ResetTo(start, Debating), []);
    if replies[0].Ok? && replies[1].Ok? && replies[2].Ok? {
      SynthesiseResult(apiKey, query, oracle, e, replies[0].value, replies[1].value, replies[2].value);
    }
  }

  /** After the reset writes, no agent's status ever moves backwards. */
  lemma {:induction false} CouncilMonotone(apiKey: string, query: string, start: Board, oracle: Oracle)
    ensures NonDecreasingFrom(RunCouncil(apiKey, query, start, oracle).exec.snapshots, 3)
  {
    CouncilDebate(apiKey, query, start, oracle);
    var (e, replies) := Debate(apiKey, query, oracle, ResetTo(start, Debating), []);
    if replies[0].Ok? && replies[1].Ok? && replies[2].Ok? {
      SynthesiseAdvances(apiKey, query, oracle, e, replies[0].value, replies[1].value, replies[2].value);
    }
  }

  /** Without a key no request leaves; with one, the three debater requests
      always leave, each with the bare query, while the board is `Debating`. */
  lemma {:induction false} CouncilDebaterCalls(apiKey: string, query: string, start: Board, oracle: Oracle)
    ensures var r := RunCouncil(apiKey, query, start, oracle);
      && (apiKey == "" ==> r.exec.calls == [])
      && (apiKey != "" ==>
            && |r.exec.calls| >= 3 && |r.exec.callBoards| >= 3
            && (forall i :: 0 <= i < 3 ==>
                  r.exec.calls[i] == Call(Query(query), CouncilRoles[i]) && r.exec.callBoards[i] == Debating))
  {
    CouncilDebate(apiKey, query, start, oracle);
    var (e, replies) := Debate(apiKey, query, oracle, ResetTo(start, Debating), []);
    if replies[0].Ok? && replies[1].Ok? && replies[2].Ok? {
      SynthesiseResult(apiKey, query, oracle, e, replies[0].value, replies[1].value, replies[2].value);
    }
  }

  /** The synthesis request is issued exactly when all three debaters answered. */
  lemma {:induction false} CouncilSynthesisIssued(apiKey: string, query: string, start: Board, oracle: Oracle)
    ensures |RunCouncil(apiKey, query, start, oracle).exec.calls| == 4 <==> DebateSucceeds(apiKey, oracle)
  {
    CouncilDebate(apiKey, query, start, oracle);
    var (e, replies) := Debate(apiKey, query, oracle, ResetTo(start, Debating), []);
    if replies[0].Ok? && replies[1].Ok? && replies[2].Ok? {
      SynthesiseResult(apiKey, query, oracle, e, replies[0].value, replies[1].value, replies[2].value);
    }
  }

  /** The synthesis request carries the query and the three answers. */
  lemma {:induction false} CouncilSynthesis(apiKey: string, query: string, start: Board, oracle: Oracle)
    requires DebateSucceeds(apiKey, oracle)
    ensures var r := RunCouncil(apiKey, query, start, oracle);
      && |r.exec.calls| == 4
      && r.exec.calls[3] == Call(Synthesis(query, Answer(apiKey, oracle, 0).value,
                                           Answer(apiKey, oracle, 1).value,
                                           Answer(apiKey, oracle, 2).value), CouncilChairman)
  {
    CouncilDebate(apiKey, query, start, oracle);
    var (e, replies) := Debate(apiKey, query, oracle, ResetTo(start, Debating), []);
    var (a, b, c) := (Answer(apiKey, oracle, 0).value, Answer(apiKey, oracle, 1).value, Answer(apiKey, oracle, 2).value);
    assert replies == [Ok(a), Ok(b), Ok(c)];
    SynthesiseResult(apiKey, query, oracle, e, a, b, c);
  }

  /** The synthesis request leaves once all three answers are shown and the chairman thinks. */
  lemma {:induction false} CouncilSynthesisBoard(apiKey: string, query: string, start: Board, oracle: Oracle)
    requires DebateSucceeds(apiKey, oracle)
    ensures var r := RunCouncil(apiKey, query, start, oracle);
      |r.exec.callBoards| == 4 && r.exec.callBoards[3] == Debated(apiKey, oracle, Agent(Thinking, ""))
  {
    CouncilDebate(apiKey, query, start, oracle);
    var (e, replies) := Debate(apiKey, query, oracle, ResetTo(start, Debating), []);
    var (a, b, c) := (Answer(apiKey, oracle, 0).value, Answer(apiKey, oracle, 1).value, Answer(apiKey, oracle, 2).value);
    assert replies == [Ok(a), Ok(b), Ok(c)];
    SynthesiseResult(apiKey, query, oracle, e, a, b, c);
  }

  /** At most four requests, the i-th always speaking to the i-th council role. */
  lemma {:induction false} CouncilCallRoles(apiKey: string, query: string, start: Board, oracle: Oracle)
    ensures var r := RunCouncil(apiKey, query, start, oracle);
      && |r.exec.calls| <= |CouncilRoles|
      && (forall i :: 0 <= i < |r.exec.calls| ==> r.exec.calls[i].role == CouncilRoles[i])
  {
    CouncilDebate(apiKey, query, start, oracle);
    var (e, replies) := Debate(apiKey, query, oracle, ResetTo(start, Debating), []);
    if replies[0].Ok? && replies[1].Ok? && replies[2].Ok? {
      SynthesiseResult(apiKey, query, oracle, e, replies[0].value, replies[1].value, replies[2].value);
    }
  }

  /** How the run ends: completed exactly when all four answers arrive, and
      the board then holds them; any failure leaves the thinking agents thinking. */
  lemma {:induction false} CouncilOutcome(apiKey: string, query: string, start: Board, oracle: Oracle)
    ensures var r := RunCouncil(apiKey, query, start, oracle);
      && (r.outcome.Completed? <==> DebateSucceeds(apiKey, oracle) && Answer(apiKey, oracle, 3).Ok?)
      && (!DebateSucceeds(apiKey, oracle) ==> r.exec.agents == Debating)
      && (DebateSucceeds(apiKey, oracle) && Answer(apiKey, oracle, 3).Err? ==>
            r.exec.agents == Debated(apiKey, oracle, Agent(Thinking, "")))
      && (DebateSucceeds(apiKey, oracle) && Answer(apiKey, oracle, 3).Ok? ==>
            r.exec.agents == Debated(apiKey, oracle, Agent(Done, Answer(apiKey, oracle, 3).value)))
  {
    CouncilDebate(apiKey, query, start, oracle);
    var (e, replies) := Debate(apiKey, query, oracle, ResetTo(start, Debating), []);
    if replies[0].Ok? && replies[1].Ok? && replies[2].Ok? {
      SynthesiseResult(apiKey, query, oracle, e, replies[0].value, replies[1].value, replies[2].value);
    }
  }

  /** The synthesis prompt holds the query and the three answers, in the
      order visionary, skeptic, historian. */
  lemma {:induction false} SynthesisCarriesDebate(apiKey: string, query: string, start: Board, oracle: Oracle)
    requires DebateSucceeds(apiKey, oracle)
    ensures var r := RunCouncil(apiKey, query, start, oracle);
      && |r.exec.calls| == 4
      && Splices(r.exec.calls[3].PromptText(),
                 [query, Answer(apiKey, oracle, 0).value, Answer(apiKey, oracle, 1).value, Answer(apiKey, oracle, 2).value])
  {
    CouncilSynthesis(apiKey, query, start, oracle);
    SynthesisPromptOrder(query, Answer(apiKey, oracle, 0).value, Answer(apiKey, oracle, 1).value, Answer(apiKey, oracle, 2).value);
  }

  /** A service that always answers the same non-empty text `t`: the run
      completes and every agent shows `t`. */
  lemma {:induction false} SteadyService(apiKey: string, query: string, start: Board, t: string)
    requires apiKey != "" && t != ""
    ensures var r := RunCouncil(apiKey, query, start, (k: nat) => Response(true, Some(TextBody(t))));
      && r.outcome.Completed?
      && r.exec.agents == Board(Agent(Done, t), Agent(Done, t), Agent(Done, t), Agent(Done, t))
  {
    var oracle: Oracle := (k: nat) => Response(true, Some(TextBody(t)));
    AnswerRoundTrip(apiKey, t);
    assert forall k: nat :: Answer(apiKey, oracle, k) == Ok(t);
    CouncilOutcome(apiKey, query, start, oracle);
  }
}
