/** The observable history of a run: every request issued and every `set*`
    write, in order. The board, the call trace and the snapshots are all
    read off this one log. */
module Trace {
  import opened Wrappers
  import opened Agents
  import opened Generation
  import opened Prompts

  /** One step of the engine that the outside world can see. */
  datatype Event =
    | Issue(call: Call)                 // a request leaves for the service
    | Set(slot: Slot, agent: Agent)     // one `setAgentA` / ... / `setChairman` write
    | Processing(on: bool)              // one `setIsProcessing` write

  /** The service's behaviour: the reply to the k-th request issued (from 0). */
  type Oracle = nat -> Reply

  function Apply(b: Board, ev: Event): Board
  {
    if ev.Set? then b.With(ev.slot, ev.agent) else b
  }

  /** The board after every write of `log`, starting from `start`. */
  function Replay(start: Board, log: seq<Event>): Board
    decreases |log|
  {
    if log == [] then start
    else Apply(Replay(start, log[..|log| - 1]), log[|log| - 1])
  }

  /** The requests of `log`, in issue order. */
  function CallsOf(log: seq<Event>): seq<Call>
    decreases |log|
  {
    if log == [] then []
    else
      var ev := log[|log| - 1];
      CallsOf(log[..|log| - 1]) + (if ev.Issue? then [ev.call] else [])
  }

  /** The board right after each agent write of `log`: one snapshot per `set*` call. */
  function SnapshotsOf(start: Board, log: seq<Event>): (snaps: seq<Board>)
    ensures |snaps| <= |log|
    ensures |snaps| > 0 ==> snaps[|snaps| - 1] == Replay(start, log)
    decreases |log|
  {
    if log == [] then []
    else
      var earlier := SnapshotsOf(start, log[..|log| - 1]);
      if log[|log| - 1].Set? then earlier + [Replay(start, log)] else earlier
  }

  /** The board at the moment each request of `log` was issued, in issue order. */
  function CallBoardsOf(start: Board, log: seq<Event>): (boards: seq<Board>)
    ensures |boards| == |CallsOf(log)|
    decreases |log|
  {
    if log == [] then []
    else
      var init := log[..|log| - 1];
      CallBoardsOf(start, init) + (if log[|log| - 1].Issue? then [Replay(start, init)] else [])
  }

  /** From snapshot `k` on, no agent's status ever ranks lower than before. */
  ghost predicate NonDecreasingFrom(snaps: seq<Board>, k: nat)
  {
    forall i, j :: k <= i <= j < |snaps| ==> snaps[i].AtMost(snaps[j])
  }

  /** `log` holds no write of the processing flag. */
  ghost predicate Quiet(log: seq<Event>)
  {
    forall i :: 0 <= i < |log| ==> !log[i].Processing?
  }

  /** Appending a snapshot that does not fall behind the last one keeps every
      suffix of the snapshots non-decreasing. */
  lemma {:induction false} ExtendNonDecreasing(snaps: seq<Board>, b: Board)
    requires |snaps| > 0 ==> snaps[|snaps| - 1].AtMost(b)
    ensures forall k: nat :: NonDecreasingFrom(snaps, k) ==> NonDecreasingFrom(snaps + [b], k)
  {
    forall k: nat | NonDecreasingFrom(snaps, k)
      ensures NonDecreasingFrom(snaps + [b], k)
    {
      var s := snaps + [b];
      forall i, j | k <= i <= j < |s|
        ensures s[i].AtMost(s[j])
      {
        if j == |snaps| && i < |snaps| {
          assert snaps[i].AtMost(snaps[|snaps| - 1]);
        }
      }
    }
  }

  /** Replaying two logs one after the other is replaying their concatenation. */
  lemma {:induction false} ReplayAppend(start: Board, x: seq<Event>, y: seq<Event>)
    ensures Replay(start, x + y) == Replay(Replay(start, x), y)
    decreases |y|
  {
    if y == [] {
      assert x + y == x;
    } else {
      var y' := y[..|y| - 1];
      assert (x + y)[..|x + y| - 1] == x + y';
      ReplayAppend(start, x, y');
    }
  }

  /** The requests of a concatenation are the requests of each part, in order. */
  lemma {:induction false} CallsOfAppend(x: seq<Event>, y: seq<Event>)
    ensures CallsOf(x + y) == CallsOf(x) + CallsOf(y)
    decreases |y|
  {
    if y == [] {
      assert x + y == x;
    } else {
      var y' := y[..|y| - 1];
      assert (x + y)[..|x + y| - 1] == x + y';
      CallsOfAppend(x, y');
    }
  }

  /** Raising the processing flag before a log and lowering it after changes
      neither its writes nor its requests, and nothing between the two flag
      writes is a flag write when the log is quiet. */
  lemma {:induction false} Bracketed(start: Board, log: seq<Event>)
    requires Quiet(log)
    ensures var full := [Processing(true)] + log + [Processing(false)];
      && Replay(start, full) == Replay(start, log)
      && CallsOf(full) == CallsOf(log)
      && (forall i :: 0 < i < |full| - 1 ==> !full[i].Processing?)
  {
    var full := [Processing(true)] + log + [Processing(false)];
    forall i | 0 < i < |full| - 1
      ensures !full[i].Processing?
    {
      assert full[i] == log[i - 1];
    }
    ReplayAppend(start, [Processing(true)] + log, [Processing(false)]);
    ReplayAppend(start, [Processing(true)], log);
    CallsOfAppend([Processing(true)] + log, [Processing(false)]);
    CallsOfAppend([Processing(true)], log);
    assert [Processing(true)][..0] == [];
    assert [Processing(false)][..0] == [];
  }

  /** A run in progress: the board it started from, everything it has done so
      far, and the views of that log the engine's observers read (the current
      board, the requests issued with the board at each, one snapshot per write). */
  datatype Exec = Exec(start: Board, log: seq<Event>, agents: Board,
                       calls: seq<Call>, callBoards: seq<Board>, snapshots: seq<Board>) {

    /** The log is a run's log (it never writes the processing flag) and the
        recorded views are exactly what it determines. */
    ghost predicate Recorded()
    {
      && Quiet(log)
      && agents == Replay(start, log)
      && calls == CallsOf(log)
      && callBoards == CallBoardsOf(start, log)
      && snapshots == SnapshotsOf(start, log)
    }

    /** The last snapshot is the board as it stands. */
    predicate Current()
    {
      |snapshots| > 0 && snapshots[|snapshots| - 1] == agents
    }

    /** One `set*` write: the written agent changes and its snapshot is taken. */
    function Write(slot: Slot, value: Agent): Exec
    {
      var agents' := agents.With(slot, value);
      Exec(start, log + [Set(slot, value)], agents', calls, callBoards, snapshots + [agents'])
    }

    /** One request leaving for the service, recorded with the board at that moment. */
    function Issue(call: Call): Exec
    {
      Exec(start, log + [Event.Issue(call)], agents, calls + [call], callBoards + [agents], snapshots)
    }

    /** One `await generateContent(apiKey, prompt, systemInstruction)`: the
        request is logged only when the key is present, and is answered by
        the oracle's entry for its position in the call trace. */
    function Request(apiKey: string, call: Call, oracle: Oracle): (Exec, Result<string, Error>)
    {
      var result := GenerateContent(apiKey, oracle(|calls|));
      if apiKey == "" then (this, result) else (Issue(call), result)
    }
  }

  /** A request without a key fails with `MissingApiKey` and leaves no trace;
      with one it appends the call, taken from the current board, and changes
      nothing else. Either way its reply is the service's answer at the call's
      position, and an answer is never empty. */
  lemma {:induction false} RequestEffect(e: Exec, apiKey: string, call: Call, oracle: Oracle)
    ensures var (e', reply) := e.Request(apiKey, call, oracle);
      && reply == Answer(apiKey, oracle, |e.calls|)
      && (reply.Ok? ==> reply.value != "")
      && (apiKey == "" ==> e' == e && reply == Err(MissingApiKey))
      && (apiKey != "" ==>
            && e'.calls == e.calls + [call] && e'.callBoards == e.callBoards + [e.agents]
            && e'.log == e.log + [Event.Issue(call)]
            && e'.agents == e.agents && e'.snapshots == e.snapshots && e'.start == e.start)
  {
  }

  /** A write keeps the views equal to what the log determines. */
  lemma {:induction false} WriteRecorded(e: Exec, slot: Slot, value: Agent)
    requires e.Recorded()
    ensures e.Write(slot, value).Recorded() && e.Write(slot, value).start == e.start
  {
    var log' := e.Write(slot, value).log;
    assert log'[..|log'| - 1] == e.log;
  }

  /** A write that does not move its agent backwards keeps every ordered
      suffix of the snapshots ordered, and leaves the last snapshot current. */
  lemma {:induction false} WriteAdvances(e: Exec, slot: Slot, value: Agent, k: nat)
    requires e.Current() && NonDecreasingFrom(e.snapshots, k)
    requires Rank(e.agents.Get(slot).status) <= Rank(value.status)
    ensures e.Write(slot, value).Current() && NonDecreasingFrom(e.Write(slot, value).snapshots, k)
  {
    WithAdvances(e.agents, slot, value);
    ExtendNonDecreasing(e.snapshots, e.agents.With(slot, value));
  }

  /** Issuing a request keeps the views equal to what the log determines. */
  lemma {:induction false} IssueRecorded(e: Exec, call: Call)
    requires e.Recorded()
    ensures e.Issue(call).Recorded() && e.Issue(call).start == e.start
  {
    var log' := e.Issue(call).log;
    assert log'[..|log'| - 1] == e.log;
  }

  /** A request, sent or not, keeps the views equal to what the log determines. */
  lemma {:induction false} RequestRecorded(e: Exec, apiKey: string, call: Call, oracle: Oracle)
    requires e.Recorded()
    ensures e.Request(apiKey, call, oracle).0.Recorded() && e.Request(apiKey, call, oracle).0.start == e.start
  {
    if apiKey != "" {
      IssueRecorded(e, call);
    }
  }

  /** A run that has done nothing yet. */
  function Begin(start: Board): (e: Exec)
    ensures e.Recorded()
  {
    Exec(start, [], start, [], [], [])
  }

  /** The four reset writes that open every run, in the order A, B, C, chairman. */
  function ResetTo(start: Board, target: Board): (e: Exec)
    ensures e.start == start && e.calls == [] && e.callBoards == []
    ensures e.agents == target
    ensures |e.snapshots| == 4 && e.snapshots[3] == target
    ensures e.Current() && NonDecreasingFrom(e.snapshots, 3)
  {
    Begin(start).Write(A, target.a).Write(B, target.b).Write(C, target.c).Write(Chairman, target.chairman)
  }

  /** The reset writes keep the views equal to what the log determines. */
  lemma {:induction false} ResetRecorded(start: Board, target: Board)
    ensures ResetTo(start, target).Recorded()
  {
    var e0 := Begin(start);
    WriteRecorded(e0, A, target.a);
    var e1 := e0.Write(A, target.a);
    WriteRecorded(e1, B, target.b);
    var e2 := e1.Write(B, target.b);
    WriteRecorded(e2, C, target.c);
    var e3 := e2.Write(C, target.c);
    WriteRecorded(e3, Chairman, target.chairman);
  }

  /** How a run ends: every stage answered, or the first failure was caught
      (the error only reaches an alert, which is not modelled). */
  datatype Outcome = Completed | Aborted

  /** A finished run: everything it did, and how it ended. */
  datatype Run = Run(exec: Exec, outcome: Outcome)

  /** What the k-th request of a run evaluates to. */
  function Answer(apiKey: string, oracle: Oracle, k: nat): Result<string, Error>
  {
    GenerateContent(apiKey, oracle(k))
  }
}
