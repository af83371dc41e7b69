/** The four agent records the engine drives, and the board holding them. */
module Agents {

  /** An agent's lifecycle status. The source has no `failed` status. */
  datatype Status = Waiting | Thinking | Done

  /** Position of a status in the lifecycle order waiting < thinking < done. */
  function Rank(s: Status): nat
  {
    match s
    case Waiting => 0
    case Thinking => 1
    case Done => 2
  }

  /** One agent record: `{ status, content }`. */
  datatype Agent = Agent(status: Status, content: string)

  /** The record every agent starts with, and the reset value of an unused agent. */
  const Idle: Agent := Agent(Waiting, "")

  /** The four state cells `agentA`, `agentB`, `agentC` and `chairman`. */
  datatype Slot = A | B | C | Chairman

  /** The value of all four state cells at one moment. */
  datatype Board = Board(a: Agent, b: Agent, c: Agent, chairman: Agent) {

    function Get(slot: Slot): Agent
    {
      match slot
      case A => a
      case B => b
      case C => c
      case Chairman => chairman
    }

    /** The board after one `set*` write to `slot`. */
    function With(slot: Slot, value: Agent): (r: Board)
      ensures r.Get(slot) == value
      ensures forall other: Slot :: other != slot ==> r.Get(other) == Get(other)
    {
      match slot
      case A => this.(a := value)
      case B => this.(b := value)
      case C => this.(c := value)
      case Chairman => this.(chairman := value)
    }

    /** No agent of this board is further along its lifecycle than in `later`. */
    predicate AtMost(later: Board)
    {
      && Rank(a.status) <= Rank(later.a.status)
      && Rank(b.status) <= Rank(later.b.status)
      && Rank(c.status) <= Rank(later.c.status)
      && Rank(chairman.status) <= Rank(later.chairman.status)
    }
  }

  /** The state the component is created with: every agent waiting and empty. */
  const Initial: Board := Board(Idle, Idle, Idle, Idle)

  /** A write to one slot never moves another agent, and moves this one forward
      exactly when the written status does not rank below the current one. */
  lemma {:induction false} WithAdvances(b: Board, slot: Slot, value: Agent)
    ensures b.AtMost(b.With(slot, value)) <==> Rank(b.Get(slot).status) <= Rank(value.status)
  {
    var r := b.With(slot, value);
    match slot
    case A =>
      assert r.b == b.b && r.c == b.c && r.chairman == b.chairman;
    case B =>
      assert r.a == b.a && r.c == b.c && r.chairman == b.chairman;
    case C =>
      assert r.a == b.a && r.b == b.b && r.chairman == b.chairman;
    case Chairman =>
      assert r.a == b.a && r.b == b.b && r.c == b.c;
  }
}
