/** The fixed system instructions, as a role -> text table, and the prompts
    the engine builds from the query and earlier answers. A request is
    recorded as the template it instantiates plus the role it speaks to; the
    rendering functions turn that into the two strings actually sent. Only
    the order of the fixed segments and the interpolated values is kept; the
    template literals' indentation is not. */
module Prompts {

  /** Every role that receives its own system instruction. */
  datatype Role =
    | Visionary | Skeptic | Historian | CouncilChairman          // council
    | LeadResearcher | CriticalReviewer | FinalDecisionMaker      // DxO

  /** The system instruction each role's requests carry. */
  function Instruction(role: Role): string
  {
    match role
    case Visionary => "You are 'The Visionary'. You are optimistic, creative, and look for high-risk high-reward potential. You focus on future possibilities."
    case Skeptic => "You are 'The Skeptic'. Your job is to find flaws. Look for recency bias, logical gaps, and risks. Be critical and harsh."
    case Historian => "You are 'The Historian'. You focus purely on data, past precedents, and statistical facts. Ignore emotions. Be dry and analytical."
    case CouncilChairman => "You are a decisive leader synthesizing advice from your council."
    case LeadResearcher => "You are a Lead Researcher. Conduct a breadth-first search of this topic. Provide extensive details, context, and pros/cons. Be exhaustive."
    case CriticalReviewer => "You are a Critical Reviewer. You do not generate ideas. You only critique methods and logic."
    case FinalDecisionMaker => "You are the Final Decision Maker."
  }

  /** `s` consists of the `parts`, in order, with arbitrary text around and between them. */
  ghost predicate Splices(s: string, parts: seq<string>)
    decreases |parts|
  {
    if parts == [] then true
    else exists pre, post :: s == pre + parts[0] + post && Splices(post, parts[1..])
  }

  /** `s` contains `x` somewhere. */
  ghost predicate Contains(s: string, x: string)
  {
    exists pre, post :: s == pre + x + post
  }

  /** Putting a part in front of a spliced tail yields a splice of the longer list. */
  lemma {:induction false} SplicesCons(pre: string, post: string, parts: seq<string>)
    requires parts != [] && Splices(post, parts[1..])
    ensures Splices(pre + parts[0] + post, parts)
  {
    var s := pre + parts[0] + post;
    assert s == pre + parts[0] + post && Splices(post, parts[1..]);
  }

  /** A splice of a list is also a splice of the list without its first part. */
  lemma {:induction false} SplicesTail(s: string, parts: seq<string>)
    requires parts != [] && Splices(s, parts)
    ensures Splices(s, parts[1..])
  {
    var pre, post :| s == pre + parts[0] + post && Splices(post, parts[1..]);
    var rest := parts[1..];
    if rest != [] {
      assert Splices(post, rest);
      var pre', post' :| post == pre' + rest[0] + post' && Splices(post', rest[1..]);
      assert s == (pre + parts[0] + pre') + rest[0] + post';
    }
  }

  /** Every part of a splice is contained in it. */
  lemma {:induction false} SplicesContains(s: string, parts: seq<string>, i: nat)
    requires i < |parts| && Splices(s, parts)
    ensures Contains(s, parts[i])
    decreases i
  {
    if i == 0 {
      var pre, post :| s == pre + parts[0] + post && Splices(post, parts[1..]);
    } else {
      SplicesTail(s, parts);
      SplicesContains(s, parts[1..], i - 1);
    }
  }

  /** Three parts separated by fixed text are a splice of those three parts. */
  lemma {:induction false} SplicesThree(p0: string, x0: string, p1: string, x1: string, p2: string, x2: string, p3: string)
    ensures Splices(p0 + x0 + p1 + x1 + p2 + x2 + p3, [x0, x1, x2])
  {
    var t2 := p2 + x2 + p3;
    var t1 := p1 + x1 + t2;
    assert [x2][1..] == [];
    SplicesCons(p2, p3, [x2]);
    assert [x1, x2][1..] == [x2];
    SplicesCons(p1, t2, [x1, x2]);
    assert [x0, x1, x2][1..] == [x1, x2];
    SplicesCons(p0, t1, [x0, x1, x2]);
    assert p0 + x0 + p1 + x1 + p2 + x2 + p3 == p0 + x0 + t1;
  }

  /** Four parts separated by fixed text are a splice of those four parts. */
  lemma {:induction false} SplicesFour(p0: string, x0: string, p1: string, x1: string, p2: string, x2: string,
                                       p3: string, x3: string, p4: string)
    ensures Splices(p0 + x0 + p1 + x1 + p2 + x2 + p3 + x3 + p4, [x0, x1, x2, x3])
  {
    var t1 := p1 + x1 + p2 + x2 + p3 + x3 + p4;
    SplicesThree(p1, x1, p2, x2, p3, x3, p4);
    assert [x0, x1, x2, x3][1..] == [x1, x2, x3];
    SplicesCons(p0, t1, [x0, x1, x2, x3]);
    assert p0 + x0 + p1 + x1 + p2 + x2 + p3 + x3 + p4 == p0 + x0 + t1;
  }

  /** A prompt, as the template it instantiates and the values it interpolates. */
  datatype Prompt =
    | Query(query: string)                                            // the user's query as typed
    | Synthesis(query: string, resA: string, resB: string, resC: string) // the council chairman's prompt
    | Critique(research: string)                                      // the critical reviewer's prompt
    | Final(query: string, research: string, critique: string)        // the final decision maker's prompt

  /** One request to the generation service: its prompt and its system instruction. */
  datatype Call = Call(prompt: Prompt, role: Role) {
    /** The prompt string sent. */
    function PromptText(): string { Render(prompt) }
    /** The system instruction string sent. */
    function SystemInstruction(): string { Instruction(role) }
  }

  /** The text a prompt template produces. */
  function Render(p: Prompt): string
  {
    match p
    case Query(q) => q
    case Synthesis(q, a, b, c) => SynthesisPrompt(q, a, b, c)
    case Critique(r) => CritiquePrompt(r)
    case Final(q, r, c) => FinalPrompt(q, r, c)
  }

  // --- council synthesis prompt -------------------------------------------

  const ChairmanOpening: string := "You are the Chairman of the AI Council.\nReview the following arguments regarding: \""
  const VisionaryHeading: string := "\"\n\nTHE VISIONARY (Optimist):\n"
  const SkepticHeading: string := "\n\nTHE SKEPTIC (Critic):\n"
  const HistorianHeading: string := "\n\nTHE HISTORIAN (Data):\n"
  const ChairmanClosing: string := "\n\nSynthesize these viewpoints into a final decision. Acknowledge the debate points but be decisive.\n"

  /** The prompt handed to the council's chairman. */
  function SynthesisPrompt(query: string, resA: string, resB: string, resC: string): string
  {
    ChairmanOpening + query + VisionaryHeading + resA + SkepticHeading + resB + HistorianHeading + resC + ChairmanClosing
  }

  /** The synthesis prompt carries the query, then the three debaters' answers, in that order. */
  lemma {:induction false} SynthesisPromptOrder(query: string, resA: string, resB: string, resC: string)
    ensures Splices(SynthesisPrompt(query, resA, resB, resC), [query, resA, resB, resC])
  {
    SplicesFour(ChairmanOpening, query, VisionaryHeading, resA, SkepticHeading, resB, HistorianHeading, resC, ChairmanClosing);
  }

  // --- DxO critique prompt -------------------------------------------------

  const RecencyBias: string := "Recency Bias"
  const EraBias: string := "Era Bias"
  const ConfirmationBias: string := "Confirmation Bias"

  const CritiqueOpening: string := "Review the following research report for specific biases:\n1. "
  const RecencyGloss: string := " (Overweighting recent events)\n2. "
  const EraGloss: string := " (Comparing things unfairly across time)\n3. "
  const ReportHeading: string := ".\n\nResearch Report:\n"
  const CritiqueClosing: string := "\n"

  /** The prompt handed to the critical reviewer. */
  function CritiquePrompt(research: string): string
  {
    CritiqueOpening + RecencyBias + RecencyGloss + EraBias + EraGloss + ConfirmationBias + ReportHeading + research + CritiqueClosing
  }

  /** The critique prompt names recency, era and confirmation bias, then carries the research. */
  lemma {:induction false} CritiquePromptOrder(research: string)
    ensures Splices(CritiquePrompt(research), [RecencyBias, EraBias, ConfirmationBias, research])
  {
    SplicesFour(CritiqueOpening, RecencyBias, RecencyGloss, EraBias, EraGloss, ConfirmationBias, ReportHeading, research, CritiqueClosing);
  }

  // --- DxO final prompt ----------------------------------------------------

  const QueryHeading: string := "Original Query: "
  const ResearchHeading: string := "\n\nInitial Research: "
  const ReviewHeading: string := "\n\nCritical Review: "
  const FinalClosing: string := "\n\nProvide the final answer, correcting the initial research based on the critique.\n"

  /** The prompt handed to the DxO's final decision maker. */
  function FinalPrompt(query: string, research: string, critique: string): string
  {
    QueryHeading + query + ResearchHeading + research + ReviewHeading + critique + FinalClosing
  }

  /** The final prompt carries the query, then the research, then the critique. */
  lemma {:induction false} FinalPromptOrder(query: string, research: string, critique: string)
    ensures Splices(FinalPrompt(query, research, critique), [query, research, critique])
  {
    SplicesThree(QueryHeading, query, ResearchHeading, research, ReviewHeading, critique, FinalClosing);
  }
}
