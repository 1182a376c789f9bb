/** The agents of `app/orchestration`, their routes, what their tools return and what an answer tells. */
module Agents {
  import opened Lists

  // ---------------------------------------------------------------- values

  datatype AgentName = Supervisor | Knowledge | Retrieval | Prediction | Explanation | Decision | Finalizer | End

  predicate IsAgent(a: AgentName) {
    a in {Knowledge, Retrieval, Prediction, Explanation, Decision}
  }

  datatype AgentError = AgentError(agent: AgentName, cause: Failure, retryCount: nat, recoverable: bool)

  /** An exception: the name of its type and its text. */
  datatype Failure = Failure(errorType: string, message: string)

  datatype TraceStep = TraceStep(node: AgentName, transitionIndex: nat)

  /** What an agent's tool returns: its items, and the edges between them for the knowledge graph. */
  datatype ToolResult = ToolResult(items: seq<string>, links: seq<string>)

  datatype ToolOutcome = Returned(result: ToolResult) | Raised(failure: Failure)

  datatype AnswerPart = Asset(id: string) | ContextBlocks(n: nat) | GraphNodes(n: nat) | HasPrediction | HasExplanation | HasDecision | RecoveredErrors(n: nat)

  datatype Answer = Summary(parts: seq<AnswerPart>) | NoEvidence | NotGenerated

  datatype Message = UserMessage(text: string) | AssistantMessage(answer: Answer)

  /** What a run has gathered by the time it is summed up. */
  datatype Evidence = Evidence(asset: string, contextBlocks: nat, graphNodes: nat, predicted: bool, explained: bool,
                               decided: bool, errors: nat)

  predicate Supports(e: Evidence, p: AnswerPart) {
    match p
    case Asset(id) => id == e.asset != ""
    case ContextBlocks(n) => n == e.contextBlocks > 0
    case GraphNodes(n) => n == e.graphNodes > 0
    case HasPrediction => e.predicted
    case HasExplanation => e.explained
    case HasDecision => e.decided
    case RecoveredErrors(n) => n == e.errors > 0
  }

  /** The place of a part in the answer. */
  function Place(p: AnswerPart): nat {
    match p
    case Asset(_) => 0
    case ContextBlocks(_) => 1
    case GraphNodes(_) => 2
    case HasPrediction => 3
    case HasExplanation => 4
    case HasDecision => 5
    case RecoveredErrors(_) => 6
  }

  /** The answer tells all the evidence and nothing else, each kind once and in its place. */
  ghost predicate Tells(a: Answer, e: Evidence) {
    match a
    case Summary(parts) =>
      && parts != [] && (forall p :: p in parts <==> Supports(e, p))
      && forall i, j :: 0 <= i < j < |parts| ==> Place(parts[i]) < Place(parts[j])
    case NoEvidence => forall p :: !Supports(e, p)
    case NotGenerated => false
  }

  /** The parts tell the evidence of the first `n` kinds. */
  ghost predicate TellsUpTo(parts: seq<AnswerPart>, e: Evidence, n: nat) {
    && (forall p :: p in parts <==> Supports(e, p) && Place(p) < n)
    && forall i, j :: 0 <= i < j < |parts| ==> Place(parts[i]) < Place(parts[j])
  }

  /** The only part of its kind that the evidence can support. */
  function PartAt(e: Evidence, n: nat): AnswerPart {
    match n
    case 0 => Asset(e.asset)
    case 1 => ContextBlocks(e.contextBlocks)
    case 2 => GraphNodes(e.graphNodes)
    case 3 => HasPrediction
    case 4 => HasExplanation
    case 5 => HasDecision
    case _ => RecoveredErrors(e.errors)
  }

  lemma AddPart(parts: seq<AnswerPart>, e: Evidence, part: AnswerPart)
    requires TellsUpTo(parts, e, Place(part)) && part == PartAt(e, Place(part))
    ensures TellsUpTo(if Supports(e, part) then parts + [part] else parts, e, Place(part) + 1)
  {
    forall i | 0 <= i < |parts|
      ensures Place(parts[i]) < Place(part)
    {
      assert parts[i] in parts;
    }
    assert forall p :: Supports(e, p) && Place(p) == Place(part) ==> p == part;
  }

  lemma AllTold(parts: seq<AnswerPart>, e: Evidence)
    requires TellsUpTo(parts, e, 7)
    ensures Tells(if parts != [] then Summary(parts) else NoEvidence, e)
  {
    forall p
      ensures p in parts <==> Supports(e, p)
    {
      assert Place(p) < 7;
    }
  }

  /** Which keyword families occur in the query. */
  datatype Keywords = Keywords(diagnostic: bool, prediction: bool, decision: bool, knowledge: bool, retrieval: bool)

  /** `plan_route`, after its keyword tests. */
  function PlanRoute(k: Keywords): (plan: seq<AgentName>)
    ensures IsPlan(plan) && 2 <= |plan| <= 6
  {
    if k.diagnostic || (k.prediction && k.decision) then
      [Retrieval, Knowledge, Prediction, Explanation, Decision, Finalizer]
    else if k.decision then [Prediction, Explanation, Decision, Finalizer]
    else if k.prediction then [Prediction, Explanation, Finalizer]
    else if k.knowledge then [Knowledge, Retrieval, Finalizer]
    else if k.retrieval then [Retrieval, Finalizer]
    else [Retrieval, Knowledge, Finalizer]
  }

  /** Agents followed by the finalizer. */
  predicate IsPlan(plan: seq<AgentName>) {
    plan != [] && Last(plan) == Finalizer && forall a :: a in Init(plan) ==> IsAgent(a)
  }

  type Plan = plan: seq<AgentName> | IsPlan(plan) witness [Finalizer]

  lemma StopOf(plan: Plan, k: nat)
    requires k < |plan|
    ensures plan[k] == Finalizer <==> k == |plan| - 1
    ensures IsAgent(plan[k]) || plan[k] == Finalizer
  {
    if k < |plan| - 1 {
      assert plan[k] in Init(plan);
    }
  }

  /** Which agents are asked, from the keywords of the query. */
  lemma RouteMeans(k: Keywords)
    ensures var plan, all := PlanRoute(k), k.diagnostic || (k.prediction && k.decision);
            && (Decision in plan <==> all || k.decision)
            && (Prediction in plan <==> all || k.decision || k.prediction)
            && (Explanation in plan <==> Prediction in plan)
            && (Retrieval in plan <==> all || !(k.decision || k.prediction))
            && (Knowledge in plan <==> Retrieval in plan && (all || k.knowledge || !k.retrieval))
  {
  }

  /** No agent is asked twice, and each works on what those before it found: documents are retrieved before the graph is
      asked unless the query is about the graph alone, evidence comes before prediction, prediction before its explanation,
      explanation before decision, and the finalizer last. */
  lemma RouteOrder(k: Keywords, i: nat, j: nat)
    requires i < j < |PlanRoute(k)|
    ensures var plan, all := PlanRoute(k), k.diagnostic || (k.prediction && k.decision);
            && plan[i] != plan[j]
            && !(plan[i] == Knowledge && plan[j] == Retrieval && (all || !k.knowledge))
            && !(plan[i] == Retrieval && plan[j] == Knowledge && k.knowledge && !all)
            && (plan[j] in {Retrieval, Knowledge} ==> plan[i] in {Retrieval, Knowledge})
            && (plan[j] == Explanation ==> plan[i] != Decision) && (plan[j] == Prediction ==> plan[i] !in {Explanation, Decision})
            && plan[i] != Finalizer
  {
  }

  /** The last `n` elements. */
  function LastN<T>(xs: seq<T>, n: nat): (r: seq<T>)
    ensures |r| == AtMost(|xs|, n) && forall i :: 0 <= i < |r| ==> r[i] == xs[|xs| - |r| + i]
  {
    if |xs| <= n then xs else xs[|xs| - n..]
  }

  /** The first `n` elements. */
  function FirstN<T>(xs: seq<T>, n: nat): (r: seq<T>)
    ensures |r| == AtMost(|xs|, n) && r <= xs
  {
    if |xs| <= n then xs else xs[..n]
  }

  function AtMost(m: nat, n: nat): nat {
    if m <= n then m else n
  }
}
