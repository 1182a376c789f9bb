/** The multi-agent orchestrator of `app/orchestration`: a supervisor that hands a planned route to
    agents one at a time, a transition budget, an executor limit and a retry ring around every tool.
    `Ainvoke` is proved against `Outcome`, a closed form of the nodes a whole run visits, and `Execute` against what
    the visited agents returned. */
module Orchestrator {
  import opened Lists
  import opened Agents
  import opened AgentRuns
  import opened AgentWork

  // ---------------------------------------------------------------- the shared state

  class AgentState {
    const maxTransitions: int
    var routePlan: seq<AgentName>
    var nextRoute: Option<AgentName>
    var visitedNodes: seq<AgentName>
    var trace: seq<TraceStep>
    var transitionCount: nat
    var terminal: bool
    var messages: seq<Message>
    var contextChunks: seq<string>
    var graphNodes: seq<string>
    var graphEdges: seq<string>
    var telemetryHistory: seq<string>
    var prediction: Option<ToolResult>
    var explanation: Option<ToolResult>
    var decision: Option<ToolResult>
    var errors: seq<AgentError>
    var retries: map<AgentName, nat>
    var answer: Option<Answer>
    /** The asset in question, empty when none is known. */
    var activeAsset: string

    /** The counter, the visited nodes and the trace tell one story. */
    ghost predicate Valid()
      reads this
    {
      && transitionCount == |visitedNodes| == |trace|
      && forall i :: 0 <= i < |trace| ==> trace[i] == TraceStep(visitedNodes[i], i + 1)
    }

    lemma TraceNumbered()
      requires Valid()
      ensures trace == NumberedFrom1(visitedNodes)
    {
    }

    /** The caps `compress` enforces on everything but the messages. */
    ghost predicate Capped()
      reads this
    {
      |contextChunks| <= 8 && |graphNodes| <= 50 && |graphEdges| <= 75 && |telemetryHistory| <= 24
    }

    function Standing(): Progress
      reads this
    {
      Progress(visitedNodes, maxTransitions, terminal, nextRoute, routePlan, answer.Some?)
    }

    /** What the agents have left in the state, after so many tool calls. */
    function Held(calls: nat): Holdings
      reads this
    {
      Holdings(calls, errors, contextChunks, graphNodes, graphEdges, prediction, explanation, decision)
    }

    function Gathered(): Evidence
      reads this
    {
      EvidenceOf(activeAsset, Held(0))
    }

    constructor FromRequest(query: string, asset: string, maxTransitions: int, telemetryHistory: seq<string>)
      ensures Valid() && transitionCount == 0 && this.maxTransitions == maxTransitions
      ensures routePlan == [] && nextRoute == None && !terminal && answer == None && Held(0) == NOTHING
      ensures messages == [UserMessage(query)] && this.telemetryHistory == telemetryHistory && activeAsset == asset
    {
      this.maxTransitions := maxTransitions;
      routePlan, nextRoute, terminal, answer := [], None, false, None;
      visitedNodes, trace, transitionCount := [], [], 0;
      messages, contextChunks, graphNodes, graphEdges := [UserMessage(query)], [], [], [];
      this.telemetryHistory := telemetryHistory;
      prediction, explanation, decision, errors, retries := None, None, None, [], map[];
      activeAsset := asset;
    }

    method AppendTrace(node: AgentName)
      requires Valid()
      modifies `transitionCount, `visitedNodes, `trace
      ensures Valid() && visitedNodes == old(visitedNodes) + [node]
    {
      transitionCount := transitionCount + 1;
      visitedNodes := visitedNodes + [node];
      trace := trace + [TraceStep(node, transitionCount)];
    }

    method Compress()
      modifies `messages, `contextChunks, `graphNodes, `graphEdges, `telemetryHistory
      ensures Capped() && messages == LastN(old(messages), 10)
      ensures contextChunks == FirstN(old(contextChunks), 8)
      ensures graphNodes == FirstN(old(graphNodes), 50) && graphEdges == FirstN(old(graphEdges), 75)
      ensures telemetryHistory == LastN(old(telemetryHistory), 24)
    {
      messages := LastN(messages, 10);
      contextChunks := FirstN(contextChunks, 8);
      graphNodes := FirstN(graphNodes, 50);
      graphEdges := FirstN(graphEdges, 75);
      telemetryHistory := LastN(telemetryHistory, 24);
    }
  }

  // ---------------------------------------------------------------- nodes

  class AgentNodes {
    /** The plan `plan_route` gives for the query. */
    const route: Plan
    /** The outcome of the n-th tool call of a run, by agent. */
    const tool: (AgentName, nat) -> ToolOutcome
    const fallbackHistory: seq<string>
    /** The asset the query names, empty when it names none. */
    const mentioned: string
    var calls: nat

    constructor (route: Plan, mentioned: string, tool: (AgentName, nat) -> ToolOutcome, fallbackHistory: seq<string>)
      ensures this.route == route && this.mentioned == mentioned && this.tool == tool && calls == 0
    {
      this.route, this.mentioned, this.tool, this.fallbackHistory, calls := route, mentioned, tool, fallbackHistory, 0;
    }

    /** The retry ring: stop at the first success, give up after `maxRetries` repeats, record one error
        and fall back if there is something to fall back on. */
    method WithRetries(s: AgentState, agent: AgentName, maxRetries: nat, fallback: Option<Failure -> ToolResult>)
      returns (r: Option<ToolResult>)
      modifies s`errors, s`retries, `calls
      ensures old(calls) < calls <= old(calls) + maxRetries + 1
      ensures forall n :: old(calls) <= n < calls - 1 ==> tool(agent, n).Raised?
      ensures match tool(agent, calls - 1)
              case Returned(result) => r == Some(result) && s.errors == old(s.errors)
              case Raised(failure) =>
                && calls == old(calls) + maxRetries + 1
                && s.errors == old(s.errors) + [AgentError(agent, failure, maxRetries, fallback.Some?)]
                && r == if fallback.Some? then Some(fallback.value(failure)) else None
      ensures var repeats := calls - old(calls) - 1;
              s.retries == if repeats == 0 then old(s.retries) else old(s.retries)[agent := repeats]
    {
      var attempt := 0;
      var last := Failure("", "");
      while attempt <= maxRetries
        invariant attempt <= maxRetries
        invariant calls == old(calls) + attempt && s.errors == old(s.errors)
        invariant forall n :: old(calls) <= n < calls ==> tool(agent, n).Raised?
        invariant s.retries == if attempt <= 1 then old(s.retries) else old(s.retries)[agent := attempt - 1]
        decreases maxRetries - attempt
      {
        if attempt != 0 {
          s.retries := s.retries[agent := attempt];
        }
        var outcome := tool(agent, calls);
        calls := calls + 1;
        if outcome.Returned? {
          return Some(outcome.result);
        }
        last := outcome.failure;
        if attempt >= maxRetries {
          break;
        }
        attempt := attempt + 1;
      }
      s.errors := s.errors + [AgentError(agent, last, maxRetries, fallback.Some?)];
      return if fallback.Some? then Some(fallback.value(last)) else None;
    }

    /** Plan the route, and take the asset from the query if the request names none. */
    method SetPlan(s: AgentState)
      modifies s`routePlan, s`activeAsset
      ensures s.routePlan == route && s.activeAsset == if old(s.activeAsset) == "" then mentioned else old(s.activeAsset)
    {
      if s.activeAsset == "" {
        s.activeAsset := mentioned;
      }
      s.routePlan := route;
    }

    /** The supervisor node: plan once, then hand out the next stop, unless the budget is spent.
        No plan is empty, so there always is a next stop. */
    method Supervisor(s: AgentState)
      requires s.Valid()
      modifies s
      ensures s.Valid() && s.Capped()
      ensures s.visitedNodes == old(s.visitedNodes) + [AgentName.Supervisor]
      ensures s.terminal == (old(s.terminal) || s.transitionCount >= s.maxTransitions)
      ensures s.terminal ==> s.routePlan == old(s.routePlan) && s.nextRoute == Some(End)
      ensures !s.terminal ==>
                var plan := if old(s.routePlan) == [] then route else old(s.routePlan);
                s.nextRoute == Some(plan[0]) && s.routePlan == plan[1..]
      ensures s.messages == LastN(old(s.messages), 10) && s.answer == old(s.answer)
      ensures s.Held(calls) == Cut(old(s.Held(calls)))
      ensures s.activeAsset == if !s.terminal && old(s.routePlan) == [] && old(s.activeAsset) == "" then mentioned else old(s.activeAsset)
    {
      s.AppendTrace(AgentName.Supervisor);
      HandOut(s);
      s.Compress();
    }

    method HandOut(s: AgentState)
      modifies s`routePlan, s`activeAsset, s`terminal, s`nextRoute
      ensures s.terminal == (old(s.terminal) || s.transitionCount >= s.maxTransitions)
      ensures s.terminal ==> s.routePlan == old(s.routePlan) && s.nextRoute == Some(End)
      ensures !s.terminal ==>
                var plan := if old(s.routePlan) == [] then route else old(s.routePlan);
                s.nextRoute == Some(plan[0]) && s.routePlan == plan[1..]
      ensures s.activeAsset == if !s.terminal && old(s.routePlan) == [] && old(s.activeAsset) == "" then mentioned else old(s.activeAsset)
    {
      if s.routePlan == [] && !s.terminal && s.transitionCount < s.maxTransitions {
        SetPlan(s);
      }
      if s.terminal || s.transitionCount >= s.maxTransitions {
        s.terminal := true;
        s.nextRoute := Some(End);
      } else {
        s.nextRoute := Some(s.routePlan[0]);
        s.routePlan := s.routePlan[1..];
      }
    }

    /** Call the agent's tool and keep what came back. */
    method UseTool(s: AgentState, agent: AgentName)
      requires IsAgent(agent)
      modifies s`telemetryHistory, s`contextChunks, s`graphNodes, s`graphEdges, s`prediction, s`explanation, s`decision
      modifies s`errors, s`retries, `calls
      ensures s.Held(calls) == Use(tool, old(s.Held(calls)), agent)
      ensures s.telemetryHistory == if agent == Prediction && old(s.telemetryHistory) == [] then fallbackHistory else old(s.telemetryHistory)
    {
      if agent == Prediction && s.telemetryHistory == [] {
        s.telemetryHistory := fallbackHistory;
      }
      var result := WithRetries(s, agent, 1, None);
      if result.Some? {
        match agent {
          case Retrieval => s.contextChunks := result.value.items;
          case Knowledge => s.graphNodes, s.graphEdges := result.value.items, result.value.links;
          case Prediction => s.prediction := result;
          case Explanation => s.explanation := result;
          case Decision => s.decision := result;
        }
      }
    }

    /** One agent node: trace, retry ring around its tool, prune. */
    method RunAgent(s: AgentState, agent: AgentName)
      requires s.Valid() && IsAgent(agent)
      modifies s, `calls
      ensures s.Valid() && s.Capped()
      ensures s.visitedNodes == old(s.visitedNodes) + [agent]
      ensures s.routePlan == old(s.routePlan) && s.nextRoute == old(s.nextRoute) && s.terminal == old(s.terminal)
      ensures s.messages == LastN(old(s.messages), 10) && s.answer == old(s.answer) && s.activeAsset == old(s.activeAsset)
      ensures s.Held(calls) == After(tool, old(s.Held(calls)), agent)
    {
      s.AppendTrace(agent);
      UseTool(s, agent);
      s.Compress();
    }

    /** One more part of the answer, if there is evidence for it. */
    method Tell(parts: seq<AnswerPart>, part: AnswerPart, present: bool, ghost e: Evidence) returns (parts': seq<AnswerPart>)
      requires TellsUpTo(parts, e, Place(part)) && part == PartAt(e, Place(part)) && (present <==> Supports(e, part))
      ensures TellsUpTo(parts', e, Place(part) + 1)
    {
      AddPart(parts, e, part);
      parts' := if present then parts + [part] else parts;
    }

    /** The answer of the finalizer: one part per kind of evidence present. */
    method Conclude(e: Evidence) returns (answer: Answer)
      ensures Tells(answer, e)
    {
      var parts := Tell([], Asset(e.asset), e.asset != "", e);
      parts := Tell(parts, ContextBlocks(e.contextBlocks), e.contextBlocks > 0, e);
      parts := Tell(parts, GraphNodes(e.graphNodes), e.graphNodes > 0, e);
      parts := Tell(parts, HasPrediction, e.predicted, e);
      parts := Tell(parts, HasExplanation, e.explained, e);
      parts := Tell(parts, HasDecision, e.decided, e);
      parts := Tell(parts, RecoveredErrors(e.errors), e.errors > 0, e);
      AllTold(parts, e);
      answer := if parts != [] then Summary(parts) else NoEvidence;
    }

    /** The finalizer always produces an answer, which tells exactly the evidence there is; it does not prune. */
    method RunFinalizer(s: AgentState)
      requires s.Valid()
      modifies s
      ensures s.Valid() && s.terminal
      ensures s.visitedNodes == old(s.visitedNodes) + [AgentName.Finalizer]
      ensures Answered(s)
      ensures s.Held(calls) == old(s.Held(calls)) && s.activeAsset == old(s.activeAsset)
      ensures s.messages == old(s.messages) + [AssistantMessage(s.answer.value)]
      ensures old(s.Capped()) ==> s.Capped()
    {
      s.AppendTrace(AgentName.Finalizer);
      s.terminal := true;
      var answer := Conclude(s.Gathered());
      s.answer := Some(answer);
      s.messages := s.messages + [AssistantMessage(answer)];
    }

    // -------------------------------------------------------------- the executor

    /** The edge out of the supervisor, `supervisor_next`. */
    method FollowSupervisor(s: AgentState) returns (next: AgentName)
      modifies s`terminal, s`nextRoute, s`routePlan, s`activeAsset
      ensures s.terminal == (old(s.terminal) || s.transitionCount >= s.maxTransitions)
      ensures s.terminal ==> next == End && s.nextRoute == old(s.nextRoute) && s.routePlan == old(s.routePlan)
      ensures !s.terminal ==> s.nextRoute == None
      ensures !s.terminal && old(s.nextRoute).Some? ==>
                next == old(s.nextRoute).value && s.routePlan == old(s.routePlan)
      ensures s.terminal || old(s.nextRoute).Some? ==> s.activeAsset == old(s.activeAsset)
      ensures !s.terminal && old(s.nextRoute) == None ==>
                var plan := if old(s.routePlan) == [] then route else old(s.routePlan);
                next == plan[0] && s.routePlan == plan[1..]
    {
      if s.terminal || s.transitionCount >= s.maxTransitions {
        s.terminal := true;
        return End;
      }
      if s.nextRoute.Some? {
        next := s.nextRoute.value;
        s.nextRoute := None;
        return;
      }
      if s.routePlan == [] {
        SetPlan(s);
      }
      next := s.routePlan[0];
      s.routePlan := s.routePlan[1..];
    }

    /** The edge out of an agent, `next_after_agent`. */
    method FollowAgent(s: AgentState) returns (next: AgentName)
      modifies s`terminal
      ensures s.terminal == (old(s.terminal) || s.transitionCount >= s.maxTransitions)
      ensures next == if s.transitionCount >= s.maxTransitions then Finalizer else AgentName.Supervisor
    {
      if s.transitionCount >= s.maxTransitions {
        s.terminal := true;
        return Finalizer;
      }
      return AgentName.Supervisor;
    }

    ghost predicate At(s: AgentState, current: AgentName)
      reads s
    {
      s.Valid() && OnRoute(route, s.Standing(), current)
    }

    ghost predicate Answered(s: AgentState)
      reads s
    {
      s.answer.Some? && Tells(s.answer.value, s.Gathered())
    }

    /** Tool calls and errors of a run: one or two calls for every agent visited, an error only after two. */
    ghost predicate Accounted(s: AgentState, calls0: nat)
      reads s, this
    {
      var visits := |Filter(IsAgent, s.visitedNodes)|;
      calls0 + visits <= calls <= calls0 + 2 * visits && |s.errors| <= calls - calls0 - visits
    }

    /** The asset is the one of the request, or else the one of the query once the route is planned. */
    ghost predicate Named(s: AgentState, asset0: string)
      reads s
    {
      s.activeAsset == AssetAfter(asset0, mentioned, s.maxTransitions, s.visitedNodes)
    }

    /** The nodes visited have left what they leave. */
    ghost predicate Worked(s: AgentState, held0: Holdings)
      reads s, this
    {
      s.Held(calls) == AfterAll(tool, held0, s.visitedNodes)
    }

    /** The supervisor node and the edge out of it. */
    method Supervise(s: AgentState) returns (next: AgentName)
      requires s.Valid()
      modifies s
      ensures s.Valid() && s.Capped() && s.visitedNodes == old(s.visitedNodes) + [AgentName.Supervisor]
      ensures s.answer == old(s.answer) && s.Held(calls) == Cut(old(s.Held(calls)))
      ensures s.terminal == (old(s.terminal) || s.transitionCount >= s.maxTransitions)
      ensures s.terminal ==> next == End
      ensures !s.terminal ==>
                var stops := if old(s.routePlan) == [] then route else old(s.routePlan);
                s.nextRoute == None && next == stops[0] && s.routePlan == stops[1..]
      ensures s.activeAsset == if !s.terminal && old(s.routePlan) == [] && old(s.activeAsset) == "" then mentioned else old(s.activeAsset)
    {
      Supervisor(s);
      next := FollowSupervisor(s);
    }

    method VisitSupervisor(s: AgentState) returns (next: AgentName)
      requires At(s, AgentName.Supervisor)
      modifies s
      ensures s.Capped() && At(s, next) && s.visitedNodes == old(s.visitedNodes) + [AgentName.Supervisor]
      ensures s.answer == None && s.Held(calls) == Cut(old(s.Held(calls)))
      ensures s.activeAsset ==
              if old(s.visitedNodes) == [] && s.maxTransitions > 1 && old(s.activeAsset) == "" then mentioned else old(s.activeAsset)
    {
      ghost var p := s.Standing();
      PlannedOnce(route, p);
      next := Supervise(s);
      SupervisorMoves(route, p, s.Standing(), next);
    }

    method VisitAgent(s: AgentState, agent: AgentName) returns (next: AgentName)
      requires At(s, agent) && IsAgent(agent)
      modifies s, `calls
      ensures s.Capped() && At(s, next) && s.visitedNodes == old(s.visitedNodes) + [agent]
      ensures s.answer == None && s.activeAsset == old(s.activeAsset)
      ensures s.Held(calls) == After(tool, old(s.Held(calls)), agent)
    {
      ghost var p := s.Standing();
      RunAgent(s, agent);
      next := FollowAgent(s);
      AgentMoves(route, p, agent, s.Standing(), next);
    }

    method VisitFinalizer(s: AgentState) returns (next: AgentName)
      requires At(s, Finalizer)
      modifies s
      ensures old(s.Capped()) ==> s.Capped()
      ensures next == End && At(s, End) && Answered(s) && s.visitedNodes == old(s.visitedNodes) + [Finalizer]
      ensures s.Held(calls) == old(s.Held(calls)) && s.activeAsset == old(s.activeAsset)
    {
      ghost var p := s.Standing();
      RunFinalizer(s);
      next := End;
      FinalizerMoves(route, p, s.Standing());
    }

    /** One node of the graph, and the edge out of it. */
    method Visit(s: AgentState, node: AgentName) returns (next: AgentName)
      requires At(s, node) && node != End && (node == Finalizer ==> s.Capped())
      modifies s, `calls
      ensures s.Capped() && At(s, next) && s.visitedNodes == old(s.visitedNodes) + [node]
      ensures s.answer == None || Answered(s)
      ensures s.Held(calls) == After(tool, old(s.Held(calls)), node)
      ensures s.activeAsset == if node == AgentName.Supervisor && old(s.visitedNodes) == [] && s.maxTransitions > 1 && old(s.activeAsset) == ""
                               then mentioned else old(s.activeAsset)
    {
      if node == AgentName.Supervisor {
        next := VisitSupervisor(s);
      } else if node == Finalizer {
        next := VisitFinalizer(s);
      } else {
        StopOf(route, s.transitionCount / 2);
        next := VisitAgent(s, node);
      }
    }

    /** The loop of `ainvoke`: visit nodes until the graph ends or the limit is reached. */
    method RunLoop(s: AgentState, limit: int) returns (current: AgentName)
      requires At(s, AgentName.Supervisor) && s.transitionCount == 0
      modifies s, `calls
      ensures At(s, current) && Worked(s, old(s.Held(calls))) && Named(s, old(s.activeAsset))
      ensures s.transitionCount == 0 || (s.transitionCount <= limit && s.Capped())
      ensures current == End || s.transitionCount >= limit
      ensures s.answer == None || Answered(s)
    {
      current := AgentName.Supervisor;
      ghost var held0 := s.Held(calls);
      while current != End && s.transitionCount < limit
        invariant At(s, current) && Worked(s, held0) && Named(s, old(s.activeAsset))
        invariant s.transitionCount == 0 || (s.transitionCount <= limit && s.Capped())
        invariant s.answer == None || Answered(s)
        decreases limit - s.transitionCount
      {
        AfterOneMore(tool, held0, s.visitedNodes, current);
        AssetStep(old(s.activeAsset), mentioned, s.maxTransitions, s.visitedNodes, current);
        current := Visit(s, current);
      }
    }

    /** From a fresh state a run visits exactly `Outcome`, answers iff the finalizer ran, and holds what those nodes leave. */
    method Ainvoke(s: AgentState, limit: int)
      requires s.Valid() && s.transitionCount == 0 && s.maxTransitions >= 1
      requires s.routePlan == [] && s.nextRoute == None && !s.terminal && s.answer == None && s.errors == []
      modifies s, `calls
      ensures s.Valid() && s.visitedNodes == Outcome(route, s.maxTransitions, limit)
      ensures s.answer.Some? <==> Answers(route, s.maxTransitions, limit)
      ensures s.answer.Some? ==> Tells(s.answer.value, s.Gathered())
      ensures limit >= 1 ==> s.Capped()
      ensures Worked(s, old(s.Held(calls))) && Named(s, old(s.activeAsset)) && Accounted(s, old(calls))
    {
      ghost var held0 := s.Held(calls);
      var current := RunLoop(s, limit);
      RunEnds(route, s.Standing(), current, limit);
      if current != End && !s.terminal {
        AfterOneMore(tool, held0, s.visitedNodes, Finalizer);
        AssetStep(old(s.activeAsset), mentioned, s.maxTransitions, s.visitedNodes, Finalizer);
        RunFinalizer(s);
      }
      WorkAccount(tool, held0, s.visitedNodes);
    }
  }

  // ---------------------------------------------------------------- the service facade

  datatype Request = Request(query: string, asset: string, maxTransitions: int, telemetryHistory: seq<string>, includeDebugTrace: bool)

  datatype Response = Response(answer: Answer, routeTaken: seq<AgentName>, trace: seq<TraceStep>, errors: seq<AgentError>)

  /** The executor's limit: three times the budget, and at least 30. */
  function RecursionLimit(maxTransitions: int): (limit: int)
    ensures limit >= 30 && limit >= 3 * maxTransitions && (limit == 30 || limit == 3 * maxTransitions)
  {
    if maxTransitions * 3 > 30 then maxTransitions * 3 else 30
  }

  function NumberedFrom1(nodes: seq<AgentName>): seq<TraceStep> {
    seq(|nodes|, i requires 0 <= i < |nodes| => TraceStep(nodes[i], i + 1))
  }

  predicate Mentions(a: Answer, p: AnswerPart) {
    a.Summary? && p in a.parts
  }

  /** What a response must say, from the request, the route taken and the tools: the errors of the visits that failed and,
      if it answers, exactly what was asked about, found and computed, each kind once and in its place. */
  ghost predicate Reports(asset: string, tool: Tools, r: Response) {
    var route := r.routeTaken;
    && r.errors == Errors(tool, route)
    && (r.answer != NotGenerated ==>
         && (r.answer.Summary? ==>
              r.answer.parts != [] && forall i, j :: 0 <= i < j < |r.answer.parts| ==> Place(r.answer.parts[i]) < Place(r.answer.parts[j]))
         && (forall x :: Mentions(r.answer, Asset(x)) <==> x == asset != "")
         && (forall n :: Mentions(r.answer, ContextBlocks(n)) <==> n == AtMost(|Items(Gained(tool, route, Retrieval))|, 8) > 0)
         && (forall n :: Mentions(r.answer, GraphNodes(n)) <==> n == AtMost(|Items(Gained(tool, route, Knowledge))|, 50) > 0)
         && (Mentions(r.answer, HasPrediction) <==> Gained(tool, route, Prediction).Some?)
         && (Mentions(r.answer, HasExplanation) <==> Items(Gained(tool, route, Explanation)) != [])
         && (Mentions(r.answer, HasDecision) <==> Items(Gained(tool, route, Decision)) != [])
         && (forall n :: Mentions(r.answer, RecoveredErrors(n)) <==> n == |r.errors| > 0))
  }

  /** Evidence that the visited agents leave is reported so. */
  lemma WorkReported(asset: string, tool: Tools, h: Holdings, r: Response)
    requires h == AfterAll(tool, NOTHING, r.routeTaken) && r.errors == h.errors
    requires r.answer != NotGenerated ==> Tells(r.answer, EvidenceOf(asset, h))
    ensures Reports(asset, tool, r)
  {
    AfterAllYields(tool, r.routeTaken);
    YieldEvidence(asset, tool, r.routeTaken, h);
    if r.answer != NotGenerated {
      ToldIsMentioned(r.answer, EvidenceOf(asset, h));
    }
  }

  lemma YieldEvidence(asset: string, tool: Tools, route: seq<AgentName>, h: Holdings)
    requires h == Yield(tool, route)
    ensures h.errors == Errors(tool, route)
    ensures EvidenceOf(asset, h) ==
            Evidence(asset, AtMost(|Items(Gained(tool, route, Retrieval))|, 8), AtMost(|Items(Gained(tool, route, Knowledge))|, 50),
                     Gained(tool, route, Prediction).Some?, Items(Gained(tool, route, Explanation)) != [],
                     Items(Gained(tool, route, Decision)) != [], |Errors(tool, route)|)
  {
  }

  lemma ToldIsMentioned(a: Answer, e: Evidence)
    requires Tells(a, e)
    ensures a.Summary? ==> a.parts != [] && forall i, j :: 0 <= i < j < |a.parts| ==> Place(a.parts[i]) < Place(a.parts[j])
    ensures forall x :: Mentions(a, Asset(x)) <==> x == e.asset != ""
    ensures forall n :: Mentions(a, ContextBlocks(n)) <==> n == e.contextBlocks > 0
    ensures forall n :: Mentions(a, GraphNodes(n)) <==> n == e.graphNodes > 0
    ensures Mentions(a, HasPrediction) <==> e.predicted
    ensures Mentions(a, HasExplanation) <==> e.explained
    ensures Mentions(a, HasDecision) <==> e.decided
    ensures forall n :: Mentions(a, RecoveredErrors(n)) <==> n == e.errors > 0
  {
    assert forall p :: Mentions(a, p) <==> Supports(e, p);
  }

  /** The run behind a request: its final state, and what the nodes visited left in it. */
  method RunRequest(request: Request, plan: Plan, mentioned: string, tool: Tools, fallbackHistory: seq<string>)
    returns (answer: Answer, visited: seq<AgentName>, trace: seq<TraceStep>, errors: seq<AgentError>, ghost held: Holdings)
    requires 3 <= request.maxTransitions <= 50
    ensures visited == Outcome(plan, request.maxTransitions, RecursionLimit(request.maxTransitions)) && trace == NumberedFrom1(visited)
    ensures answer != NotGenerated <==> Answers(plan, request.maxTransitions, RecursionLimit(request.maxTransitions))
    ensures held == AfterAll(tool, NOTHING, visited) && errors == held.errors
    ensures answer != NotGenerated ==> Tells(answer, EvidenceOf(if request.asset != "" then request.asset else mentioned, held))
  {
    var s := new AgentState.FromRequest(request.query, request.asset, request.maxTransitions, request.telemetryHistory);
    var nodes := new AgentNodes(plan, mentioned, tool, fallbackHistory);
    nodes.Ainvoke(s, RecursionLimit(request.maxTransitions));
    FirstIsSupervisor(plan, request.maxTransitions, RecursionLimit(request.maxTransitions));
    s.TraceNumbered();
    answer, visited, trace, errors := if s.answer.Some? then s.answer.value else NotGenerated, s.visitedNodes, s.trace, s.errors;
    held := s.Held(nodes.calls);
  }

  /** One request, answered by what the visited agents returned or by the default text. Requests carry 3 to 50 transitions. */
  method Execute(request: Request, plan: Plan, mentioned: string, tool: Tools, fallbackHistory: seq<string>)
    returns (r: Response)
    requires 3 <= request.maxTransitions <= 50
    ensures var budget := request.maxTransitions;
            && r.routeTaken == Outcome(plan, budget, RecursionLimit(budget))
            && (r.answer == NotGenerated <==> budget % 2 == 1 && budget < 2 * |plan|)
    ensures r.trace == if request.includeDebugTrace then NumberedFrom1(r.routeTaken) else []
    ensures Reports(if request.asset != "" then request.asset else mentioned, tool, r)
    ensures |r.errors| <= |Filter(IsAgent, r.routeTaken)|
  {
    var answer, visited, trace, errors;
    ghost var held;
    answer, visited, trace, errors, held := RunRequest(request, plan, mentioned, tool, fallbackHistory);
    r := Response(answer, visited, if request.includeDebugTrace then trace else [], errors);
    WorkReported(if request.asset != "" then request.asset else mentioned, tool, held, r);
    WorkAccount(tool, NOTHING, visited);
  }

  /** With the default budget of 15 every plan is carried out to its finalizer. */
  lemma DefaultBudgetCompletes(k: Keywords)
    ensures var plan := PlanRoute(k);
            Outcome(plan, 15, RecursionLimit(15)) == Alternate(plan, 2 * |plan|) && Answers(plan, 15, RecursionLimit(15))
  {
  }

  /** A larger budget can cost the answer: the six-stop plan answers within 10 transitions but not within 11. */
  lemma BudgetNotMonotone(k: Keywords)
    requires k.diagnostic
    ensures var plan := PlanRoute(k);
            Answers(plan, 10, RecursionLimit(10)) && !Answers(plan, 11, RecursionLimit(11))
  {
  }
}
