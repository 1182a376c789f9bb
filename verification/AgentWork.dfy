/** What the visited agents leave behind: tool calls, errors and results, from the nodes visited and the tools alone. */
module AgentWork {
  import opened Lists
  import opened Agents

  /** The outcome of the n-th tool call of a run, by agent. */
  type Tools = (AgentName, nat) -> ToolOutcome

  // ---------------------------------------------------------------- node by node

  /** The tool calls made so far, the errors recorded and the results held. */
  datatype Holdings = Holdings(calls: nat, errors: seq<AgentError>, chunks: seq<string>, nodes: seq<string>, edges: seq<string>,
                               prediction: Option<ToolResult>, explanation: Option<ToolResult>, decision: Option<ToolResult>)

  const NOTHING := Holdings(0, [], [], [], [], None, None, None)

  function Keep(h: Holdings, agent: AgentName, r: ToolResult): Holdings {
    match agent
    case Retrieval => h.(chunks := r.items)
    case Knowledge => h.(nodes := r.items, edges := r.links)
    case Prediction => h.(prediction := Some(r))
    case Explanation => h.(explanation := Some(r))
    case Decision => h.(decision := Some(r))
    case _ => h
  }

  /** One call of the tool, and a second one if the first raises. */
  function Use(tool: Tools, h: Holdings, agent: AgentName): Holdings {
    match tool(agent, h.calls)
    case Returned(r) => Keep(h.(calls := h.calls + 1), agent, r)
    case Raised(_) =>
      var h' := h.(calls := h.calls + 2);
      match tool(agent, h.calls + 1)
      case Returned(r) => Keep(h', agent, r)
      case Raised(failure) => h'.(errors := h.errors + [AgentError(agent, failure, 1, false)])
  }

  function Cut(h: Holdings): Holdings {
    h.(chunks := FirstN(h.chunks, 8), nodes := FirstN(h.nodes, 50), edges := FirstN(h.edges, 75))
  }

  function After(tool: Tools, h: Holdings, node: AgentName): Holdings {
    if IsAgent(node) then Cut(Use(tool, h, node)) else if node == Supervisor then Cut(h) else h
  }

  function AfterAll(tool: Tools, h: Holdings, route: seq<AgentName>): Holdings {
    if route == [] then h else After(tool, AfterAll(tool, h, Init(route)), Last(route))
  }

  lemma AfterOneMore(tool: Tools, h: Holdings, route: seq<AgentName>, node: AgentName)
    ensures AfterAll(tool, h, route + [node]) == After(tool, AfterAll(tool, h, route), node)
  {
    assert Init(route + [node]) == route && Last(route + [node]) == node;
  }

  /** One or two calls for every agent visited, an error only after two. */
  lemma {:induction false} WorkAccount(tool: Tools, h: Holdings, route: seq<AgentName>)
    ensures var visits, h' := |Filter(IsAgent, route)|, AfterAll(tool, h, route);
            && h.calls + visits <= h'.calls <= h.calls + 2 * visits
            && |h.errors| <= |h'.errors| <= |h.errors| + (h'.calls - h.calls - visits)
  {
    if route != [] {
      WorkAccount(tool, h, Init(route));
      NodeAccount(tool, AfterAll(tool, h, Init(route)), Last(route));
    }
  }

  lemma NodeAccount(tool: Tools, h: Holdings, node: AgentName)
    ensures var h' := After(tool, h, node);
            if IsAgent(node) then
              || (h'.calls == h.calls + 1 && h'.errors == h.errors)
              || (h'.calls == h.calls + 2 && |h.errors| <= |h'.errors| <= |h.errors| + 1)
            else h'.calls == h.calls && h'.errors == h.errors
  {
  }

  /** The asset of a run: that of the request, or else that of the query once the supervisor has planned. */
  function AssetAfter(asset0: string, mentioned: string, budget: int, visited: seq<AgentName>): string {
    if visited != [] && visited[0] == Supervisor && budget > 1 && asset0 == "" then mentioned else asset0
  }

  lemma AssetStep(asset0: string, mentioned: string, budget: int, visited: seq<AgentName>, node: AgentName)
    ensures var asset := AssetAfter(asset0, mentioned, budget, visited);
            AssetAfter(asset0, mentioned, budget, visited + [node]) ==
            if node == Supervisor && visited == [] && budget > 1 && asset == "" then mentioned else asset
  {
    assert visited != [] ==> (visited + [node])[0] == visited[0];
  }

  /** What an answer can draw on. */
  function EvidenceOf(asset: string, h: Holdings): Evidence {
    Evidence(asset, |h.chunks|, |h.nodes|, h.prediction.Some?, h.explanation.Some? && h.explanation.value.items != [],
             h.decision.Some? && h.decision.value.items != [], |h.errors|)
  }

  // ---------------------------------------------------------------- visit by visit

  /** The tool calls made on a route. */
  function Calls(tool: Tools, route: seq<AgentName>): nat {
    if route == [] then 0
    else
      var before := Calls(tool, Init(route));
      if !IsAgent(Last(route)) then before else if tool(Last(route), before).Raised? then before + 2 else before + 1
  }

  /** What the tool of the agent visited at position `i` returned, at its first or its second call. */
  function VisitResult(tool: Tools, route: seq<AgentName>, i: nat): Option<ToolResult>
    requires i < |route|
  {
    var c := Calls(tool, route[..i]);
    match tool(route[i], c)
    case Returned(r) => Some(r)
    case Raised(_) =>
      match tool(route[i], c + 1)
      case Returned(r) => Some(r)
      case Raised(_) => None
  }

  /** What the last visit of an agent that succeeded returned. */
  function Gained(tool: Tools, route: seq<AgentName>, agent: AgentName): Option<ToolResult> {
    if route == [] then None
    else if Last(route) == agent && VisitResult(tool, route, |route| - 1).Some? then VisitResult(tool, route, |route| - 1)
    else Gained(tool, Init(route), agent)
  }

  /** Visit `i` is the last one of the agent that succeeded. */
  ghost predicate LastSuccess(tool: Tools, route: seq<AgentName>, agent: AgentName, i: nat) {
    && i < |route| && route[i] == agent && VisitResult(tool, route, i).Some?
    && forall j :: i < j < |route| && route[j] == agent ==> VisitResult(tool, route, j) == None
  }

  lemma VisitStays(tool: Tools, front: seq<AgentName>, route: seq<AgentName>, i: nat)
    requires i < |front| && front <= route
    ensures VisitResult(tool, front, i) == VisitResult(tool, route, i)
  {
    assert front[..i] == route[..i] && front[i] == route[i];
  }

  /** A result that is held was returned by the last visit that succeeded, */
  lemma {:induction false} GainedFrom(tool: Tools, route: seq<AgentName>, agent: AgentName) returns (i: nat)
    requires Gained(tool, route, agent).Some?
    ensures LastSuccess(tool, route, agent, i) && Gained(tool, route, agent) == VisitResult(tool, route, i)
  {
    var front, n := Init(route), |route| - 1;
    i := n;
    if route[n] != agent || VisitResult(tool, route, n) == None {
      i := GainedFrom(tool, front, agent);
      StillLast(tool, front, route, agent, i);
    }
  }

  lemma StillLast(tool: Tools, front: seq<AgentName>, route: seq<AgentName>, agent: AgentName, i: nat)
    requires route != [] && front == Init(route) && LastSuccess(tool, front, agent, i)
    requires Last(route) != agent || VisitResult(tool, route, |route| - 1) == None
    ensures LastSuccess(tool, route, agent, i) && VisitResult(tool, route, i) == VisitResult(tool, front, i)
  {
    VisitStays(tool, front, route, i);
    forall j | i < j < |route| && route[j] == agent
      ensures VisitResult(tool, route, j) == None
    {
      if j < |front| {
        VisitStays(tool, front, route, j);
        assert front[j] == route[j];
      }
    }
  }

  /** and one is held as soon as a visit succeeds. */
  lemma {:induction false} SuccessGains(tool: Tools, route: seq<AgentName>, agent: AgentName, i: nat)
    requires i < |route| && route[i] == agent && VisitResult(tool, route, i).Some?
    ensures Gained(tool, route, agent).Some?
  {
    var front := Init(route);
    if i < |front| {
      VisitStays(tool, front, route, i);
      assert front[i] == agent;
      SuccessGains(tool, front, agent, i);
    }
  }

  lemma GainedIff(tool: Tools, route: seq<AgentName>, agent: AgentName)
    ensures Gained(tool, route, agent).Some? <==> exists i :: 0 <= i < |route| && route[i] == agent && VisitResult(tool, route, i).Some?
  {
    if Gained(tool, route, agent).Some? {
      var i := GainedFrom(tool, route, agent);
    }
    if i :| 0 <= i < |route| && route[i] == agent && VisitResult(tool, route, i).Some? {
      SuccessGains(tool, route, agent, i);
    }
  }

  /** The error recorded by the visit at position `i`, whose two calls raise. */
  ghost predicate FailsAt(tool: Tools, route: seq<AgentName>, i: nat, e: AgentError) {
    && i < |route| && IsAgent(route[i]) && VisitResult(tool, route, i) == None
    && e == AgentError(route[i], tool(route[i], Calls(tool, route[..i]) + 1).failure, 1, false)
  }

  /** The errors of a route, in the order of its visits. */
  function Errors(tool: Tools, route: seq<AgentName>): seq<AgentError> {
    if route == [] then []
    else if IsAgent(Last(route)) && VisitResult(tool, route, |route| - 1) == None then
      Errors(tool, Init(route)) + [AgentError(Last(route), tool(Last(route), Calls(tool, Init(route)) + 1).failure, 1, false)]
    else Errors(tool, Init(route))
  }

  /** There is an error exactly for every visit that fails. */
  lemma {:induction false} ErrorsAre(tool: Tools, route: seq<AgentName>, e: AgentError)
    ensures e in Errors(tool, route) <==> exists i: nat :: FailsAt(tool, route, i, e)
  {
    if route != [] {
      var front, n := Init(route), |route| - 1;
      ErrorsAre(tool, front, e);
      assert route[..n] == front;
      forall i: nat | i < n
        ensures FailsAt(tool, front, i, e) <==> FailsAt(tool, route, i, e)
      {
        assert front[..i] == route[..i];
      }
      if i: nat :| FailsAt(tool, route, i, e) {
        assert i < n ==> FailsAt(tool, front, i, e);
      }
      if i: nat :| FailsAt(tool, front, i, e) {
        assert FailsAt(tool, route, i, e);
      }
      if FailsAt(tool, route, n, e) {
        assert e in Errors(tool, route);
      }
    }
  }

  // ---------------------------------------------------------------- the two agree

  function Items(r: Option<ToolResult>): seq<string> {
    if r.Some? then r.value.items else []
  }

  function Links(r: Option<ToolResult>): seq<string> {
    if r.Some? then r.value.links else []
  }

  /** What is held with the given calls, errors and results. */
  function Holding(calls: nat, errors: seq<AgentError>, gained: AgentName -> Option<ToolResult>): Holdings {
    Holdings(calls, errors, FirstN(Items(gained(Retrieval)), 8), FirstN(Items(gained(Knowledge)), 50),
             FirstN(Links(gained(Knowledge)), 75), gained(Prediction), gained(Explanation), gained(Decision))
  }

  /** What a route leaves, visit by visit. */
  function Yield(tool: Tools, route: seq<AgentName>): Holdings {
    Holding(Calls(tool, route), Errors(tool, route), (agent: AgentName) => Gained(tool, route, agent))
  }

  lemma HoldingKeeps(calls: nat, errors: seq<AgentError>, gained: AgentName -> Option<ToolResult>, gained': AgentName -> Option<ToolResult>,
                     node: AgentName, result: Option<ToolResult>)
    requires IsAgent(node) && forall agent :: gained'(agent) == if agent == node && result.Some? then result else gained(agent)
    ensures var h := Holding(calls, errors, gained);
            Holding(calls, errors, gained') == Cut(if result.Some? then Keep(h, node, result.value) else h)
  {
  }

  lemma {:induction false} AfterAllYields(tool: Tools, route: seq<AgentName>)
    ensures AfterAll(tool, NOTHING, route) == Yield(tool, route)
  {
    if route != [] {
      AfterAllYields(tool, Init(route));
      assert route[..|route| - 1] == Init(route);
      YieldStep(tool, Init(route), Last(route), route);
    }
  }

  lemma YieldStep(tool: Tools, front: seq<AgentName>, node: AgentName, route: seq<AgentName>)
    requires route == front + [node]
    ensures Yield(tool, route) == After(tool, Yield(tool, front), node)
  {
    assert Init(route) == front && Last(route) == node && route[..|front|] == front;
    if IsAgent(node) {
      OutcomeYields(tool, front, node, route);
    }
  }

  /** The outcome of one more visit decides what is added. */
  lemma OutcomeYields(tool: Tools, front: seq<AgentName>, node: AgentName, route: seq<AgentName>)
    requires route != [] && Init(route) == front && Last(route) == node && route[..|route| - 1] == front && IsAgent(node)
    ensures Yield(tool, route) == Cut(Use(tool, Yield(tool, front), node))
  {
    var c, result := Calls(tool, front), VisitResult(tool, route, |route| - 1);
    var gained, gained' := (agent: AgentName) => Gained(tool, front, agent), (agent: AgentName) => Gained(tool, route, agent);
    assert Errors(tool, route) ==
           Errors(tool, front) + if result == None then [AgentError(node, tool(node, c + 1).failure, 1, false)] else [];
    HoldingKeeps(Calls(tool, route), Errors(tool, route), gained, gained', node, result);
    UseKeeps(tool, Yield(tool, front), node, result);
  }

  /** The same, from the result. */
  lemma UseKeeps(tool: Tools, h: Holdings, agent: AgentName, result: Option<ToolResult>)
    requires IsAgent(agent)
    requires result == match tool(agent, h.calls)
                       case Returned(r) => Some(r)
                       case Raised(_) => match tool(agent, h.calls + 1) case Returned(r) => Some(r) case Raised(_) => None
    ensures var h' := h.(calls := if tool(agent, h.calls).Raised? then h.calls + 2 else h.calls + 1);
            Use(tool, h, agent) ==
            if result.Some? then Keep(h', agent, result.value)
            else h'.(errors := h.errors + [AgentError(agent, tool(agent, h.calls + 1).failure, 1, false)])
  {
  }
}
