/** The closed form of a run: every node it visits, from its plan, its budget and the executor's limit alone. */
module AgentRuns {
  import opened Lists
  import opened Agents

  // ---------------------------------------------------------------- the closed form of a run

  /** The first `n` nodes of a run that is never cut short: the supervisor before each stop of the plan. */
  function Alternate(plan: seq<AgentName>, n: nat): (r: seq<AgentName>)
    requires n <= 2 * |plan|
    ensures |r| == n
  {
    seq(n, i requires 0 <= i < n => if i % 2 == 0 then Supervisor else plan[i / 2])
  }

  lemma AlternateStep(plan: seq<AgentName>, n: nat)
    requires n < 2 * |plan|
    ensures Alternate(plan, n + 1) == Alternate(plan, n) + [if n % 2 == 0 then Supervisor else plan[n / 2]]
  {
  }

  /** How many nodes a run visits before its plan, its budget or its limit is used up. */
  function Steps(plan: seq<AgentName>, budget: nat, limit: int): (n: nat)
    ensures n <= 2 * |plan|
  {
    var cap := if limit < 0 then 0 else if limit < budget then limit else budget;
    if 2 * |plan| <= cap then 2 * |plan| else cap
  }

  /** A run cut short still reaches the finalizer if the limit cuts it before the budget does,
      or if the budget runs out on an agent and the limit leaves room for one node more. */
  predicate Rescued(budget: nat, limit: int) {
    limit < budget || (limit > budget && budget % 2 == 0)
  }

  /** Every node a run visits, from the plan, the budget and the limit alone. */
  function Outcome(plan: seq<AgentName>, budget: nat, limit: int): seq<AgentName> {
    var n := Steps(plan, budget, limit);
    Alternate(plan, n) + if n < 2 * |plan| && Rescued(budget, limit) then [Finalizer] else []
  }

  /** When a run answers: its plan fits the budget and the limit, or it is rescued. */
  predicate Answers(plan: seq<AgentName>, budget: nat, limit: int) {
    if limit < budget then true
    else if limit == budget then budget >= 2 * |plan|
    else budget % 2 == 0 || budget >= 2 * |plan|
  }

  /** The finalizer runs exactly once or not at all, and `Answers` says which. */
  lemma FinalizerVisits(plan: seq<AgentName>, budget: nat, limit: int)
    requires IsPlan(plan)
    ensures Finalizer in Outcome(plan, budget, limit) <==> Answers(plan, budget, limit)
    ensures Answers(plan, budget, limit) ==> Last(Outcome(plan, budget, limit)) == Finalizer
    ensures var visited := Outcome(plan, budget, limit);
            forall i, j :: 0 <= i < j < |visited| ==> visited[i] != Finalizer || visited[j] != Finalizer
  {
    var n := Steps(plan, budget, limit);
    var r := Alternate(plan, n);
    forall i | 0 <= i < n
      ensures r[i] == Finalizer <==> i == 2 * |plan| - 1
    {
      if i % 2 == 1 && i / 2 < |plan| - 1 {
        assert plan[i / 2] in Init(plan);
      }
    }
    var visited := Outcome(plan, budget, limit);
    assert Answers(plan, budget, limit) ==> visited != [] && visited[|visited| - 1] == Finalizer;
  }

  /** How each way of stopping after `n` nodes within the limit shows in the closed form. */
  lemma StopShape(plan: Plan, budget: nat, limit: int, n: nat)
    requires n <= 2 * |plan| && (n == 0 || n <= limit) && budget >= 1
    ensures n == 2 * |plan| <= budget ==> Outcome(plan, budget, limit) == Alternate(plan, n) && Answers(plan, budget, limit)
    ensures n == budget + 1 && budget % 2 == 0 ==>
              Outcome(plan, budget, limit) == Alternate(plan, n - 1) + [Finalizer] && Answers(plan, budget, limit)
    ensures n == budget < 2 * |plan| && (budget % 2 == 1 || n == limit) ==>
              Outcome(plan, budget, limit) == Alternate(plan, n) && !Answers(plan, budget, limit)
    ensures limit <= n < budget && n < 2 * |plan| ==>
              Outcome(plan, budget, limit) == Alternate(plan, n) + [Finalizer] && Answers(plan, budget, limit)
  {
  }

  // ---------------------------------------------------------------- where a run stands

  /** What steers a run: the nodes visited, the budget, the stop handed out and the stops left. */
  datatype Progress = Progress(visited: seq<AgentName>, budget: int, terminal: bool, nextRoute: Option<AgentName>,
                               rest: seq<AgentName>, answered: bool)

  /** `current` is the node to visit next. A budget spent by an agent leaves the finalizer to come. */
  ghost predicate OnRoute(plan: Plan, p: Progress, current: AgentName) {
    var n := |p.visited|;
    && p.budget >= 1
    && if current == End then p.terminal && Ended(plan, p)
       else
         && n < 2 * |plan| && !p.answered && p.visited == Alternate(plan, n)
         && if p.terminal then current == Finalizer && n == p.budget && n % 2 == 0
            else n < p.budget && p.nextRoute == None && Underway(plan, p, current)
  }

  /** Mid-plan: the supervisor is due, or the stop it just handed out. */
  ghost predicate Underway(plan: Plan, p: Progress, current: AgentName)
    requires |p.visited| < 2 * |plan|
  {
    var n := |p.visited|;
    if n % 2 == 0
    then current == Supervisor && p.rest == if n == 0 then [] else plan[n / 2..]
    else current == plan[n / 2] && p.rest == plan[n / 2 + 1..]
  }

  /** The three ways a run ends by itself: plan completed, finalizer after the last agent, budget spent. */
  ghost predicate Ended(plan: Plan, p: Progress) {
    var n := |p.visited|;
    || (n == 2 * |plan| <= p.budget && p.visited == Alternate(plan, n) && p.answered)
    || (n == p.budget + 1 <= 2 * |plan| && p.budget % 2 == 0 && p.visited == Alternate(plan, n - 1) + [Finalizer] && p.answered)
    || (n == p.budget < 2 * |plan| && p.budget % 2 == 1 && p.visited == Alternate(plan, n) && !p.answered)
  }

  /** The supervisor hands out the first stop left, or ends the run. */
  lemma SupervisorMoves(plan: Plan, p: Progress, q: Progress, next: AgentName)
    requires OnRoute(plan, p, Supervisor)
    requires q.visited == p.visited + [Supervisor] && q.budget == p.budget && q.answered == p.answered
    requires q.terminal == (p.terminal || |q.visited| >= q.budget)
    requires q.terminal ==> next == End
    requires !q.terminal ==>
               var stops := if p.rest == [] then plan else p.rest;
               q.nextRoute == None && next == stops[0] && q.rest == stops[1..]
    ensures OnRoute(plan, q, next) && !q.answered
  {
    var n := |p.visited|;
    AlternateStep(plan, n);
    StopOf(plan, n / 2);
    assert n % 2 == 0 && !p.terminal && n < p.budget;
    var k := n / 2;
    assert (n + 1) % 2 == 1 && (n + 1) / 2 == k;
    assert (if p.rest == [] then plan else p.rest) == plan[k..];
  }

  /** An agent gives way to the supervisor, or to the finalizer once the budget is spent. */
  lemma AgentMoves(plan: Plan, p: Progress, agent: AgentName, q: Progress, next: AgentName)
    requires OnRoute(plan, p, agent) && IsAgent(agent)
    requires q == p.(visited := p.visited + [agent], terminal := p.terminal || |q.visited| >= p.budget)
    requires next == if |q.visited| >= q.budget then Finalizer else Supervisor
    ensures OnRoute(plan, q, next)
  {
    AlternateStep(plan, |p.visited|);
    StopOf(plan, |p.visited| / 2);
  }

  lemma FinalizerMoves(plan: Plan, p: Progress, q: Progress)
    requires OnRoute(plan, p, Finalizer)
    requires q.visited == p.visited + [Finalizer] && q.budget == p.budget && q.terminal && q.answered
    ensures OnRoute(plan, q, End)
  {
    AlternateStep(plan, |p.visited|);
    StopOf(plan, |p.visited| / 2);
  }

  /** Where a run stands when the executor stops, with the finalizer it then adds, is its closed form. */
  lemma RunEnds(plan: Plan, p: Progress, current: AgentName, limit: int)
    requires OnRoute(plan, p, current)
    requires p.visited == [] || |p.visited| <= limit
    requires current == End || |p.visited| >= limit
    ensures var finalize := current != End && !p.terminal;
            && p.visited + (if finalize then [Finalizer] else []) == Outcome(plan, p.budget, limit)
            && (Answers(plan, p.budget, limit) <==> finalize || p.answered)
  {
    StopShape(plan, p.budget, limit, |p.visited|);
    if p.answered {
      assert Answers(plan, p.budget, limit);
    }
    assert p.visited + [] == p.visited;
  }

  /** Only the first visit of the supervisor finds no stops left, and so plans. */
  lemma PlannedOnce(plan: Plan, p: Progress)
    requires OnRoute(plan, p, Supervisor)
    ensures (p.rest == [] <==> p.visited == []) && !p.terminal && |p.visited| < p.budget
  {
    StopOf(plan, |p.visited| / 2);
  }

  /** A run within its budget and limit starts with the supervisor. */
  lemma FirstIsSupervisor(plan: Plan, budget: nat, limit: int)
    requires budget >= 1 && limit >= 1
    ensures Outcome(plan, budget, limit) != [] && Outcome(plan, budget, limit)[0] == Supervisor
  {
  }
}
