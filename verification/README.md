# A verified model of the IOB AI Intelligence Platform

The platform answers maintenance questions about industrial assets. Documents are cut into chunks, entities are
extracted and merged, chunks are embedded into a vector store; a query is routed through a team of agents, retrieved
evidence is fused, cited and turned into ranked recommendations; a gateway relays the results and keeps an alert list.
This project models the algorithms behind those steps in Dafny and proves what they guarantee over every input, every run
and every pattern of failures. `dafny verify dfyconfig.toml` checks all of it.

| files | part of the system |
|---|---|
| `Chunker`, `ChunkerProperties` | the sentence-aware sliding window: when its loop ends, the unique plan of windows it cuts, reconstruction of the sentences from the windows, sizes and overlaps |
| `Agents`, `AgentRuns`, `AgentWork`, `Orchestrator` | the supervisor/agent state machine, its transition budget, executor limit and retry ring, proved against a closed form of every run and of what the visited agents leave for the answer |
| `Fusion`, `FusionEngine`, `FusionRanking` | reciprocal-rank fusion: order, conservation of score, stable top-k; what the weighted ranking and the source marks do not keep |
| `Citations`, `CitationMeaning` | printing, scanning, resolving and auditing `[Source #n]` tags |
| `Entities`, `EntityProperties`, `EntityLevels`, `PropertyMerging`, `ValueSlots`, `PropertyLevels`, `RecordMeaning`, `Aggregation` | entity deduplication per chunk and again over all chunks, with the exact conditions under which that equals once, for ids, names and confidences and for merged properties; relationship deduplication |
| `Payloads`, `PayloadCompare`, `PayloadMeaning` | the recursive payload comparator in its two copies; what its verdict and its table mean |
| `VectorIngestion` | nested batches with failures at four points, and what repeating a run does |
| `Sops`, `SopOrder`, `Risk` | the capped group-by with two sorts, the recorded order of SOPs, and the risk arithmetic |
| `Alerts` | the lock-protected alert store over whole histories |
| `Lists`, `Sorting`, `Runs`, `Text`, `Rounding` | sequences, a stable sort, iterated steps, `strip` and `join`, `round` |

Floats are modelled by `real`. Objects that the code changes in place are classes (`AgentState`, `AgentNodes`,
`VectorIngestionPipeline`, `AlertStore`); its loops are methods with invariants, each proved against a function whose
properties are lemmas.

## Where the code differs from what is said about it

- **Chunker.** A flush does not advance, so the loop need not end. It ends exactly on the inputs that satisfy `Fits`, a
  condition checkable beforehand: no sentence is too long for the longest overlap the sentences in front of it can leave.
  With the default settings a 100-token sentence followed by a 700-token one loops for ever (`DefaultsCanHang`), and while
  it does the same chunk is appended at every turn (`StuckForever`). A flush below the minimum is dropped with its text;
  a configuration drops none, whatever the sentences of three characters or more, exactly when its minimum is within the
  overlap (`NothingLostIff`). With the accepted sizes 512, 52 and 80 a first sentence of 240 characters is lost in front of
  one of 2000 (`FirstSentenceLost`).
- **Transition budget.** A larger budget can lose the answer: the six-stop plan answers within 10 transitions and not
  within 11 (`BudgetNotMonotone`). An odd budget that is too small for the plan ends on the supervisor, which never
  reaches the finalizer. The default of 15 completes every plan.
- **Fusion.** The weighted method computes weighted scores but ranks by the unweighted sum. Its rankings are in order of
  the weighted score exactly when both weights are the same (`RankedByWeightedScoreIff`); with the default 0.6 and 0.4 a
  node of relevance 0.95 is ranked above a chunk of score 0.9 although its weighted score is lower
  (`DefaultWeightsMisrank`). A node that the graph channel alone lists twice is recorded as found by both channels; all
  marks are right exactly when the graph channel repeats no id of its own (`MarkedRightIff`, `ListedTwiceMarkedBoth`). The
  mark that citations carry is read off the scores instead; it is right exactly when what the vector channel lists has
  positive scores in every channel that lists it (`CitedRightIff`, `ZeroScoreCitedAsGraph`).
- **Entities.** Deduplicating in two levels is not always the same as once. For any alias table and any pool of entities,
  the two agree on all chunks drawn from the pool exactly when every two of its entities that share an id settle on it: the
  least of their stored names that hits the table leads to that id, and if none hits, the canonical display name does not
  lead elsewhere (`LevelsAgreeIff`). `ClashChangesId` and `ReplacedIdClash` are inputs that do not settle. Merged
  properties are documented as first-wins; they are exactly when no blank value meets a different one of a more confident
  entity (`FirstWinsIff`). The two levels can fill a key from different entities (`BlankFilledDifferently`); where they keep
  the ids, they agree on all properties exactly when no three entities of one id fill a key differently, which
  `FillsDiffer` spells out in three cases (`PropertiesAgreeIff`).
- **Ingestion.** Repeating a run does not skip every chunk that was stored: those whose id is empty, or carries white space
  that the payload model strips, are stored again, and exactly those (`RepeatUpserts`, `SpacedIdUpsertedAgain`). The key
  set never grows.
- **SOPs.** A recorded effectiveness of 0 counts as 0.75, so an SOP that never works is listed before one that works half
  of the time (`NeverEffectiveFirst`), against the documented order. The linkages are in recorded order exactly when no
  kept recorded 0 overtakes another kept one (`RecordedOrderIff`). The query counts a missing value as 0.5, the mapper as
  0.75, so the order of the query is preserved exactly when no SOP without a value, or with 0, stands behind one below 0.75
  (`ServerOrderKeptIff`, `MissingOvertakes`).
- **Citation audit.** The compliance ratio is rounded to three decimals, so it reads 1 with up to one invented tag in 2000
  (`AuditAgrees`).
- **Comparator.** Types are compared along nested mappings but not inside lists, where an integer passes for an equal float
  (`CastInsideListPasses`). A pass without volatile keys means equal values and types exactly when equal lists agree in
  type (`IdenticalIffPass`). The two copies agree on every verdict and every row, save that the gateway copy leaves the
  reason of a passing row empty.

The asset-criticality weights do what is documented of them: a bottleneck (1.5) always outranks a backup (0.85) with the
same failure profile. They do no more: weights of 1 and above all report one score, so that it ties with a partly redundant
asset (1.15) (`TierOrder`).

## Model

| member | source | states |
|---|---|---|
| Chunker.NewChunker | app/ingestion/chunker.py:51-59 | accepted exactly when the size is 512 to 1024 and the overlap 10 to 20 per cent of it; the size is checked first |
| Chunker.KeepOverlap | app/ingestion/chunker.py:99-108 | the backward loop keeps the longest suffix within the overlap budget and returns its token count |
| Chunker.BeforeKeepStart | app/ingestion/chunker.py:101-106 | a suffix of the sentences exceeds the overlap budget exactly when it starts before the kept one |
| Chunker.StepKeepsAt | app/ingestion/chunker.py:89-114 | every turn keeps: the window is a contiguous run of sentences up to `i`, its token count is their sum, and it still contains everything an overlap could keep |
| Chunker.HaltsIffFits | app/ingestion/chunker.py:89-114 | the loop consumes every sentence after some number of turns if and only if each sentence fits beside the overlap in front of it |
| Chunker.FitsRunsOut | app/ingestion/chunker.py:89-114 | from any reached state of an input that fits, the run ends, by (sentences left, length of the window) |
| Chunker.ShortSentencesFit | app/ingestion/chunker.py:93-110 | sentences of at most `chunk_tokens - overlap_tokens` tokens always fit |
| Chunker.StuckForever | app/ingestion/chunker.py:93-110 | a window within the overlap budget that the next sentence overflows repeats itself for every number of turns, appending its text each time that it reaches the minimum |
| Chunker.DefaultsCanHang | app/ingestion/chunker.py:46-48 | with the default settings a 100-token sentence and a 700-token one never finish |
| Chunker.ChunkSlidingWindow | app/ingestion/chunker.py:78-120 | returns the texts of the windows of a complete plan; without sentences, the text itself unless it is blank |
| Text.JoinSpells | app/ingestion/chunker.py:94 | the joined text reads the strings in order, one space between each two, and nothing else |
| Text.StripCuts | app/ingestion/chunker.py:94 | `strip` cuts white space off both ends and nothing else |
| ChunkerProperties.ChunkReadsWindow | app/ingestion/chunker.py:94-119 | every chunk reads the sentences of a window of the plan, in order, with a space between each two |
| ChunkerProperties.ChunkReadsItsWindow | app/ingestion/chunker.py:94-119 | where nothing is dropped, chunk k reads window k |
| ChunkerProperties.PlanUnique | app/ingestion/chunker.py:78-120 | the input determines the plan of windows |
| ChunkerProperties.RunFollowsPlan | app/ingestion/chunker.py:89-120 | every finished run of single turns returns the chunks of that plan |
| ChunkerProperties.StartsAndEndsIncrease | app/ingestion/chunker.py:97-110 | window starts and ends strictly increase, and no window starts beyond the end of its predecessor |
| ChunkerProperties.Reconstruction | app/ingestion/chunker.py:78-120 | dropping from each window its overlap with the one before and concatenating gives back exactly the sentences |
| ChunkerProperties.OverlapIsLongest | app/ingestion/chunker.py:97-107 | the overlap of a window is the longest suffix of its predecessor within the budget |
| ChunkerProperties.WindowSize | app/ingestion/chunker.py:91-93 | a window of more than one sentence never exceeds `chunk_tokens`, and each but the last is full |
| ChunkerProperties.JoinTokens | app/ingestion/chunker.py:24-27 | the text of n sentences measures at most their sum plus n - 1 tokens, and at most one less than the sum when sentences have three characters |
| ChunkerProperties.JoinTokensTight | app/ingestion/chunker.py:24-27 | the upper bound is reached for every n |
| ChunkerProperties.ChunksAreWindows | app/ingestion/chunker.py:93-119 | with sentences of three characters or more and a minimum within the overlap no flush is dropped: the chunks are exactly the joined windows |
| ChunkerProperties.NothingLostIff | app/ingestion/chunker.py:93-96 | a configuration drops no flush on any fitting input of sentences of three characters or more iff its minimum is within the overlap |
| ChunkerProperties.FirstSentenceLost | app/ingestion/chunker.py:93-96 | at sizes 512, 52 and 80 a sentence of 240 characters followed by one of 2000 is not in the result |
| Agents.PlanRoute | app/orchestration/routing.py:47-64 | every route is agents followed by one finalizer, of 2 to 6 stops |
| Agents.RouteMeans | app/orchestration/routing.py:47-64 | which agents each combination of keywords asks |
| Agents.RouteOrder | app/orchestration/routing.py:47-64 | no agent is asked twice; evidence before prediction, prediction before explanation, explanation before decision |
| Orchestrator.AgentState.AppendTrace | app/orchestration/state.py:147-157 | counter, visited nodes and trace stay in step, the i-th trace index being i |
| Orchestrator.AgentState.Compress | app/orchestration/state.py:168-178 | the pruned lists keep their first or last entries up to the caps |
| Orchestrator.AgentNodes.WithRetries | app/orchestration/utils.py:23-61 | stops at the first success; gives up after the allowed repeats with one error, and falls back if it can; says how often it called and what it recorded |
| Orchestrator.AgentNodes.Supervisor | app/orchestration/agent_nodes.py:24-41 | plans once, then hands out the next stop, or ends the run when the budget is spent |
| Orchestrator.AgentNodes.RunAgent | app/orchestration/agent_nodes.py:43-158 | each agent calls its tool once or twice, adds an error exactly when both calls fail, keeps only its own result and prunes |
| Orchestrator.AgentNodes.RunFinalizer | app/orchestration/agent_nodes.py:160-202 | always answers, and the answer tells exactly the evidence present |
| Orchestrator.AgentNodes.FollowSupervisor | app/orchestration/routing.py:67-83 | ends when terminal or out of budget, else follows the stop handed out |
| Orchestrator.AgentNodes.FollowAgent | app/orchestration/routing.py:86-92 | finalizer when the budget is spent, else supervisor |
| AgentRuns.SupervisorMoves | app/orchestration/routing.py:67-83 | a supervisor visit keeps the run on its route, whatever the budget |
| AgentRuns.AgentMoves | app/orchestration/routing.py:86-92 | an agent visit keeps the run on its route |
| AgentRuns.RunEnds | app/orchestration/topology.py:42-55 | where the executor stops, with the finalizer it may add, is the closed form of the run |
| Orchestrator.AgentNodes.RunLoop | app/orchestration/topology.py:42-52 | the loop keeps route, trace, caps and tool-call accounts in every reachable state |
| Orchestrator.AgentNodes.Ainvoke | app/orchestration/topology.py:38-56 | a run visits exactly `Outcome(plan, budget, limit)` and answers if and only if `Answers` holds; one or two tool calls per agent visit, an error only after two |
| AgentRuns.FinalizerVisits | app/orchestration/topology.py:38-56 | the finalizer runs exactly once, last, or not at all: always if the limit is below the budget, iff the plan fits if they are equal, iff the budget is even or the plan fits otherwise |
| Orchestrator.Execute | app/orchestration/service.py:18-43 | the route taken is the closed form under the service's limit; the default answer appears exactly for odd budgets too small for the plan; any other answer names the asset of the request or else of the query, tells exactly what the visited agents' tools returned, counted up to the caps, each kind once and in its place; the errors are those of the visits that failed |
| AgentWork.AfterAllYields | app/orchestration/agent_nodes.py:43-158 | what a run holds, node by node, is what the last successful visit of each agent returned, cut to the caps |
| AgentWork.GainedFrom | app/orchestration/utils.py:34-61 | a result held was returned by the last visit of its agent that succeeded |
| AgentWork.GainedIff | app/orchestration/utils.py:34-61 | a result is held iff a visit of its agent succeeded, at its first or its second call |
| AgentWork.ErrorsAre | app/orchestration/utils.py:50-58 | there is an error exactly for every visit both of whose calls raise, with the second one's exception |
| AgentWork.WorkAccount | app/orchestration/utils.py:34-61 | one or two tool calls for every agent visited, an error only after two |
| Orchestrator.DefaultBudgetCompletes | app/orchestration/state.py:100 | with 15 transitions every plan is carried out to its finalizer |
| Orchestrator.BudgetNotMonotone | app/orchestration/routing.py:47-55 | the six-stop plan answers within 10 transitions and not within 11 |
| Fusion.ReciprocalRankFusion | app/graphrag/context_fusion.py:102-107 | divides by zero exactly when a negative `k` meets a list as long as `-k`; otherwise the keys are the ids of all lists, and each score is the sum of 1/(k + rank) over the positions of the id |
| Fusion.WeightIsReciprocal | app/graphrag/context_fusion.py:86 | a rank weighs the reciprocal of k + rank |
| Fusion.PrecedingScoresNoLess | app/graphrag/context_fusion.py:76-107 | an id that precedes another wherever that one appears never scores lower, and scores higher if it appears at all |
| Fusion.TwoRanksAgainstFirst | app/graphrag/context_fusion.py:86-107 | two ranks together beat rank 1 alone iff (r1 - 1)(r2 - 1) < (k + 1)^2, and tie iff equal |
| Fusion.BothBeatsSingle | app/graphrag/context_fusion.py:236-261 | an id of both lists beats every single-list id when its ranks satisfy that bound, and otherwise loses to or ties with a rank-1 one |
| Fusion.WithinKPlusOneWins | app/graphrag/context_fusion.py:70-107 | ranks of at most k + 1 always suffice; k + 2 twice ties |
| Fusion.ScoresConserve | app/graphrag/context_fusion.py:102-107 | the scores sum to the weights of all positions, whatever repeats and overlaps the lists hold |
| FusionEngine.AddVectorHits | app/graphrag/context_fusion.py:166-182 | the records of the vector channel, in order of first appearance, the last hit winning |
| FusionEngine.AddGraphHits | app/graphrag/context_fusion.py:185-208 | what the graph channel adds and overwrites, including the source mark |
| FusionEngine.Fuse | app/graphrag/context_fusion.py:130-231 | an unknown method and a division by zero are errors; otherwise the stable descending ranking of one scored candidate per id, cut to length |
| FusionEngine.CandidateIdsDistinct | app/graphrag/context_fusion.py:163-208 | no two candidates share an id |
| FusionEngine.TopCandidates | app/graphrag/context_fusion.py:218-223 | kept candidates are distinct and descending, and nothing omitted has a higher key |
| FusionEngine.TiesKeepOrder | app/graphrag/context_fusion.py:219-223 | equal keys keep the order of first appearance |
| FusionEngine.FusedScoresConserve | app/graphrag/context_fusion.py:236-261 | the scores over the fused candidates sum to the weights of all positions of both id-filtered channels |
| FusionRanking.RankedByRrf | app/graphrag/context_fusion.py:218-223 | the default method returns candidates by descending sum of 1/(k + rank) over both channels, and leaves out none that scores higher than a returned one |
| FusionRanking.BothRankedFirst | app/graphrag/context_fusion.py:218-261 | an id of both channels comes before every single-channel id when its ranks satisfy the bound, and is returned whenever one of those is |
| FusionRanking.RankedByWeightedScoreIff | app/graphrag/context_fusion.py:211-223 | every ranking of the weighted method is in descending weighted score iff the two weights are equal |
| FusionRanking.DefaultWeightsMisrank | app/graphrag/context_fusion.py:137-138 | at the default weights a candidate of weighted score 0.38 is ranked above one of 0.54 |
| FusionRanking.WeightsDoNotRank | app/graphrag/context_fusion.py:219-223 | any two weightings rank the candidates alike |
| FusionRanking.MarkedRightIff | app/graphrag/context_fusion.py:185-208 | every returned candidate is marked with the channels that list it iff no id is repeated in the graph channel alone |
| FusionRanking.ListedTwiceMarkedBoth | app/graphrag/context_fusion.py:193-197 | a node listed twice by the graph channel and not by the other is marked as found by both |
| FusionRanking.CitedRightIff | app/graphrag/context_fusion.py:47-53 | the mark read off the scores names the channels that list each returned candidate iff what the vector channel lists has positive scores in every channel that lists it |
| FusionRanking.ZeroScoreCitedAsGraph | app/graphrag/context_fusion.py:47-53 | a chunk of score 0 is marked as found in the graph |
| Citations.TagIndexOfMake | app/graphrag/citation_engine.py:180-181 | a printed tag parses back to its index |
| Citations.MatchesNeverOverlap | app/graphrag/citation_engine.py:204-205 | leftmost scanning that skips each match finds what looking at every position finds |
| Citations.EveryOccurrenceFound | app/graphrag/citation_engine.py:204-205 | in any text exactly the digit strings written inside a tag are found |
| Citations.ScanOfRender | app/graphrag/citation_engine.py:194-213 | scanning bracket-free pieces interleaved with printed tags returns exactly those numerals in order |
| Citations.TagsOfRender | app/graphrag/citation_engine.py:194-213 | extraction from such a text gives the tags, each once, in order of first appearance |
| Citations.ExtractCitationTags | app/graphrag/citation_engine.py:206-213 | the loop with its `seen` set returns each found tag once, in order of first appearance |
| Citations.Build | app/graphrag/citation_engine.py:112-133 | the i-th candidate gets index i, its tag, the source mark read off its scores and its better score |
| Citations.BuiltTagsUnique | app/graphrag/citation_engine.py:112-133 | tags of built records coincide only for one record, and parse to its index |
| CitationMeaning.TagsPrinted | app/graphrag/citation_engine.py:180-181 | the tags of 1 and 12 as text |
| CitationMeaning.NoLeadingZero | app/graphrag/citation_engine.py:180-181 | no numeral but 0 starts with a zero |
| CitationMeaning.BuiltRecord | app/graphrag/citation_engine.py:112-133 | record i names candidate i, numbered and tagged i + 1, with the better of its scores and the channels in which it scored |
| CitationMeaning.CitationNames | app/graphrag/citation_engine.py:224-230 | citation k carries the k-th valid tag of the answer, and the number in it names the candidate cited |
| CitationMeaning.AuditSplits | app/graphrag/prompt_templates.py:186-190 | the valid tags are the found ones that a record carries, the invented ones the others, both in the order found |
| CitationMeaning.AuditRatio | app/graphrag/prompt_templates.py:196-203 | the reported ratio is that of valid to found tags up to half a thousandth, and 0 where none is found |
| Citations.ResolveCitations | app/graphrag/citation_engine.py:224-230 | one citation per valid tag of the answer, in order |
| Citations.ResolvedAreValid | app/graphrag/citation_engine.py:216-230 | the citations carry exactly the valid tags of the audit |
| Citations.MissingAreNotFound | app/graphrag/prompt_templates.py:191-194 | parsing indices out of valid tags singles out the records whose tag the answer does not contain |
| Citations.AuditAgrees | app/graphrag/prompt_templates.py:186-204 | valid and invented tags make up the found ones, cited and missing records the provenance; the reported ratio is 1 iff a tag is found and at most one in 2000 is invented |
| Citations.HonestAnswerPasses | app/graphrag/prompt_templates.py:186-204 | an answer that cites only by printed tags of the provenance has no invented tag and full compliance |
| Entities.ResolveId | app/ingestion/entity_resolver.py:107-114 | the first alias in the table decides, then the display name, then the entity's own id |
| Entities.DeduplicateEntities | app/ingestion/entity_resolver.py:100-145 | one record per canonical id in order of first appearance, merged from exactly the occurrences of that id |
| RecordMeaning.StringLeIff | app/ingestion/entity_resolver.py:128 | the order of names is the lexicographic one: a prefix, or smaller at the first difference |
| RecordMeaning.CanonicalIs | app/ingestion/entity_resolver.py:107-114 | the canonical id in terms of the alias map and the normal forms |
| RecordMeaning.RecordMeans | app/ingestion/entity_resolver.py:116-144 | a record has the canonical id, the canonical display name or else the first entity's, the highest confidence, and as aliases exactly the names of its entities in ascending order without repeats |
| RecordMeaning.DedupMeans | app/ingestion/entity_resolver.py:105-145 | record i merges exactly the entities with the i-th id in order of first appearance |
| RecordMeaning.AliasesOutOfOrder | app/ingestion/entity_resolver.py:124-128 | "Pump A" known as "CP A" is stored with aliases "CP A", "Pump A" |
| RecordMeaning.BlankIff | app/ingestion/entity_resolver.py:140 | exactly the missing value and the empty texts, lists and mappings are blank |
| EntityProperties.DedupIdsDistinct | app/ingestion/entity_resolver.py:105-145 | record ids are distinct, in order of first appearance |
| EntityProperties.RecordSketch | app/ingestion/entity_resolver.py:119-144 | a record keeps the canonical or first display name and the highest confidence of its occurrences |
| EntityLevels.LevelsAgreeIff | app/ingestion/pipeline.py:70-79 | for any table and any pool of entities, deduplicating per chunk and then globally gives the ids, display names and confidences of doing it once, in the same order, on all chunks drawn from the pool iff any two entities that share an id settle on it |
| EntityLevels.GroupResolves | app/ingestion/entity_resolver.py:107-114 | the record of a group keeps its id in a further pass iff the least of its names that hits leads there, or none hits and the canonical display name leads nowhere else |
| EntityLevels.PairsSettleGroup | app/ingestion/entity_resolver.py:119-134 | if the first entity settles with every other of a group, the group settles |
| EntityLevels.ChunkwiseIsGlobal | app/ingestion/pipeline.py:70-79 | entities none of whose stored names hit different ids settle, so the two levels agree on them |
| PropertyMerging.FirstWinsIff | app/ingestion/entity_resolver.py:137-144 | in all groups drawn from a pool each key keeps the value of its first occurrence iff no blank value meets a different one of a more confident entity with the same id |
| ValueSlots.FillsDifferIff | app/ingestion/entity_resolver.py:135-144 | three values of a key depend on which two are merged first in exactly the three cases of `FillsDiffer` |
| ValueSlots.FoldAppend | app/ingestion/entity_resolver.py:135-144 | if no three values of a pool are such a case, merging parts and then their results is merging all at once |
| PropertyLevels.RecordFolds | app/ingestion/entity_resolver.py:119-144 | a record holds for every key the merge of its entities' values |
| PropertyLevels.PropertiesAgreeIff | app/ingestion/pipeline.py:70-79 | where entities settle, two levels give the properties of one on all chunks drawn from a pool iff no three of its entities that share an id fill a key differently |
| PropertyLevels.FullyAgreeIff | app/ingestion/pipeline.py:70-79 | two levels give the ids, display names, confidences and properties of one on all chunks drawn from a pool iff its pairs settle and its triples fill alike |
| PropertyLevels.LevelsAgreeOnProperties | app/ingestion/entity_resolver.py:137-144 | in particular they agree where no value is blank |
| PropertyLevels.BlankFilledDifferently | app/ingestion/entity_resolver.py:139-141 | on three values "", "x" and "y" one level gives "y" and two levels "x" |
| EntityProperties.PassKeepsIds | app/ingestion/entity_resolver.py:107-114 | a further pass keeps every id if and only if every record resolves to its own |
| EntityLevels.ThirdPassChangesNothing | app/ingestion/entity_resolver.py:100-145 | after two passes over coherent entities a third changes nothing at all |
| EntityLevels.ClashChangesId | app/ingestion/entity_resolver.py:110-128 | names that hit different ids make the second pass choose another id than the first |
| EntityLevels.ReplacedIdClash | app/ingestion/entity_resolver.py:126-128 | so does a replaced id, although name and aliases agree |
| EntityLevels.LevelsAlwaysAgreeIff | app/ingestion/pipeline.py:70-79 | two levels equal one level on every input iff all names of the alias table lead to one id |
| EntityProperties.NoNameLost | app/ingestion/entity_resolver.py:123-134 | every alias and display name ends up among the aliases of the record it is merged into |
| EntityLevels.NoNameLostChunkwise | app/ingestion/pipeline.py:70-79 | also when chunks are deduplicated first |
| Aggregation.AggregateResults | app/ingestion/pipeline.py:70-92 | entities deduplicated over all chunks, relationships kept at their first occurrence, chunk ids in order |
| Aggregation.TriplesKeptOnce | app/ingestion/pipeline.py:80-91 | no two kept relationships share source, kind and target, and the kept ones are exactly the first with their three |
| Aggregation.TriplesInOrder | app/ingestion/pipeline.py:80-91 | they stand in order of first appearance |
| Payloads.SameReflexive | transparent_proxy.py:136-201 | a payload passes against itself |
| Payloads.SameSymmetric | transparent_proxy.py:136-201 | the verdict does not depend on the side |
| Payloads.SameTransitive | transparent_proxy.py:136-201 | the verdict is transitive over nested mappings of any depth |
| Payloads.PassIffDriftIsVolatile | transparent_proxy.py:175-187 | payloads pass iff keys and types agree along nested mappings and every field that drifts in value is volatile |
| Payloads.IdenticalIffPass | transparent_proxy.py:144-148 | payloads are equal in value and type at every depth iff they pass without volatile keys and equal lists agree in type |
| Payloads.CastInsideListPasses | transparent_proxy.py:175-184 | [1, true] and [1.0, 1] pass for each other |
| Payloads.MoreVolatileStillPasses | transparent_proxy.py:150-152 | enlarging the volatile set never turns a pass into a fail |
| Payloads.MatrixVerdict | transparent_proxy.py:158-201 | every row of the flattened table passes iff the payloads do |
| PayloadMeaning.IdenticalScalars | transparent_proxy.py:175-184 | for values that are neither lists nor mappings identity is plain equality |
| PayloadMeaning.IdenticalIsCanon | transparent_proxy.py:175-184 | identity is equality up to the order of keys, at every depth |
| PayloadMeaning.PassHoldsStrings | transparent_proxy.py:158-187 | payloads that pass without volatile keys hold the same strings |
| PayloadMeaning.TypesTellApart | transparent_proxy.py:175-178 | types agree exactly for values of one kind |
| PayloadMeaning.MatrixIsFields | transparent_proxy.py:158-200 | the rows are exactly those of the fields along nested mappings: dotted path, both values or the missing mark, their types, volatility, verdict and reason |
| PayloadMeaning.KeysInOrder | transparent_proxy.py:158-159 | rows follow the direct payload's keys and then those only the relayed one has |
| PayloadCompare.CompareRoot | transparent_proxy.py:154-201 | the loop returns that table and verdict |
| PayloadCompare.CompareGateway | iob-integration/gateway_app/transparent_proxy.py:151-186 | so does the other copy, which conjoins verdicts instead of reading rows |
| PayloadCompare.CopiesAgree | iob-integration/gateway_app/transparent_proxy.py:151-186 | the copies give one verdict, and rows that differ only in the reason of passing ones |
| PayloadCompare.ReasonsExplain | transparent_proxy.py:204-213 | a row passes iff its reason is one of the two harmless ones |
| VectorIngestion.VectorIngestionPipeline.UpsertPoints | app/vector/pipeline.py:196-209 | each sub-batch is stored whole or counted as failed: a point is stored iff the sub-batch of its position is upserted |
| VectorIngestion.SavedBatch | app/vector/pipeline.py:196-209 | position by position and sub-batch by sub-batch the same points are stored |
| VectorIngestion.EmbeddedBatch | app/vector/pipeline.py:146-158 | a batch embeds its chunks with text, or none; so a chunk counts as embedded iff it has text and the batch of its position is encoded |
| VectorIngestion.VectorIngestionPipeline.IngestBatch | app/vector/pipeline.py:147-214 | every chunk of a batch is stored, failed or blank |
| VectorIngestion.VectorIngestionPipeline.IngestChunks | app/vector/pipeline.py:112-227 | skipped, upserted, failed and blank chunks add up to those requested under every pattern of failures; embedded is at most upserted plus failed; the store changes by exactly the upserted points, which are those of every encoded batch and upserted sub-batch, in order |
| VectorIngestion.AccountsAppend | app/vector/pipeline.py:146-214 | accounts of consecutive batches add up to the account of both |
| VectorIngestion.SkippedAre | app/vector/pipeline.py:134-138 | skipped are exactly the chunks whose non-empty id the store has, when skipping is on and the lookup works; the others stay in order |
| VectorIngestion.LastStored | app/vector/pipeline.py:182-206 | the store holds under each key the last point stored under it |
| VectorIngestion.OthersKept | app/vector/pipeline.py:196-206 | and under every other key what it held |
| VectorIngestion.RepeatUpserts | app/vector/pipeline.py:135-138 | repeating a failure-free run upserts exactly the good chunks whose id the lookup cannot find, hence nothing iff every id is non-empty and stripped |
| VectorIngestion.SpacedIdUpsertedAgain | app/vector/pipeline.py:135-138 | a chunk whose id starts with a space is stored again by a repeated run |
| VectorIngestion.RepeatKeepsKeys | app/vector/pipeline.py:24-29 | repeating it, even with a failed lookup, adds no key |
| Sops.GroupRows | app/decision/sop_matcher.py:87-130 | the loop keeps the first `max_sops` distinct SOPs in row order, each with its first row's linkage, and the steps of their rows |
| Sops.RecordsToSopBundle | app/decision/sop_matcher.py:76-140 | the bundle is those linkages and steps under the two stable sorts |
| Sops.BundleLinkages | app/decision/sop_matcher.py:132-133 | the linkages are the kept SOPs, each once, at most `max_sops`, by descending effectiveness |
| Sops.EqualLinkagesKeepOrder | app/decision/sop_matcher.py:133 | equally effective SOPs stay in row order |
| Sops.StepsAreRows | app/decision/sop_matcher.py:111-130 | there is one step per step row of a kept SOP, in row order, with that row's instruction, its number or the next position, and the title of the SOP's first row |
| Sops.BundleSteps | app/decision/sop_matcher.py:135-140 | the steps are a permutation of those, ordered by the rank of their SOP and then by number |
| Sops.EqualStepsKeepOrder | app/decision/sop_matcher.py:139 | steps of one SOP with one number stay in row order |
| SopOrder.RecordedOrderIff | app/decision/sop_matcher.py:82-85 | the linkages are in descending recorded effectiveness iff no kept recorded 0 overtakes a kept value below 0.75, or one of 0.75 that stands behind it |
| SopOrder.ServerOrderKeptIff | app/decision/sop_matcher.py:79-85 | rows in the order of the query keep it iff no kept SOP without a value, or with 0, stands behind one with a value below 0.75 |
| SopOrder.RowOrderIff | app/decision/sop_matcher.py:132-133 | sorting keeps the row order of the kept SOPs iff their effectiveness, as counted, never rises |
| SopOrder.MissingOvertakes | app/decision/sop_matcher.py:105 | an SOP without a value overtakes one recorded at 0.6 |
| SopOrder.NeverEffectiveFirst | app/decision/sop_matcher.py:105 | a recorded 0 comes before a recorded 0.5 |
| Risk.FactorsOnScale | app/decision/risk_scorer.py:38-78 | whatever the inputs, all three factors lie between 1 and 10 |
| Risk.ScalesMonotone | app/decision/risk_scorer.py:38-78 | a likelier failure scores no lower, a surer detection no higher |
| Risk.ScalesAreLines | app/decision/risk_scorer.py:38-41 | both scales are straight lines between 1 and 10 up to rounding, and constant outside [0, 1] |
| Risk.SeverityIs | app/decision/risk_scorer.py:57-63 | 9, 6 and 3 for the tiers; else a hundredth of a positive hint between 1 and 10; else 5 |
| Risk.NormalizedIs | app/decision/risk_scorer.py:107-111 | the score is min(weight, 1) x P x S x D / 1000, between 0 and 1; its cut-off never bites |
| Risk.ScoreInRange | app/decision/risk_scorer.py:103-122 | the rounded score stays between 0 and 1, within 1/20000 of that value |
| Risk.WeightsOnScore | app/decision/risk_scorer.py:96-121 | the reported score never falls with the weight, is the same for all weights of 1 and more, and rises when the closed forms differ by more than 1/10000 |
| Risk.OutranksBackup | app/decision/risk_scorer.py:96-101 | an asset of weight 1 or more reports a higher score than a backup (0.85) with the same failure profile |
| Risk.TierOrder | app/decision/rule_engine.py:34-42 | the three shipped weights: the backup reports less than the partly redundant asset, which reports what the bottleneck does |
| Risk.SmallDifferenceHidden | app/decision/risk_scorer.py:121 | weights 0.99999 and 1 can report the same score |
| Risk.BuildRecommendations | app/decision/decision_service.py:309-354 | one recommendation without SOPs; otherwise the most effective SOPs, at most as many as requested, each with the risk and cost of its rank |
| Risk.RecommendedAreBest | app/decision/decision_service.py:332 | the recommended SOPs are the most effective ones, ties as found, as many as requested |
| Risk.LossByRank | app/decision/decision_service.py:336-345 | each rank loses a twentieth of risk and cost up to rounding, until nothing is left at rank 21 |
| Risk.RiskFallsWithRank | app/decision/decision_service.py:344-345 | risk never increases with rank, never exceeds the score and equals it at rank 1 |
| Risk.RecommendAndAssess | app/decision/decision_service.py:150-152 | the overall risk of every response equals the normalised score behind it |
| Alerts.AlertStore.InjectAlert | iob-integration/gateway_app/store.py:93-110 | adds one open alert at the end of the history |
| Alerts.AlertStore.GetActiveAlerts | iob-integration/gateway_app/store.py:112-114 | returns exactly the live alerts of the history |
| Alerts.AlertStore.ResolveAlerts | iob-integration/gateway_app/store.py:116-134 | resolves exactly the open alerts that match and returns copies of them |
| Alerts.ResolveTakes | iob-integration/gateway_app/store.py:127-129 | which alerts a resolve by identifier, by asset, by both and by neither takes |
| Alerts.ResolveIsPointwise | iob-integration/gateway_app/store.py:126-133 | every alert is resolved or left alone by itself, in its place |
| Alerts.ActiveIsLive | iob-integration/gateway_app/store.py:93-147 | for every interleaving the active list is the alerts injected since the last clear that no later resolve matched, in injection order |
| Alerts.AlertsConserved | iob-integration/gateway_app/store.py:93-147 | every injected alert is active, returned by a resolve or dropped by a clear, each in exactly one way |
| Alerts.ReturnedOnce | iob-integration/gateway_app/store.py:116-134 | an alert is returned by at most one resolve call |

## Left out

- Chunker.ChunkSlidingWindow: the sentence split by regular expression is a parameter; the sentences are non-empty and stripped, as the splitter returns them.
- ChunkerProperties.Reconstruction: gives back the sentences, not the white space between them, which the splitter discards.
- Agents.PlanRoute: the keyword tests and the asset-id patterns are parameters.
- Orchestrator.AgentNodes.Ainvoke: is about the fallback executor; LangGraph's own is a library. It starts from a fresh state with a budget of at least 1, which requests (3 to 50) always have.
- Orchestrator.AgentNodes.RunAgent: the tools are an arbitrary function from agent and call number to a result or an exception; component id, anomaly flags, model predictions, intermediate payloads and confidence are omitted.
- Orchestrator.AgentNodes.RunFinalizer: the retrieval summary it copies from the state, confidence and the token estimate are omitted, and answer parts stand for their sentences, in the same order.
- Orchestrator.AgentState.Compress: the cap of 8 on intermediate payloads, of which a run writes fewer, and the token metrics are omitted.
- Orchestrator.AgentNodes.Supervisor: the fallback to the finalizer for an empty plan is omitted, as no plan is empty.
- Fusion.ReciprocalRankFusion: floating-point rounding. The orderings by rank are stated for `k` of 0 and more.
- FusionEngine.Fuse: labels, texts, metadata and page numbers, which are copied along and decide nothing.
- Citations.ExtractCitationTags: `\d` of a Python pattern also matches non-ASCII digits; the model has ASCII ones.
- Citations.AuditAgrees: at exactly one invented tag in 2000 the rounding of a binary fraction decides.
- Citations.Build: snippets, file names and the raw variant that bypasses fusion.
- Entities.DeduplicateEntities: normalisation of names and both tables are parameters. A record shares its property dictionary with the first entity it came from, so a pass also changes that entity; the model copies.
- EntityLevels.ThirdPassChangesNothing: the contents of the two tables are not part of this model; it holds for every table whose canonical display names do not hit another id.
- Payloads.Same: NaN, which differs from itself, and the byte-by-byte mode for bodies that are not mappings.
- VectorIngestion.VectorIngestionPipeline.IngestChunks: vectors, the remaining payload fields and paging of the lookup; batch sizes are positive; a failed upsert stores nothing and the encoder returns one vector per text; point ids do not collide.
- Sops.RecordsToSopBundle: tools, hazards, protective equipment and URLs of a step, and range validation of a row.
- Risk.BuildRecommendations: action ids, texts, priorities and dates; the cost estimate is a parameter, and the ceiling setting is at its default of 1000.
- Text.Strip: Unicode white space beyond ASCII.
- Alerts.AlertStore.InjectAlert: identifiers and times are parameters; it returns the stored dictionary itself, which a caller could change without the lock.
- HTTP routing, relays, graph and vector databases, language models, parsers and machine-learned predictors are not part of this model.
