# Saengra engine

Saengra keeps a graph of typed vertices and labelled edges, and tells observers which subgraphs match their patterns
as the graph changes. This project models the engine in `saengra-server/src`: the graph store with its undo logs, the
algebra of refs (bindings and exclusions of vertices), the planner, the matcher, the caches of nested expressions, the
incremental matchers, and the container of observers. Each layer is proved against a specification in terms of sets.

The layers meet in one theorem. After any run of updates, applies, commits, rollbacks and registrations, every
observer's subgraphs are what its pattern means in the applied graph: what its operators, read one by one, match from
all start positions, without planning, without paths, and without caches (`Environments.Environment.Run`). On the way,
each operation moved the graphs and told the observers as it should. What an operator means is stated in terms of
vertices, edges and assignments (`Operators`, `JoinedOperators`).

How it is put together:

- `base`, `plans`, `expressions`: vertices, edges, positions, plans and patterns. `semantics` says which subgraphs a
  plan matches, as a set; `pointwise` reads it at single assignments of refs, where operators are plain logic.
- `refs`, `refs_unions`, `arrangement`, `refs_lists`, `combining`: refs, unions of refs, cells, and joins by cells.
- `ref_tracking`, `dependencies`, `matching*`, `visiting*`, `matcher`: what a visit adds to the draft of a query set,
  and the visitor and the registry that do it.
- `absent_starts`, `finite_refs`: where matches can start and end, and what their refs are made of.
- `framing`, `transparent_caching`, `specialization`, `planning*`, `planner`, `planned_patterns`, `parser`: plans keep
  the meaning of patterns.
- `nested_cache`, `nested_refresh`, `nested_eviction`, `nested_presence`: cached nested expressions over time.
- `expansion`, `queries`, `start_positions`, `observing`, `incremental_state`, `subscriptions`, `subgraph_changes`,
  `incremental_matcher`, `observers`: incremental matching.
- `undo_log`, `edge_index`, `graph_store`, `environment`: the store, and everything together.
- `operators`, `joined_operators`: each operator of patterns in plain terms, as a reference for all of the above.
- `pending_registration`, `open_repetition`: where a promise needs a condition.

## Model

| member | source | states |
|---|---|---|
| Environments.Environment.Run | saengra-server/src/incremental_matcher.cpp:182-266 | after any sequence of update batches, applies, commits, rollbacks and registrations, each observer's last subgraphs are exactly what its pattern means at all its start positions in the applied graph; and each operation of the sequence changes the three graphs and the registered observers, and reports, as that operation should (`StepsTo`); if a pattern has cached operands that begin with a vertex, no vertex may be added again once it was removed |
| Environments.Environment.Do | saengra-server/src/worker.cpp:174-269 | one operation: a batch changes the present graph to exactly the vertices and edges that stay; applying moves the applied graph up to it and reports exactly what is due; committing does the same and moves the committed graph too if and only if nothing was reported; rolling back resets all three; registering enters the id with its pattern and flags unless it is taken; nothing else changes |
| Environments.TraceIsDetermined | saengra-server/src/worker.cpp:174-269 | two runs of the same operations from the same graphs and registrations go through the same states and report the same |
| Environments.ObserversOfTrace | saengra-server/src/observer_container.cpp:191-201 | after any run the registered ids are those before and those that were added, and each keeps the pattern and flags of its first registration |
| Environments.CommittedOfTrace | saengra-server/src/worker.cpp:193-215 | after any run the committed graph is the one that was present at the last commit that went through, whatever updates, applies, rollbacks and failed commits came after it, or the one before the run |
| Environments.KnowledgeIsDetermined | saengra-server/src/incremental_matcher.cpp:47-72 | two states that are as meant for the same pattern and graph hold the same subgraphs, however they came about: the positions of all vertices are a list of all starts |
| Environments.Environment.Apply | saengra-server/src/observer_container.cpp:247-265 | applied becomes present; an observer is told of a subgraph, if it has the flag for it, exactly when what its pattern means in the graph before and in the graph now says so: of one that came, as changed if it is the only one of its start and refs and so was another one before, and as created otherwise; of one that went and none took its place, as deleted |
| Environments.Environment.Commit | saengra-server/src/worker.cpp:193-240 | applies and reports like `Apply`; commits everything if and only if nothing was reported, and otherwise leaves the committed graph as it was |
| Environments.Environment.Rollback | saengra-server/src/worker.cpp:16-19 | all three levels become the committed graph, and all observers are right about it |
| Environments.Environment.Observe | saengra-server/src/observer_container.cpp:191-201 | when no update waits, plans any pattern with start shapes and registers its observer with the given flags unless the id is taken; all the other observers are as before, and all observers are right |
| Environments.RightIsFromScratch | saengra-server/src/incremental_matcher.cpp:47-72 | an incremental state that is right holds, whatever start positions are tried, the subgraphs that matching anew at all of them finds |
| Incremental.IncrementalMatcher.MatchIncrementally | saengra-server/src/incremental_matcher.cpp:182-266 | told about every dependency that changed, a matcher that was right about one graph becomes right about the next; the reported dependencies are exactly the ones that entered or left its domain; a pair is reported as changed if and only if its subgraphs are the only ones with their start and refs before and after, and differ; all else that came or went is reported as added or removed, and nothing else |
| Incremental.IncrementalMatcher.Reinitialize | saengra-server/src/incremental_matcher.cpp:47-72 | whatever it knew before, the matcher is right about the graph and reports all its dependencies |
| Incremental.IncrementalMatcher.Resubscribe | saengra-server/src/incremental_matcher.cpp:102-116 | the merge of two sorted lists of dependencies leaves the start with exactly the new ones, all others untouched, and the tally of added and removed ones exact |
| Incremental.GroupDeps | saengra-server/src/incremental_matcher.cpp:20-45 | sorting and cutting into runs gives each start exactly its dependencies |
| IncrementalState.UnscheduledStays | saengra-server/src/incremental_matcher.cpp:184-202 | a position that no observation triggers has the same results and the same sufficient dependencies in the next graph |
| SubgraphEvents.FindSubgraphChanges | saengra-server/src/incremental_matcher.cpp:143-180 | the loops over positions and refs report exactly the added, removed and changed subgraphs of the positions, where a subgraph changed if it was the only one with its refs at its position, and another one is that now |
| SubgraphEvents.EventsAreExact | saengra-server/src/incremental_matcher.cpp:143-180 | the events of the rematched positions are all the events of the whole sets of subgraphs, as positions that weren't rematched have the same ones |
| SubgraphEvents.EventsAreTruthful | saengra-server/src/incremental_matcher.cpp:124-180 | exact events replay: added subgraphs were absent, removed ones are gone, and removing and adding what they say turns the old set into the new one |
| Observers.ObserverContainer.Observe | saengra-server/src/observer_container.cpp:217-265 | after graph changes all observers, the registry and the subscriptions are right about the new graph, and the reports are exactly what is due to each observer by its flags and by what it knew and knows now |
| Observers.ReportsAreDue | saengra-server/src/observer_container.cpp:102-185 | filtering exact events by the flags reports each event exactly when its flag is on: a created or changed subgraph is one of those now and wasn't before, and a deleted one the reverse |
| Observers.ObserverContainer.RouteObservations | saengra-server/src/observer_container.cpp:217-239 | the cache is refreshed first, and each observer is routed an observation of every dependency of its that changed, be it in the graph or a cached result |
| Observers.ObserverContainer.ApplySubscriptionChanges | saengra-server/src/observer_container.cpp:267-285 | subscribes one observer to the added and unsubscribes it from the removed observables, leaves the others alone, keeps no empty sets, and marks unsubscribed nested subgraphs |
| Observers.ObserverContainer.Register | saengra-server/src/observer_container.cpp:191-201 | a new id gets a matcher that is right about the graph; a known id changes nothing |
| Observers.ObserverContainer.ReinitializeAll | saengra-server/src/observer_container.cpp:346-353 | from any state, all observers, the emptied cache and the subscriptions become right about the graph |
| Observing.CollectObservations | saengra-server/src/observer_container.cpp:287-344 | for each wanted observable there is an observation if and only if the changes concern it, with exactly its added vertices and edges |
| Observing.HappenedIsDifferent | saengra-server/src/observer_container.cpp:287-344 | an observable is observed from the difference of two graphs if and only if what it stands for differs between them |
| Matcher.NestedRegistry.Update | saengra-server/src/nested_registry.cpp:140-200 | refreshing by ascending height ends; if no vertex comes back that an entry began at while it was missing, every cached list then equals a fresh match in the new graph, and the dependencies of entries whose start is there settle them; the reported entries are exactly the cached ones whose list changed, and unreferenced entries are still marked |
| Matcher.NestedRegistry.EvictUnused | saengra-server/src/nested_registry.cpp:208-229 | ends with exactly the entries kept that are observed or that a kept entry depends on, with their lists and dependencies |
| NestedEviction.EvictionIsUnique | saengra-server/src/nested_registry.cpp:208-229 | there is only one cache that eviction may end with, whatever the order of the candidates |
| Matcher.NestedRegistry.Get | saengra-server/src/nested_registry.cpp:120-134 | returns what a fresh match of any nested expression finds, cached or not, and only adds entries below the height limit, each right, subscribed, and settled unless its start vertex is missing |
| Matcher.NestedRegistry.MatchNested | saengra-server/src/matcher.cpp:986-995 | finds exactly what the nested expression matches; what it records settles the entry if the start vertex is there, and is nothing if the expression begins with a vertex that is missing |
| Matcher.MatchVisitor.Visit | saengra-server/src/matcher.cpp:54-507 | in Normal mode adds exactly the subgraphs of the plan, in RefsOnly mode their refs and ends, in First mode some if and only if there are any; the dependencies recorded meanwhile suffice: if the start vertex is there, the result is the same in every graph that agrees on them, be the vertex there or, at the origin of the match, removed; where the first vertex doesn't match, nothing is recorded |
| Matcher.MatchVisitor.VisitRepetition | saengra-server/src/matcher.cpp:463-493 | the same for the loop over layers of chains, up to a maximum: it adds exactly the maximal chains with enough repeats |
| Matcher.MatchVisitor.VisitNested | saengra-server/src/matcher.cpp:433-461 | restricted to the names mentioned, matched by the registry or in place, and intersected with the refs of the start, the result is that of matching in place |
| MatchingRepeat.LayersAreRepeat | saengra-server/src/matcher.cpp:463-493 | after any number of layers, the chains that ended so far and those that the current layer leads to are the maximal chains of the recursive definition |
| OpenRepetition.OpenIsBounded | saengra-server/src/matcher.cpp:463-493 | without a maximum: if the loop ends after k layers, what it found is the result of the repetition with any maximum of k or more |
| OpenRepetition.LoopEndsUnlessCircular | saengra-server/src/matcher.cpp:463-493 | without a maximum, some layer is empty, and so the loop ends, if and only if matches don't lead from the start to a position and refs that they lead back to |
| OpenRepetition.ThereAndBackIsCircular | saengra-server/src/matcher.cpp:463-493 | on two vertices with edges both ways, repeating `-edge> vertex` without a maximum has no empty layer |
| FiniteRefs.MatchesOver | saengra-server/src/matcher.cpp:516-565 | matches bring in no ref names but those of the plan, and no values but vertices of the graph, through joins, negations and caches |
| AbsentStarts.MatchesFromAbsent | saengra-server/src/matcher.cpp:516-531 | from a vertex that is missing, every plan matches the same in all graphs without the vertex, and stays there |
| Combining.JoinAnd | saengra-server/src/matcher.cpp:206-250 | grouping by refs, arranging and copying to cells gives each cell's terms the subgraphs of exactly the cells where every operand has one; the shortcut for equal refs gives the same |
| Combining.JoinAll | saengra-server/src/matcher.cpp:252-345 | the same, with one merged subgraph for each term of a cell |
| Pointwise.AndAt | saengra-server/src/matcher.cpp:206-250 | at every assignment, `and` has the subgraphs of all operands that cover it, if each operand has one |
| Pointwise.AllAt | saengra-server/src/matcher.cpp:252-345 | at every assignment, `all` has the one merge of the subgraphs that cover it |
| Pointwise.AllOfAnd | saengra-server/src/matcher.cpp:252-295 | `all` of `and` in one step covers every assignment with what the two steps cover it with |
| Pointwise.NegationAt | saengra-server/src/matcher.cpp:388-409 | the terms of a negation cover an assignment of the start region if and only if no choice of its local refs makes the operand match |
| Pointwise.MatchesAt | saengra-server/src/matcher.cpp:54-507 | for whole plans: the subgraphs that cover an assignment are the ones of a reading of the plan at this assignment alone, in which there are no refs to split and no regions |
| Framing.MatchesFramed | saengra-server/src/matcher.cpp:433-461 | refs that a plan doesn't mention are carried along: matching with them gives the matches without them, each with the refs added |
| TransparentCaching.CachingIsTransparent | saengra-server/src/matcher.cpp:433-461 | for plans whose nested expressions list all the names they mention, matching with the cache gives exactly the set of subgraphs that matching in place gives |
| RefTracking.MatchesRespect | saengra-server/src/matcher.cpp:516-565 | in every match, the refs bound according to `Bound` have a vertex, and the literals of refs outside `Changed` are those of the start |
| Dependencies.EndsAreHere | saengra-server/src/matcher.cpp:516-629 | matches end at vertices of the graph, or stay at their start; so no operand in a row but the first can start at an absent vertex |
| Specialization.SpecificMeansGeneric | saengra-server/src/matcher.cpp:297-386 | `all`, `if` and `unless` for operands that change no refs, or no shared ones, match what their general forms match |
| Specialization.SpecificAndMeansGeneric | saengra-server/src/matcher.cpp:192-204 | `and` for operands that change no refs matches what the arrangement into cells gives, alone and under `all` |
| Planner.PlanVisitor.Visit | saengra-server/src/planner.cpp:45-199 | the plan of every expression means, wherever the bound refs have vertices, what the expression's operators mean; it chooses each specific form only where it may; and `bound` and `changed` end as the tracking of the finished plan says |
| Planner.AddPaths | saengra-server/src/planner.cpp:264-289 | vertices and edges in a row become plans that the matcher accepts (alternating paths of at most the maximum length, or such a path with an edge to a known vertex) and that hold, in turn, exactly these items |
| Planner.MakePath | saengra-server/src/planner.cpp:302-313 | the alternating path holds the items in order |
| PlannedPatterns.PlanPattern | saengra-server/src/planner.cpp:316-327 | the plan of any pattern finds, from every position of every graph, what the pattern means; if it can be read at single assignments, the plan's matches agree with that reading; incremental matchers support it if it begins with a typed or untyped vertex or an edge; and it looks up no expression that begins with a vertex if the pattern's joined operands don't |
| PlannedPatterns.MatchesStart | saengra-server/src/start_positions.cpp:24-168 | a pattern with start shapes matches from no position but those of its shapes |
| PlannedPatterns.MatchesSource | saengra-server/src/start_positions.cpp:24-168 | whatever a pattern begins with, placeholders, empty patterns and zero repeats included, it matches only from positions of that, unless the beginning is optional or has edges in any direction with different labels |
| PlannedPatterns.MatchesAreTried | saengra-server/src/start_positions.cpp:24-168 | so from present vertices it matches from no position that the visitor doesn't try |
| PlannedPatterns.OptionalMatchesUntried | saengra-server/src/start_positions.cpp:132-142 | an optional vertex at the beginning also matches, as nothing, from orbits, which aren't tried |
| PlannedPatterns.OnlyFromPlaceholder | saengra-server/src/start_positions.cpp:24-36 | a pattern that begins with a placeholder matches only from that vertex, when it is present |
| PlannedPatterns.MeaningSets | saengra-server/src/matcher.cpp:930-984 | the meaning of a pattern at a position is the set of what its operators match there, each with its refs set to every answer they allow |
| Operators.VertexMatches | saengra-server/src/matcher.cpp:65-81 | a vertex pattern matches one subgraph, if the vertex is present and is of the type and the placeholder, in the assignments in which the ref is that vertex; it ends at its orbit |
| Operators.EdgeMatches | saengra-server/src/matcher.cpp:568-630 | for each of the five directions, exactly one subgraph for each edge with a listed label, or for each pair of them, that leads to another vertex's core |
| Operators.NoopMatches | saengra-server/src/matcher.cpp:99-102 | exactly the empty subgraph at the position |
| Operators.OrMatches | saengra-server/src/matcher.cpp:183-190 | exactly what any of the operands matches |
| Operators.ConcatenationMatches | saengra-server/src/matcher.cpp:139-181 | exactly the unions of matches of the operands in turn, each beginning where the one before ends, with its refs |
| Operators.RepetitionMatches | saengra-server/src/matcher.cpp:463-493 | exactly the unions of chains of matches whose length is allowed and which have the greatest length or can't be continued |
| Operators.IfMatches | saengra-server/src/matcher.cpp:347-377 | stays at the position with the refs of each match of the operand |
| Operators.SkipMatches | saengra-server/src/matcher.cpp:411-422 | the ends and refs of each match, without its vertices and edges |
| Operators.MaybeMatches | saengra-server/src/matcher.cpp:424-431 | what the operand matches, or the empty subgraph exactly if that is nothing |
| JoinedOperators.AndMatches | saengra-server/src/matcher.cpp:206-250 | on each largest region on which the matches of all operands either hold everywhere or nowhere, and each operand has one that holds, exactly those that hold |
| JoinedOperators.AllOfAndMatches | saengra-server/src/matcher.cpp:252-295 | on the same regions, the one subgraph that merges those that hold |
| JoinedOperators.AllMatches | saengra-server/src/matcher.cpp:297-345 | the same for the matches of a single operand |
| JoinedOperators.UnlessMatches | saengra-server/src/matcher.cpp:379-409 | stays at the position with exactly the largest refs inside of those of the start on which every match of the operand differs in some shared ref |
| StartPositions.FindStartPositionsVisitor.Visit | saengra-server/src/start_positions.cpp:24-168 | fails exactly where the pattern, or an alternative of it, has nothing but negations to begin with; otherwise adds exactly the positions at which the leading vertices, edges, placeholders or empty patterns are tried, and exactly their dependencies |
| Parser.ResolveSharedRefs | saengra-server/src/parser.cpp:93-116 | counts the occurrences of each ref, and gives each negation exactly the refs that occur both in it and outside of it |
| Parser.Resolve | saengra-server/src/parser.cpp:17-48 | after the two passes the pattern is the same, except that each negation has exactly the shared refs that occur in it and also elsewhere in the whole pattern, so that a ref that occurs nowhere else is local; and so the pattern has a reading at single assignments unless `maybe` or repetition split a region |
| Parser.ResolvedIsPointwise | saengra-server/src/parser.cpp:93-116 | the same for every expression within a pattern, given the refs used outside of it |
| Expansion.ExpandNegatives | saengra-server/src/matcher.cpp:930-984 | replaces each subgraph by exactly the ones with its refs set to answers: to the values of any assignment that satisfies them and gives the excluding refs vertices of the graph; and returns exactly the vertices used as values |
| Expansion.VariantsAreAnswers | saengra-server/src/matcher.cpp:930-984 | the variants of refs are exactly the refs set as an assignment says that satisfies them and gives the excluding refs vertices of the graph; each variant is inside the refs |
| Expansion.VariantsAreAll | saengra-server/src/matcher.cpp:930-984 | the variants are exactly the refs that keep the positive literals and give each excluding ref a vertex of the graph that isn't excluded |
| Expansion.ResultIsCovered | saengra-server/src/matcher.cpp:930-984 | the dependencies recorded by the match and by the expansion together decide the expanded result |
| Queries.Match | saengra-server/src/matcher.cpp:908-928 | the query set holds, for each start position, exactly the matches of the plan with their refs set to every answer they allow, and for each position dependencies that decide them |
| RefsAlgebra.NormalizedIsExact | saengra-server/src/refs.cpp:9-35 | normalizing fails if and only if no assignment fits the literals, and otherwise keeps the assignments |
| RefsAlgebra.RefsAreCanonical | saengra-server/src/refs.cpp:9-35 | two normalized refs with the same assignments are equal |
| RefsAlgebra.MeetIsIntersection | saengra-server/src/refs.cpp:71-77 | intersecting fails if and only if no assignment is in both, and otherwise gives those in both |
| RefsAlgebra.ImpliesIsInclusion | saengra-server/src/refs.cpp:79-98 | the comparison of literals decides inclusion of the assignments |
| RefsLists.Normalize | saengra-server/src/refs.cpp:9-35 | the loop over groups of a sorted list fails exactly when there's no normal form, and else returns the one strictly sorted list of it |
| RefsLists.CopyAndSetListed | saengra-server/src/refs.cpp:56-69 | replacing the literals of one name in the list lists the refs with that name set |
| RefsLists.RestrictListed | saengra-server/src/refs.cpp:100-108 | the list keeps exactly the literals with the names, sorted |
| RefsLists.ListingIsUnique | saengra-server/src/refs.cpp:9-35 | refs have only one strictly sorted list, so that comparing lists compares refs |
| RefsUnions.SimplifiedIsLeast | saengra-server/src/refs.cpp:111-131 | absorption of any refs leaves the least part of them that each of them is inside of, and so keeps their union |
| RefsUnions.SubtractIsDifference | saengra-server/src/refs.cpp:133-148 | the terms are exactly the maximal boxes of the set difference |
| RefsUnions.SubtractFromUnionIsDifference | saengra-server/src/refs.cpp:168-176 | subtracting from each term of a union gives exactly the maximal boxes of the difference |
| RefsUnions.ExactIsUnique | saengra-server/src/refs.cpp:111-176 | a region has only one such list of terms, so the order of operands doesn't matter |
| Arrangement.Arrange | saengra-server/src/refs.cpp:184-237 | each cell has the exact terms of the region that its members cover and no others do, all nonempty cells are there once; the fast path for disjoint refs meets the same contract |
| Arrangement.ArrangementIsPartition | saengra-server/src/refs.cpp:184-237 | an assignment lies in a cell if and only if the refs that cover it are the cell's members; every covered assignment lies in one cell and no two |
| GraphStores.GraphStore.Update | saengra-server/src/graph.cpp:118-173 | after a batch a vertex is present if and only if it was there or was added and wasn't removed later, and an edge if and only if it was there or was added while both ends were, and neither it nor an end was removed later; applied and committed don't change, and all three stay well formed |
| GraphStores.GraphStore.UpdateOne | saengra-server/src/graph.cpp:118-165 | each of the five updates leaves exactly the vertices and edges present that it should: an edge is only added, in its direction, between present vertices; a vertex is removed with all its edges |
| GraphStores.VerticesStay | saengra-server/src/graph.cpp:118-173 | after any batch exactly the vertices are there that were there or added, and not removed later |
| GraphStores.EdgesStay | saengra-server/src/graph.cpp:118-173 | after any batch exactly the edges are there that were there or were added between present vertices, and that no later update takes |
| GraphStores.GraphStore.Apply | saengra-server/src/graph.cpp:175-187 | returns exactly present minus applied and applied minus present, of vertices and of edges |
| GraphStores.GraphStore.Commit | saengra-server/src/graph.cpp:189-192 | committed becomes applied, nothing else changes |
| GraphStores.GraphStore.Rollback | saengra-server/src/graph.cpp:194-197 | undoing the log restores the committed graph in all three levels |
| GraphStores.EdgesContainer.RemoveEdgesOfVertex | saengra-server/src/edges_container.cpp:244-258 | exactly the edges from and to the vertex go, from both indexes, loops included, and each is logged once |
| GraphStores.EdgesContainer.FromVertex | saengra-server/src/edges_container.cpp:318-347 | the indexed query returns exactly the present edges from the vertex that have one of the listed labels, or any label if none are listed; these are the ones that the matcher asks for |
| GraphStores.EdgesContainer.ViaLabels | saengra-server/src/edges_container.cpp:362-366 | exactly the present edges with any of the labels, from wherever they go |
| GraphStores.EdgesContainer.Between | saengra-server/src/edges_container.cpp:368-375 | exactly the edges between two vertices, where no labels stand for any label |
| GraphStores.VerticesContainer.IterPresentByTypeName | saengra-server/src/vertices_container.cpp:124-131 | exactly the present vertices of the type |
| EdgeIndex.Trunk.RemoveAll | saengra-server/src/edges_container.cpp:162-169 | removes exactly the edges of the branch and returns each once; no empty leaf or branch remains |
| UndoLog.NetChanges | saengra-server/src/edges_container.cpp:285-302 | the first and last entry of each item tell exactly the items that were added, or removed, over the whole log |
| UndoLog.ChangesAlternate | saengra-server/src/edges_container.cpp:285-302 | consecutive entries of one item alternate between added and removed |
| NestedPresence.SettledWhilePresent | saengra-server/src/matcher.cpp:516-531 | what is recorded for a cached expression that begins with a vertex, at any depth of concatenations, joins and operators, settles it if and only if that vertex was there, unless no graph makes a difference |
| NestedPresence.ReaddedVertexIsMissed | saengra-server/src/nested_registry.cpp:120-134 | a registry asked for `vertex -edge>` while the vertex is away is right, caches nothing without any dependency, and is wrong once the vertex is back with an edge |
| PendingRegistration.RightWhenNothingWaits | saengra-server/src/worker.cpp:257-269 | when the waiting updates are taken back, nobody is told anything; the results of all patterns at all positions are then those that observers know, if and only if no update was waiting |
| PendingRegistration.SomeObserverIsWrong | saengra-server/src/worker.cpp:257-269 | if updates were waiting, there is a supported pattern such that every state right about the graph with them is wrong about the applied one |
| PendingRegistration.PendingVertexIsKept | saengra-server/src/worker.cpp:257-269 | an observer of all vertices, registered while a vertex waits, is wrong once the vertex is removed again, and there is nothing to tell it |

## Findings

Three promises hold only under a condition.

- Nested caches and absent vertices. `match_vertex` records nothing for an absent vertex
  (saengra-server/src/matcher.cpp:523-525), but the planner also nests operands that begin with a vertex
  (saengra-server/src/planner.cpp:205-225). The input: an entry for the path `vertex -edge>` at a vertex `v`, which is
  matched while `v` is removed. It is empty, without dependencies, and stays empty when `v` and an edge from it are
  added (`NestedPresence.ReaddedVertexIsMissed`). Exactly: what is recorded settles an entry that begins with a vertex
  if and only if the vertex was there (`NestedPresence.SettledWhilePresent`). A refresh is therefore right if no vertex
  comes back that an entry began at while it was missing (`NestedRefresh.NoneReturns`), and whole runs are right if no
  pattern has cached operands that begin with a vertex, or no vertex is added again once it was removed.
- Observers registered while updates wait. They are initialised with the present graph, but the changes they are told
  about next are those since the applied graph (saengra-server/src/worker.cpp:257-269,
  saengra-server/src/graph.cpp:175-187). The input: add a vertex, register an observer of all vertices, remove the
  vertex, apply (`PendingRegistration.PendingVertexIsKept`). Exactly: when waiting updates are taken back, the observers
  of all patterns are right if and only if nothing was waiting (`PendingRegistration.RightWhenNothingWaits`).
- Repetition without a maximum. The input: an edge and a vertex, repeated on two vertices with edges both ways, where
  the loop goes on for ever (`OpenRepetition.ThereAndBackIsCircular`). Exactly: the loop ends if and only if matches
  don't lead from the start to a position and refs that they lead back to (`OpenRepetition.LoopEndsUnlessCircular`); then it finds what every large enough maximum finds
  (`OpenRepetition.OpenIsBounded`).

## Left out

- Environments.Environment.Run: for patterns that begin with a typed or untyped vertex that isn't a placeholder, or
  with an edge. With cached operands that begin with a vertex, and vertices that are added again, the finding shows
  that entries can be stale; which of these runs end well nevertheless isn't part of this model.
- Environments.Environment.Observe: only when no updates wait to be applied; the findings give the reason.
- Matcher.MatchVisitor.VisitRepetition: a maximum is given; `OpenRepetition` relates the loop without one to it.
- MatchingRepeat.LayersAreRepeat: a maximum is given, likewise.
- Planner.PlanVisitor.Visit: which of the joined operands are nested depends on the refs set by earlier operations;
  the contract only promises that these grow, as every choice has the same meaning.
- PlannedPatterns.MatchesStart: for the patterns that whole runs are proved for; Noop, `maybe`, zero repeats and
  placeholders at the start have no shapes. `MatchesSource` covers these.
- PlannedPatterns.MatchesSource: not for patterns that begin with `maybe`, which match from positions that aren't tried
  (`OptionalMatchesUntried`), nor with edges in any direction that have different labels both ways.
- GraphStores.EdgesContainer.FromVertex: the matcher of the model reads a snapshot of the present graph, with the same
  filters that the queries are proved to compute, instead of calling them.
- RefsUnions.SubtractIsDifference: refs here are sets of literals. `RefsLists` proves the loops over sorted lists for
  `normalized`, `copy_and_set` and `restricted_to`; the other operations on lists are stated on the sets they list.
- Vertices are pairs of a type name and a value, labels and names are numbers; internalising strings, stored vertices
  and their pointers are not modelled, nor are hashes, reserves and the capacity of logs.
- Nested expressions are known by their plan, mentioned names, position and refs rather than by a registered id, and
  their height is computed from the plan.
- The orders of vertices, observables and subgraphs that the source sorts by are parameters; lists that are sorted and
  deduplicated in the end are sets.
- Label lists that are given aren't empty, edges in any direction at the start have the same labels both ways, and
  operators have operands.
- The lexer, the grammar, `update_placeholder_indices` and `resolve_refs`; placeholders are vertices.
- Sockets, requests, conversions to and from messages, callbacks, and the Python layer.
