# Embodied Web Agent core, modelled in Dafny

This project models the logic of the Embodied Web Agent repository that can be stated without its simulators, browsers or language models. The source is Python, plus two small React apps. The model is a set of Dafny modules, one per source component:

- **Outdoor navigation** (`models/outdoor/navigation/`):
  - `Angles`: angle helpers.
  - `PanoGraph` and `Crawl`: the panorama-graph keys and the breadth-first crawl around a seed panorama. The crawl is a method with loop invariants, proved to collect every nearby panorama link of every node it expands, each stored with the heading, text and elevation of the first link that leads to it.
  - `Dijkstra`: the heap-based shortest-path planner. It is a method whose result is proved to be a walk from start to target that no other such walk undercuts.
  - `Directions`: the direction-text parser.
  - `Navigator`: the step-bounded navigation loop.
  - `Headings`: the four-direction heading canonicaliser.
  - `TaskEnv`: the `NaviMap` and `NaviEnv` classes, with breadth-first search, `move` and the step reward.
  - `BreadthFirst`: the search behind `get_shortest_path`.
  - `AutoGenerator` and `TaskConstruction`: the coordinate parsers and task-generation choices.
  - `SceneGeometry`: scene bounds and Mercator clipping.
  - `ChatBot`: the message buffer.
  - `DataFiles`: `merge_json` and `add_task_ids`.
- **Indoor embodied and web tasks** (`models/indoor/`):
  - `Browser`: the browser-environment action parser and observation settings.
  - `Thor`: the AI2-THOR environment. This covers state evaluation, the observation cleaning and grouping, and action parsing and stepping.
  - `RunEmbodied`: the run loop's early-stop rules and environment switching.
  - `Scoring`: the final-score and state-check scripts.
  - `RecordChecks`: the finished and web-accuracy record checks.
  - `FilterImageKey`: the image-key filter.
- **Geolocation** (`models/geolocation/`, `models/Geolocation/utils.py`):
  - `GeoAgent`: the agent's parsers, its confidence history and its web query.
  - `GeoPipeline`: the optional and forced exploration runners, with the agent as an oracle.
  - `GeoUtils`: prediction parsing and bracket cleaning.
  - `GeoAnalysis`: threshold levels, exclusion ids and match rates.
- **Mock web apps** (`web_enviroments/`):
  - `Shopping`: the shopping app's rating display, its URL state round trip, its cart and modal transitions, and its product filter.
  - `Recipes`: the recipe app's filter pipeline, step index and homepage condition.

Four support modules are shared by the others:

- `Wrappers`: Option and Result.
- `Text`: Python and JavaScript string helpers.
- `Json`: Python dictionaries as ordered field lists.
- `Seqs`: sequence facts.

Code that changes state step by step is modelled as methods with loop invariants, or as classes whose methods state their new state. Pure code is modelled as functions and lemmas. The outside world becomes parameters of the model:

- geodesy (haversine distance and heading);
- the panorama metadata provider, modelled as a finite map;
- the language and vision models, modelled as functions of their request;
- randomness, modelled as an index;
- `difflib` similarity and `unicodedata` normalisation.

## Model

| member | source | states |
|---|---|---|
| Angles.RealMod | models/outdoor/navigation/utils.py:357 | Python's `%` by a positive modulus, taken on exact reals, lies in [0, m) |
| Angles.ModUnique | models/outdoor/navigation/utils.py:357 | on exact reals, the remainder is the unique r in [0, m) with x = m*k + r |
| Angles.Min3 | models/outdoor/navigation/utils.py:15-16 | `min` of three values is one of them and at most each |
| Angles.HeadingDiffNonNegativeSymmetric | models/outdoor/navigation/utils.py:15-16 | `get_heading_diff` is non-negative and symmetric in its arguments |
| Angles.AngularDiffRange | models/outdoor/navigation/utils.py:353-357 | `angular_diff` lies in [0, 180] |
| Angles.AngularDiffSymmetric | models/outdoor/navigation/utils.py:353-357 | `angular_diff(a, b) == angular_diff(b, a)` |
| Angles.AngularDiffExamples | models/outdoor/navigation/utils.py:353-357 | `angular_diff` gives 20 for (350, 10) and for (10, 350) |
| Angles.HeadingDiffIsAngularDiff | models/outdoor/navigation/utils.py:15-16 | for headings in [0, 360) `get_heading_diff` equals `angular_diff` |
| PanoGraph.NoLinksNoOrder | models/outdoor/navigation/utils.py:177-184 | a node with an empty links dictionary lists no link keys |
| PanoGraph.ParseCoord | models/outdoor/navigation/outdoor_navigation.py:275-277 | `parse_coord` succeeds only when the key splits on '-' into exactly two parts |
| PanoGraph.ParseCoordInvertsPanoKey | models/outdoor/navigation/outdoor_navigation.py:275-277 | `parse_coord` of `get_pano_id` gives back (lat, lng) for lat >= 0 and lng < 0 |
| PanoGraph.ParseCoordRejectsSouthernWestern | models/outdoor/navigation/outdoor_navigation.py:275-277 | a negative latitude gives three parts and the unpacking raises |
| PanoGraph.WithLink | models/outdoor/navigation/utils.py:211-217 | a link is recorded only when absent: an existing entry is never overwritten, other nodes and the keys are unchanged |
| PanoGraph.WithNode | models/outdoor/navigation/utils.py:219-226 | inserting a new key adds exactly that node at the end of the insertion order |
| PanoGraph.WithLinkWellFormed | models/outdoor/navigation/utils.py:211-217 | recording a link keeps every key listed once, in the graph and in each node |
| PanoGraph.WithNodeWellFormed | models/outdoor/navigation/utils.py:219-226 | inserting a node keeps every key listed once |
| Crawl.QueueKeys | models/outdoor/navigation/utils.py:190 | the node keys of the queued metadata, one per entry, in queue order |
| Crawl.GrowsTransitive | models/outdoor/navigation/utils.py:188-226 | growing the graph and the node sources twice is growing them once |
| Crawl.CompleteGrows | models/outdoor/navigation/utils.py:188-226 | adding nodes and links never uncovers a link already recorded |
| Crawl.CompleteAdd | models/outdoor/navigation/utils.py:196-226 | a popped panorama whose every link is covered joins the expanded, complete ones |
| Crawl.PopTracked | models/outdoor/navigation/utils.py:188-194 | popping the head of the queue moves its key from queued to expanded and the head is that key's panorama |
| Crawl.Drained | models/outdoor/navigation/utils.py:188-228 | when the queue is empty every node was expanded, so every near link of every node is recorded and every node holds exactly its panorama's entries; with the discovery order kept, every node other than the seed's entered through a recorded link |
| Crawl.CoversGrow | models/outdoor/navigation/utils.py:200-226 | growing keeps covered links covered, and covering the next link extends the covered prefix |
| Crawl.LinkTracked | models/outdoor/navigation/utils.py:211-217 | recording a link keeps the bookkeeping of where nodes came from |
| Crawl.NodeTracked | models/outdoor/navigation/utils.py:219-226 | inserting and queueing a new panorama records it as the source of its node |
| Crawl.InitTracked | models/outdoor/navigation/utils.py:176-186 | the seed-only graph with the seed queued has the seed as the source of its only node |
| Crawl.AddLinkKeeps | models/outdoor/navigation/utils.py:211-217 | recording a link to a nearby panorama already in the graph keeps the crawl invariant |
| Crawl.WithLinkResult | models/outdoor/navigation/utils.py:211-217 | recording such a link keeps the result properties (closed graph, seed present, all nodes near the seed) |
| Crawl.WithLinkShape | models/outdoor/navigation/utils.py:211-217 | recording such a link keeps closure, the seed entry and the distance bound |
| Crawl.SameKeysKeep | models/outdoor/navigation/utils.py:188-226 | the queue/visited bookkeeping depends only on the keys and on which nodes have links |
| Crawl.ProcessLink | models/outdoor/navigation/utils.py:200-226 | one link of the expanded node (skipped when unknown or farther than the threshold from the seed metadata) keeps the invariant, is covered, changes no other node's links, and leaves the node holding exactly the entries of its links up to this one; a node it adds is the target of the link it records |
| Crawl.FirstEntryIsFirst | models/outdoor/navigation/utils.py:200-217 | after a panorama's first n links, a target key has an entry iff one of them leads to it, and the entry is built from the first link that does |
| Crawl.RecordedNone | models/outdoor/navigation/utils.py:177-184 | a node created with no links holds exactly what no links give |
| Crawl.RecordedSkip | models/outdoor/navigation/utils.py:203-208 | a link the service does not know, or beyond the threshold, changes no entry |
| Crawl.RecordedLink | models/outdoor/navigation/utils.py:209-217 | a near link stores the target's pano id with its own heading, text and elevation, unless an earlier link already stored that target |
| Crawl.ProvenanceAdd | models/outdoor/navigation/utils.py:188-226 | expanding a node keeps every other expanded node's links and adds the new node holding exactly the entries of its panorama's links |
| Crawl.UntouchedTransitive | models/outdoor/navigation/utils.py:200-226 | leaving the other nodes' links alone twice leaves them alone |
| Crawl.AddNode | models/outdoor/navigation/utils.py:219-226 | a newly seen panorama is inserted with no links, last in insertion order, and queued, and the invariant holds |
| Crawl.DiscoveredStep | models/outdoor/navigation/utils.py:211-226 | recording a link from the expanded node, after inserting its target when new, keeps every node after the seed's the target of a recorded link of an earlier node |
| Crawl.DiscoveredReachable | models/outdoor/navigation/utils.py:175-228 | every node in insertion order is reached from the seed's node by a walk along recorded links |
| Crawl.CollectedReachable | models/outdoor/navigation/utils.py:175-228 | the crawl result has no stray nodes: every node other than the seed's is the target of some node's recorded link, and every node is reached from the seed's node along recorded links |
| Crawl.AddNodeKeeps | models/outdoor/navigation/utils.py:219-226 | inserting and queueing a nearby, unseen panorama keeps the invariant, so each key is queued once |
| Crawl.WithNodeShape | models/outdoor/navigation/utils.py:219-226 | inserting a nearby panorama without links keeps the result properties |
| Crawl.PopKeeps | models/outdoor/navigation/utils.py:188-194 | the popped key was never expanded (the `in visited` test never fires) and marking it keeps the invariant |
| Crawl.InitKeeps | models/outdoor/navigation/utils.py:176-186 | the seed-only graph with the seed queued satisfies the invariant |
| Crawl.CrawlFrom | models/outdoor/navigation/utils.py:175-228 | the crawl returns a well-formed graph, closed over its link keys, containing the seed, whose nodes and link targets all lie within the threshold of the seed; it is complete: every node was expanded from its panorama and every link of it that the service knows within the threshold is recorded; and each node's links are exactly the targets its own panorama's links lead to, each entry holding the target's pano id and the heading, text and elevation of the first link that leads there; every node other than the seed's is the target of a recorded link of a node that entered before it |
| Crawl.ProcessLinks | models/outdoor/navigation/utils.py:200-226 | the loop over the links of the expanded node keeps the invariant, covers every link, changes no other node, leaves the node holding exactly the entries of its panorama's links, and every node it adds is a link target |
| Crawl.GetPanographAroundLocation | models/outdoor/navigation/utils.py:159-228 | None exactly when there is no session token or no metadata (after the nearest-road retry); otherwise the complete crawl result from the metadata found, each node's links built from its own panorama's links, and every node other than the seed's discovered through a recorded link |
| Dijkstra.EntryLessThrough | models/outdoor/navigation/utils.py:369-372 | Python's tuple order on (distance, key) heap entries is transitive in the form the heap needs |
| Dijkstra.WalkWeightNonNegative | models/outdoor/navigation/utils.py:395-396 | with non-negative link weights every walk weighs at least 0 |
| Dijkstra.WeightPrepend | models/outdoor/navigation/utils.py:395-396 | a link in front of a walk adds that link's weight |
| Dijkstra.FrontierBound | models/outdoor/navigation/utils.py:371-403 | a walk from start to a key not yet expanded weighs at least the smallest heap entry |
| Dijkstra.PopLowest | models/outdoor/navigation/utils.py:372-384 | the key of the smallest entry, when not yet expanded, has its least distance, so marking it expanded keeps every expanded distance least |
| Dijkstra.PopTarget | models/outdoor/navigation/utils.py:372-376 | the target, when popped, has its least distance |
| Dijkstra.HeapPop | models/outdoor/navigation/utils.py:372 | `heappop` removes one smallest entry and keeps the others |
| Dijkstra.PoppedRest | models/outdoor/navigation/utils.py:372 | every entry left after a pop was in the heap and is no smaller than the one popped |
| Dijkstra.PopStale | models/outdoor/navigation/utils.py:379-380 | a stale entry is dropped and the heap bookkeeping holds |
| Dijkstra.PopExpandHeap | models/outdoor/navigation/utils.py:371-384 | a current entry's key was never expanded before, its distance is final, and marking it keeps the heap bookkeeping |
| Dijkstra.PopExpandTree | models/outdoor/navigation/utils.py:371-384 | marking the popped key expanded keeps the predecessor tree |
| Dijkstra.Relax | models/outdoor/navigation/utils.py:384-402 | relaxing one neighbour that is a graph key keeps the invariant, never changes an expanded key's distance, and leaves the neighbour no farther than the popped distance plus the link's weight |
| Dijkstra.RelaxTree | models/outdoor/navigation/utils.py:399-401 | lowering an unexpanded neighbour's distance with the popped key as predecessor keeps the predecessor tree |
| Dijkstra.RelaxTight | models/outdoor/navigation/utils.py:399-401 | after lowering a neighbour's distance every distance is still its predecessor's plus the link's weight |
| Dijkstra.RelaxHeap | models/outdoor/navigation/utils.py:399-402 | pushing the lowered distance keeps the heap bookkeeping |
| Dijkstra.Expand | models/outdoor/navigation/utils.py:384-402 | after the neighbour loop every link of the expanded key is relaxed: its distance is at most the key's plus the link's weight |
| Dijkstra.RelaxLink | models/outdoor/navigation/utils.py:384-402 | one listed link of the expanded key: a link outside the graph is skipped, any other is relaxed, and the processed links stay relaxed |
| Dijkstra.LoweredTransitive | models/outdoor/navigation/utils.py:399-401 | distances that only go down, twice, only go down |
| Dijkstra.LinksRelaxed | models/outdoor/navigation/utils.py:384-402 | once every listed link of a key is relaxed, that key joins the relaxed keys |
| Dijkstra.RelaxedExplored | models/outdoor/navigation/utils.py:384-402 | every graph neighbour of a relaxed key has a finite distance |
| Dijkstra.LowestKept | models/outdoor/navigation/utils.py:384-402 | changing no expanded key's distance keeps the expanded distances least |
| Dijkstra.CoveredStep | models/outdoor/navigation/utils.py:384-390 | one more link processed keeps the processed links covered |
| Dijkstra.Reverse | models/outdoor/navigation/utils.py:415 | `path.reverse()` puts the i-th element at position n-1-i |
| Dijkstra.WalkReaches | models/outdoor/navigation/utils.py:404-406 | a walk that starts in a set closed under links ends in it |
| Dijkstra.Reconstruct | models/outdoor/navigation/utils.py:408-416 | following predecessors gives a walk from start to target whose weight is the target's distance; start == target gives [start] |
| Dijkstra.ChainStep | models/outdoor/navigation/utils.py:410-414 | one step back along the predecessors extends the walk to the target by a link and keeps its weight equal to the target's distance |
| Dijkstra.Iterate | models/outdoor/navigation/utils.py:371-403 | one pass of the main loop keeps the invariants (every expanded key has its least distance, every expanded key's links are relaxed) and strictly decreases (unexpanded keys, heap size); a popped target has its least distance; a start outside the graph raises KeyError |
| Dijkstra.Conclude | models/outdoor/navigation/utils.py:404-416 | after the loop the result is a walk from start to target that no other walk between them undercuts, None only when the target is an unreachable key, KeyError for a target outside the graph |
| Dijkstra.DijkstraShortestPath | models/outdoor/navigation/utils.py:360-416 | a path is a walk of linked graph keys from start to target ([start] when equal) and no walk from start to target weighs less; None only for a target key no walk reaches; KeyError for a missing target or a missing start |
| Dijkstra.InitInv | models/outdoor/navigation/utils.py:362-369 | the initial state (start at 0, queued) satisfies the loop invariants |
| Dijkstra.Exhausted | models/outdoor/navigation/utils.py:371 | when the heap is empty every key with a finite distance has been expanded |
| Dijkstra.ExpandedLeast | models/outdoor/navigation/utils.py:371-403 | when every finite key is expanded, a finite target has its least distance |
| Dijkstra.StartMissing | models/outdoor/navigation/utils.py:384-386 | a start outside the graph that differs from the target raises KeyError |
| Dijkstra.WalkClosed | models/outdoor/navigation/utils.py:404-406 | with the heap exhausted, a target left at infinite distance is not reachable from start |
| Directions.SkipWhile | models/outdoor/navigation/outdoor_navigation.py:47 | the `\s*`/`\d+` scan stops at the first character that fails the class, or at the end |
| Directions.SplitLines | models/outdoor/navigation/outdoor_navigation.py:39 | `splitlines()` yields lines free of line breaks |
| Directions.Pow10 | models/outdoor/navigation/outdoor_navigation.py:50 | the scale of a decimal fraction is at least 1 |
| Directions.QuantityAt | models/outdoor/navigation/outdoor_navigation.py:47-52 | a number-and-unit match tried at an index starts with a digit there |
| Directions.Search | models/outdoor/navigation/outdoor_navigation.py:47 | `re.search` finds the leftmost index at which number-and-unit matches, and None when no index matches |
| Directions.ParseLineYields | models/outdoor/navigation/outdoor_navigation.py:40-49 | a line yields an instruction iff, stripped, it is non-blank, not "<digits>. reach destination", and holds a number with `m`/`km` at a word boundary |
| Directions.ParseLineAction | models/outdoor/navigation/outdoor_navigation.py:54-60 | "left" iff the line mentions left; "right" iff right but not left; otherwise "straight" |
| Directions.ParseLineDistance | models/outdoor/navigation/outdoor_navigation.py:47-52 | the distance is the leftmost match's value, times 1000 for km |
| Directions.ParseAll | models/outdoor/navigation/outdoor_navigation.py:39-61 | each line is parsed on its own, one result per line |
| Directions.CollectStep | models/outdoor/navigation/outdoor_navigation.py:39-61 | one more line appends at most its own instruction |
| Directions.ParseDirections | models/outdoor/navigation/outdoor_navigation.py:31-62 | the loop returns exactly the instructions of the lines, in order |
| Directions.OriginsAscending | models/outdoor/navigation/outdoor_navigation.py:39-62 | the lines an instruction comes from strictly ascend, and every parsing line is among them |
| Directions.CollectAtOrigins | models/outdoor/navigation/outdoor_navigation.py:39-62 | the k-th instruction is what its origin line parses to |
| Directions.DirectionsFollowLines | models/outdoor/navigation/outdoor_navigation.py:39-62 | at most one instruction per line, in input order, and every parsing line contributes |
| Directions.MetersIsNotAUnit | models/outdoor/navigation/outdoor_navigation.py:47 | "200 meters" does not match: the unit needs a word boundary |
| Directions.KilometresWithFraction | models/outdoor/navigation/outdoor_navigation.py:47-52 | "1.5 KM" matches case-insensitively and is 1500 metres |
| Navigator.InvSettled | models/outdoor/navigation/outdoor_navigation.py:289-305 | the top-of-loop state is a valid place for the run to end |
| Navigator.BestIndex | models/outdoor/navigation/outdoor_navigation.py:334-337 | `min` by deviation from 0 returns the first neighbour of least deviation |
| Navigator.BuildNeighbours | models/outdoor/navigation/outdoor_navigation.py:310-324 | ValueError iff some link key does not parse; otherwise one neighbour per link in insertion order, with its key, heading, relative heading (h - heading + 360) % 360 and distance from the node |
| Navigator.NextPrompt | models/outdoor/navigation/outdoor_navigation.py:367-386 | "straight" unless an instruction was taken; a taken left/right sets it; a taken straight keeps the previous, possibly unbound, prompt |
| Navigator.TrailExtend | models/outdoor/navigation/outdoor_navigation.py:292-305 | appending the current node and its position keeps visited distinct, linked and in step with the trajectory |
| Navigator.Step | models/outdoor/navigation/outdoor_navigation.py:289-409 | one iteration: a node outside the graph raises KeyError; at the target the run arrives; a link key that does not parse raises ValueError and no links raise the `min` ValueError; otherwise the decision is made on the distance to the neighbour of least deviation; a move goes to an unvisited linked neighbour and keeps `curr` out of `visited`, so the `visited[-2]` guard never fires |
| Navigator.Advance | models/outdoor/navigation/outdoor_navigation.py:350-365 | when abs(remaining) grows the next instruction is taken with its full distance, or the run ends when none is left; otherwise the distance is charged |
| Navigator.Decide | models/outdoor/navigation/outdoor_navigation.py:350-409 | the instruction bookkeeping of `Advance`, then the prompt of `NextPrompt`: no instruction left stops; an unbound prompt raises; otherwise the model's choice is taken, with the link's heading, iff it is a link of the current node and not visited, and the state carries the new instruction index, remaining distance, token usage and prompt |
| Navigator.NavigateEnvironment | models/outdoor/navigation/outdoor_navigation.py:249-424 | a bad target key or no directions raise; arrival is at the target with distinct visited nodes and fewer than max_steps of them; other exits end on the trail with at most max_steps visited, with `final_distance` the haversine distance from the parsed final node to the parsed target, and `token_usage` the decision model's answer at the last step that consulted it |
| Navigator.Conclude | models/outdoor/navigation/outdoor_navigation.py:411-424 | succeeds iff the final node parses and `token_usage` is bound; then the dict carries the final node, visited, trajectory, the haversine distance from the final node to the target and the token usage; a bad final key raises its ValueError and an unbound `token_usage` raises UnboundLocalError |
| Navigator.TokensStep | models/outdoor/navigation/outdoor_navigation.py:350-409 | an iteration that moves on holds the token usage of its own model call; one that stops reports its own call or, when the instructions ran out, the previous one |
| Navigator.TokensDecide | models/outdoor/navigation/outdoor_navigation.py:350-409 | the same for the decision once the neighbour of least deviation is known |
| Navigator.CalledLastReported | models/outdoor/navigation/outdoor_navigation.py:289-290 | a run that uses up max_steps reports the token usage of its last model call |
| Headings.InsertSorted | models/outdoor/navigation/task_env.py:85 | inserting into an ascending list keeps it ascending and adds exactly the one value |
| Headings.SortSorted | models/outdoor/navigation/task_env.py:85 | `headings.sort()` yields an ascending permutation |
| Headings.SortedNoDupStrict | models/outdoor/navigation/task_env.py:118 | sorted without repeated values means strictly ascending |
| Headings.Gap | models/outdoor/navigation/task_env.py:94 | on exact reals, the wrap-around gap `(h[(i+1) % n] - h[i]) % 360` lies in [0, 360) |
| Headings.WidestUpToMax | models/outdoor/navigation/task_env.py:91-97 | the widest-gap scan holds the first index of the largest gap seen |
| Headings.WidestGap | models/outdoor/navigation/task_env.py:91-97 | the first loop returns the index of the first widest gap: no gap is wider, every earlier gap is narrower |
| Headings.FarthestDefault | models/outdoor/navigation/task_env.py:99-112 | among defaults inside the gap, the first one of largest positive distance from both ends; while there is none the previous iteration's choice persists |
| Headings.FarthestUpToMax | models/outdoor/navigation/task_env.py:99-112 | the farthest-default scan holds the first default of largest positive distance, or the previous choice while there is none |
| Headings.FarthestMeaning | models/outdoor/navigation/task_env.py:99-112 | the scan over the four defaults makes the farthest choice |
| Headings.Egos | models/outdoor/navigation/task_env.py:80-82 | every link heading becomes `(h - cur_heading) % 360`, one per link, in link order |
| Headings.ObservationHeadings | models/outdoor/navigation/task_env.py:70-126 | the result is the function `ObservationOf`; no links raise IndexError, more than 4 fail the assert; 1-4 distinct egos give 4 strictly ascending headings holding every ego plus defaults, rotated iff the first is farther from 0 than the last |
| Headings.ObservationOf | models/outdoor/navigation/task_env.py:70-126 | a successful `get_observation_headings` gives exactly four headings |
| Headings.EgoHeadings | models/outdoor/navigation/task_env.py:79-82 | the loop collects exactly the ego-centric headings |
| Headings.Fill | models/outdoor/navigation/task_env.py:85-115 | the fill loop is the fill function from the sorted egos; no egos raise IndexError; it keeps every ego heading, adds only defaults, reaches 4 headings (or keeps more than 4) and is strictly ascending for distinct egos |
| Headings.AppendInCircle | models/outdoor/navigation/task_env.py:114 | appending a default keeps all headings in [0, 360) |
| Headings.SameElementsInCircle | models/outdoor/navigation/task_env.py:115 | a sorted permutation stays in [0, 360) |
| Headings.FillStep | models/outdoor/navigation/task_env.py:89-115 | one fill iteration is its specification function; no headings raise IndexError; it adds exactly one default; for 1-3 distinct headings it lies inside the widest gap and the headings stay distinct |
| Headings.AddDefault | models/outdoor/navigation/task_env.py:114-115 | appending a default and sorting adds exactly that default |
| Headings.AddInGap | models/outdoor/navigation/task_env.py:103-115 | a default strictly inside a gap keeps the headings distinct and strictly ascending |
| Headings.HeadingDiffPositive | models/outdoor/navigation/utils.py:15-16 | two distinct headings in [0, 360) are a positive distance apart |
| Headings.InGapFresh | models/outdoor/navigation/task_env.py:102-105 | a default inside the gap is not already a heading |
| Headings.GapsSum | models/outdoor/navigation/task_env.py:93-94 | the wrap-around gaps of 2 or 3 ascending headings sum to 360 |
| Headings.Candidate | models/outdoor/navigation/task_env.py:102-112 | a default inside the gap and apart from both ends is a candidate |
| Headings.InnerGapCandidate | models/outdoor/navigation/task_env.py:104-105 | an inner gap wider than 90 degrees holds a default |
| Headings.WrapGapCandidate | models/outdoor/navigation/task_env.py:102-103 | the wrap-around gap wider than 90 degrees holds a default |
| Headings.DefaultInWidestGap | models/outdoor/navigation/task_env.py:89-112 | with 1-3 distinct headings the widest gap always holds a candidate default |
| BreadthFirst.WalkStaysInside | models/outdoor/navigation/task_env.py:51-62 | a walk from inside a set closed under links stays inside it |
| BreadthFirst.Unvisited | models/outdoor/navigation/task_env.py:56-58 | the links queued from a node are exactly those not visited, in link order |
| BreadthFirst.UnvisitedSnoc | models/outdoor/navigation/task_env.py:56-58 | one more link is queued iff it is not visited |
| BreadthFirst.SearchStart | models/outdoor/navigation/task_env.py:47-49 | the search starts with only the source queued and satisfies the invariant |
| BreadthFirst.SearchDone | models/outdoor/navigation/task_env.py:51-59 | when the loop ends, either the target was popped or every link of a visited key was visited |
| BreadthFirst.PopTarget | models/outdoor/navigation/task_env.py:52-54 | popping the target ends the search |
| BreadthFirst.PopMissing | models/outdoor/navigation/task_env.py:52-56 | a popped key that is not a node means the graph is not closed (and the lookup raises) |
| BreadthFirst.ExpandProgress | models/outdoor/navigation/task_env.py:55-59 | expanding a key lowers the loop measure |
| BreadthFirst.Unreachable | models/outdoor/navigation/task_env.py:51-62 | a search that never popped the target shows it is unreachable |
| BreadthFirst.Prepend | models/outdoor/navigation/task_env.py:64-66 | following one more parent extends the walk and lowers the rank |
| BreadthFirst.RankedPathDistinct | models/outdoor/navigation/task_env.py:64-68 | the reconstructed path has no repeated key |
| BreadthFirst.BfsStep | models/outdoor/navigation/task_env.py:51-59 | one iteration keeps the search invariant, even where `parent_map` entries are overwritten |
| BreadthFirst.StepParents | models/outdoor/navigation/task_env.py:57-59 | recorded parents stay visited, linked, and earlier than their keys |
| BreadthFirst.StepClosure | models/outdoor/navigation/task_env.py:55-59 | every link of a visited key is visited or queued |
| TaskEnv.Expand | models/outdoor/navigation/task_env.py:56-59 | every unvisited link of the popped key is queued with that key as its parent |
| TaskEnv.Search | models/outdoor/navigation/task_env.py:47-59 | the search loop ends with the target popped or every reachable key visited; KeyError only when the graph is not closed; source == target records no parent |
| TaskEnv.SearchStep | models/outdoor/navigation/task_env.py:51-59 | one iteration keeps the invariant and lowers the loop measure |
| TaskEnv.FollowParents | models/outdoor/navigation/task_env.py:64-68 | following parents from the target gives a simple walk from source to target |
| TaskEnv.Absolute | models/outdoor/navigation/task_env.py:166-167 | the absolute headings `(h + cur_heading) % 360` lie in [0, 360) |
| TaskEnv.PyIndex | models/outdoor/navigation/task_env.py:181-182 | a Python index into a list of n succeeds iff it lies in [-n, n) |
| TaskEnv.NearestSlot | models/outdoor/navigation/task_env.py:172-177 | the loop is the scan over the heading differences; its slot is the first of least difference when one beats the initial 3600, otherwise None |
| TaskEnv.NearestUpToMin | models/outdoor/navigation/task_env.py:172-177 | the scan yields the first slot of least difference below 3600, or None when every difference is at least 3600 |
| TaskEnv.SlotsAfterMeaning | models/outdoor/navigation/task_env.py:169-179 | the slot loop over the first links succeeds iff each of them has a slot at difference 0; it fails only with AssertionError; each slot holds the node itself or a link at difference 0 |
| TaskEnv.ActionSlotsMeaning | models/outdoor/navigation/task_env.py:169-179 | the slot assignment succeeds iff every link has a slot at difference 0, and then every slot holds the node or a link at its heading |
| TaskEnv.ActionNodes | models/outdoor/navigation/task_env.py:169-179 | the loop computes the slot assignment `ActionSlots`: each link lands in the slot of its heading; AssertionError iff some link has no slot at difference 0; a later link replaces an earlier one |
| TaskEnv.PlaceLink | models/outdoor/navigation/task_env.py:172-179 | one iteration of the slot loop is one step of `SlotsAfter` |
| TaskEnv.ToAbsolute | models/outdoor/navigation/task_env.py:166-167 | the loop makes the observation headings absolute |
| TaskEnv.EgoRoundTrip | models/outdoor/navigation/task_env.py:81 | making a heading ego-centric and absolute again gives it back |
| TaskEnv.DistinctEgos | models/outdoor/navigation/task_env.py:80-82 | distinct link headings have distinct ego-centric headings |
| TaskEnv.LinksHaveSlots | models/outdoor/navigation/task_env.py:165-179 | every link heading of a node with 1-4 distinct headings reappears among the absolute observation headings |
| TaskEnv.RotateKeeps | models/outdoor/navigation/task_env.py:121-124 | the final rotation keeps every heading |
| TaskEnv.Hits | models/outdoor/navigation/task_env.py:144-151 | the number of cached views is at most the number requested |
| TaskEnv.Reward | models/outdoor/navigation/task_env.py:222-232 | reward 1 and done iff the target is reached; -0.1 iff the location is unchanged and not the target; 0 otherwise |
| TaskEnv.ObservationAt | models/outdoor/navigation/task_env.py:128-154 | a successful observation has four headings at a node of the graph and none for an unknown key |
| TaskEnv.Turn | models/outdoor/navigation/task_env.py:156-182 | `move` at a node of the graph is `MoveOf`: no links raise IndexError, an action outside [-4, 4) fails, a regular node and a valid action succeed, and the target is the node itself or a link at the chosen heading |
| TaskEnv.NaviMap.constructor | models/outdoor/navigation/task_env.py:20-24 | a new map holds the graph, heading 0 and zero cache counters |
| TaskEnv.NaviMap.GetCoordinates | models/outdoor/navigation/task_env.py:29-33 | None iff the key is unknown, otherwise the node's (lat, lng) |
| TaskEnv.NaviMap.GetMaxDegree | models/outdoor/navigation/task_env.py:35-39 | the maximum link count, 0 for an empty graph |
| TaskEnv.NaviMap.GetShortestPath | models/outdoor/navigation/task_env.py:41-68 | None for a missing source or target and for source == target; otherwise a simple linked walk from source to target, None only when unreachable, KeyError only in a graph that is not closed |
| TaskEnv.NaviMap.GetObservation | models/outdoor/navigation/task_env.py:128-154 | the result is `ObservationAt` of the node and the current heading: an unknown key observes nothing; otherwise four views are requested and the cache counters grow by four, hits by the cached ones |
| TaskEnv.NaviMap.CountViews | models/outdoor/navigation/task_env.py:144-151 | the view loop counts the cached views as hits and every view as a hit or a miss |
| TaskEnv.NaviMap.Move | models/outdoor/navigation/task_env.py:156-182 | the result and the new heading are `MoveOf` of the node, heading and action: an unknown node is returned unchanged; an error keeps the heading; otherwise the heading becomes the chosen absolute heading and the result is the same node or a link at that heading |
| TaskEnv.RateBounds | models/outdoor/navigation/task_env.py:235-236 | the cache hit rate lies in [0, 1] |
| TaskEnv.NaviEnv.constructor | models/outdoor/navigation/task_env.py:187-213 | the fields `__init__` sets before it resets: the navigation task's graph, source and target, at the source, heading 0, zero counters |
| TaskEnv.NaviEnv.Open | models/outdoor/navigation/task_env.py:187-217 | `__init__` with its reset: an observation error is passed on; otherwise the environment is at the source, heading 0, with the source's views counted, hits by the cached ones |
| TaskEnv.NaviEnv.Reset | models/outdoor/navigation/task_env.py:215-217 | reset returns to the source and its result is `ObservationAt` of the source, counting the views |
| TaskEnv.NaviEnv.Step | models/outdoor/navigation/task_env.py:219-238 | the move is `MoveOf` of the old location, heading and action and its error is passed on; the observation is `ObservationAt` of the new location; the reward follows `Reward`; done iff at the target; the hit rate divides by zero only while no view was ever requested, which after `Open` happens only when the source is not in the graph |
| TaskEnv.NaviEnv.Finish | models/outdoor/navigation/task_env.py:224-238 | the rest of `step`: the observation is `ObservationAt` of the new location; zero counters raise ZeroDivisionError; an observation error is passed on; a regular or unknown node succeeds; the reward and the hit rate are reported |
| AutoGenerator.ParseCoordinate | models/outdoor/navigation/target_gen/auto_generator.py:30-46 | an empty key raises IndexError; no separating '-' after the optional leading one raises ValueError with the key in the message |
| AutoGenerator.ParseCoordinateRoundTrip | models/outdoor/navigation/target_gen/auto_generator.py:30-46 | `parse_coordinate(f"{lat}-{abs(lng)}")` gives back (lat, lng) for lng <= 0, whatever the latitude's sign |
| AutoGenerator.FindFromIs | models/outdoor/navigation/target_gen/auto_generator.py:35-37 | `str.find` returns the first index at or after the start holding the character |
| AutoGenerator.AboveExactly | models/outdoor/navigation/target_gen/auto_generator.py:61-70 | the far nodes are exactly the nodes other than the source farther than the threshold |
| AutoGenerator.FarthestFacts | models/outdoor/navigation/target_gen/auto_generator.py:57-75 | the farthest node is not the source, no node is farther, and every node before it is strictly nearer (first on ties); with none the maximum stays -1 |
| AutoGenerator.RandomNodeAboveDistance | models/outdoor/navigation/target_gen/auto_generator.py:51-84 | raises iff some key does not parse; otherwise a far node chosen by the random index, or else the first farthest node (None when only the source exists) |
| AutoGenerator.NeverTheSource | models/outdoor/navigation/target_gen/auto_generator.py:51-84 | the chosen start node is a graph key other than the source |
| AutoGenerator.PathCoordinates | models/outdoor/navigation/target_gen/auto_generator.py:89-95 | one {lat, lng} per path node, in path order, taken from the graph; the first bad node's error otherwise |
| AutoGenerator.NodeCoordinate | models/outdoor/navigation/target_gen/auto_generator.py:92-95 | `{"lat": graph[k]["lat"], "lng": graph[k]["lng"]}`; KeyError for a missing node or field, TypeError for a non-dictionary entry |
| AutoGenerator.DigitsEnd | models/outdoor/navigation/target_gen/auto_generator.py:113-114 | `\d+` takes the whole digit run |
| AutoGenerator.SpacesEnd | models/outdoor/navigation/target_gen/auto_generator.py:113-114 | `\s*` takes the whole whitespace run |
| AutoGenerator.LineEnd | models/outdoor/navigation/target_gen/auto_generator.py:113-114 | `(.+?)(?=\n\|$)` stops at the next newline or the end |
| AutoGenerator.LastNonNewline | models/outdoor/navigation/target_gen/auto_generator.py:113-114 | the last non-newline position, where a backed-off `\s*` leaves a one-character intent |
| AutoGenerator.MatchAt | models/outdoor/navigation/target_gen/auto_generator.py:113-114 | a match at a position has a non-empty digit group and ends after it |
| AutoGenerator.FindAll | models/outdoor/navigation/target_gen/auto_generator.py:117-118 | `findall` yields left-to-right matches, each with a digit-only number |
| AutoGenerator.Tasks | models/outdoor/navigation/target_gen/auto_generator.py:127-178 | one sub-task per match |
| AutoGenerator.ParseTasks | models/outdoor/navigation/target_gen/auto_generator.py:105-180 | `parse_tasks` gives, per kind, one sub-task per match in text order |
| AutoGenerator.AppendTasks | models/outdoor/navigation/target_gen/auto_generator.py:127-147 | the loop appends exactly the sub-tasks of the matches, with `int(N)` and the stripped intent |
| AutoGenerator.Raw | models/outdoor/navigation/target_gen/auto_generator.py:129-130 | the (digits, intent) text of each sub-task |
| AutoGenerator.ParseTasksRoundTrip | models/outdoor/navigation/target_gen/auto_generator.py:105-180 | listing sub-tasks one per `*_task_intent_N: intent` line and parsing gives them back in order |
| AutoGenerator.TasksRoundTrip | models/outdoor/navigation/target_gen/auto_generator.py:113-147 | the round trip for one kind of sub-task |
| AutoGenerator.TasksOfMatches | models/outdoor/navigation/target_gen/auto_generator.py:127-147 | matches carrying the sub-tasks' numbers and intents give back the sub-tasks |
| AutoGenerator.TaskOfMatch | models/outdoor/navigation/target_gen/auto_generator.py:129-130 | `int(N)` and `strip()` read back a listed sub-task |
| AutoGenerator.LineMatches | models/outdoor/navigation/target_gen/auto_generator.py:117 | the expected matches of written lines, one per line |
| AutoGenerator.LinesFound | models/outdoor/navigation/target_gen/auto_generator.py:117 | the lines are found one by one, each search resuming after a line |
| AutoGenerator.LastLine | models/outdoor/navigation/target_gen/auto_generator.py:117 | the last line's match is the only one left |
| AutoGenerator.LineStep | models/outdoor/navigation/target_gen/auto_generator.py:117 | a line's match comes first, and the search resumes after its newline |
| AutoGenerator.NewlineSkipped | models/outdoor/navigation/target_gen/auto_generator.py:117 | a search starting at a newline moves past it |
| AutoGenerator.LineAt | models/outdoor/navigation/target_gen/auto_generator.py:113-117 | a written line matches as a whole |
| AutoGenerator.FindAllAt | models/outdoor/navigation/target_gen/auto_generator.py:117 | a search at a match takes it and resumes where it ends |
| AutoGenerator.LineMatched | models/outdoor/navigation/target_gen/auto_generator.py:113 | the pattern matches a written line at its start |
| AutoGenerator.MatchAtOf | models/outdoor/navigation/target_gen/auto_generator.py:113 | the match is given by where its digits, spaces and line end |
| AutoGenerator.LineLayout | models/outdoor/navigation/target_gen/auto_generator.py:113 | a written line has its pieces where the matcher looks for them |
| AutoGenerator.ConvertCoordinate | models/outdoor/navigation/target_gen/auto_generator.py:182-189 | TypeError iff the value is truthy but has no `len`; "(lat, lon)" for a value of length 2; "" otherwise |
| AutoGenerator.Pair | models/outdoor/navigation/target_gen/auto_generator.py:188 | unpacking succeeds iff the value iterates to exactly two items |
| AutoGenerator.ConvertedCoordinateParses | models/outdoor/navigation/target_gen/auto_generator.py:182-189 | `parse_coordinates` of task_construction.py reads back what `convert_coordinate` writes |
| AutoGenerator.EnclosedPairParses | models/outdoor/navigation/task_construction.py:61-71 | a comma-separated pair in parentheses parses to its two numbers |
| AutoGenerator.PairText | models/outdoor/navigation/target_gen/auto_generator.py:189 | the written text is the comma-separated pair in parentheses |
| AutoGenerator.TaskJson | models/outdoor/navigation/target_gen/auto_generator.py:131-177 | the sub-task dictionary starts with its id, holds its intent and ends with its kind |
| AutoGenerator.TaskJsons | models/outdoor/navigation/target_gen/auto_generator.py:147 | one dictionary per sub-task, in order |
| AutoGenerator.WithTasks | models/outdoor/navigation/target_gen/auto_generator.py:285-290 | a non-empty list replaces the entry, an empty one leaves it; other keys are untouched |
| AutoGenerator.SetOthers | models/outdoor/navigation/target_gen/auto_generator.py:286 | setting one key leaves every other key alone |
| AutoGenerator.ConvertItemWithTasks | models/outdoor/navigation/target_gen/auto_generator.py:282-292 | `embodied`/`web` are replaced only by non-empty parsed lists; everything else is kept |
| TaskConstruction.Closest | models/outdoor/navigation/task_construction.py:9-19 | the node the scan settles on is one of the keys |
| TaskConstruction.ClosestFacts | models/outdoor/navigation/task_construction.py:9-19 | None iff the graph is empty; otherwise no key is closer, and every key before it is strictly farther (first on ties, strict `<`) |
| TaskConstruction.ClosestNode | models/outdoor/navigation/task_construction.py:9-19 | the loop computes the first closest node in insertion order |
| TaskConstruction.Endpoints | models/outdoor/navigation/task_construction.py:42-43 | a non-empty crawled graph always yields a source and a target that are its keys |
| TaskConstruction.CrawlAround | models/outdoor/navigation/task_construction.py:21-31 | the crawl runs around the source with threshold `distance(source, target) * coefficient` and returns a non-empty crawl result |
| TaskConstruction.SeedIsCrawlSeed | models/outdoor/navigation/utils.py:164-173 | the crawl's seed is the metadata at the location, or at the nearest road when it has no links |
| TaskConstruction.ConstructNaviTask | models/outdoor/navigation/task_construction.py:33-49 | the navigation task's source and target are the closest keys of the crawled graph; a failed crawl raises AttributeError |
| TaskConstruction.ParseCoordinates | models/outdoor/navigation/task_construction.py:61-71 | any failure is ArgumentTypeError with the format message; success needs exactly two comma-separated parts after stripping parentheses |
| TaskConstruction.ParseCoordinatesPair | models/outdoor/navigation/task_construction.py:61-71 | "lat,lon" of two comma-free numbers parses to the two numbers |
| SceneGeometry.TrivialOnMapIsValid | models/outdoor/navigation/target_gen/utils.py:40-46 | a trivial box whose longitudes are on the map is valid |
| SceneGeometry.TrivialNotValid | models/outdoor/navigation/target_gen/utils.py:40-46 | `is_trival` does not imply `is_valid` (w = -200) |
| SceneGeometry.SceneBounds.constructor | models/outdoor/navigation/target_gen/utils.py:19-24 | the dataclass stores s, w, n, e |
| SceneGeometry.SceneBounds.Center | models/outdoor/navigation/target_gen/utils.py:25-27 | `center` is the midpoint of (n, s) and of (w, e) |
| SceneGeometry.SceneBounds.SetNe | models/outdoor/navigation/target_gen/utils.py:28-33 | setting `ne` reads back the value set and leaves `sw` unchanged |
| SceneGeometry.SceneBounds.SetSw | models/outdoor/navigation/target_gen/utils.py:34-39 | setting `sw` reads back the value set and leaves `ne` unchanged |
| SceneGeometry.Clip | models/outdoor/navigation/target_gen/utils.py:62-63 | `min(max(v, lo), hi)` lies in [lo, hi] and keeps a value already inside |
| SceneGeometry.MercatorProject | models/outdoor/navigation/target_gen/utils.py:54-64 | with clipping both outputs lie in [-pi, pi] |
| SceneGeometry.InverseMercatorProject | models/outdoor/navigation/target_gen/utils.py:67-76 | with clipping lon lies in [-180, 180] and lat in [-90, 90] |
| SceneGeometry.LongitudeRoundTrip | models/outdoor/navigation/target_gen/utils.py:54-76 | a longitude on the map survives projecting and projecting back |
| ChatBot.AddedMessageErrors | models/outdoor/navigation/target_gen/llm.py:53-63 | `add_message` raises IndexError iff the list is empty, ValueError for an unknown type, and succeeds otherwise |
| ChatBot.AddedMessageShape | models/outdoor/navigation/target_gen/llm.py:53-63 | the message count grows by at most one (a new user message iff the last role is not 'user'), and the new part is appended to the last user message |
| ChatBot.ResponseContent | models/outdoor/navigation/target_gen/llm.py:66 | the content is `response['choices'][0]['message']['content']` |
| ChatBot.ChatBot.constructor | models/outdoor/navigation/target_gen/llm.py:17-28 | a new bot has an empty message list and the given settings |
| ChatBot.ChatBot.SetModel | models/outdoor/navigation/target_gen/llm.py:30-36 | the `model` getter returns what the setter stored; nothing else changes |
| ChatBot.ChatBot.SetMaxTokens | models/outdoor/navigation/target_gen/llm.py:38-44 | the `max_tokens` getter returns what the setter stored; nothing else changes |
| ChatBot.ChatBot.AddPrompt | models/outdoor/navigation/target_gen/llm.py:50-51 | exactly one system message is appended |
| ChatBot.ChatBot.AddMessage | models/outdoor/navigation/target_gen/llm.py:53-63 | the message list becomes what `add_message` produces, also when it raises |
| ChatBot.ChatBot.ParseResponse | models/outdoor/navigation/target_gen/llm.py:65-68 | one assistant message holding the returned content is appended; a malformed response changes nothing |
| ChatBot.OpenAIChatBot.constructor | models/outdoor/navigation/target_gen/llm.py:124-135 | a new bot has no messages and no prompt |
| ChatBot.OpenAIChatBot.AddPrompt | models/outdoor/navigation/target_gen/llm.py:137-138 | the system prompt is stored, the messages are kept |
| ChatBot.OpenAIChatBot.AddMessage | models/outdoor/navigation/target_gen/llm.py:140-141 | one user message is appended |
| ChatBot.OpenAIChatBot.LoadSubTaskGen | models/outdoor/navigation/target_gen/llm.py:149-154 | state changes only when `id == 'sub_task_gen'` |
| DataFiles.FolderKind | models/outdoor/navigation/utils.py:439-472 | the first of the four folder kinds the path contains, None when it contains none |
| DataFiles.DigitSuffix | models/outdoor/navigation/utils.py:445 | the longest all-digit suffix |
| DataFiles.ExtractIndex | models/outdoor/navigation/utils.py:444-446 | `extract_index` is a number or -1 |
| DataFiles.IndexOfWritten | models/outdoor/navigation/utils.py:444-446 | `extract_index` of `<kind>_N.json` gives back N |
| DataFiles.DigitSuffixOf | models/outdoor/navigation/utils.py:445 | the digits after an underscore form the digit suffix |
| DataFiles.JsonFiles | models/outdoor/navigation/utils.py:441-442 | exactly the listed names starting with `<kind>_` and ending in `.json` |
| DataFiles.MaxIndex | models/outdoor/navigation/utils.py:475-480 | the largest index, -1 when none |
| DataFiles.MergeJson | models/outdoor/navigation/utils.py:432-508 | an unknown folder leaves `json_files` unbound; no numbered file writes nothing; otherwise slot i holds the last file numbered i (null when none), written to `os.path.join(data_folder, "<kind>_merge.json")` |
| DataFiles.PathJoin | models/outdoor/navigation/utils.py:495-503 | POSIX `os.path.join`: the name follows the folder with exactly one '/' between them, none for an empty folder or one already ending in '/'; an absolute name stands alone |
| DataFiles.MaxIndexPrefix | models/outdoor/navigation/utils.py:475-480 | the maximum of a prefix is at most the maximum of the whole |
| DataFiles.SlotEmpty | models/outdoor/navigation/utils.py:482 | a slot no file is numbered for stays null |
| DataFiles.SlotLast | models/outdoor/navigation/utils.py:485-492 | a slot holds the content of the last file numbered for it |
| DataFiles.AddTaskIds | models/outdoor/navigation/utils.py:319-342 | every dictionary of the list gets `task_id` equal to its position; a non-dictionary element raises TypeError |
| DataFiles.NumberedTasks | models/outdoor/navigation/utils.py:337-338 | each element keeps every other key and has its position as `task_id` |
| Browser.ParseAccepts | models/indoor/text-based/browser_env/envs.py:44-65 | an action parses iff its stripped pieces are `goto` and one more, or `get_by_role` with four or five pieces; every other action fails with the assertion error or `ValueError` |
| Browser.RenderParse | models/indoor/text-based/browser_env/envs.py:44-65 | a parsed script writes back out as the stripped action: nothing is dropped or reordered |
| Browser.ParsedPieces | models/indoor/text-based/browser_env/envs.py:47-63 | the script matched from the pieces carries exactly those pieces in the same order |
| Browser.ParseRender | models/indoor/vision-based/browser_env/envs.py:53-74 | every script an action can express (no blank or spaced pieces) parses back from its written form |
| Browser.PiecesParse | models/indoor/vision-based/browser_env/envs.py:56-70 | the pieces of a `goto` or `get_by_role` script match back to that script |
| Browser.SelectObservation | models/indoor/vision-based/browser_env/envs.py:109-125 | the constructor fails with `Unsupported observation type` exactly for types outside its list; text types set the text observation and clear the image one; `image` sets only the image one; `image_som` sets both |
| Browser.VisionExtendsText | models/indoor/text-based/browser_env/envs.py:99-111 | every observation type the text-based environment accepts is accepted by the vision-based one with the same three settings |
| Browser.UpdateGet | models/indoor/vision-based/browser_env/envs.py:182-183 | after `update` a key of the override holds the override's value and every other key keeps the base value |
| Browser.ViewportFor | models/indoor/vision-based/browser_env/envs.py:182-184 | computing the viewport fails exactly when the configuration's `viewport_size` is present and not a dictionary |
| Browser.ViewportOverrides | models/indoor/vision-based/browser_env/envs.py:182-184 | the viewport keeps the default's sizes except those the configuration gives, which win |
| Thor.FindHit | models/indoor/text-based/browser_env/envs.py:354-379 | the search over the objects for one expected change answers whether some object matching the name holds the expected value (isSliced and isBroken standing for each other) or, for `parentReceptacles`, has a parent of its own type |
| Thor.StateEvaluator | models/indoor/text-based/browser_env/envs.py:342-383 | with no expected change the division raises `ZeroDivisionError`; otherwise the score is hits over expected changes and the states list holds exactly the hits in order |
| Thor.ChangeHitsBound | models/indoor/text-based/browser_env/envs.py:352-379 | the hits of one object never outnumber its expected changes, and equal them exactly when every change was observed |
| Thor.HitsBound | models/indoor/text-based/browser_env/envs.py:345-383 | the hit count never exceeds the expected count, and reaches it exactly when every expected change was observed |
| Thor.ScoreRange | models/indoor/text-based/browser_env/envs.py:383 | the score lies in [0, 1] and is 1 exactly when every expected change was observed |
| Thor.SlicedBrokenInterchangeable | models/indoor/text-based/browser_env/envs.py:358 | an expected `isSliced` is met by `isBroken` and the other way round: both keys hit on the same objects |
| Thor.ReceptacleIgnoresValue | models/indoor/text-based/browser_env/envs.py:363-379 | the receptacle test compares an object's parents with the object's own type and never reads the expected value |
| Thor.RoundClose | models/indoor/text-based/browser_env/envs.py:550-551 | rounding a float to one decimal moves it by at most 0.05 |
| Thor.CleanObjectOk | models/indoor/text-based/browser_env/envs.py:556-620 | a cleaned object has none of the removed fields nor any key ending in `able`, no `axisAlignedBoundingBox`, cooking and slicing state only on food, no None, boolean or empty-list value, names cut at `_` and receptacles at `|` |
| Thor.KeptKey | models/indoor/text-based/browser_env/envs.py:563-583 | a key that survives removal is not in the removal list, does not end in `able`, and is a cooking or slicing key only on food |
| Thor.CleanEntryOkValue | models/indoor/text-based/browser_env/envs.py:587-618 | every processed value of a kept key is of the cleaned form |
| Thor.ProcessObjects | models/indoor/text-based/browser_env/envs.py:661-671 | the first loop keeps exactly the non-empty cleaned objects, in order |
| Thor.GroupObjects | models/indoor/text-based/browser_env/envs.py:674-680 | the second loop groups the cleaned objects by truthy name in first-seen order, or fails exactly when some name cannot be a dictionary key |
| Thor.FindYes | models/indoor/text-based/browser_env/envs.py:694-698 | the loop answers whether some member of the group has the key set to "yes" |
| Thor.ConsolidateGroup | models/indoor/text-based/browser_env/envs.py:685-707 | one group becomes its consolidated entry |
| Thor.ConsolidateAll | models/indoor/text-based/browser_env/envs.py:683-707 | the third loop gives one consolidated entry per group, in group order |
| Thor.ConsolidateFields | models/indoor/text-based/browser_env/envs.py:689-707 | consolidation keeps the first member's fields, except that isSliced and isCooked become "yes" where any member has them |
| Thor.FilterObjectData | models/indoor/text-based/browser_env/envs.py:649-709 | `filter_object_data` computes the clean-group-consolidate specification, failing only on an unhashable name |
| Thor.FilterOnePerName | models/indoor/text-based/browser_env/envs.py:673-709 | the output has one entry per distinct truthy name in first-seen order: every entry is named, no name repeats, and every cleaned object with a truthy name is represented |
| Thor.DrawerRejected | models/indoor/text-based/browser_env/envs.py:631-644 | an object named after a drawer is one `should_keep_object` rejects |
| Thor.ExcludedStillListed | models/indoor/text-based/browser_env/envs.py:649-709 | `filter_object_data` never consults `should_keep_object`: a drawer it would reject still appears in the output |
| Thor.RemoveChar | models/indoor/text-based/browser_env/envs.py:433 | removing a bracket character leaves every other character and none of that one |
| Thor.FindFirst | models/indoor/text-based/browser_env/envs.py:437-453 | each search loop of `parse_action` stops at the first matching object |
| Thor.FirstWhereOk | models/indoor/text-based/browser_env/envs.py:437-453 | the search result matches, and no object before it does |
| Thor.ChooseId | models/indoor/text-based/browser_env/envs.py:436-453 | the object id is the first whose type equals the name, replaced by the first slice or cracked piece when that object is sliced or broken |
| Thor.AI2ThorEnv.constructor | models/indoor/text-based/browser_env/envs.py:274-298 | a new environment has no event and no ideal states |
| Thor.AI2ThorEnv.GetObs | models/indoor/text-based/browser_env/envs.py:538-539 | the observation succeeds iff there is an event and its objects filter; it is then the filtered object list of the current event (the frame in the vision-based environment); before `reset` it raises AttributeError |
| Thor.AI2ThorEnv.Reset | models/indoor/text-based/browser_env/envs.py:302-340 | `reset` stores the ideal states and the spawn event and observes that event, or passes the controller's exception on |
| Thor.AI2ThorEnv.Teleport | models/indoor/text-based/browser_env/envs.py:455-473 | teleporting records the pose query's event and goes to the first pose, or answers that the item is not visible |
| Thor.AI2ThorEnv.ParseAction | models/indoor/text-based/browser_env/envs.py:426-488 | the answer is `ParseOf` and the event `EventAfterParse` of the action, the old event and the pose query: a malformed action or an unknown object gives the invalid-action error; otherwise the command carries the chosen object id and the action's extra arguments; only `Teleport` asks the controller, and only it changes the event |
| Thor.AI2ThorEnv.StepRejected | models/indoor/text-based/browser_env/envs.py:496-508 | a rejected action answers the current observation, success 0.0 and the parse error; it succeeds iff the observation can be taken |
| Thor.AI2ThorEnv.StepParsed | models/indoor/text-based/browser_env/envs.py:510-536 | a parsed action records the controller's event, scores it and reports its success and error message; `terminated` stays false as written; it succeeds iff there are ideal states with at least one change to score and the observation can be taken |
| Thor.AI2ThorEnv.Step | models/indoor/text-based/browser_env/envs.py:490-536 | `step` parses as `ParseOf` does; a rejected action keeps the event and answers success 0.0 with the parse error; a parsed action records the controller's event and its success; the observation is of the current event; success is 1.0 or 0.0 as the action succeeded, never terminating or truncating; a parsed action succeeds iff there are ideal states with at least one change to score and the observation can be taken, a rejected one iff the observation can be taken |
| RunEmbodied.Actions | models/indoor/text-based/run_embodied.py:189 | `trajectory[1::2]` holds the odd-indexed entries, half the trajectory's length rounded down |
| RunEmbodied.LastK | models/indoor/text-based/run_embodied.py:189 | `xs[-k:]` is a suffix of the list, the last `k` items for positive `k`, and the whole list for `k = 0` |
| RunEmbodied.AllContain | models/indoor/text-based/run_embodied.py:191-196 | the switch test raises exactly when some item cannot be searched, and otherwise holds exactly when every item contains "witch" |
| RunEmbodied.AllParseFailed | models/indoor/text-based/run_embodied.py:210-215 | the parse-failure test raises exactly when some item cannot be read, and otherwise holds exactly when every item is a non-string action of type NONE |
| RunEmbodied.Count | models/indoor/text-based/run_embodied.py:263 | the count of actions equal to the last never exceeds the number of actions |
| RunEmbodied.EarlyStopMaxSteps | models/indoor/text-based/run_embodied.py:184-186 | the step budget is checked first and stops with "Reach max steps" |
| RunEmbodied.EarlyStopNoActions | models/indoor/text-based/run_embodied.py:234-235 | without actions and within the budget there is no reason to stop |
| RunEmbodied.SwitchRule | models/indoor/text-based/run_embodied.py:188-196 | over string actions the switch rule holds exactly when the last five actions are switches |
| RunEmbodied.EarlyStopStuck | models/indoor/text-based/run_embodied.py:188-199 | five switch actions in a row, within the budget, stop with "Stuck in switch for 5 times" |
| RunEmbodied.RepeatingOffWeb | models/indoor/text-based/run_embodied.py:260-267 | outside the web environment the last rule stops exactly on ten actions equal to the last one |
| RunEmbodied.SwitchingText | models/indoor/text-based/run_embodied.py:188-269 | over string actions outside the web environment the rules after the budget stop exactly on five switches in a row or ten actions equal to the last |
| RunEmbodied.EarlyStopTextActions | models/indoor/text-based/run_embodied.py:178-269 | over string actions outside the web environment the episode stops exactly on the budget, on five switches in a row, or on ten actions equal to the last |
| RunEmbodied.NotSwitching | models/indoor/text-based/run_embodied.py:191-196 | actions that carry no "witch" key never trigger the switch rule |
| RunEmbodied.LastFailed | models/indoor/text-based/run_embodied.py:204-215 | when the last `k` actions failed to parse, the parse-failure test holds over a list of exactly `k` actions |
| RunEmbodied.EarlyStopParseFailures | models/indoor/text-based/run_embodied.py:202-218 | in the web environment `parsing_failure` failed parses in a row stop the episode with "Failed to parse web actions" |
| RunEmbodied.ResultId | models/indoor/text-based/run_embodied.py:550 | a result name without `_` raises `IndexError` |
| RunEmbodied.Basename | models/indoor/text-based/run_embodied.py:550 | the base name is a suffix of the path holding no '/' |
| RunEmbodied.ResultIds | models/indoor/text-based/run_embodied.py:548-551 | the ids of the result files are read one per file, in order, or the list raises `IndexError` when one name has no `_` |
| RunEmbodied.UnfinishedMembers | models/indoor/text-based/run_embodied.py:552-557 | a configuration is kept exactly when it is one of the given ones and its id has no result |
| RunEmbodied.UnfinishedAppend | models/indoor/text-based/run_embodied.py:553-556 | filtering keeps the order: the unfinished of two lists in turn are each list's unfinished in turn |
| RunEmbodied.UnfinishedSnoc | models/indoor/text-based/run_embodied.py:553-556 | one more configuration is kept at the end exactly when its id has no result |
| RunEmbodied.GetUnfinished | models/indoor/text-based/run_embodied.py:547-557 | `get_unfinished` keeps, in order, the configurations whose ids have no result, or raises `IndexError` on a badly named result |
| RunEmbodied.Episode.constructor | models/indoor/text-based/run_embodied.py:348-377 | an episode starts in the web environment with the first state, action history `["None"]` and nothing bought |
| RunEmbodied.Episode.Control | models/indoor/text-based/run_embodied.py:402-434 | "Buy" and "Bought" return to the web environment and start or end the purchase; "switch_environment" toggles environments, leaving the embodied one clearing its round history; each repeats the last state; other actions change nothing; an empty string action raises `IndexError` |
| RunEmbodied.ParseFailed | models/indoor/text-based/run_embodied.py:212 | a string action never counts as a failed parse; a dictionary action of type NONE does |
| Scoring.FindJsonFile | models/indoor/text-based/cal_final_score.py:5-16 | the primary record when it exists, else its backup when that exists, else nothing; whatever is found exists and ends in `.json` |
| Scoring.Renamed | models/indoor/text-based/cal_final_score.py:21-25 | an item unpacks into three values or raises; the triple keeps the object and value, and reads the property isBroken as isSliced, so no triple names isBroken |
| Scoring.ProcessStateEvaluator | models/indoor/text-based/check_state.py:19-27 | one renamed triple per item, in order, or the error of the first item that does not unpack into three values; a non-list raises `TypeError` |
| Scoring.TriplesMembers | models/indoor/text-based/check_state.py:42-50 | an object's triples are exactly `[object, key, value]` for the kept entries of its changes |
| Scoring.TriplesAll | models/indoor/text-based/cal_final_score.py:36-37 | keeping everything, there is one triple per change, in order |
| Scoring.FinalStatesMembers | models/indoor/text-based/cal_final_score.py:28-39 | all objects are read exactly when each is, and a triple belongs to the result exactly when it belongs to one object's triples |
| Scoring.DroppedReceptacles | models/indoor/text-based/check_state.py:37-52 | the comparison triples of `check_state.py` never name `parentReceptacles` |
| Scoring.AppendTriples | models/indoor/text-based/check_state.py:49-50 | the inner loop appends the object's triples to those found so far |
| Scoring.AppendObject | models/indoor/text-based/check_state.py:40-50 | one object appends its triples or raises its lookup error |
| Scoring.ExtractAll | models/indoor/text-based/check_state.py:40-50 | the outer loop computes the triples of every object in order |
| Scoring.ExtractFinalStates | models/indoor/text-based/check_state.py:37-52 | `extract_final_states` gives the triples of every object in order, without `parentReceptacles` in `check_state.py`, or raises `TypeError` on a non-list |
| Scoring.TupleOf | models/indoor/text-based/cal_final_score.py:44 | `tuple(state)` as a set element succeeds exactly on an iterable state of hashable parts, and raises `TypeError` otherwise |
| Scoring.TupleSetMembers | models/indoor/text-based/cal_final_score.py:44-45 | the set is built exactly when every state is a hashable tuple, and holds exactly their tuples |
| Scoring.TupleSetEmpty | models/indoor/text-based/cal_final_score.py:52-57 | a state list is empty exactly when its set is |
| Scoring.AllFoundIff | models/indoor/text-based/cal_final_score.py:41-48 | all ground truth is found exactly when every ground-truth state equals some evaluated state as a tuple; duplicates do not matter |
| Scoring.PercentageRange | models/indoor/text-based/cal_final_score.py:50-63 | the percentage lies in [0, 100], is 100 for an empty ground truth, fails only where `all_ground_truth_found` fails, and is 100 exactly when all ground truth is found |
| Scoring.UnhashableGroundTruth | models/indoor/text-based/cal_final_score.py:41-63 | a ground-truth triple whose value is a list (a kept `parentReceptacles`) makes both scores raise `TypeError` |
| Scoring.SortedFacts | models/indoor/text-based/check_state.py:57-58 | `sorted` gives an ascending permutation |
| Scoring.Insert | models/indoor/text-based/check_state.py:57-58 | insertion adds exactly the one item |
| Scoring.Sorted | models/indoor/text-based/check_state.py:57-58 | sorting keeps exactly the items of the list |
| Scoring.AscendingUnique | models/indoor/text-based/check_state.py:57-60 | two ascending permutations of each other are equal |
| Scoring.CompareListsIff | models/indoor/text-based/check_state.py:54-60 | comparing sorted lists is comparing multisets: order does not matter, repetitions do |
| Scoring.CompareLists | models/indoor/text-based/check_state.py:54-60 | equal sorted lists hold the same items equally often, whatever the order |
| Scoring.AnyHasIff | models/indoor/text-based/check_state.py:67-70 | the scan reports `parentReceptacles` exactly when an object holds it and every earlier one was read without, and reports none exactly when every object was read without |
| Scoring.CheckHasParentReceptacles | models/indoor/text-based/check_state.py:62-70 | the loop returns at the first object holding `parentReceptacles`, False without `Object Final States` |
| Scoring.StrippedFacts | models/indoor/text-based/check_state.py:81-83 | a stripped object no longer holds `parentReceptacles`; one that held none is left as it was |
| Scoring.RevisedClean | models/indoor/text-based/check_state.py:79-83 | the revised configuration holds no `parentReceptacles` |
| Scoring.RevisedUnchanged | models/indoor/text-based/check_state.py:79-83 | a configuration without `parentReceptacles` is revised to itself |
| Scoring.RemoveReceptacles | models/indoor/text-based/check_state.py:79-83 | the deep copy's loop strips each object in turn |
| Scoring.SaveConfigFile | models/indoor/text-based/check_state.py:72-96 | the saved data is the configuration, or when removing its revision without `parentReceptacles`; it is reported changed exactly when it had some |
| RecordChecks.ExtractEnvironment | models/indoor/text-based/check_finished.py:36-52 | a name is extracted exactly from a string mentioning `switch_environment` that holds both brackets; it holds no ']' and is shorter than the action |
| RecordChecks.ExtractEnclosed | models/indoor/text-based/cal_web_acc.py:36-52 | the name enclosed by the first pair of brackets is what is extracted, whatever follows |
| RecordChecks.SwitchCommandRoundTrip | models/indoor/text-based/check_finished.py:41-51 | the action `switch_environment [env]` gives back `env` |
| RecordChecks.ExtractShape | models/indoor/text-based/check_finished.py:48-51 | a non-empty extracted name sits right after the first '[' and right before a ']', with no bracket before that '[' |
| RecordChecks.ScanActions | models/indoor/text-based/check_finished.py:88-105 | the action scan succeeds exactly on five switch actions in a row (any other action resets the count) or on the same-action early stop |
| RecordChecks.ScanObservations | models/indoor/text-based/check_finished.py:108-110 | the observation scan succeeds exactly when some string observation shows 'Next' disabled |
| RecordChecks.ScanSwitches | models/indoor/text-based/check_finished.py:113-119 | the switch scan succeeds exactly when some switch action, not only the last, names an environment similar to the final step |
| RecordChecks.CheckFinished | models/indoor/text-based/check_finished.py:70-121 | a record without actions or observations is unfinished; one with at least 99 actions is finished; otherwise it is finished exactly when five switches come in a row, the same-action early stop appears, 'Next' is shown disabled, or a switch names the final step; `len` or iteration of a non-list raises `TypeError` |
| RecordChecks.CheckAddToCart | models/indoor/text-based/cal_web_acc.py:70-91 | a record without a shopping history passes; a history that is not a list (None when nothing was bought) fails; otherwise some string entry must mention 'Add to Cart' |
| RecordChecks.Reasons | models/indoor/text-based/cal_web_acc.py:136-144 | each reason is reported exactly when its condition holds, the missing 'Add to Cart' only when a history exists |
| RecordChecks.Verdict | models/indoor/text-based/cal_web_acc.py:129-154 | success needs an original condition and the add-to-cart check; success joins the reasons with ' & '; a failure names the missing original condition before the missing 'Add to Cart' |
| RecordChecks.CheckWebRecord | models/indoor/text-based/cal_web_acc.py:93-154 | a record succeeds exactly when 'Next' is shown disabled or a switch names the final step, and the add-to-cart check passes; a record without trajectory is reported as such; "Conditions not met" cannot occur |
| FilterImageKey.Projected | models/indoor/text-based/filter_image_key.py:26 | a dictionary observation with `text` becomes `{text}` alone; any other observation is kept |
| FilterImageKey.Filtered | models/indoor/text-based/filter_image_key.py:25-28 | one projected observation per observation, in order |
| FilterImageKey.ProjectedIdempotent | models/indoor/text-based/filter_image_key.py:26 | projecting twice is projecting once |
| FilterImageKey.FilteredIdempotent | models/indoor/text-based/filter_image_key.py:25-28 | filtering a filtered record again leaves it as it is |
| FilterImageKey.Extracted | models/indoor/text-based/filter_image_key.py:13-28 | a loaded value that is not a dictionary raises `AttributeError`; without an observation list nothing is written; otherwise every key is copied and only the observations are filtered |
| FilterImageKey.StemSuffix | models/indoor/text-based/filter_image_key.py:31-32 | the name is the stem followed by the suffix, and a non-empty suffix is a '.' and at least one other character |
| FilterImageKey.BackupName | models/indoor/text-based/filter_image_key.py:31-32 | the backup name inserts `_backup` between the stem and the suffix |
| FilterImageKey.BackupDiffers | models/indoor/text-based/filter_image_key.py:32-41 | the backup is never the record itself, so deleting the original never deletes the backup |
| FilterImageKey.Selected | models/indoor/text-based/filter_image_key.py:55-56 | a name is selected exactly when it ends in `.json` in any case, holds neither "backup" nor "config", names a file, and its number is at most 46; a number that cannot be read raises `ValueError` |
| FilterImageKey.BackupNeverSelected | models/indoor/text-based/filter_image_key.py:32-56 | a backup written by the clean-up is never selected by a later run |
| FilterImageKey.JsonFiles | models/indoor/text-based/filter_image_key.py:55-56 | the selection keeps exactly the selected names, or raises `ValueError` when some number cannot be read |
| FilterImageKey.ProcessedFolder | models/indoor/text-based/filter_image_key.py:8-47 | after one record only that record and its backup can change: a record with an observation list is replaced by its filtered copy under the backup name; anything else is left |
| FilterImageKey.ResultsFolder.constructor | models/indoor/text-based/filter_image_key.py:6 | the folder starts with the given files |
| FilterImageKey.ResultsFolder.ProcessJsonFile | models/indoor/text-based/filter_image_key.py:8-47 | processing a record updates the folder as `ProcessedFolder` says and reports an error exactly for a missing file or a non-dictionary |
| FilterImageKey.ResultsFolder.ProcessFolder | models/indoor/text-based/filter_image_key.py:49-72 | the selection is made once; when it raises nothing is processed, otherwise each selected record is processed in turn |
| FilterImageKey.ProcessedAllUntouched | models/indoor/text-based/filter_image_key.py:64-67 | a file that is neither processed nor a processed record's backup is untouched by the whole clean-up |
| FilterImageKey.BackupInjective | models/indoor/text-based/filter_image_key.py:32 | different selected names have different backups |
| FilterImageKey.ProcessedAllRecord | models/indoor/text-based/filter_image_key.py:49-72 | every selected record that held an observation list ends up deleted, with its filtered copy under the backup name |
| GeoUtils.CalculateDistance | models/Geolocation/utils.py:93-126 | the distance is infinite exactly when one of the four coordinates is not a number |
| GeoUtils.RunEnd | models/Geolocation/utils.py:135 | the greedy `[-\d.]*` run takes every coordinate character and stops at the first other one |
| GeoUtils.CoordsAt | models/Geolocation/utils.py:135 | a coordinate match is two non-empty runs of digits, '-' and '.', separated by a comma and whitespace |
| GeoUtils.RemoveSpaces | models/Geolocation/utils.py:142 | removing blanks leaves none and never lengthens the text |
| GeoUtils.FieldAfter | models/Geolocation/utils.py:136-145 | a labelled field is found exactly when the label occurs; it is the rest of that line, stripped |
| GeoUtils.CoordinatesAreRuns | models/Geolocation/utils.py:135-149 | the latitude and longitude are exactly the two runs the coordinate pattern matched |
| GeoUtils.CoordMatchShape | models/Geolocation/utils.py:135 | every reported coordinate match has the pattern's shape |
| GeoUtils.CoordTextParts | models/Geolocation/utils.py:142-149 | removing spaces, splitting on the comma and stripping give back the two runs |
| GeoUtils.NoCoordinates | models/Geolocation/utils.py:147-149 | without a coordinate match both coordinates are "" |
| GeoUtils.NoLocation | models/Geolocation/utils.py:151-155 | without the location label every location field is "" |
| GeoUtils.LocationFields | models/Geolocation/utils.py:151-155 | the first four comma-separated location parts, stripped, are the fields; later parts are ignored and missing ones are "" |
| GeoUtils.LocationRoundTrip | models/Geolocation/utils.py:151-155 | a location written as "continent, country, city, street" from comma-free trimmed parts reads back as those parts |
| GeoUtils.ReasoningRoundTrip | models/Geolocation/utils.py:134-139 | an answer laid out as the prompt asks gives back its reasoning, stripped |
| GeoUtils.CleanBrackets | models/Geolocation/utils.py:256-257 | the cleaned text neither starts nor ends with whitespace and is never longer |
| GeoUtils.CleanBracketsPeel | models/Geolocation/utils.py:256-257 | angle brackets around a text are removed |
| GeoUtils.CleanBracketsSpaced | models/Geolocation/utils.py:256-257 | inside "< " and " >" the blanks and the brackets go |
| GeoUtils.CleanBracketsNotIdempotent | models/Geolocation/utils.py:256-257 | cleaning is not idempotent: brackets behind whitespace survive the first call and go in the second |
| GeoUtils.ExtractParsedAnswer | models/Geolocation/utils.py:240-253 | the answer is the stripped text of the stop action in the parsed-action div, and `ValueError` exactly when there is none |
| GeoUtils.AnswerAt | models/Geolocation/utils.py:240-253 | the answer is the text between the stop action tags after the first opening of the parsed-action div |
| GeoUtils.NoDivNoAnswer | models/Geolocation/utils.py:245-250 | a page without the parsed-action div has no answer |
| GeoUtils.AnswerLaidOut | models/Geolocation/utils.py:245-247 | the pattern finds the answer where it was rendered |
| GeoUtils.ExtractRoundTrip | models/Geolocation/utils.py:240-253 | a stop action rendered in the parsed-action div gives back its answer, stripped, when nothing around it can be taken for it |
| GeoAnalysis.FirstWithin | models/geolocation/visualization.py:17-19 | the scan stops at the first threshold the distance does not exceed, every earlier one being exceeded |
| GeoAnalysis.DetermineThreshold | models/geolocation/visualization.py:16-20 | `determine_threshold` names the level of the distance |
| GeoAnalysis.LevelExact | models/geolocation/visualization.py:7-20 | level `i` is exactly the distances above the previous threshold and at most the `i`-th |
| GeoAnalysis.StreetLevel | models/geolocation/visualization.py:7-20 | up to one kilometre is street level |
| GeoAnalysis.BoundaryInclusive | models/geolocation/visualization.py:18 | each threshold belongs to its own level |
| GeoAnalysis.BeyondContinent | models/geolocation/visualization.py:20 | more than 2500 km, or an infinite distance, is beyond continent level |
| GeoAnalysis.LevelMonotone | models/geolocation/visualization.py:16-20 | a larger distance never gets a finer level |
| GeoAnalysis.ExcludeFrom | models/geolocation/analysis.py:13 | the ids are the ints of the non-blank parts, or `ValueError` when one is not an int |
| GeoAnalysis.LoadExcludeIds | models/geolocation/analysis.py:9-14 | nothing is excluded without the flag or with an empty one; otherwise the ints of its comma-separated parts |
| GeoAnalysis.ExcludeRoundTrip | models/geolocation/analysis.py:9-14 | ids written out and joined by commas are excluded exactly |
| GeoAnalysis.NormalizeText | models/geolocation/analysis.py:54-60 | anything but a string normalises to ""; a normal form has no combining marks |
| GeoAnalysis.NormalizePlain | models/geolocation/analysis.py:54-60 | a text that NFKD leaves alone and that has no combining marks is its own normal form |
| GeoAnalysis.MissingMatchesMissing | models/geolocation/analysis.py:120-136 | a field missing on both sides counts as a match |
| GeoAnalysis.DropExcluded | models/geolocation/analysis.py:114-117 | the kept rows are exactly those whose id is not excluded |
| GeoAnalysis.DropNothing | models/geolocation/analysis.py:114-117 | excluding nothing keeps every row in order |
| GeoAnalysis.CountAllWithin | models/geolocation/analysis.py:83 | rows where all four fields match are among the rows where each one does |
| GeoAnalysis.AnalyzeResults | models/geolocation/analysis.py:63-96 | no rates without data; otherwise each field's match rate and the all-four rate, which lies in [0, 1] and is never above any field's |
| GeoAnalysis.Level | models/geolocation/visualization.py:16-20 | the level index runs from street (0) to beyond continent (5) |
| GeoAnalysis.Count | models/geolocation/analysis.py:72-83 | the number of matching rows never exceeds the number of rows |
| GeoAnalysis.RatesOf | models/geolocation/analysis.py:72-83 | each rate is its count over the total, and the all-four rate is within every field's rate |
| GeoAgent.ModelFamilyToApiStyle | models/geolocation/agent.py:14-24 | Gemini models have the "gemini" style; gpt, qwen and internvl models the "gpt" style; any other model raises `ValueError("Unknown model: ...")` |
| GeoAgent.FamiliesHaveStyles | models/geolocation/run.py:40-67 | every family a run accepts has an API style, and only "gemini" has the Gemini one |
| GeoAgent.FormatText | models/geolocation/agent.py:28-34 | the text is wrapped for gpt, raw for Gemini, and None for every other family |
| GeoAgent.Formatted | models/geolocation/agent.py:194 | each text is formatted in order |
| GeoAgent.TextEntries | models/geolocation/agent.py:53 | the text entries are read out of the context, or a text entry without "text" raises `KeyError` |
| GeoAgent.QueryHistory | models/geolocation/agent.py:50-56 | the query history is the context itself for Gemini; for families other than gpt, qwen and Gemini it is never bound and raises `UnboundLocalError` |
| GeoAgent.TextEntriesFormatted | models/geolocation/agent.py:34-53 | the gpt messages `format_text` builds are read back as their texts |
| GeoAgent.HistoryOfFormatted | models/geolocation/agent.py:50-58 | for gpt and Gemini the query history is exactly the texts formatted into the web context |
| GeoAgent.QwenHistoryEmpty | models/geolocation/agent.py:28-53 | qwen formats every web result to None, so its query history is always empty |
| GeoAgent.NonNull | models/geolocation/agent.py:90-109 | dropping the None entries keeps exactly the other entries |
| GeoAgent.CallVlm | models/geolocation/agent.py:83-88 | the call raises exactly when the family has no API style, and otherwise is the model's answer to the prompt with the None entries of the context dropped |
| GeoAgent.ActionLine | models/geolocation/agent.py:136 | the search finds the first line starting with "Action:", or none |
| GeoAgent.ParseAction | models/geolocation/agent.py:136-140 | an action is found exactly when some line starts with "Action:", and is a single stripped line |
| GeoAgent.ActionOnNextLine | models/geolocation/agent.py:136-139 | an action written on the line after "Action:" is still found, since the whitespace after the marker spans the line break |
| GeoAgent.LevelAt | models/geolocation/agent.py:164 | the alternation `(High\|Medium\|Low)` matches the level whose word is there, or none |
| GeoAgent.ParseConfidence | models/geolocation/agent.py:164-168 | a level is found exactly when some "Confidence:" marker is followed by one |
| GeoAgent.ConfidenceRoundTrip | models/geolocation/agent.py:162-168 | "Confidence: level" with no earlier marker reads back as the level |
| GeoAgent.QueryField | models/geolocation/agent.py:145-154 | a web-query field is stripped and bracket-cleaned, "" without its marker |
| GeoAgent.FieldRoundTrip | models/geolocation/agent.py:145-148 | a field written as "marker value" on its own line, with no earlier marker, reads back as the value |
| GeoAgent.FailureDetected | models/geolocation/agent.py:211-220 | a known failure, in any letter case, anywhere in the result makes it a failure |
| GeoAgent.EmptyIsSuccess | models/geolocation/agent.py:211-220 | an empty result counts as a success, which is why the caller rejects "" separately |
| GeoAgent.ConfidenceContext | models/geolocation/agent.py:63-69 | the context is the images alone without web results, else the images, a copy of the web results and the note |
| GeoAgent.EvaluateConfidence | models/geolocation/agent.py:63-72 | evaluating confidence raises exactly when the family has no API style |
| GeoAgent.GenerateActionFor | models/geolocation/agent.py:44-48 | generating an action raises exactly when the family has no API style |
| GeoAgent.GenerateWebQueryFor | models/geolocation/agent.py:50-61 | generating a web query raises exactly when the query history cannot be formed |
| GeoAgent.WebQueryFrom | models/geolocation/agent.py:186-208 | the attempts report the first accepted result within `max_new_queries + 1` attempts, or the last result as the fallback, with three history lines |
| GeoAgent.Transcript.constructor | models/geolocation/pipeline.py:37-40 | a transcript starts with no images, no web context and no moves |
| GeoAgent.Transcript.IsConfident | models/geolocation/agent.py:172-180 | `is_confident` appends exactly one move-history entry and holds exactly when the answer is High; the web context is left as it was |
| GeoAgent.Transcript.DoWebQuery | models/geolocation/agent.py:184-208 | `do_web_query` adds exactly one web-context entry and three move-history lines, from the first accepted result or the fallback |
| GeoPipeline.Ids | models/geolocation/pipeline.py:43 | the adjacent ids, one per adjacent standpoint, in order |
| GeoPipeline.Views | models/geolocation/pipeline.py:13-32 | a caption and a picture per heading, the pictures taken facing each heading in turn |
| GeoPipeline.AddImages | models/geolocation/pipeline.py:12-32 | `add_images` appends a caption and a picture for each of the four headings, north first, or raises for a family without an API style; nothing else changes |
| GeoPipeline.ValidActions | models/geolocation/pipeline.py:64-70 | there are no more valid actions than adjacent ids |
| GeoPipeline.ValidActionsMembers | models/geolocation/pipeline.py:67-70 | an action is valid exactly when it moves to an adjacent id not yet visited |
| GeoPipeline.AllVisitedNoAction | models/geolocation/pipeline.py:72-116 | once every adjacent id is visited no action is valid and the loop ends |
| GeoPipeline.CollectValidActions | models/geolocation/pipeline.py:64-70 | the loop builds exactly the valid actions in adjacency order |
| GeoPipeline.TargetFrom | models/geolocation/pipeline.py:93 | the target is the text between "Move[" and the next ']' on one line, or `.group` on no match raises `AttributeError` |
| GeoPipeline.MoveTargetOf | models/geolocation/pipeline.py:69-93 | the target of a move to a well-formed id is that id |
| GeoPipeline.Lookup | models/geolocation/pipeline.py:94 | the lookup finds an adjacent standpoint with the id, and nothing exactly when no adjacent id is that id |
| GeoPipeline.Choose | models/geolocation/pipeline.py:74-87 | a chosen action is always one of the valid actions |
| GeoPipeline.ChooseNone | models/geolocation/pipeline.py:78-87 | no action is chosen exactly when the request and its three retries all came back invalid |
| GeoPipeline.ChooseAction | models/geolocation/pipeline.py:74-87 | `generate_action` and its up to three retries give the first valid answer, or none |
| GeoPipeline.MoveIsFresh | models/geolocation/pipeline.py:67-95 | with well-formed ids every valid action leads to an adjacent standpoint not yet visited |
| GeoPipeline.ValidActionsAreMoves | models/geolocation/pipeline.py:91 | every valid action is a move, so the `startswith("Move")` test always passes |
| GeoPipeline.Look | models/geolocation/pipeline.py:92-112 | after a move the target is adjacent; a confident answer is the last move-history entry; the web context only grows |
| GeoPipeline.Explore | models/geolocation/pipeline.py:62-118 | at most `iter_num` moves, each to an adjacent standpoint, none repeated when ids are well formed; failure only when a request and its retries all fail; an early stop means no action was left or the agent was confident |
| GeoPipeline.RunOptional | models/geolocation/pipeline.py:36-118 | `run_optional` visits at most `iter_num` adjacent standpoints without repeats and fails only when a move request and its three retries all fail; a run that moved has made a web query |
| GeoPipeline.RunForced | models/geolocation/pipeline.py:122-202 | `run_forced` keeps the same bounds, and every successful run has made a web query |
| Shopping.Repeat | web_enviroments/shopping/src/App.js:434-442 | a star loop pushes `n` copies of the star, none when `n` is not positive |
| Shopping.RenderRating | web_enviroments/shopping/src/App.js:429-444 | the three loops of `renderRating` produce the full, half and empty stars of the rating |
| Shopping.StarsShape | web_enviroments/shopping/src/App.js:429-444 | the floor of the rating in full stars comes first, a half star appears exactly when the fraction reaches one half, and a rating between 0 and 5 gets five stars in all |
| Shopping.DigitRun | web_enviroments/shopping/src/App.js:459 | the digit run stops at the first non-digit |
| Shopping.JsParseIntString | web_enviroments/shopping/src/App.js:459-483 | `parseInt(String(n), 10)` gives back `n` |
| Shopping.QuantityInput | web_enviroments/shopping/src/App.js:906 | `parseInt(value, 10) \|\| 1` is never zero |
| Shopping.QuantityInputString | web_enviroments/shopping/src/App.js:906 | a typed quantity is read back with its sign, and 0 becomes 1 |
| Shopping.QueryOfConcat | web_enviroments/shopping/src/App.js:449-455 | reading the parameters of two lists one after the other takes each key from the first list that has it |
| Shopping.FindStore | web_enviroments/shopping/src/App.js:459 | the store found has the id, and none is found exactly when no store has it |
| Shopping.FindProduct | web_enviroments/shopping/src/App.js:469 | the product found is in the catalogue with the id, and none is found exactly when no product has it |
| Shopping.FirstSize | web_enviroments/shopping/src/App.js:584 | a product has a first size exactly when it has sizes |
| Shopping.SizeFrom | web_enviroments/shopping/src/App.js:474-480 | the size is the one in the URL when the product offers it, else the first size, and none only for a product without sizes |
| Shopping.QtyFrom | web_enviroments/shopping/src/App.js:482-486 | the quantity is the URL's when it is a positive integer, else 1 |
| Shopping.FromQuery | web_enviroments/shopping/src/App.js:448-505 | the initial state has a store, never both modals open, the purchase modal exactly with a product, a catalogue product with a valid size, and a positive quantity |
| Shopping.FindProductIn | web_enviroments/shopping/src/App.js:469 | with unique ids a catalogue product is found by its own id |
| Shopping.StoreParamsRead | web_enviroments/shopping/src/App.js:457-461 | the store part of the URL reads back as the store |
| Shopping.SearchParamsRead | web_enviroments/shopping/src/App.js:529-531 | the search part of the URL reads back as the search term |
| Shopping.PurchaseParamsRead | web_enviroments/shopping/src/App.js:534-544 | the purchase modal's part reads back as its product, size and quantity |
| Shopping.CartParamsRead | web_enviroments/shopping/src/App.js:546-548 | the cart part reads back as whether the cart is open |
| Shopping.UrlRoundTrip | web_enviroments/shopping/src/App.js:448-566 | reading back the URL written for a describable state restores its store, search, product, modals, and, while the purchase modal is open, its size and quantity |
| Shopping.NegativeQuantityNotKept | web_enviroments/shopping/src/App.js:541-543 | a negative quantity typed in the field is not written to the URL and comes back as 1 |
| Shopping.OpenPurchase | web_enviroments/shopping/src/App.js:581-588 | opening the purchase modal selects the product with its first size and a quantity of 1 and closes the cart |
| Shopping.ClosePurchase | web_enviroments/shopping/src/App.js:590-596 | closing the purchase modal deselects the product, size and quantity staying |
| Shopping.OpenCart | web_enviroments/shopping/src/App.js:598-602 | opening the cart closes the purchase modal and deselects the product |
| Shopping.CloseCart | web_enviroments/shopping/src/App.js:604-606 | closing the cart keeps the rest coherent |
| Shopping.SelectStore | web_enviroments/shopping/src/App.js:569-574 | a store change selects a known store, or none for an unknown value |
| Shopping.TransitionsDescribable | web_enviroments/shopping/src/App.js:581-606 | the modal transitions keep the state describable by the URL |
| Shopping.Filtered | web_enviroments/shopping/src/App.js:576-578 | the filtered products are exactly those whose lower-cased name contains the lower-cased search, in catalogue order |
| Shopping.FindPrice | web_enviroments/shopping/src/App.js:833-835 | the price found is the store's, and none exactly when the store has no price |
| Shopping.ItemFor | web_enviroments/shopping/src/App.js:845-856 | the cart item carries the product, size and quantity, priced at the store's price or 0 where the store has none; a missing store raises `TypeError` |
| Shopping.RemoveAt | web_enviroments/shopping/src/App.js:616 | removing an index drops exactly that item, and an index out of range drops nothing |
| Shopping.Shop.constructor | web_enviroments/shopping/src/App.js:508-518 | the page opens in the state its URL describes, with an empty cart |
| Shopping.Shop.OpenPurchaseModal | web_enviroments/shopping/src/App.js:581-588 | the purchase modal opens as `OpenPurchase` says and the cart is unchanged |
| Shopping.Shop.ClosePurchaseModal | web_enviroments/shopping/src/App.js:590-596 | the purchase modal closes as `ClosePurchase` says |
| Shopping.Shop.OpenCartModal | web_enviroments/shopping/src/App.js:598-602 | the cart opens as `OpenCart` says |
| Shopping.Shop.CloseCartModal | web_enviroments/shopping/src/App.js:604-606 | the cart closes as `CloseCart` says |
| Shopping.Shop.ChangeStore | web_enviroments/shopping/src/App.js:569-574 | the store changes as `SelectStore` says |
| Shopping.Shop.TypeSearch | web_enviroments/shopping/src/App.js:720-727 | typing sets the search term and nothing else |
| Shopping.Shop.ChooseSize | web_enviroments/shopping/src/App.js:884-890 | choosing sets the size and nothing else |
| Shopping.Shop.TypeQuantity | web_enviroments/shopping/src/App.js:899-907 | typing sets the quantity as the field reads it and nothing else |
| Shopping.Shop.AddToCart | web_enviroments/shopping/src/App.js:609-613 | adding appends the item and closes the purchase modal |
| Shopping.Shop.RemoveCartItem | web_enviroments/shopping/src/App.js:615-617 | removing drops exactly the item at the index |
| Shopping.Shop.Checkout | web_enviroments/shopping/src/App.js:619-623 | checkout empties the cart and closes it |
| Shopping.JsParseInt | web_enviroments/shopping/src/App.js:459-483 | `parseInt` gives a number only for a present parameter |
| Recipes.LowerAll | web_enviroments/recipe/src/App.js:717-727 | each value lower-cased, in order |
| Recipes.FilterBy | web_enviroments/recipe/src/App.js:700-729 | `filter` keeps exactly the accepted recipes, in order |
| Recipes.FilterByTwice | web_enviroments/recipe/src/App.js:694-730 | filtering twice in a row is filtering once by both tests |
| Recipes.SkippedStage | web_enviroments/recipe/src/App.js:699-724 | a stage its guard skips is a stage that accepts every recipe |
| Recipes.FilteredIsOneFilter | web_enviroments/recipe/src/App.js:693-733 | the chain of guarded filters is one filter by all the active tests together |
| Recipes.SpecIsKeep | web_enviroments/recipe/src/App.js:697-729 | the combined test holds exactly when the trimmed lower-cased query is blank or in the lower-cased name, the diet and difficulty match ignoring case when set, and every selected ingredient and equipment is listed ignoring case |
| Recipes.ListedStages | web_enviroments/recipe/src/App.js:716-729 | the ingredient and equipment stages ask that every selected value, lower-cased, is listed by the recipe |
| Recipes.FilteredRecipes | web_enviroments/recipe/src/App.js:693-733 | the filtered list is an order-preserving sublist of the recipes holding exactly the recipes the filters keep |
| Recipes.NoFiltersKeepsAll | web_enviroments/recipe/src/App.js:693-733 | with a blank query and no filter set every recipe is listed |
| Recipes.PreviousStep | web_enviroments/recipe/src/App.js:921 | Previous moves back one step and never below 0 |
| Recipes.NextStep | web_enviroments/recipe/src/App.js:932 | Next moves on one step and never past the last |
| Recipes.StepsStayInRange | web_enviroments/recipe/src/App.js:921-934 | for a recipe with steps both buttons keep the index a valid step |
| Recipes.NextWithoutSteps | web_enviroments/recipe/src/App.js:932 | for a recipe without steps Next moves the index to -1 |
| Recipes.StepView.constructor | web_enviroments/recipe/src/App.js:654-656 | the view starts with no recipe selected at step 0 |
| Recipes.StepView.SelectRecipe | web_enviroments/recipe/src/App.js:689-691 | choosing a recipe selects it and puts the index back to 0 when the selection changes |
| Recipes.StepView.Previous | web_enviroments/recipe/src/App.js:921 | the Previous button sets the index as `PreviousStep` says and keeps the recipe |
| Recipes.StepView.Next | web_enviroments/recipe/src/App.js:932 | the Next button sets the index as `NextStep` says and keeps the recipe |
| Recipes.ImageUrl | web_enviroments/recipe/src/App.js:735-741 | the placeholder is given exactly when the recipe, its name or its image is missing |
| Recipes.HomepageListsAll | web_enviroments/recipe/src/App.js:744-751 | the homepage content is shown only over the full, unfiltered list |

## Left out

- Remote services are left out: session tokens, Street View metadata requests, snap-to-road, nearest-edge lookup and image fetching. The metadata provider is a finite map parameter. Whether a view is already in the image cache is a parameter `cached`; the hit and miss counters themselves are modelled.
- Floating-point geodesy is left out: haversine, heading, `get_meta_distance` and the numeric path of `calculate_distance`. Distances and headings are parameters; the only assumption is that distances are non-negative.
- Language and vision model clients and their prompts are left out (`call_llm`, `ChatBot.send`, image encoding, the prompt modules). A model's answer is a parameter, namely a function of the request and, where the source retries, of the attempt number.
- Browser and simulator plumbing is left out (Playwright setup, reset and step; AI2-THOR controller internals). The controller's `event.metadata` is input data.
- File and console I/O is left out: reading and writing JSON, directory listing, printing and logging. File contents and directory listings are parameters.
- Thread pools and async gathering are left out, because each task is processed independently.
- Orchestration scripts and `__main__` blocks are left out: `inference.py`, `geolocation/run.py`, `baseline.py`, `calculate_result.py`, `combine_score.py` and `calculate_accuracy`. `models/Geolocation/interactive_v2.py` is not part of this model either; it duplicates the agent and pipeline and does not parse as Python.
- `standpoint.py`, `target_gen/generator.py` and `target_gen/google_maps.py` are thin wrappers over remote calls and are left out.
- UI is left out: the home app, JSX rendering, `NaviEnv.render` and the Streamlit parts of `visualization.py`. This includes the `visualize_map=True` branch of `NaviEnv.__init__` (task_env.py:196-210): the osmnx map, and its asserts that a path exists and that no node has more than 4 links.
- Dijkstra: the binary-heap layout of `heapq` is not modelled. The heap is a sequence, and a pop removes an entry that no other entry precedes in Python's (distance, key) tuple order. That order is total on distinct entries, so the popped entry is the one `heapq` pops.
- PanoGraph: keys are a plain concatenation of latitude and longitude text. Their injectivity is not stated, because the source does not guarantee it.
- Navigator.NavigateEnvironment: `token_usage` is unbound when no agent call happens, and `action_prompt` is unbound when the first instruction taken is "straight". Both are modelled as an `UnboundLocalError` result, as written.
- Headings: `max_min_diff_head` persists across loop iterations and may be stale. It is unbound on the first iteration without a gap; both are modelled as written.
- Thor.AI2ThorEnv.Step: `terminated` is always false, because a tuple is compared with 1.0. This is modelled as written.
- Floats: Python floats are modelled as exact reals. Rounding is not modelled. So `%` on a tiny negative value, which in floats can round to the modulus itself (`-1e-20 % 360.0 == 360.0`), stays below the modulus in the model. Also, `get_observation_headings` (task_env.py:81) can produce an ego heading of 360.0 in floats but not in the model. Dijkstra's sums of haversine weights are exact sums, so its minimality is stated for exact weights.
- RealMod (Angles.RealMod): the range [0, m) holds on exact reals only. A float `%` can return m itself when a tiny negative operand rounds.
- ModUnique (Angles.ModUnique): the unique-remainder statement is about exact reals. A float remainder may be m after rounding, which no r in [0, m) matches.
- Gap (Headings.Gap): the gap lies in [0, 360) on exact reals only. In floats a tiny negative difference can give a gap of 360.0.
- Thor: `round(x, 1)` is modelled on the exact real value of the float; binary floating-point representation error is not modelled.
- The deprecated `state_evaluator_step` is left out.
- Text: Python's `strip`, `lower`, `isspace`, the `\s`, `\d` and `\w` classes of `re` and its `\b` word boundary, and JavaScript's `trim` and `toLowerCase`, are modelled on ASCII characters only. Non-ASCII whitespace, Unicode digits and non-ASCII case mappings are not modelled. The members this affects are listed below.
- SkipWhile (Directions.SkipWhile): `\s` and `\d` are modelled on ASCII only. Python's `re` on `str` also accepts non-ASCII whitespace and Unicode decimal digits, which the model does not.
- QuantityAt (Directions.QuantityAt): the `\b` after the unit is modelled with ASCII word characters only. In Python, a non-ASCII letter right after the unit (as in "5 mé") is a word character, so there is no boundary and no match; the model matches.
- Search (Directions.Search): inherits the ASCII `\b` of `QuantityAt`, so it can report a match Python's `re.search` does not find after a non-ASCII letter.
- ParseLineYields (Directions.ParseLineYields): inherits the ASCII `\b`, and `\s`/`\d` on ASCII only, so its iff is stated for ASCII text.
- ExtractIndex (DataFiles.ExtractIndex): `\d+` is modelled on the ASCII digits only; a name ending in Unicode decimal digits gives -1 in the model.
- DigitSuffix (DataFiles.DigitSuffix): counts ASCII digits only; Unicode decimal digits end the suffix.
- DigitsEnd (AutoGenerator.DigitsEnd): `\d+` is modelled on the ASCII digits only; Unicode decimal digits are not modelled.
- SpacesEnd (AutoGenerator.SpacesEnd): `\s*` is modelled on ASCII whitespace only (`Text.IsSpace`); non-ASCII whitespace is not modelled.
- FieldAfter (GeoUtils.FieldAfter): `strip()` is modelled on ASCII whitespace only; non-ASCII whitespace is not stripped in the model.
- ParseAction (GeoAgent.ParseAction): `strip()` and `lower()` are modelled on ASCII only; non-ASCII whitespace and case mappings are not modelled.
- LowerAll (Recipes.LowerAll): `toLowerCase` is modelled on ASCII letters only; other case mappings are not modelled.
- SpecIsKeep (Recipes.SpecIsKeep): `trim` and `toLowerCase` are modelled on ASCII only, so the filter equivalence is stated for ASCII case and whitespace.
- ViewportFor (Browser.ViewportFor): `dict.update` also accepts an iterable of key-value pairs. The model accepts only a dictionary and raises TypeError for any other value.
- CompareListsIff (Scoring.CompareListsIff): requires a strict total order on the items. Python's `sorted` raises TypeError on items it cannot compare, which the model does not represent.
- GeoAgent: `format_text` gives None for a family other than gemini or gpt, and `generate_web_query` raises `UnboundLocalError` for internvl. Both are modelled as written.
- GeoPipeline: `run_vwa` is called with a signature it does not have. It is a parameter of the model.
- GeoPipeline.RunForced: the target is appended to `visited` before the neighbour lookup that can fail. So "visited holds only adjacent ids" is stated for successful runs only.
- GeoPipeline: ids containing ']' or a newline cannot be told apart in `Move[...]` text. The round trip of valid actions requires well-formed ids.
- GeoPipeline: the `startswith("Move")` test always holds for a valid action, so its false branch is not modelled.
- Python `int()` is modelled on decimal digit strings with an optional sign. Underscores and surrounding whitespace forms beyond `strip` are not modelled.
- GeoUtils.CleanBrackets: `strip("<>")` removes every '<' and '>' at the ends, not one pair. This is modelled as written.
- GeoUtils.LocationRoundTrip is stated over the comma join of the four fields, not over the literal ", " concatenation of each field.
- Shopping: URL percent-encoding is abstracted to the identity on parameter values. JavaScript whitespace and lower-casing are ASCII only.
- Shopping: `calculateDistance`, `toFixed`, the stores' coordinates, `history.pushState` and `alert` are left out. The product table and store list are parameters.
- Shopping: a negative quantity is kept in state but is not written to the URL, so the round trip is stated for quantity at least 1.
- Shopping: the colour selection is local component state and is passed as a parameter. An unknown store gives no price.
- Recipes: `fetch` and the loading flag's transitions are left out; the recipes are a parameter. The search debounce timer is left out, and the debounced query is a parameter.
- Recipes: React's object identity is modelled as value equality. Lines 1-465 of `web_enviroments/recipe/src/App.js` are commented out and not modelled.
- Recipes: Next on a recipe with no steps sets the index to -1, as written.
