# The pub crawler, verified

A Dafny model of the ActivityPub crawler: its job queue and workers, the handlers
that discover jobs, the rate limiter and the client that share the network, the
cached graph store, and the scripts that migrate the queue and copy the graph out.
`dafny verify dfyconfig.toml` checks everything.

## What is proved

**The crawl.** `Protocol.dfy` is a state machine whose steps are single Redis
commands, single graph calls and single decisions of a coroutine; workers, seeding
scripts and the reaper interleave freely. `Web.dfy` works out, from the documents
alone, the list of calls each handler makes, and `Documents.dfy` says of the raw JSON what
that leads to. On every run of it:

- no seen job is ever lost, with reaping and duplicates (`Conservation.dfy`);
- without reaping each job is in exactly one place, popped once and ended once, and
  the sizes add up to that of the seen set (`ExactlyOnce.dfy`);
- a quiet state is a closed one, reaping included (`Closure.dfy`);
- every job's depth is the hop count of a real discovery chain and respects the
  gate, although pages have none of their own (`DepthSoundness.dfy`);
- without reaping every step of every schedule shrinks a measure (`Termination.dfy`), and
  a state that can go no further while a worker is idle is finished (`Progress.dfy`);
- with one worker jobs come out level by level, up to a depth limit of 99, and a
  finished crawl handled exactly what the web offers within the gate, each resource at
  its minimum depth, up to a limit of 100 (`BreadthFirst.dfy`, `MinimumDepth.dfy`);
- with any number of workers a finished crawl handled nothing but what the web offers,
  and all of it exactly when what the collections handled on the depth limit would have
  led to below it was handled too; so on every web where no collection can be met both
  on the limit and below it (`Coverage.dfy`);
- a lease is never reaped before MAX_INFLIGHT has passed since it was last taken, nor, by the
  clock, since the job was popped for it, and an abandoned one is queued again within two lease lengths (`Lease.dfy`);
- what `join` sees: one joint read is exact, two reads are not (`Join.dfy`).

Crawls built visit by visit (`Visits.dfy`, `Line.dfy`) show that these conditions cannot go:
each of the two depth limits (`DepthLimit.dfy`), the single worker of the minimum depth, and
the condition on the limit with several (`TwoWorkers.dfy`).

`Dispatcher.dfy`, `HandleItems.dfy`, `Handlers.dfy` and `Crawler.dfy` are the code in its own
imperative form: classes whose methods change the store and the graph one command at
a time, with other coroutines running at every `await`. Each method is proved to take
only steps of the protocol, appended to the run the program has produced so far, so the
results above are results about it. A worker sees every job it pops through to its end, a
reaper pass puts back all it lists, and what `join` answers is tied to states of that run.
A clock goes on meanwhile: whatever time a command carries was read since the coroutine's
command before (`Clock.dfy`). `CrawlFromSeeds`
sets everything up, runs seeds and one worker to the end, and is proved to be a breadth-first traversal whose
depths stand in the database tables. The atomicity is that of the code: a pop and its
lease are two commands, an enqueue three, an enqueue-if-unseen two.

**The queue encoding.** `Text.dfy` and `Codec.dfy`: the bytewise order of the padded text is
the numeric order of its fields, decoding undoes encoding, draining does not depend
on arrival. `QueueOrder.dfy`: so every pop of a crawl takes the bytewise least text.
`Migration.dfy` and `Rewrites.dfy`: the three rewriting scripts lose nothing however they
are interrupted and whatever a scan repeats, and together turn a queue of the oldest
format, job for job, into one the crawler reads; `OldMembers.dfy` says what they make of
any other text. `SeenRebuild.dfy`: the rebuilt seen set
and the deduplicated queue; `SeenFormats.dfy`: which formats that script can read.

**The network.** `Windows.dfy` and `FixedWindowCounter.dfy`: at most `tokens` grants in any
window, whatever the interleaving and wherever the clock crosses a boundary; bounds
for any interval; progress. `ActivityPubClient.dfy`: the gates of every hop and the redirect
limit.

**The graph.** `Tables.dfy` and `DatabaseGraph.dfy`: the store with its two caches answers as
the store without. `LabelGraph.dfy`: that one behaves like a graph of labels that knows no
ids and tables. `Snapshot.dfy`: the two files copied out fit together.

## What turned out otherwise

- *Depths from 100 on.* The queue keeps two digits of depth, so from depth 99 on a
  deeper job can come out before a shallower one. `ClampInvertsDepths` says exactly when,
  for any two jobs of different depths and any times. The order of levels therefore ends
  at a depth limit of 99: for every larger limit `LevelsInvert` gives a web and an
  undisturbed single-worker crawl of it that pops a job of depth 100 before one of depth
  99. The outcome ends one later, since with a limit of 100 collections of depth 100 are
  not walked: `CrawlIsBreadthFirst` holds up to 100, and for every larger limit
  `MinimumIsMissed` gives a finished crawl with an actor handled too deep; with a limit of
  101 it even leaves out an actor the web offers.
- *Several workers.* For every number of them from two up, and every limit from two up,
  `TwoWorkersMissTheMinimum` gives a finished crawl whose depths on record are not the
  minimum. Such an actor's collections can end up on the depth limit and are then not
  walked, so that with a limit of two that crawl has not handled all the web offers.
  `ManyWorkersCover` says exactly when a crawl has.
- *Join.* It reads the size of the queue and then the number of leases. Right after a
  pop both are zero in one moment (`PopHidesAJob`), and even between whole calls the two
  reads can be zero with a job still queued (`JoinReturnsEarly`). `OneReadIsExact` gives the
  condition under which zeros do mean finished.
- *Redelivery.* `SCAN` may return a member twice. The rewriting scripts do not mind; the
  deduplication does, and drops the only copy of a job (`RedeliveryLosesAJob`,
  `SurvivesIfKeptOnce`).
- *Merging rewrites.* The first rewrite makes one member of two exactly when they hold two
  spellings of one counter and the same text (`CountersMerge`, `CountKept`), as 7 and 07 do
  (`LeadingZeroMerges`); plain decimals do not. The second does so exactly for two texts of
  one job under one time (`TimesMerge`), the third never (`DepthsNeverMerge`).
- *The rebuild of the seen set* reads the format of its time. On a queue of either later
  format it identifies no member: no duplicate goes, and no queued job gets into the
  seen set (`LaterQueuesUntouched`).
- *Nulls.* A property stored as a JSON null is `None` to the single reads, like one that is
  not stored, but a key to `get_nodes_property`; the model follows the code.
- *Scores.* The crc rewrite writes score 0. Its tests speak of preserved scores, which
  holds only because all scores are 0 by then; the model follows the code.

## Conventions

Every lemma is marked `{:induction false}`: all inductions are written out. `hide` keeps
definitions a proof does not need away from the solver. Functions of the surroundings
(the web, `crc32`, `blake2b`, `iso_utc`, the JSON libraries) are parameters; what is asked of
them is named in `Faithful`, `Sound`, `NoCollisions` and the like. `Hypotheses.dfy` shows that
all of it can be had together, for every finite web.

## Model

| member | source | states |
|---|---|---|
| Jobs.JobIdOfDict | pub_crawler/job_id.py:1-13 | every job the crawler builds is identifiable, and its id is its type and target |
| Jobs.JobIdOfAny | pub_crawler/job_id.py:1-13 | any value has an id exactly when it is a dictionary of one of the four types with its target, and then it is these two |
| Jobs.IdIdentifiesResource | pub_crawler/job_id.py:1-13 | two ids are equal exactly when type and target are; owner, direction and depth do not count |
| Jobs.FromToDict | pub_crawler/page_handler.py:15-18 | a handler reads in the dictionary of a job that very job, target, owner, direction and depth each under its own key |
| Text.PaddedOrder | pub_crawler/dispatcher.py:170-172 | zero-padded numbers of one width compare bytewise as the numbers do, and only equal numbers look equal |
| Text.PaddedReads | pub_crawler/dispatcher.py:172 | the digits written, small letters for hexadecimal, read back as the number |
| Text.SplitJoin | pub_crawler/dispatcher.py:174-176 | splitting at most as often as there were fields undoes joining, whatever the last field holds |
| Codec.Clamp | pub_crawler/dispatcher.py:170 | the depth written is the one nearest to the depth that two digits can hold |
| Codec.ParseRender | pub_crawler/dispatcher.py:152-176 | a member read back, and its dictionary read as a handler does, gives the job written, even when its JSON holds the separator |
| Codec.RenderOrder | pub_crawler/dispatcher.py:152-172 | bytewise order of members is order by depth, type, crc, timestamp and job text |
| Codec.BeforeTotal | pub_crawler/dispatcher.py:69-75 | any two different members are ordered, one way |
| Codec.BeforeTransitive | pub_crawler/dispatcher.py:69-75 | the order of members is transitive |
| Codec.ClampInvertsDepths | pub_crawler/dispatcher.py:152-172 | of two jobs of different depths, queued at any times, the shallower sorts first exactly when its depth is below 99 and the other above 0, or when type, crc, time and text put it first |
| Codec.FirstExists | pub_crawler/dispatcher.py:71 | a queue that is not empty has a first member to pop |
| Codec.DrainIgnoresTimestamps | pub_crawler/dispatcher.py:69-75 | two queues of the same jobs with distinct keys drain in the same order |
| Codec.DrainIgnoresArrival | pub_crawler/dispatcher.py:52-75 | jobs with distinct depth, type and crc come out in one order, however and whenever they were put in |
| Codec.TiesFollowArrival | pub_crawler/dispatcher.py:165-172 | jobs that tie on depth, type and crc come out in the order they went in |
| Codec.FirstHasLeastText | pub_crawler/dispatcher.py:69-75 | on a queue of well-formed members the first in order is the one of the bytewise least text |
| Codec.RenderInjective | pub_crawler/dispatcher.py:152-172 | well-formed members of one text are one member |
| QueueOrder.RunWellFormed | pub_crawler/dispatcher.py:152-172 | with 32-bit checksums and timestamps of one width every member ever queued is well-formed |
| QueueOrder.PopsLeastText | pub_crawler/dispatcher.py:69-76 | every pop of such a run takes the least text in the queue, which no other member shares and which a handler reads back as the job popped |
| Hypotheses.FaithfulCanHold | pub_crawler/dispatcher.py:140-144 | a JSON library can read back every job it wrote, which is all the results ask of it |
| Hypotheses.SoundCanHold | fixup/fixup_queue.py:4-9 | so can the clocks, checksums and two JSON libraries the rewrites rely on |
| Hypotheses.FiniteWebsAreFair | pub_crawler/collection_handler.py:34-66 | every web of finitely many ids meets what the whole crawl asks for, under some hash and JSON library |
| Web.PlanDiscoversSuccessors | pub_crawler/collection_handler.py:14-71 | the calls of a handler offer exactly the jobs its document leads to, for all four kinds of job |
| Web.ActorPlanTargets | pub_crawler/actor_handler.py:15-92 | an actor job offers the collections its document names and nothing else |
| Web.CollectionWalkTargets | pub_crawler/collection_handler.py:34-69 | a collection job offers its first page or its inline members, below the depth limit only |
| Web.PageWalkTargets | pub_crawler/page_handler.py:33-60 | a page job offers its members one hop further and, if it has members, its next page |
| Documents.PageLeadsTo | pub_crawler/page_handler.py:33-56 | by the raw JSON: a page leads to what its items name one hop further, the orderedItems only where items is missing, and to the page its next names, and to nothing else |
| Documents.PageLeadsNowhere | pub_crawler/page_handler.py:33-60 | a page whose items are missing, empty, not iterable or name something too long leads nowhere, whatever its next |
| Documents.CollectionLeadsToPage | pub_crawler/collection_handler.py:37-54 | below the depth limit and not declared empty, a collection with a first leads to the page that names and nowhere else |
| Documents.CollectionLeadsToMembers | pub_crawler/collection_handler.py:55-66 | one without a first leads to what its items or orderedItems name, one hop further |
| Documents.CollectionLeadsNowhere | pub_crawler/collection_handler.py:34-36 | on the depth limit, with a totalItems of 0 or False, or with neither first nor usable items, it leads nowhere |
| Documents.ActorLeadsTo | pub_crawler/actor_handler.py:71-90 | an actor leads to the followers and following collections of its document where those are strings, at its own depth |
| Documents.WebfingerLeadsTo | pub_crawler/webfinger_handler.py:11-23 | an address leads to the actor it resolves to, at depth 0 |
| Documents.NothingRead | pub_crawler/collection_handler.py:19-27 | without a document, or with a label that does not fit, nothing is discovered |
| Documents.PlanRaises | pub_crawler/handle_items.py:1-13 | a handler left alone raises exactly when a label does not fit, the address does not resolve, the fetch breaks, or it comes to items it cannot walk or store |
| JsonValues.FalsyValues | pub_crawler/page_handler.py:35 | which items count as none |
| Todo.RemainingTargets | pub_crawler/handle_items.py:28-38 | a handler drops a job it could enqueue only if that actor was fetched before or the skip guard fires |
| Conservation.StepKeeps | pub_crawler/dispatcher.py:52-81 | a job that is queued, leased, failed, completed or in hand is so after any single command |
| Conservation.RunConserves | pub_crawler/dispatcher.py:52-108 | in every interleaving each seen hash has some job that is queued, leased, failed, completed or carried; no assumption on the hash |
| Conservation.RunKeeps | pub_crawler/crawler.py:15-51 | a job that is somewhere at one point of a run is somewhere at every later point |
| ExactlyOnce.StepMovesToken | pub_crawler/dispatcher.py:52-81 | each step moves at most one job from one place to one other, or brings in one of an unseen hash |
| ExactlyOnce.RunOnce | pub_crawler/dispatcher.py:60-81 | without reaping each seen hash has exactly one place, each lease one running handler, and each popped hash was popped once |
| ExactlyOnce.SeenIsPartitioned | pub_crawler/dispatcher.py:60-81 | the size of the seen set is the sum of the sizes of the queue, the hands, the leases, the failed and the completed |
| ExactlyOnce.PoppedJobsEndOnce | pub_crawler/crawler.py:19-31 | a popped job is in one place only, and is never both done and failed |
| Closure.StepFetched | pub_crawler/actor_handler.py:29-92 | a last_fetch_date means that the actor and its collections have been seen; it is written after they are enqueued |
| Closure.ActCovers | pub_crawler/handle_items.py:28-38 | what a graph call lets a handler skip has been seen already |
| Closure.RunInv | pub_crawler/crawler.py:24-31 | in every run, reaping included, all jobs about are seen, and what a completed job discovers has been seen |
| Closure.QuietIsClosed | pub_crawler/dispatcher.py:83-92 | with queue and leases empty and no call half done, every seen job has ended and so has all that completed jobs discover |
| DepthSoundness.ChainDepth | pub_crawler/handle_items.py:32-38 | on a discovery chain the depth is the number of follow hops, and the gate holds although pages do not check it |
| DepthSoundness.RunSound | pub_crawler/collection_handler.py:34-66 | every job anywhere ends a real discovery chain from a seed |
| DepthSoundness.RunDepths | pub_crawler/page_handler.py:35-56 | in every run pages stay strictly below the depth limit and all other jobs at or below it, at their hop count |
| BreadthFirst.SuccessorsComeAfter | pub_crawler/actor_handler.py:71-90 | a discovered job is on the same level or later and at most one hop deeper |
| BreadthFirst.ShallowerDiscoversMore | pub_crawler/collection_handler.py:34-66 | a resource met at a smaller depth discovers the same resources, no deeper |
| BreadthFirst.SuccessorsMayWait | pub_crawler/collection_handler.py:34-66 | up to a limit of 100 jobs of the last stage, where two digits no longer tell depths apart, discover only jobs of that stage |
| BreadthFirst.KeyKeepsOrder | pub_crawler/dispatcher.py:170-172 | of two jobs that may wait for a third the one with the smaller key leaves the other waiting in order |
| BreadthFirst.StepKeepsFrontier | pub_crawler/dispatcher.py:152-172 | with one worker everything waiting comes after the job popped last |
| MinimumDepth.SeenIsReached | pub_crawler/dispatcher.py:60-67 | when an offered job's hash is seen, its resource is held at no greater depth |
| MinimumDepth.GuardNeverFires | pub_crawler/actor_handler.py:19-30 | in a single-worker crawl no actor is visited that was fetched before |
| MinimumDepth.LevelPhases | pub_crawler/dispatcher.py:152-172 | up to a depth limit of 99 jobs are popped, over a whole run, in order of depth and then type |
| MinimumDepth.PoppedIsNotDeeper | pub_crawler/dispatcher.py:60-67 | a job popped before is no deeper than the same resource discovered by the job in hand |
| MinimumDepth.CrawlIsBreadthFirst | pub_crawler/collection_handler.py:34-66 | up to a depth limit of 100 a finished single-worker crawl handled exactly the discoverable resources, each at minimum depth, and recorded that depth |
| MinimumDepth.HandledOnce | pub_crawler/dispatcher.py:60-81 | no resource is handled under two jobs |
| Coverage.UngatedDiscoversAll | pub_crawler/collection_handler.py:34-66 | below the depth limit a resource discovers the same resources at whatever depth it is met |
| Coverage.StepFailuresBarren | pub_crawler/crawler.py:24-30 | without crashes only a job whose plan raises fails, and it discovers nothing |
| Coverage.ManyWorkersCover | pub_crawler/crawler.py:15-31 | with any number of workers a finished crawl handled only discoverable resources, and all of them exactly when whatever a collection handled on the limit leads to below it has been handled |
| Coverage.ClearLimitIsCovered | pub_crawler/collection_handler.py:34-35 | so it handled exactly the discoverable resources on every web where no collection can be met both on the limit and below it |
| Visits.VisitsActor | pub_crawler/actor_handler.py:15-92 | an actor not fetched before can be visited from pop to release, with its node, depth, fetch mark and collections as the outcome |
| Visits.VisitsCollection | pub_crawler/handle_items.py:13-38 | a collection of one member can be visited from pop to release: a member met for the first time gets its depth and its job, one met before neither |
| DepthLimits.LevelsInvert | pub_crawler/dispatcher.py:152-172 | for every depth limit above 99 there is a web and an undisturbed single-worker crawl of it that pops a deeper job before a shallower one |
| DepthLimits.MinimumIsMissed | pub_crawler/dispatcher.py:152-172 | for every depth limit above 100 there is a web and an undisturbed single-worker crawl of it that ends with an actor handled deeper than need be, and with a limit of 101 with one not handled |
| TwoWorkers.TwoWorkersMissTheMinimum | pub_crawler/handle_items.py:22-38 | for every number of workers and every depth limit from two up, a finished crawl that leaves an actor one hop away on record as two hops away; with a limit of two it has not handled all that is discoverable |
| Termination.StepShrinks | pub_crawler/page_handler.py:33-60 | on a finite web every step without reaping shrinks a measure, cyclic next links included |
| Termination.RunBounded | pub_crawler/crawler.py:15-31 | the number of moves of a run is bounded by six for each id the web mentions |
| Termination.PopsBounded | pub_crawler/dispatcher.py:69-78 | no run pops more jobs than the web has ids |
| Progress.HandlerGoesOn | pub_crawler/crawler.py:24-31 | a handler in the middle of its calls can always make the next |
| Progress.StuckIsQuiet | pub_crawler/crawler.py:15-31 | where nothing can go on and a worker is idle, nothing is queued, leased or half done |
| Progress.StuckIsFinished | pub_crawler/crawler.py:15-31 | a crawl that can go no further has finished every job it saw, and all that those discover |
| Leases.NeverReapedEarly | pub_crawler/dispatcher.py:97-104 | when a pass takes a job, its time is more than MAX_INFLIGHT past that of the last lease of the job, however often it was leased before |
| Leases.ScanIsExact | pub_crawler/dispatcher.py:97-104 | a pass lists exactly the leases taken last more than MAX_INFLIGHT before its time |
| Leases.NeverReapedEarlyByTheClock | pub_crawler/dispatcher.py:97-132 | by the clock more than 15 minutes have gone by since the worker that leased a job last popped it, however long anyone was held up between reading the time and writing it |
| Leases.EveryLeaseHasATime | pub_crawler/dispatcher.py:130-132 | the expiry of a lease is MAX_INFLIGHT after the last step that leased the job |
| Leases.AbandonedLeaseStays | pub_crawler/dispatcher.py:130-135 | a lease nobody releases stays until a pass after its deadline |
| Leases.PassRequeues | pub_crawler/crawler.py:49-51 | every job a pass lists is queued again before the pass rests |
| Leases.FirstPassAfter | pub_crawler/crawler.py:54-60 | of passes MAX_INFLIGHT apart one falls in the second lease length |
| Leases.LeaseRecovered | pub_crawler/crawler.py:49-60 | an abandoned job is back in the queue by a pass no later than 2 * MAX_INFLIGHT after its lease |
| Joining.OneReadIsExact | pub_crawler/dispatcher.py:83-92 | read in one state, two zeros mean all is finished exactly when nobody carries a job |
| Joining.PopHidesAJob | pub_crawler/dispatcher.py:71-76 | right after popping the last job both sizes are zero with that job unfinished |
| Joining.JoinReturnsEarly | pub_crawler/dispatcher.py:83-92 | a run where both reads fall between whole calls, both give zero, and a job is still queued |
| GraphTables.DeletedNodeComesBackFresh | pub_crawler/database_graph.py:103-115 | a node deleted and ensured again has a fresh id and none of the old edges or properties; all else is as before |
| GraphTables.InsertNodesKeeps | pub_crawler/database_graph.py:19-46 | ensuring labels adds exactly the missing ones under unused ids, or raises when one does not fit |
| GraphTables.FirstEdgeUnique | pub_crawler/database_graph.py:433-456 | the first edge by creation time and ids is unique |
| GraphTables.PlainRunKeeps | pub_crawler/database.py:3-48 | every sequence of operations keeps the unique indexes and foreign keys |
| GraphTables.RunLater | pub_crawler/database.py:3-10 | without deletions nothing is taken away and new nodes get larger ids |
| LabelGraphs.OpShown | pub_crawler/database_graph.py:19-254 | each operation does to the tables what it does to a graph of labels, edges and properties without ids |
| LabelGraphs.OpAnswered | pub_crawler/database_graph.py:88-456 | and answers, or is refused, as that graph says; a first neighbor is at the end of an oldest edge |
| LabelGraphs.RunShown | pub_crawler/database_graph.py:11-474 | every sequence of operations ends in the graph of labels and gives its answers |
| LabelGraphs.EdgeSetterReads | pub_crawler/database_graph.py:177-306 | after a setter that was not refused every existing edge it names reads the value given, a null as None, and all other edge properties, node properties and edges read as before |
| LabelGraphs.DeletedEdgeReads | pub_crawler/database_graph.py:117-125 | a deleted edge is gone with its properties, and all others stay |
| LabelGraphs.EnsuredEdgeKeepsItsAge | pub_crawler/database_graph.py:48-86 | an edge ensured again keeps its created_at, and a new one gets the time of the call |
| LabelGraphs.TiesGoById | pub_crawler/database_graph.py:433-443 | of edges of one age the one of the smaller ids is first |
| CachedGraph.CacheFilterIsInvisible | pub_crawler/database_graph.py:33-46 | labels left out because they are cached are labels the insert would skip |
| CachedGraph.DatabaseGraph.NodeId | pub_crawler/database_graph.py:458-465 | the id through the cache is the id in the table, whatever was evicted |
| CachedGraph.DatabaseGraph.NodeLabel | pub_crawler/database_graph.py:467-474 | the label through the cache is the label in the table |
| CachedGraph.DatabaseGraph.EnsureNode | pub_crawler/database_graph.py:19-31 | tables and answer are those of the store without caches |
| CachedGraph.DatabaseGraph.EnsureNodes | pub_crawler/database_graph.py:33-46 | the same, in bulk |
| CachedGraph.DatabaseGraph.EnsureEdge | pub_crawler/database_graph.py:48-58 | the same, and raises when an end is unknown |
| CachedGraph.DatabaseGraph.EnsureFromEdges | pub_crawler/database_graph.py:60-72 | the same, over all known pairs |
| CachedGraph.DatabaseGraph.EnsureToEdges | pub_crawler/database_graph.py:74-86 | the same, over all known pairs |
| CachedGraph.DatabaseGraph.HasNode | pub_crawler/database_graph.py:88-90 | the same |
| CachedGraph.DatabaseGraph.HasEdge | pub_crawler/database_graph.py:92-101 | the same |
| CachedGraph.DatabaseGraph.DeleteNode | pub_crawler/database_graph.py:103-115 | the same, with cascades, and both cache entries are forgotten |
| CachedGraph.DatabaseGraph.DeleteEdge | pub_crawler/database_graph.py:117-125 | the same |
| CachedGraph.DatabaseGraph.SetNodeProperty | pub_crawler/database_graph.py:127-141 | the same, and raises for an unknown label |
| CachedGraph.DatabaseGraph.SetNodesProperty | pub_crawler/database_graph.py:143-160 | the same, for the known labels |
| CachedGraph.DatabaseGraph.SetNodeProperties | pub_crawler/database_graph.py:162-175 | the same, nothing for an unknown label |
| CachedGraph.DatabaseGraph.SetEdgeProperty | pub_crawler/database_graph.py:177-195 | the same, and raises when there is no such edge |
| CachedGraph.DatabaseGraph.SetEdgeProperties | pub_crawler/database_graph.py:197-214 | the same, with nothing written between unknown labels |
| CachedGraph.DatabaseGraph.SetFromEdgesProperty | pub_crawler/database_graph.py:216-234 | the same, and raises when a pair is not an edge |
| CachedGraph.DatabaseGraph.SetToEdgesProperty | pub_crawler/database_graph.py:236-254 | the same, and raises when a pair is not an edge |
| CachedGraph.DatabaseGraph.GetNodeProperty | pub_crawler/database_graph.py:256-269 | the same |
| CachedGraph.DatabaseGraph.GetNodesProperty | pub_crawler/database_graph.py:271-286 | each label asked is a key exactly when it has the property, with the value the single read answers; a stored null is kept as a key |
| CachedGraph.DatabaseGraph.GetEdgeProperty | pub_crawler/database_graph.py:288-306 | the same |
| CachedGraph.DatabaseGraph.GetNodeProperties | pub_crawler/database_graph.py:308-321 | one entry for each property of the node, which the single reads answer likewise |
| CachedGraph.DatabaseGraph.GetEdgeProperties | pub_crawler/database_graph.py:323-341 | the same for an edge |
| CachedGraph.DatabaseGraph.GetFromEdgesProperty | pub_crawler/database_graph.py:343-364 | each target asked is a key exactly when the edge to it has the property, with the value the single read answers |
| CachedGraph.DatabaseGraph.GetToEdgesProperty | pub_crawler/database_graph.py:366-387 | the same for the sources of edges |
| CachedGraph.DatabaseGraph.FirstNeighbor | pub_crawler/database_graph.py:433-456 | the same, through both caches |
| CachedGraph.DatabaseGraph.Run | pub_crawler/database_graph.py:19-474 | for every sequence of calls, the cursors over whole tables aside, any capacity and any evictions, tables and all answers are those of the store without caches |
| GraphView.ShowsEnsure | pub_crawler/handle_items.py:13 | ensuring nodes changes what the crawl sees by those nodes only |
| GraphView.ShowsLink | pub_crawler/handle_items.py:15-20 | ensuring edges changes what the crawl sees by those follows only |
| GraphView.ShowsWriteDepth | pub_crawler/handle_items.py:22-26 | writing depths changes what the crawl sees by those depths only |
| GraphView.ShowsSaveActor | pub_crawler/actor_handler.py:92 | saving an actor changes what the crawl sees by its depth and whether it was fetched |
| GraphView.LinkedPairsAreEdges | pub_crawler/handle_items.py:15-20 | flagging edges just ensured never violates the foreign key |
| GraphView.RunGrows | pub_crawler/handle_items.py:13-38 | nodes, follows, depths and fetch marks are never taken away |
| Dispatching.LeadsNext | pub_crawler/dispatcher.py:37-135 | a protocol step appended to the run the program has produced gives a run |
| Dispatching.StepLasts | pub_crawler/dispatcher.py:52-135 | no step takes anything from the seen, failed or completed jobs or from the graph |
| Dispatching.Dispatcher.Get | pub_crawler/dispatcher.py:69-78 | pops the first member and leases it as of a time within the call, nothing once stopped, and blocks only on an empty queue |
| Dispatching.Dispatcher.EnqueueIfUnseen | pub_crawler/dispatcher.py:60-67 | queues the job exactly when its hash was new, says which, and leaves the hash seen |
| Dispatching.Dispatcher.Enqueue | pub_crawler/dispatcher.py:52-58 | drops the lease, queues the job and marks it seen, each as its own command |
| Dispatching.Dispatcher.Done | pub_crawler/dispatcher.py:80-81 | releases the lease of a finished job |
| Dispatching.Dispatcher.Join | pub_crawler/dispatcher.py:83-92 | the end is reported only if the queue was empty at one moment and the leases at that or a later one, and given up only if one was not, after 4 milliseconds or more for each sleep; undisturbed, exactly when both are empty |
| Dispatching.Dispatcher.Look | pub_crawler/dispatcher.py:85-87 | one look reads the two sizes in two states of the run and answers by them |
| Dispatching.Dispatcher.Expired | pub_crawler/dispatcher.py:97-104 | lists exactly the leases taken last more than MAX_INFLIGHT before a reading of the clock that falls within the call |
| Dispatching.Dispatcher.Fail | pub_crawler/dispatcher.py:106-108 | releases the lease and records the failure, as two commands |
| Dispatching.Dispatcher.AddInflight | pub_crawler/dispatcher.py:130-132 | leases a popped job for MAX_INFLIGHT from a reading of the clock that falls within the call |
| Ingestion.CollectIds | pub_crawler/handle_items.py:2-11 | the labels are those of string items and of objects with a string id, empty ones left out |
| Ingestion.EnsureEdges | pub_crawler/handle_items.py:15-19 | ensures the edges; those that were there keep their date and new ones get one from within the call |
| Ingestion.FlagEdges | pub_crawler/handle_items.py:15-20 | every edge of the collection reads from_followers or from_following as true |
| Ingestion.LinkAll | pub_crawler/handle_items.py:15-20 | ensures the edges in the direction of the collection, and all of them carry its flag |
| Ingestion.StampDepths | pub_crawler/handle_items.py:22-26 | members without a depth get the next depth |
| Ingestion.QueueUnfetchedActors | pub_crawler/handle_items.py:28-38 | members not fetched are enqueued if unseen, one hop further |
| Ingestion.HandleItems | pub_crawler/handle_items.py:1-38 | makes exactly the calls of the plan in order, and raises when it says so |
| Handling.WebfingerHandler.Handle | pub_crawler/webfinger_handler.py:11-23 | makes exactly the calls of the plan of a webfinger job |
| Handling.SetProps | pub_crawler/page_handler.py:62 | a known node carries the properties given, and no other property, node or edge changes |
| Handling.ActorHandler.Fetch | pub_crawler/actor_handler.py:22-92 | a visit leaves depth, status, fetch date and the two links on the actor's node |
| Handling.ActorHandler.Handle | pub_crawler/actor_handler.py:15-92 | makes exactly the calls of the plan of an actor job, the property write last |
| Handling.CollectionHandler.Handle | pub_crawler/collection_handler.py:14-71 | makes exactly the calls of the plan of a collection job, and leaves its status, count and what is shared and complete on the owner's node |
| Handling.PageHandler.Handle | pub_crawler/page_handler.py:14-62 | makes exactly the calls of the plan of a page job, and leaves the page, its status and whether it was the last on the owner's node |
| Handling.PageHandler.WalkPage | pub_crawler/page_handler.py:33-60 | a page is complete exactly when it has no items or no next |
| Crawling.Crawler.Dispatch | pub_crawler/dispatcher.py:48-50 | routes a job to the handler of its type, which carries out its plan |
| Crawling.Crawler.Finish | pub_crawler/crawler.py:24-31 | a leased job is handled and ends completed or failed |
| Crawling.Crawler.Release | pub_crawler/crawler.py:27-31 | a handler that returned leads to done, one that raised to fail |
| Crawling.Crawler.Round | pub_crawler/crawler.py:17-31 | one pass pops one job and sees it end, or finds the dispatcher stopped or the queue empty |
| Crawling.Crawler.Worker | pub_crawler/crawler.py:15-46 | among any other coroutines each round pops a job that has ended since or found the queue empty, and nothing else is popped; a stopped dispatcher ends it at once |
| Crawling.Crawler.Reap | pub_crawler/crawler.py:49-51 | one pass lists exactly the overdue leases by a reading of the clock within the call, and every job listed has been queued since and is seen |
| Crawling.Crawler.ReapWorker | pub_crawler/crawler.py:54-60 | that many passes one after another, each seen through, 15 minutes or more apart |
| Crawling.Crawler.AddSeeds | bin/add_seeds.py:24-32 | every seed goes in if unseen, and all of them are seen in the end |
| Crawling.Crawler.Crawl | pub_crawler/crawler.py:15-31 | seeds and one worker on a finite web: the crawl ends, handled exactly what is discoverable at minimum depth, and the tables hold those depths |
| Crawling.CrawlFromSeeds | pub_crawler/crawler.py:15-31 | the same from empty stores, with nothing asked but seeds of the right kind, a depth limit of at most 100, no hash collisions and a finite web |
| Crawling.CrawlOutcome | pub_crawler/crawler.py:15-31 | what an idle worker on an empty queue has achieved |
| Windows.InWindow | pub_crawler/fixed_window_counter.py:39-43 | a time lies in the epoch-aligned window computed for it |
| Windows.PassesKeepHonest | pub_crawler/fixed_window_counter.py:22-52 | the tokens a bucket holds were not given out in the window of its last grant, unless that is over |
| Windows.AtMostTokensPerWindow | pub_crawler/fixed_window_counter.py:22-52 | for every nondecreasing clock and order of passes at most tokens grants carry a time of any one window |
| Windows.AtMostInAnyInterval | pub_crawler/fixed_window_counter.py:22-52 | an interval holds at most tokens grants for each window it could fill and one more |
| Windows.LookIsInvisible | pub_crawler/fixed_window_counter.py:32-37 | next_available anywhere between other calls changes no grant before or after |
| Windows.FirstComeFirstServed | pub_crawler/fixed_window_counter.py:22-30 | in a fresh window the turns served are the first ones, one per token |
| Windows.AllServed | pub_crawler/fixed_window_counter.py:22-46 | n tasks starting in a fresh window are all served within n / tokens windows, rounded up |
| RateLimiting.SharedLimit | pub_crawler/fixed_window_counter.py:22-52 | across all tasks and origins, grants of one origin in one window are at most tokens |
| RateLimiting.FreeLater | pub_crawler/fixed_window_counter.py:32-46 | coming back later means waiting until the later of then and the time told |
| RateLimiting.FixedWindowCounter.EnsureOrigin | pub_crawler/fixed_window_counter.py:48-52 | a fresh bucket exactly when the last grant is before the window at hand |
| RateLimiting.FixedWindowCounter.Turn | pub_crawler/fixed_window_counter.py:23-30 | one turn grants exactly when a token is left and otherwise sleeps to the boundary |
| RateLimiting.FixedWindowCounter.NextAvailable | pub_crawler/fixed_window_counter.py:32-37 | answers the present when a token is left and otherwise the next boundary |
| RateLimiting.FixedWindowCounter.Acquire | pub_crawler/fixed_window_counter.py:22-30 | takes one token; alone it sleeps at most once, and on an ideal clock ends exactly when next_available said |
| Fetching.Visited | pub_crawler/activity_pub_client.py:79-102 | at most one request more than the redirects left, each at the next hop |
| Fetching.FetchedWithinLimit | pub_crawler/activity_pub_client.py:95-111 | a document is fetched exactly when at most that many redirects lead to it |
| Fetching.TooManyBeyondLimit | pub_crawler/activity_pub_client.py:95-102 | it gives up exactly when all the answers so far were redirects |
| Fetching.LoopGivesUp | pub_crawler/activity_pub_client.py:10-102 | a redirect loop of any length costs 21 requests and then fails |
| Fetching.RequestsFitBurst | pub_crawler/activity_pub_client.py:90-94 | across all tasks an origin sees at most the burst limit of request starts in a burst window |
| Fetching.ActivityPubClient.NextAvailable | pub_crawler/activity_pub_client.py:64-77 | one look at each gate of the URL, and the latest of what they tell, whatever the clock; on an ideal clock the time at which a request goes out |
| Fetching.ActivityPubClient.Send | pub_crawler/activity_pub_client.py:93-94 | a request follows its own burst token with no suspension between |
| Fetching.ActivityPubClient.OneHop | pub_crawler/activity_pub_client.py:79-94 | one hop takes one general and one burst token, a paged one for page queries, and alone on an ideal clock goes out when next_available said |
| Fetching.ActivityPubClient.GetWithHeaders | pub_crawler/activity_pub_client.py:79-111 | requests exactly the URLs of the chain, draws for each, in order, one general and one burst token of its own origin and a paged one for a page query, and ends as the chain says |
| Fetching.ActivityPubClient.Get | pub_crawler/activity_pub_client.py:54-56 | at most 21 requests on any redirect graph |
| Migrating.ImagesCount | fixup/fixup_queue.py:40-72 | rewriting keeps the number of members exactly when no two rewrite to the same text |
| Migrating.ImagesSettled | fixup/fixup_queue.py:43-45 | rewriting what has been rewritten changes nothing |
| Migrating.ScoresFollow | fixup/fixup_queue.py:9 | where no two members become one each ends with its own score if it was left alone or the script carries scores, and with 0 otherwise |
| Migrating.CutOff | fixup/fixup_crc_tiebreak.py:19-32 | a pipeline cut off after any number of commands loses nothing, if it is a transaction or adds before it removes |
| Migrating.HalfWritten | fixup/fixup_crc_tiebreak.py:30-31 | adding before removing loses nothing even between the two commands |
| Migrating.HalfRemoved | fixup/fixup_queue.py:53-57 | removing first does lose the member in between, so those scripts need their transaction |
| Migrating.Migrate | fixup/fixup_queue.py:40-72 | for every batch size and every scan that covers the queue, repeats and rewritten members included, the queue ends as its images with the scores due to them; killed between any two commands or stopped early nothing is lost |
| Rewriting.CounterSettles | fixup/fixup_queue.py:35-37 | what the first rewrite writes is not in the counter format |
| Rewriting.TimeSettles | fixup/prioritise_queue_by_depth_and_job_type.py:10-11 | what the second rewrite writes begins with two digits and a bar |
| Rewriting.CrcSettles | fixup/fixup_crc_tiebreak.py:15-16 | what the third rewrite writes has no T in its third field |
| Rewriting.CounterImage | fixup/fixup_queue.py:61-67 | the counter becomes epoch plus counter milliseconds, the job text stays |
| Rewriting.TimeImage | fixup/prioritise_queue_by_depth_and_job_type.py:37-60 | the member gains its clamped depth and type code and the job stays the same |
| Rewriting.CrcImage | fixup/fixup_crc_tiebreak.py:22-31 | the member gains the crc of its job id, all else verbatim |
| Rewriting.CrcMemberDecodes | pub_crawler/dispatcher.py:174-176 | the crawler reads back the job, as its handler does, and with its own JSON text the member is the one it would write itself |
| Rewriting.ThreeRewrites | fixup/prioritise_queue_by_depth_and_job_type.py:28-66 | the three rewrites in a row keep the number of jobs and end in members that decode to the same jobs |
| Rewriting.NoStageMerges | fixup/fixup_crc_tiebreak.py:35-51 | no stage makes one member of two |
| Rewriting.OldOrderSurvives | fixup/fixup_queue.py:4-9 | jobs of one key come out in the order of their counters, however many digits |
| Rewriting.CountersMerge | fixup/fixup_queue.py:61-67 | the first rewrite makes one member of two exactly when their counters are one number and their texts equal |
| Rewriting.CountKept | fixup/fixup_queue.py:40-72 | it keeps the number of members exactly when no number is spelled in two ways under one text |
| Rewriting.TimesMerge | fixup/prioritise_queue_by_depth_and_job_type.py:37-60 | the second rewrite makes one member of two exactly when time and job are equal, whatever their texts |
| Rewriting.DepthsNeverMerge | fixup/fixup_crc_tiebreak.py:22-31 | the third rewrite never makes one member of two |
| Rewriting.LeadingZeroMerges | fixup/fixup_queue.py:61-67 | counters 7 and 07 with the same job become one member |
| OldMembers.CounterScript | fixup/fixup_queue.py:35-37 | of all texts the first script takes for old those with digits before the first colon |
| OldMembers.CounterRewrites | fixup/fixup_queue.py:65-67 | it writes the time for the digits and a bar for the colon, and raises where there is no such time |
| OldMembers.TimeScript | fixup/prioritise_queue_by_depth_and_job_type.py:10-11 | the second takes for old whatever does not begin with two digits and a bar |
| OldMembers.TimeRewrites | fixup/prioritise_queue_by_depth_and_job_type.py:41-59 | it raises without a bar, a dictionary, a number for the depth or a known type, and otherwise puts depth and type in front, a missing depth as 0 and a boolean as a number |
| OldMembers.CrcScript | fixup/fixup_crc_tiebreak.py:15-16 | the third raises on fewer than two bars and takes for old what has a T after the second |
| OldMembers.CrcRewrites | fixup/fixup_crc_tiebreak.py:22-31 | it raises without a third bar or on a text that is no JSON, leaves alone what names no job, and otherwise adds the checksum |
| Rewriting.RunToEnd | fixup/fixup_queue.py:40-72 | a script with a covering scan, left to run, ends with the images and their scores |
| Rewriting.RewriteQueue | fixup/fixup_crc_tiebreak.py:35-51 | the three scripts run in a row, with any covering scans and any batch sizes, bring a queue of the oldest format to the members the crawler reads, job for job; the first two carry each job's score along, the third leaves zeros |
| Rebuilding.SiftLeaves | fixup/fixup_seen.py:33-51 | which members stay, and counts that depend only on which ids there are |
| Rebuilding.SurvivesIfKeptOnce | fixup/fixup_seen.py:131-159 | a queued member survives exactly when it is the first of its id, the id is not seen elsewhere, and it is delivered once |
| Rebuilding.OneCopyEach | fixup/fixup_seen.py:131-159 | delivered once each, one copy of each queued id remains, none of an id seen elsewhere |
| Rebuilding.UnidentifiedStay | fixup/fixup_seen.py:140-150 | members that name no job are left alone |
| Rebuilding.SecondRunKeepsAll | fixup/fixup_seen.py:162-174 | a second run removes nothing and rebuilds the same set, in any scan order |
| Rebuilding.RedeliveryLosesAJob | fixup/fixup_seen.py:136-155 | a member delivered twice leaves the queue |
| Rebuilding.Store.BatchSAddAndZRem | fixup/fixup_seen.py:33-51 | one batch does what handling its entries one by one does |
| Rebuilding.Store.AddQueueAndDedupe | fixup/fixup_seen.py:131-159 | result and counts do not depend on the batch size |
| Rebuilding.Store.AddFailed | fixup/fixup_seen.py:83-105 | adds the ids of the failed jobs, whatever the batch size and repeats |
| Rebuilding.Store.AddGraph | fixup/fixup_seen.py:108-128 | adds the ids of the fetched actors |
| Rebuilding.Store.FixupSeen | fixup/fixup_seen.py:162-174 | the seen set ends as the ids of in-flight, failed, fetched and queued jobs, the queue without its duplicates |
| SeenFormats.TimeMemberIdentified | fixup/fixup_seen.py:140-150 | a member of time and job is identified as its job |
| SeenFormats.LaterMembersUnidentified | fixup/fixup_seen.py:140-150 | a member with depth and type in front is not identified, with or without a crc |
| SeenFormats.TimesAreDeduped | fixup/fixup_seen.py:131-159 | on a queue of its own time the script leaves one copy of each job not seen elsewhere and none of the others |
| SeenFormats.FetchedIdentified | fixup/fixup_seen.py:119-124 | a fetched actor gets the id its jobs have, at whatever depth |
| SeenFormats.ElsewhereIsDropped | fixup/fixup_seen.py:162-174 | no queued job that is in flight or failed, nor any of a fetched actor, is left |
| SeenFormats.LaterQueuesUntouched | fixup/fixup_seen.py:131-159 | on a queue of the later formats it removes nothing and adds nothing to the seen set |
| Snapshots.IntCell | bin/snapshot.py:80-95 | the cell holds the number Python reads, booleans and numerals in strings included, exactly when it fits in 32 bits, otherwise nothing |
| Snapshots.CellsTell | bin/snapshot.py:11-104 | the columns are those of the schema, and each cell tells what the node had, or that it had nothing fit |
| Snapshots.ColumnsAreWritten | bin/snapshot.py:48-54 | the columns that come from the crawl have the names its handlers write |
| Snapshots.MaxId | bin/snapshot.py:47-67 | the largest id seen, or -1 |
| Snapshots.SnapshotNodes | bin/snapshot.py:46-116 | batches of equal columns within the limit that together hold every node's row once, in order |
| Snapshots.SnapshotEdges | bin/snapshot.py:119-139 | batches within the limit that together hold exactly the edges at or below the cutoff, in order |
| Snapshots.SnapshotIsWhole | bin/snapshot.py:142-145 | while the graph only grows in between, written edges have both ends in the node file and every edge of the first pass is written exactly once |

## Left out

- Dispatching.World.Await: its body takes no step; its contract is all a caller may rely on at an `await`, namely that the other coroutines took steps of the protocol and did not move this one.
- Crawling.Crawler.Worker: the loop runs for a given number of passes, because the source loops until it is stopped; its back-off after failing Redis commands is not modelled.
- Crawling.Crawler.ReapWorker: likewise a given number of passes; a pass that raises half way is not modelled.
- Dispatching.Dispatcher.Get: a BZPOPMIN that has not answered yet is reported as blocked instead of waiting.
- Dispatching.Dispatcher.Join: gives up after a given number of sleeps, because nothing bounds how long a crawl by others lasts.
- RateLimiting.FixedWindowCounter.Acquire: gives up after a given number of sleeps, because a contended task may be overtaken for ever; `AllServed` says when it is not.
- Fetching.ActivityPubClient.GetWithHeaders: gives up when a gate does; a task is then reported as still waiting.
- CachedGraph.DatabaseGraph.Evict: drops any entry, which covers least recently used and every other policy.
- Dispatching.World.Now: the clock of the dispatcher counts whole milliseconds and never runs backwards.
- Property names longer than VARCHAR(32), on which the store raises; the crawl's own names fit.
- Windows: times are real numbers; rounding of floating point times is not modelled.
- Failing Redis commands and processes that die between two commands of the crawler, where the code promises no conservation.
- A fetched document whose JSON is not an object counts as a fetch that raises.
- Transport, TLS, cookies, signing and headers of the HTTP client, and the webfinger lookup itself: foreign calls.
- Profile properties an actor job copies: they are written with the depth but never read back by the crawl.
- `all_nodes`, `all_edges` and `node_property_values` of the graph store: cursors over whole tables that use no cache.
- Ids an insert that fails may burn in the database's sequence.
- `Crawler.start`, `finish` and `abort`, logging, command lines, the host survey, the recovery scripts, `fixup_zero_score.py` and `fixup_seen_hash.py`: wiring or simple loops.
- Integers beyond 64 bits, on which orjson raises: depths are unbounded numbers.
- Digits beyond ASCII, which `str.isdigit` also accepts.
