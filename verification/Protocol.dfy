/**
 The crawl as a state machine (pub_crawler/dispatcher.py, pub_crawler/crawler.py).

 Every step is one Redis command, one graph call or one decision of a coroutine;
 any number of workers, one seeding script and the reaper interleave freely
 between steps. Failing Redis commands and processes that die between two
 commands are not steps.
 */
module Protocol {
  import opened Options
  import opened Jobs
  import opened Codec
  import opened Web

  const MAX_INFLIGHT := 15 * 60 * 1000

  /** The four Redis structures. INFLIGHT holds the expiry of each lease. */
  datatype Store = Store(queue: set<Member>, inflight: map<Job, int>, failed: set<Job>, seen: set<nat>)

  /** What the crawl reads and writes of the graph: known actors, their depth
      property, which of them carry a `last_fetch_date`, and the follow edges. */
  datatype Graph = Graph(nodes: set<string>, depth: map<string, int>, fetched: set<string>, follows: set<(string, string)>)

  /** Where a coroutine stands. `Working` is a handler with calls left to make, or
      the seeding script when it has no owner. */
  datatype Pc =
    | Idle
    | Stopped
    | Popped(job: Job)                                             // get: popped, not leased yet
    | Working(owner: Option<Job>, todo: seq<Action>)
    | Admitting(owner: Option<Job>, job: Job, todo: seq<Action>)   // enqueue_if_unseen: SADD answered 1
    | Failing(job: Job)                                            // fail: lease dropped, not recorded yet
    | Sleeping                                                     // the reaper between passes
    | Reaping(jobs: seq<Job>)                                      // expired jobs left to enqueue
    | Unleased(job: Job, rest: seq<Job>)                           // enqueue: lease dropped, not queued yet
    | Requeued(job: Job, rest: seq<Job>)                           // enqueue: queued, not marked seen yet

  /** `completed` and `popped` are history: jobs whose handler returned, and the
      jobs popped so far in order. */
  datatype State = State(store: Store, graph: Graph, pcs: map<nat, Pc>, completed: set<Job>, popped: seq<Job>)

  // ---- Redis commands ----

  function ZAdd(r: Store, m: Member): Store { r.(queue := r.queue + {m}) }
  function ZRem(r: Store, m: Member): Store { r.(queue := r.queue - {m}) }
  function HSet(r: Store, job: Job, expiry: int): Store { r.(inflight := r.inflight[job := expiry]) }
  function HDel(r: Store, job: Job): Store { r.(inflight := r.inflight - {job}) }
  function SAddSeen(r: Store, h: nat): Store { r.(seen := r.seen + {h}) }
  function SAddFailed(r: Store, job: Job): Store { r.(failed := r.failed + {job}) }

  // ---- actions of a handler on the graph ----

  function Elements(ids: seq<string>): set<string> {
    set id | id in ids
  }

  function Follows(ids: seq<string>, owner: string, direction: Direction): set<(string, string)> {
    set id | id in ids :: if direction == Followers then (id, owner) else (owner, id)
  }

  function Affect(g: Graph, a: Action): Graph {
    match a
    case Ensure(ids) => g.(nodes := g.nodes + Elements(ids))
    case Link(ids, owner, dir) => g.(follows := g.follows + Follows(ids, owner, dir))
    case WriteDepth(ids, d) => g.(depth := g.depth + map id | id in ids :: d)
    case SaveActor(id, d, fetched) =>
      g.(depth := g.depth[id := d], fetched := if fetched then g.fetched + {id} else g.fetched)
    case _ => g
  }

  predicate NoRepeats(order: seq<string>) {
    forall i, k :: 0 <= i < k < |order| ==> order[i] != order[k]
  }

  /** The labels a read of the graph leaves to act on: a Python set, so each label
      once and in any order. */
  predicate Answers(g: Graph, a: Action, order: seq<string>) {
    NoRepeats(order) &&
    match a
    case StampDepth(ids, _) => Elements(order) == Elements(ids) - g.depth.Keys
    case QueueUnfetched(ids, _) => Elements(order) == Elements(ids) - g.fetched
    case _ => order == []
  }

  function EnqueueActors(order: seq<string>, depth: int): seq<Action> {
    seq(|order|, i requires 0 <= i < |order| => Enqueue(Actor(order[i], depth)))
  }

  /** What is left to do after the first action, given what it read. */
  function Remaining(g: Graph, todo: seq<Action>, order: seq<string>): seq<Action>
    requires todo != []
  {
    match todo[0]
    case StampDepth(_, d) => [WriteDepth(order, d)] + todo[1..]
    case QueueUnfetched(_, d) => EnqueueActors(order, d) + todo[1..]
    case StopIfFetched(id) => if id in g.fetched then [] else todo[1..]
    case _ => todo[1..]
  }

  // ---- steps ----

  datatype Step =
    | Pop(c: nat, m: Member)                       // BZPOPMIN
    | Lease(c: nat, now: int)                      // HSET INFLIGHT
    | Act(c: nat, order: seq<string>)              // one graph call of a handler
    | Admit(c: nat)                                // SADD SEEN_HASHED
    | Push(c: nat, ts: string)                     // ZADD QUEUE of an admitted job
    | Complete(c: nat)                             // done: HDEL INFLIGHT
    | SeedsDone(c: nat)
    | Give(c: nat)                                 // the plan raises; fail: HDEL INFLIGHT
    | Crash(c: nat)                                // any other exception; fail: HDEL INFLIGHT
    | Record(c: nat)                               // SADD FAILED
    | Quit(c: nat)                                 // the dispatcher was stopped
    | Scan(c: nat, now: int, jobs: seq<Job>)       // HGETALL INFLIGHT
    | DropLease(c: nat)                            // enqueue: HDEL INFLIGHT
    | PushAgain(c: nat, ts: string)                // enqueue: ZADD QUEUE
    | MarkSeen(c: nat)                             // enqueue: SADD SEEN_HASHED
    | Rest(c: nat)

  ghost predicate Next(env: Env, s: State, s': State, step: Step) {
    step.c in s.pcs &&
    var pc, r := s.pcs[step.c], s.store;
    match step
    case Pop(c, m) =>
      pc == Idle && IsFirst(m, r.queue, env.json) &&
      s' == s.(store := ZRem(r, m), pcs := s.pcs[c := Popped(m.job)], popped := s.popped + [m.job])
    case Lease(c, now) =>
      pc.Popped? &&
      s' == s.(store := HSet(r, pc.job, now + MAX_INFLIGHT), pcs := s.pcs[c := Working(Some(pc.job), Plan(env, pc.job))])
    case Act(c, order) =>
      pc.Working? && pc.todo != [] && !pc.todo[0].Enqueue? && !pc.todo[0].Raise? && Answers(s.graph, pc.todo[0], order) &&
      s' == s.(graph := Affect(s.graph, pc.todo[0]),
               pcs := s.pcs[c := Working(pc.owner, Remaining(s.graph, pc.todo, order))])
    case Admit(c) =>
      pc.Working? && pc.todo != [] && pc.todo[0].Enqueue? &&
      var job, rest := pc.todo[0].job, pc.todo[1..];
      s' == if Hash(env, job) in r.seen then s.(pcs := s.pcs[c := Working(pc.owner, rest)])
            else s.(store := SAddSeen(r, Hash(env, job)), pcs := s.pcs[c := Admitting(pc.owner, job, rest)])
    case Push(c, ts) =>
      pc.Admitting? &&
      s' == s.(store := ZAdd(r, MemberOf(pc.job, env.crc, ts)), pcs := s.pcs[c := Working(pc.owner, pc.todo)])
    case Complete(c) =>
      pc.Working? && pc.todo == [] && pc.owner.Some? &&
      s' == s.(store := HDel(r, pc.owner.value), pcs := s.pcs[c := Idle], completed := s.completed + {pc.owner.value})
    case SeedsDone(c) =>
      pc == Working(None, []) && s' == s.(pcs := s.pcs[c := Stopped])
    case Give(c) =>
      pc.Working? && pc.owner.Some? && pc.todo != [] && pc.todo[0].Raise? &&
      s' == s.(store := HDel(r, pc.owner.value), pcs := s.pcs[c := Failing(pc.owner.value)])
    case Crash(c) =>
      pc.Working? && pc.owner.Some? &&
      s' == s.(store := HDel(r, pc.owner.value), pcs := s.pcs[c := Failing(pc.owner.value)])
    case Record(c) =>
      pc.Failing? && s' == s.(store := SAddFailed(r, pc.job), pcs := s.pcs[c := Idle])
    case Quit(c) =>
      pc == Idle && s' == s.(pcs := s.pcs[c := Stopped])
    case Scan(c, now, jobs) =>
      pc == Sleeping && (forall j :: j in jobs <==> j in r.inflight && r.inflight[j] < now) &&
      s' == s.(pcs := s.pcs[c := Reaping(jobs)])
    case DropLease(c) =>
      pc.Reaping? && pc.jobs != [] &&
      s' == s.(store := HDel(r, pc.jobs[0]), pcs := s.pcs[c := Unleased(pc.jobs[0], pc.jobs[1..])])
    case PushAgain(c, ts) =>
      pc.Unleased? &&
      s' == s.(store := ZAdd(r, MemberOf(pc.job, env.crc, ts)), pcs := s.pcs[c := Requeued(pc.job, pc.rest)])
    case MarkSeen(c) =>
      pc.Requeued? &&
      s' == s.(store := SAddSeen(r, Hash(env, pc.job)), pcs := s.pcs[c := Reaping(pc.rest)])
    case Rest(c) =>
      pc == Reaping([]) && s' == s.(pcs := s.pcs[c := Sleeping])
  }

  /** Only coroutine `c` moved. */
  predicate OthersStill(p: map<nat, Pc>, q: map<nat, Pc>, c: nat) {
    p.Keys == q.Keys && forall d :: d in p && d != c ==> q[d] == p[d]
  }

  /** A step moves no coroutine but its own. */
  lemma {:induction false} OnlyMoves(env: Env, s: State, s': State, step: Step)
    requires Next(env, s, s', step)
    ensures step.c in s.pcs && OthersStill(s.pcs, s'.pcs, step.c)
  {
    hide Plan, IsFirst, Answers, Affect, Remaining, MemberOf, Hash;
  }

  /** A finite run: `steps[i]` takes `run[i]` to `run[i + 1]`. */
  ghost predicate IsRun(env: Env, run: seq<State>, steps: seq<Step>) {
    |run| == |steps| + 1 && forall i {:trigger steps[i]} :: 0 <= i < |steps| ==> Next(env, run[i], run[i + 1], steps[i])
  }

  const EMPTY_STORE := Store({}, map[], {}, {})
  const EMPTY_GRAPH := Graph({}, map[], {}, {})

  function EnqueueAll(seeds: seq<Job>): seq<Action> {
    seq(|seeds|, i requires 0 <= i < |seeds| => Enqueue(seeds[i]))
  }

  /** Nothing stored; workers idle, the reaper asleep, and seeding scripts that
      will put `seeds` in through `enqueue_if_unseen`. */
  ghost predicate Initial(s: State, seeds: set<Job>) {
    s.store == EMPTY_STORE && s.graph == EMPTY_GRAPH && s.completed == {} && s.popped == [] &&
    forall c :: c in s.pcs ==>
      s.pcs[c] == Idle || s.pcs[c] == Stopped || s.pcs[c] == Sleeping ||
      (exists list: seq<Job> :: (forall j :: j in list ==> j in seeds) && s.pcs[c] == Working(None, EnqueueAll(list)))
  }
}
