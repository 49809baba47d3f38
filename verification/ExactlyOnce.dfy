/**
 Without reaping, every job is handled exactly once: any number of workers and
 seeding scripts, any interleaving of Redis commands, any hash.

 The argument counts tokens. A token is a job in one place; every step moves one
 token, or creates one for a hash that was not in SEEN_HASHED.
 */
module ExactlyOnce {
  import opened Options
  import opened Jobs
  import opened Codec
  import opened Web
  import opened Protocol
  import opened Conservation
  import opened Todo

  datatype Token =
    | InQueue(m: Member)
    | InHand(c: nat, job: Job)
    | OnLease(job: Job)
    | DidFail(job: Job)
    | DidComplete(job: Job)

  function JobOf(t: Token): Job {
    if t.InQueue? then t.m.job else t.job
  }

  ghost predicate Present(s: State, t: Token) {
    match t
    case InQueue(m) => m in s.store.queue
    case InHand(c, j) => c in s.pcs && j in Carried(s.pcs[c])
    case OnLease(j) => j in s.store.inflight
    case DidFail(j) => j in s.store.failed
    case DidComplete(j) => j in s.completed
  }

  predicate Reaper(pc: Pc) {
    pc.Reaping? || pc.Unleased? || pc.Requeued?
  }

  /** Tokens have distinct hashes, and those hashes are SEEN_HASHED. */
  ghost predicate OneToken(env: Env, s: State) {
    && (forall t, u :: Present(s, t) && Present(s, u) && Hash(env, JobOf(t)) == Hash(env, JobOf(u)) ==> t == u)
    && (forall t :: Present(s, t) ==> Hash(env, JobOf(t)) in s.store.seen)
    && (forall h :: h in s.store.seen ==> exists t :: Present(s, t) && Hash(env, JobOf(t)) == h)
  }

  /** There are no leases but those of running handlers. */
  ghost predicate LeasesOwned(s: State) {
    forall j :: j in s.store.inflight ==> exists c :: c in s.pcs && OwnerOf(s.pcs[c]) == Some(j)
  }

  /** Each running handler holds the lease of its own job, alone. */
  ghost predicate LeasesHeld(s: State) {
    && (forall c :: c in s.pcs && OwnerOf(s.pcs[c]).Some? ==> OwnerOf(s.pcs[c]).value in s.store.inflight)
    && (forall c, d :: c in s.pcs && d in s.pcs && OwnerOf(s.pcs[c]).Some? && OwnerOf(s.pcs[c]) == OwnerOf(s.pcs[d]) ==> c == d)
    && (forall c :: c in s.pcs ==> !Reaper(s.pcs[c]))
  }

  /** The token's job has left the queue. */
  ghost predicate Taken(s: State, t: Token) {
    Present(s, t) && !t.InQueue? && !(t.InHand? && s.pcs[t.c].Admitting?)
  }

  /** The jobs popped so far are those of the tokens that left the queue, each once. */
  ghost predicate PoppedOnce(env: Env, s: State) {
    && (forall i, k :: 0 <= i < k < |s.popped| ==> Hash(env, s.popped[i]) != Hash(env, s.popped[k]))
    && (forall j :: j in s.popped ==> exists t :: Taken(s, t) && JobOf(t) == j)
    && (forall t :: Taken(s, t) ==> JobOf(t) in s.popped)
  }

  ghost predicate Once(env: Env, s: State) {
    OneToken(env, s) && LeasesHeld(s) && LeasesOwned(s) && PoppedOnce(env, s)
  }

  // ---- one step moves one token ----

  /** The token a step takes away and the token it brings. */
  function Gone(s: State, step: Step): Option<Token>
    requires step.c in s.pcs
  {
    var c, pc := step.c, s.pcs[step.c];
    match step
    case Pop(_, m) => Some(InQueue(m))
    case Lease(_, _) => if pc.Popped? then Some(InHand(c, pc.job)) else None
    case Push(_, _) => if pc.Admitting? then Some(InHand(c, pc.job)) else None
    case Record(_) => if pc.Failing? then Some(InHand(c, pc.job)) else None
    case Complete(_) => if OwnerOf(pc).Some? then Some(OnLease(OwnerOf(pc).value)) else None
    case Give(_) => if OwnerOf(pc).Some? then Some(OnLease(OwnerOf(pc).value)) else None
    case Crash(_) => if OwnerOf(pc).Some? then Some(OnLease(OwnerOf(pc).value)) else None
    case _ => None
  }

  function Come(env: Env, s: State, step: Step): Option<Token>
    requires step.c in s.pcs
  {
    var c, pc := step.c, s.pcs[step.c];
    match step
    case Pop(_, m) => Some(InHand(c, m.job))
    case Lease(_, _) => if pc.Popped? then Some(OnLease(pc.job)) else None
    case Push(_, ts) => if pc.Admitting? then Some(InQueue(MemberOf(pc.job, env.crc, ts))) else None
    case Record(_) => if pc.Failing? then Some(DidFail(pc.job)) else None
    case Complete(_) => if OwnerOf(pc).Some? then Some(DidComplete(OwnerOf(pc).value)) else None
    case Give(_) => if OwnerOf(pc).Some? then Some(InHand(c, OwnerOf(pc).value)) else None
    case Crash(_) => if OwnerOf(pc).Some? then Some(InHand(c, OwnerOf(pc).value)) else None
    case Admit(_) =>
      if pc.Working? && pc.todo != [] && pc.todo[0].Enqueue? && Hash(env, pc.todo[0].job) !in s.store.seen
      then Some(InHand(c, pc.todo[0].job)) else None
    case _ => None
  }

  lemma {:induction false} StepMovesToken(env: Env, s: State, s': State, step: Step, t: Token)
    requires Next(env, s, s', step) && Once(env, s) && !step.Scan?
    ensures Present(s', t) <==> (Present(s, t) && Gone(s, step) != Some(t)) || Come(env, s, step) == Some(t)
  {
    hide IsFirst, OneToken, MemberOf;
  }

  /** A token is taken from somewhere only to be put down elsewhere; a new one is of
      a hash not seen before, and the only such hash. */
  lemma {:induction false} TokenAccounts(env: Env, s: State, s': State, step: Step)
    requires Next(env, s, s', step) && Once(env, s) && !step.Scan?
    ensures var gone, come := Gone(s, step), Come(env, s, step);
            && (gone.Some? ==> Present(s, gone.value) && come.Some? && JobOf(come.value) == JobOf(gone.value) && s'.store.seen == s.store.seen)
            && (gone.None? && come.Some? ==>
                  Hash(env, JobOf(come.value)) !in s.store.seen && s'.store.seen == s.store.seen + {Hash(env, JobOf(come.value))})
            && (gone.None? && come.None? ==> s'.store.seen == s.store.seen)
  {
    hide Before, Plan, Answers, Affect, Remaining, LeasesOwned, PoppedOnce;
  }

  lemma {:induction false} StepKeepsOneToken(env: Env, s: State, s': State, step: Step)
    requires Next(env, s, s', step) && Once(env, s) && !step.Scan?
    ensures OneToken(env, s')
  {
    assert step.c in s.pcs;
    hide Next, Gone, Come, Present, Hash, JobOf, LeasesHeld, LeasesOwned, PoppedOnce;
    var gone, come := Gone(s, step), Come(env, s, step);
    forall t ensures Present(s', t) <==> (Present(s, t) && gone != Some(t)) || come == Some(t) {
      StepMovesToken(env, s, s', step, t);
    }
    TokenAccounts(env, s, s', step);
    forall t, u | Present(s', t) && Present(s', u) && Hash(env, JobOf(t)) == Hash(env, JobOf(u)) ensures t == u {
      TokensStayApart(env, s, s', gone, come, t, u);
    }
    forall h | h in s'.store.seen ensures exists t :: Present(s', t) && Hash(env, JobOf(t)) == h {
      SeenHasToken(env, s, s', gone, come, h);
    }
  }

  lemma {:induction false} TokensStayApart(env: Env, s: State, s': State, gone: Option<Token>, come: Option<Token>, t: Token, u: Token)
    requires OneToken(env, s) && Present(s', t) && Present(s', u) && Hash(env, JobOf(t)) == Hash(env, JobOf(u))
    requires forall x :: Present(s', x) <==> (Present(s, x) && gone != Some(x)) || come == Some(x)
    requires gone.Some? ==> Present(s, gone.value) && come.Some? && JobOf(come.value) == JobOf(gone.value)
    requires gone.None? && come.Some? ==> Hash(env, JobOf(come.value)) !in s.store.seen
    ensures t == u
  {
    hide Present, Hash, JobOf;
  }

  lemma {:induction false} SeenHasToken(env: Env, s: State, s': State, gone: Option<Token>, come: Option<Token>, h: nat)
    requires OneToken(env, s) && h in s'.store.seen
    requires forall t :: Present(s', t) <==> (Present(s, t) && gone != Some(t)) || come == Some(t)
    requires gone.Some? ==> come.Some? && JobOf(come.value) == JobOf(gone.value)
    requires h in s.store.seen || (come.Some? && Hash(env, JobOf(come.value)) == h)
    ensures exists t :: Present(s', t) && Hash(env, JobOf(t)) == h
  {
    hide Present, Hash;
    assert come.Some? ==> Present(s', come.value);
    if h in s.store.seen {
      var t :| Present(s, t) && Hash(env, JobOf(t)) == h;
      assert Present(s', t) || gone == Some(t);
    }
  }

  lemma {:induction false} NewLeaseIsFree(env: Env, s: State, c: nat)
    requires OneToken(env, s) && c in s.pcs && s.pcs[c].Popped?
    ensures s.pcs[c].job !in s.store.inflight
  {
    var j := s.pcs[c].job;
    assert Present(s, InHand(c, j));
    assert j in s.store.inflight ==> Present(s, OnLease(j));
  }

  /** A step touches at most the lease of the coroutine that takes it. */
  lemma {:induction false} LeaseChange(env: Env, s: State, s': State, step: Step)
    requires Next(env, s, s', step) && LeasesHeld(s) && !step.Scan?
    ensures step.c in s.pcs && step.c in s'.pcs
    ensures forall j :: j in s.store.inflight && OwnerOf(s.pcs[step.c]) != Some(j) ==> j in s'.store.inflight
    ensures OwnerOf(s'.pcs[step.c]).Some? ==> OwnerOf(s'.pcs[step.c]).value in s'.store.inflight
    ensures OwnerOf(s'.pcs[step.c]).Some? ==>
              OwnerOf(s'.pcs[step.c]) == OwnerOf(s.pcs[step.c]) || OwnerOf(s'.pcs[step.c]).value !in s.store.inflight ||
              (step.Lease? && s.pcs[step.c].Popped?)
    ensures !Reaper(s'.pcs[step.c])
    ensures forall j :: j in s'.store.inflight ==>
              OwnerOf(s'.pcs[step.c]) == Some(j) || (j in s.store.inflight && OwnerOf(s.pcs[step.c]) != Some(j))
  {
    hide IsFirst, Plan, Answers, Affect, Remaining, MemberOf, Hash;
  }

  lemma {:induction false} LeaseMoves(env: Env, s: State, s': State, step: Step)
    requires Next(env, s, s', step) && step.Lease?
    ensures step.c in s.pcs && s.pcs[step.c].Popped? && step.c in s'.pcs && OwnerOf(s'.pcs[step.c]) == Some(s.pcs[step.c].job)
  {
    hide Plan;
  }

  lemma {:induction false} StepKeepsLeases(env: Env, s: State, s': State, step: Step)
    requires Next(env, s, s', step) && OneToken(env, s) && LeasesHeld(s) && !step.Scan?
    ensures LeasesHeld(s')
  {
    hide Next, OneToken;
    OnlyMoves(env, s, s', step);
    LeaseChange(env, s, s', step);
    if step.Lease? {
      LeaseMoves(env, s, s', step);
      NewLeaseIsFree(env, s, step.c);
    }
    forall c | c in s'.pcs && c != step.c && OwnerOf(s'.pcs[c]).Some?
      ensures OwnerOf(s'.pcs[c]).value in s'.store.inflight && OwnerOf(s'.pcs[c]) != OwnerOf(s'.pcs[step.c])
    {
    }
  }

  lemma {:induction false} StepKeepsOwners(env: Env, s: State, s': State, step: Step)
    requires Next(env, s, s', step) && LeasesHeld(s) && LeasesOwned(s) && !step.Scan?
    ensures LeasesOwned(s')
  {
    hide Next, LeasesHeld;
    OnlyMoves(env, s, s', step);
    LeaseChange(env, s, s', step);
    forall j | j in s'.store.inflight ensures exists c :: c in s'.pcs && OwnerOf(s'.pcs[c]) == Some(j) {
      if OwnerOf(s'.pcs[step.c]) != Some(j) {
        var c :| c in s.pcs && OwnerOf(s.pcs[c]) == Some(j);
        assert OwnerOf(s'.pcs[c]) == Some(j);
      }
    }
  }

  /** A token that stays, stays on its side of the pop. */
  lemma {:induction false} StayingKeepsTaken(env: Env, s: State, s': State, step: Step, t: Token)
    requires Next(env, s, s', step) && Once(env, s) && !step.Scan?
    ensures Present(s, t) && Gone(s, step) != Some(t) ==> (Taken(s', t) <==> Taken(s, t))
  {
    hide Before, Plan, LeasesOwned, PoppedOnce, Answers, Affect, Remaining, MemberOf;
  }

  /** The one that moves takes its side along, unless it is popped. */
  lemma {:induction false} MovingKeepsTaken(env: Env, s: State, s': State, step: Step)
    requires Next(env, s, s', step) && Once(env, s) && !step.Scan?
    ensures Gone(s, step).Some? ==> Come(env, s, step).Some? && JobOf(Come(env, s, step).value) == JobOf(Gone(s, step).value)
    ensures Gone(s, step).Some? && !step.Pop? ==>
              (Taken(s', Come(env, s, step).value) <==> Taken(s, Gone(s, step).value))
    ensures Gone(s, step).None? && Come(env, s, step).Some? ==> !Taken(s', Come(env, s, step).value)
  {
    hide Before, Plan, LeasesOwned, PoppedOnce, Answers, Affect, Remaining, OneToken, Hash;
  }

  lemma {:induction false} PoppedIsTakenNow(env: Env, s: State, s': State, step: Step)
    requires Next(env, s, s', step) && step.Pop?
    ensures Come(env, s, step).Some? && JobOf(Come(env, s, step).value) == step.m.job
    ensures Taken(s', Come(env, s, step).value) && Present(s, InQueue(step.m)) && !Taken(s, InQueue(step.m))
  {
    hide Before, Plan, Answers, Affect, Remaining, Hash;
  }

  lemma {:induction false} StepMovesTaken(env: Env, s: State, s': State, step: Step, t: Token)
    requires Next(env, s, s', step) && Once(env, s) && !step.Scan?
    ensures Present(s, t) && Gone(s, step) != Some(t) ==> (Taken(s', t) <==> Taken(s, t))
    ensures Gone(s, step).Some? ==> Come(env, s, step).Some? && JobOf(Come(env, s, step).value) == JobOf(Gone(s, step).value)
    ensures Gone(s, step).Some? && !step.Pop? ==>
              (Taken(s', Come(env, s, step).value) <==> Taken(s, Gone(s, step).value))
    ensures Gone(s, step).None? && Come(env, s, step).Some? ==> !Taken(s', Come(env, s, step).value)
    ensures step.Pop? ==> Taken(s', Come(env, s, step).value) && Present(s, InQueue(step.m)) && !Taken(s, InQueue(step.m))
  {
    hide Next, Once, Taken, Present, Hash;
    OnlyMoves(env, s, s', step);
    StayingKeepsTaken(env, s, s', step, t);
    MovingKeepsTaken(env, s, s', step);
    if step.Pop? {
      PoppedIsTakenNow(env, s, s', step);
    }
  }

  lemma {:induction false} TakenWasPopped(env: Env, s: State, s': State, step: Step, t: Token)
    requires Next(env, s, s', step) && Once(env, s) && !step.Scan? && Taken(s', t)
    ensures JobOf(t) in s'.popped
  {
    StepMovesToken(env, s, s', step, t);
    StepMovesTaken(env, s, s', step, t);
    if step.Pop? {
      assert s'.popped[|s.popped|] == step.m.job;
    }
  }

  lemma {:induction false} PoppedIsTaken(env: Env, s: State, s': State, step: Step, j: Job)
    requires Next(env, s, s', step) && Once(env, s) && !step.Scan? && j in s'.popped
    ensures exists t :: Taken(s', t) && JobOf(t) == j
  {
    if j in s.popped {
      var t :| Taken(s, t) && JobOf(t) == j;
      StepMovesTaken(env, s, s', step, t);
      if Gone(s, step) == Some(t) {
        assert Taken(s', Come(env, s, step).value);
      } else {
        assert Taken(s', t);
      }
    } else {
      StepMovesTaken(env, s, s', step, InQueue(step.m));
      assert Taken(s', Come(env, s, step).value);
    }
  }

  lemma {:induction false} StepKeepsPopped(env: Env, s: State, s': State, step: Step)
    requires Next(env, s, s', step) && Once(env, s) && !step.Scan?
    ensures PoppedOnce(env, s')
  {
    forall t | Taken(s', t) ensures JobOf(t) in s'.popped {
      TakenWasPopped(env, s, s', step, t);
    }
    forall j | j in s'.popped ensures exists t :: Taken(s', t) && JobOf(t) == j {
      PoppedIsTaken(env, s, s', step, j);
    }
    forall i, k | 0 <= i < k < |s'.popped| ensures Hash(env, s'.popped[i]) != Hash(env, s'.popped[k]) {
      if k == |s.popped| {
        assert s.popped[i] in s.popped;
        var t :| Taken(s, t) && JobOf(t) == s.popped[i];
        StepMovesTaken(env, s, s', step, t);
      }
    }
  }

  lemma {:induction false} StepKeepsOnce(env: Env, s: State, s': State, step: Step)
    requires Next(env, s, s', step) && Once(env, s) && !step.Scan?
    ensures Once(env, s')
  {
    StepKeepsOneToken(env, s, s', step);
    StepKeepsLeases(env, s, s', step);
    StepKeepsOwners(env, s, s', step);
    StepKeepsPopped(env, s, s', step);
  }

  lemma {:induction false} InitialOnce(env: Env, s: State, seeds: set<Job>)
    requires Initial(s, seeds)
    ensures Once(env, s)
  {
  }

  ghost predicate NoReaping(steps: seq<Step>) {
    forall i :: 0 <= i < |steps| ==> !steps[i].Scan?
  }

  /** Any run without reaping from an empty start, at any moment: exactly one place
      for every seen hash, and every popped job was popped once. */
  lemma {:induction false} RunOnce(env: Env, run: seq<State>, steps: seq<Step>, seeds: set<Job>, i: nat)
    requires IsRun(env, run, steps) && Initial(run[0], seeds) && NoReaping(steps) && i < |run|
    ensures Once(env, run[i])
  {
    if i == 0 {
      InitialOnce(env, run[0], seeds);
    } else {
      RunOnce(env, run, steps, seeds, i - 1);
      StepKeepsOnce(env, run[i - 1], run[i], steps[i - 1]);
    }
  }

  // ---- counting ----

  /** Sets in one-to-one correspondence have the same size. */
  lemma {:induction false} SameSize<A, B>(xs: set<A>, ys: set<B>, f: A -> B)
    requires forall x :: x in xs ==> f(x) in ys
    requires forall y :: y in ys ==> exists x :: x in xs && f(x) == y
    requires forall x, x' :: x in xs && x' in xs && f(x) == f(x') ==> x == x'
    ensures |xs| == |ys|
  {
    if xs == {} {
      assert ys == {};
    } else {
      var x :| x in xs;
      SameSize(xs - {x}, ys - {f(x)}, f);
    }
  }

  function Hands(s: State): set<nat> {
    set c | c in s.pcs && Carried(s.pcs[c]) != {}
  }

  function CarriedJob(s: State, c: nat): Job
    requires c in Hands(s)
  {
    match s.pcs[c]
    case Popped(j) => j
    case Admitting(_, j, _) => j
    case Failing(j) => j
    case Unleased(j, _) => j
    case _ => assert false; Webfinger("")
  }

  function QueueTokens(s: State): set<Token> { set m | m in s.store.queue :: InQueue(m) }
  function HandTokens(s: State): set<Token> { set c | c in Hands(s) :: InHand(c, CarriedJob(s, c)) }
  function LeaseTokens(s: State): set<Token> { set j | j in s.store.inflight.Keys :: OnLease(j) }
  function FailTokens(s: State): set<Token> { set j | j in s.store.failed :: DidFail(j) }
  function CompleteTokens(s: State): set<Token> { set j | j in s.completed :: DidComplete(j) }

  function Tokens(s: State): set<Token> {
    QueueTokens(s) + HandTokens(s) + LeaseTokens(s) + FailTokens(s) + CompleteTokens(s)
  }

  lemma {:induction false} TokensArePresent(s: State, t: Token)
    ensures t in Tokens(s) <==> Present(s, t)
  {
    if t.InHand? && t.c in s.pcs {
      assert t.job in Carried(s.pcs[t.c]) <==> t.c in Hands(s) && t.job == CarriedJob(s, t.c);
    }
  }

  lemma {:induction false} PartCounts(s: State)
    ensures |QueueTokens(s)| == |s.store.queue|
    ensures |LeaseTokens(s)| == |s.store.inflight|
    ensures |FailTokens(s)| == |s.store.failed|
    ensures |CompleteTokens(s)| == |s.completed|
  {
    SameSize(s.store.queue, QueueTokens(s), m => InQueue(m));
    SameSize(s.store.inflight.Keys, LeaseTokens(s), j => OnLease(j));
    SameSize(s.store.failed, FailTokens(s), j => DidFail(j));
    SameSize(s.completed, CompleteTokens(s), j => DidComplete(j));
  }

  lemma {:induction false} HandCount(s: State)
    ensures |HandTokens(s)| == |Hands(s)|
  {
    var f := c => if c in Hands(s) then InHand(c, CarriedJob(s, c)) else InHand(c, Webfinger(""));
    SameSize(Hands(s), HandTokens(s), f);
  }

  lemma {:induction false} TokenCount(s: State)
    ensures |Tokens(s)| == |s.store.queue| + |Hands(s)| + |s.store.inflight| + |s.store.failed| + |s.completed|
  {
    HandCount(s);
    PartCounts(s);
    DisjointSizes(QueueTokens(s), HandTokens(s), LeaseTokens(s), FailTokens(s), CompleteTokens(s));
  }

  lemma {:induction false} DisjointSizes(q: set<Token>, h: set<Token>, l: set<Token>, f: set<Token>, d: set<Token>)
    requires forall t :: (t in q ==> t.InQueue?) && (t in h ==> t.InHand?) && (t in l ==> t.OnLease?) &&
                         (t in f ==> t.DidFail?) && (t in d ==> t.DidComplete?)
    ensures |q + h + l + f + d| == |q| + |h| + |l| + |f| + |d|
  {
    assert q !! h && (q + h) !! l && (q + h + l) !! f && (q + h + l + f) !! d;
  }

  /** The sizes add up: SEEN_HASHED is partitioned by where its jobs are. */
  lemma {:induction false} SeenIsPartitioned(env: Env, s: State)
    requires Once(env, s)
    ensures |s.store.seen| == |s.store.queue| + |Hands(s)| + |s.store.inflight| + |s.store.failed| + |s.completed|
  {
    TokenCount(s);
    SeenCount(env, s);
  }

  lemma {:induction false} SeenCount(env: Env, s: State)
    requires OneToken(env, s)
    ensures |s.store.seen| == |Tokens(s)|
  {
    var tokens := Tokens(s);
    forall t ensures t in tokens <==> Present(s, t) {
      TokensArePresent(s, t);
    }
    HashCount(env, tokens, s.store.seen);
  }

  lemma {:induction false} HashCount(env: Env, tokens: set<Token>, seen: set<nat>)
    requires forall t, u :: t in tokens && u in tokens && Hash(env, JobOf(t)) == Hash(env, JobOf(u)) ==> t == u
    requires forall t :: t in tokens ==> Hash(env, JobOf(t)) in seen
    requires forall h :: h in seen ==> exists t :: t in tokens && Hash(env, JobOf(t)) == h
    ensures |seen| == |tokens|
  {
    SameSize(tokens, seen, t => Hash(env, JobOf(t)));
  }

  /** A popped job is leased, in a worker's hands, failed or completed, and only
      one of these: `done` and `fail` never both happen to it. */
  lemma {:induction false} PoppedJobsEndOnce(env: Env, s: State, i: nat)
    requires Once(env, s) && i < |s.popped|
    ensures exists t :: Taken(s, t) && JobOf(t) == s.popped[i] &&
              forall u :: Present(s, u) && Hash(env, JobOf(u)) == Hash(env, s.popped[i]) ==> u == t
    ensures !(s.popped[i] in s.completed && s.popped[i] in s.store.failed)
  {
    assert s.popped[i] in s.popped;
    var t :| Taken(s, t) && JobOf(t) == s.popped[i];
    assert s.popped[i] in s.completed ==> Present(s, DidComplete(s.popped[i]));
    assert s.popped[i] in s.store.failed ==> Present(s, DidFail(s.popped[i]));
  }
}
