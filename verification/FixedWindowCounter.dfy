/**
 The rate limiter (pub_crawler/fixed_window_counter.py): one counter shared by any
 number of tasks. A task is only suspended while it sleeps; other tasks then take
 turns and looks of their own.
 */
module RateLimiting {
  import opened Options
  import opened Windows

  /** `now` and `sleep`. An ideal clock stands still between sleeps, and a sleep on it
      takes exactly as long as asked; any other clock only never runs backwards. */
  class Clock {
    const ideal: bool
    var time: real

    constructor (ideal: bool, time: real)
      requires 0.0 <= time
      ensures this.ideal == ideal && this.time == time
    {
      this.ideal, this.time := ideal, time;
    }

    method Now() returns (t: real)
      modifies this
      ensures old(time) <= t == time && (ideal ==> t == old(time))
    {
      var drift: real := *;
      if !ideal && drift > 0.0 {
        time := time + drift;
      }
      t := time;
    }

    method Sleep(ms: real)
      modifies this
      ensures old(time) <= time && old(time) + ms <= time
      ensures ideal ==> time == if ms > 0.0 then old(time) + ms else old(time)
    {
      var drift: real := *;
      if ms > 0.0 {
        time := time + ms;
      }
      if !ideal && drift > 0.0 {
        time := time + drift;
      }
    }
  }

  /** A pass of `task` over the cell of `origin`. */
  datatype Entry = Entry(task: nat, origin: string, pass: Pass)

  function PassesOf(history: seq<Entry>, origin: string): seq<Pass> {
    if history == [] then []
    else
      var e := history[|history| - 1];
      PassesOf(history[..|history| - 1], origin) + if e.origin == origin then [e.pass] else []
  }

  /** Entry `i` was granted. */
  predicate GrantedAt(history: seq<Entry>, i: nat, rule: WorkingRule)
    requires i < |history|
  {
    Granted(After(PassesOf(history[..i], history[i].origin), rule), history[i].pass, rule)
  }

  /** All passes, of all origins, in the order of the clock. */
  predicate Timely(history: seq<Entry>, now: real) {
    && (forall i :: 0 <= i < |history| ==> 0.0 <= history[i].pass.seen <= history[i].pass.stamp <= now)
    && (forall i, j :: 0 <= i < j < |history| ==> history[i].pass.stamp <= history[j].pass.seen)
  }

  lemma {:induction false} PassesOfOneMore(history: seq<Entry>, e: Entry, origin: string)
    ensures PassesOf(history + [e], origin) == PassesOf(history, origin) + if e.origin == origin then [e.pass] else []
  {
    assert (history + [e])[..|history|] == history;
  }

  lemma {:induction false} LastGrant(before: seq<Entry>, e: Entry, rule: WorkingRule)
    ensures GrantedAt(before + [e], |before|, rule) == Granted(After(PassesOf(before, e.origin), rule), e.pass, rule)
  {
    hide Granted, After, PassesOf;
    assert (before + [e])[..|before|] == before;
  }

  lemma {:induction false} TimelyOneMore(before: seq<Entry>, e: Entry, now: real)
    requires Timely(before, e.pass.seen) && 0.0 <= e.pass.seen <= e.pass.stamp <= now
    ensures Timely(before + [e], now)
  {
  }

  lemma {:induction false} TimelyLater(history: seq<Entry>, now: real, later: real)
    requires Timely(history, now) && now <= later
    ensures Timely(history, later)
  {
  }

  lemma {:induction false} PassesOfInOrder(history: seq<Entry>, now: real, origin: string)
    requires Timely(history, now)
    ensures InOrder(PassesOf(history, origin))
    ensures forall p :: p in PassesOf(history, origin) ==> p.stamp <= now
  {
    if history != [] {
      var before, e := history[..|history| - 1], history[|history| - 1];
      assert Timely(before, e.pass.seen);
      PassesOfInOrder(before, e.pass.seen, origin);
      var ps := PassesOf(before, origin);
      assert forall i :: 0 <= i < |ps| ==> ps[i] in ps;
    }
  }

  /** The entries that were granted a token of window `k` of an origin. */
  function GrantsIn(history: seq<Entry>, origin: string, k: int, rule: WorkingRule): set<nat> {
    set i | 0 <= i < |history| && history[i].origin == origin && GrantedAt(history, i, rule) &&
            Window(history[i].pass.stamp, rule) == k
  }

  /** Entry `i` took a token of window `k` of an origin. */
  predicate Spends(history: seq<Entry>, i: nat, origin: string, k: int, rule: WorkingRule)
    requires i < |history|
  {
    history[i].origin == origin && GrantedAt(history, i, rule) && Window(history[i].pass.stamp, rule) == k
  }

  lemma {:induction false} GrantsOneMore(history: seq<Entry>, origin: string, k: int, rule: WorkingRule)
    requires history != []
    ensures var n := |history| - 1;
            |GrantsIn(history, origin, k, rule)| ==
            |GrantsIn(history[..n], origin, k, rule)| + if Spends(history, n, origin, k, rule) then 1 else 0
  {
    var n := |history| - 1;
    var some := GrantsIn(history[..n], origin, k, rule);
    assert forall i :: 0 <= i < n ==> history[..n][..i] == history[..i];
    assert GrantsIn(history, origin, k, rule) == if Spends(history, n, origin, k, rule) then some + {n} else some;
  }

  lemma {:induction false} StampsOneMore(history: seq<Entry>, origin: string, k: int, rule: WorkingRule)
    requires history != []
    ensures var n := |history| - 1;
            CountIn(Stamps(PassesOf(history, origin), rule), k, rule) ==
            CountIn(Stamps(PassesOf(history[..n], origin), rule), k, rule) + if Spends(history, n, origin, k, rule) then 1 else 0
  {
    var n := |history| - 1;
    var passes, e := PassesOf(history[..n], origin), history[n];
    LastPass(passes, e.pass, rule);
    CountOneMore(Stamps(passes, rule), e.pass.stamp, k, rule);
    assert Stamps(passes, rule) + [] == Stamps(passes, rule) && passes + [] == passes;
  }

  lemma {:induction false} GrantsAreStamps(history: seq<Entry>, origin: string, k: int, rule: WorkingRule)
    ensures |GrantsIn(history, origin, k, rule)| == CountIn(Stamps(PassesOf(history, origin), rule), k, rule)
  {
    if history == [] {
      assert GrantsIn(history, origin, k, rule) == {};
    } else {
      GrantsAreStamps(history[..|history| - 1], origin, k, rule);
      GrantsOneMore(history, origin, k, rule);
      StampsOneMore(history, origin, k, rule);
    }
  }

  /** Across all tasks, at most `tokens` acquires of an origin carry a time of any one
      window. */
  lemma {:induction false} SharedLimit(history: seq<Entry>, now: real, origin: string, k: int, rule: WorkingRule)
    requires Timely(history, now)
    ensures |GrantsIn(history, origin, k, rule)| <= Limit(rule)
  {
    PassesOfInOrder(history, now, origin);
    AtMostTokensPerWindow(PassesOf(history, origin), rule, k);
    GrantsAreStamps(history, origin, k, rule);
  }

  /** When a token is free for a task that reads the clock at `t`. */
  function FreeAt(cell: Option<Cell>, t: real, rule: WorkingRule): real {
    if Refilled(cell, t, rule).bucket > 0 then t else Start(Window(t, rule) + 1, rule)
  }

  /** What a look tells that finds the bucket at `seen` and reads the clock at `stamp`. */
  function Told(cell: Option<Cell>, look: Pass, rule: WorkingRule): real {
    if Refilled(cell, look.seen, rule).bucket > 0 then look.stamp else Start(Window(look.stamp, rule) + 1, rule)
  }

  /** The entries from `from` on that `task` made, and were granted. */
  function Won(history: seq<Entry>, from: nat, task: nat, rule: WorkingRule): set<nat> {
    set i | 0 <= from <= i < |history| && history[i].task == task && GrantedAt(history, i, rule)
  }

  /** The origins that `task` got tokens of, in order. */
  function Tokens(history: seq<Entry>, task: nat, rule: WorkingRule): seq<string> {
    if history == [] then []
    else
      var n := |history| - 1;
      Tokens(history[..n], task, rule) + if history[n].task == task && GrantedAt(history, n, rule) then [history[n].origin] else []
  }

  /** An origin never granted gets a full bucket, since the epoch is not before 0. */
  lemma {:induction false} NeverIsPast(t: real, rule: WorkingRule)
    requires 0.0 <= t
    ensures NEVER < Start(Window(t, rule), rule)
  {
    BeforeStart(NEVER, 0, rule);
    BeforeStart(NEVER, Window(t, rule), rule);
    BeforeStart(t, 0, rule);
  }

  /** A task that comes back at `s` waits until the later of `s` and the time it was
      told at `t`. */
  lemma {:induction false} FreeLater(cell: Option<Cell>, t: real, s: real, rule: WorkingRule)
    requires 0.0 <= t <= s && 0 < rule.tokens && (cell.Some? ==> cell.value.last <= t)
    ensures FreeAt(cell, s, rule) == if s < FreeAt(cell, t, rule) then FreeAt(cell, t, rule) else s
  {
    hide Window, Start;
    InWindow(t, rule);
    InWindow(s, rule);
    WindowOrder(t, s, rule);
    BeforeStart(s, Window(t, rule) + 1, rule);
    if cell.Some? {
      WindowOrder(cell.value.last, t, rule);
      BeforeStart(cell.value.last, Window(t, rule), rule);
      BeforeStart(cell.value.last, Window(s, rule), rule);
    }
  }

  class FixedWindowCounter {
    const rule: WorkingRule
    const clock: Clock
    /** Whether no other task uses this counter. */
    const alone: bool
    var bucket: map<string, int>
    var last: map<string, real>
    ghost var history: seq<Entry>

    constructor (rule: WorkingRule, clock: Clock, alone: bool)
      requires 0.0 <= clock.time
      ensures this.rule == rule && this.clock == clock && this.alone == alone
      ensures history == [] && Valid()
    {
      this.rule, this.clock, this.alone := rule, clock, alone;
      bucket, last, history := map[], map[], [];
    }

    ghost function CellOf(origin: string): Option<Cell>
      requires bucket.Keys == last.Keys
      reads this
    {
      if origin in last then Some(Cell(bucket[origin], last[origin])) else None
    }

    /** The dictionaries are what the history of passes left in them. */
    ghost predicate Consistent()
      reads this
    {
      bucket.Keys == last.Keys && forall o: string :: CellOf(o) == After(PassesOf(history, o), rule)
    }

    ghost predicate Valid()
      reads this, clock
    {
      Consistent() && 0.0 <= clock.time && Timely(history, clock.time)
    }

    /** The origins of the tokens that `task` has got. */
    ghost function Draws(task: nat): seq<string>
      reads this
    {
      Tokens(history, task, rule)
    }

    /** Only other tasks, if any, have passed since `before`. */
    ghost predicate Quiet(before: seq<Entry>, task: nat)
      reads this
    {
      && before <= history
      && (forall i :: |before| <= i < |history| ==> history[i].task != task)
      && (alone ==> history == before)
    }

    method WindowStart() returns (start: real, ghost t: real)
      modifies clock
      ensures old(clock.time) <= t == clock.time && start == Start(Window(t, rule), rule)
      ensures clock.ideal ==> t == old(clock.time)
    {
      var now := clock.Now();
      t := now;
      start := (now / rule.window).Floor as real * rule.window;
    }

    method WindowEnd() returns (end: real, ghost t: real)
      modifies clock
      ensures old(clock.time) <= t == clock.time && end == Start(Window(t, rule) + 1, rule)
      ensures clock.ideal ==> t == old(clock.time)
    {
      var start;
      start, t := WindowStart();
      StartSum(Window(t, rule), 1, rule);
      end := start + rule.window;
    }

    method EnsureOrigin(origin: string) returns (ghost t: real)
      requires bucket.Keys == last.Keys && 0.0 <= clock.time
      modifies this`bucket, this`last, clock
      ensures old(clock.time) <= t == clock.time && (clock.ideal ==> t == old(clock.time))
      ensures bucket.Keys == last.Keys && CellOf(origin) == Some(Refilled(old(CellOf(origin)), t, rule))
      ensures forall o :: o != origin ==> CellOf(o) == old(CellOf(o))
    {
      if origin !in last {
        last := last[origin := NEVER];
      }
      var start;
      start, t := WindowStart();
      NeverIsPast(t, rule);
      if last[origin] < start {
        bucket := bucket[origin := rule.tokens];
      }
    }

    /** Entering a pass in the history keeps the counter valid. */
    lemma {:induction false} Recorded(before: seq<Entry>, e: Entry)
      requires history == before + [e] && bucket.Keys == last.Keys
      requires Timely(before, e.pass.seen) && 0.0 <= e.pass.seen <= e.pass.stamp <= clock.time
      requires CellOf(e.origin) == Some(Passed(After(PassesOf(before, e.origin), rule), e.pass, rule))
      requires forall o :: o != e.origin ==> CellOf(o) == After(PassesOf(before, o), rule)
      ensures Valid()
    {
      hide Window, Start, Refilled, Granted, After, PassesOf;
      TimelyOneMore(before, e, clock.time);
      forall o ensures CellOf(o) == After(PassesOf(history, o), rule) {
        PassesOfOneMore(before, e, o);
        if o == e.origin {
          LastPass(PassesOf(before, o), e.pass, rule);
        } else {
          assert PassesOf(before, o) + [] == PassesOf(before, o);
        }
      }
    }

    /** `acquire` up to where it breaks out or goes to sleep for `wait`. */
    method Turn(origin: string, ghost task: nat) returns (granted: bool, wait: real, ghost e: Entry)
      requires Valid()
      modifies this, clock
      ensures Valid() && history == old(history) + [e]
      ensures e.task == task && e.origin == origin && e.pass.Take? && old(clock.time) <= e.pass.seen <= e.pass.stamp <= clock.time
      ensures granted == Granted(old(CellOf(origin)), e.pass, rule) == GrantedAt(history, |old(history)|, rule)
      ensures !granted ==> Start(Window(e.pass.stamp, rule) + 1, rule) <= clock.time + wait
      ensures clock.ideal ==> e.pass.stamp == clock.time == old(clock.time)
      ensures clock.ideal && !granted ==> clock.time + wait == Start(Window(e.pass.stamp, rule) + 1, rule)
    {
      hide Window, Start, GrantedAt, PassesOf, After;
      ghost var seen := EnsureOrigin(origin);
      granted, wait := bucket[origin] > 0, 0.0;
      ghost var stamp;
      if granted {
        bucket := bucket[origin := bucket[origin] - 1];
        var now := clock.Now();
        stamp := now;
        last := last[origin := now];
      } else {
        var end;
        end, stamp := WindowEnd();
        var now := clock.Now();
        wait := end - now;
      }
      e := Entry(task, origin, Take(seen, stamp));
      history := history + [e];
      LastGrant(old(history), e, rule);
      Recorded(old(history), e);
    }

    method NextAvailable(origin: string, ghost task: nat) returns (free: real, ghost e: Entry)
      requires Valid()
      modifies this, clock
      ensures Valid() && history == old(history) + [e]
      ensures e.task == task && e.origin == origin && e.pass.Look? && old(clock.time) <= e.pass.seen <= e.pass.stamp <= clock.time
      ensures free == Told(old(CellOf(origin)), e.pass, rule)
      ensures clock.ideal ==> clock.time == old(clock.time) && free == FreeAt(old(CellOf(origin)), old(clock.time), rule)
    {
      hide Window, Start, PassesOf, After;
      ghost var seen := EnsureOrigin(origin);
      ghost var stamp;
      if bucket[origin] > 0 {
        free := clock.Now();
        stamp := free;
      } else {
        free, stamp := WindowEnd();
      }
      e := Entry(task, origin, Look(seen, stamp));
      history := history + [e];
      Recorded(old(history), e);
    }

    /** What the other tasks may do while `task` is suspended. */
    method Others(ghost task: nat)
      requires Valid()
      modifies this, clock
      ensures Valid() && Quiet(old(history), task)
      ensures old(clock.time) <= clock.time
      ensures alone ==> clock.time == old(clock.time) && bucket == old(bucket) && last == old(last)
    {
      hide Timely, GrantedAt, PassesOf, After, Window, Start, Refilled;
      var turns: nat :| 0 <= turns;
      for i := 0 to if alone then 0 else turns
        invariant Valid() && Quiet(old(history), task) && old(clock.time) <= clock.time
        invariant alone ==> clock.time == old(clock.time) && bucket == old(bucket) && last == old(last)
      {
        var origin: string := *;
        var looks: bool := *;
        if looks {
          var free, _ := NextAvailable(origin, task + 1 + i);
        } else {
          var granted, wait, _ := Turn(origin, task + 1 + i);
        }
      }
    }

    /** The last grant of an origin is no later than the pass just made. */
    lemma {:induction false} LastGrantIsPast(e: Entry)
      requires Valid() && history != [] && history[|history| - 1] == e
      ensures CellOf(e.origin).Some? && Window(CellOf(e.origin).value.last, rule) <= Window(e.pass.stamp, rule)
    {
      hide Window, Start, Refilled;
      var ps := PassesOf(history, e.origin);
      PassesOfInOrder(history, clock.time, e.origin);
      PassesKeepHonest(ps, rule);
      assert ps[|ps| - 1] == e.pass;
      WindowOrder(CellOf(e.origin).value.last, e.pass.stamp, rule);
    }

    lemma {:induction false} LastIsPast(origin: string)
      requires Valid()
      ensures CellOf(origin).Some? ==> CellOf(origin).value.last <= clock.time
    {
      hide Window, Start, Refilled;
      var ps := PassesOf(history, origin);
      PassesOfInOrder(history, clock.time, origin);
      PassesKeepHonest(ps, rule);
      assert ps != [] ==> ps[|ps| - 1] in ps;
    }

    /** Whether the window of the last grant is over. */
    ghost predicate Rested(origin: string)
      requires bucket.Keys == last.Keys
      reads this, clock
    {
      CellOf(origin).Some? && Window(CellOf(origin).value.last, rule) < Window(clock.time, rule)
    }

    /** `_sleep_till_window_reset` after the refused turn `e`. */
    method Nap(origin: string, ghost task: nat, wait: real, ghost e: Entry)
      requires Valid() && history != [] && history[|history| - 1] == e && e.origin == origin
      requires Start(Window(e.pass.stamp, rule) + 1, rule) <= clock.time + wait
      modifies this, clock
      ensures Valid() && Quiet(old(history), task) && old(clock.time) <= clock.time
      ensures alone ==> Rested(origin)
      ensures alone && clock.ideal && 0.0 < wait ==> clock.time == old(clock.time) + wait
    {
      hide Window, Start, Refilled, Timely, PassesOf, After, Granted;
      LastGrantIsPast(e);
      clock.Sleep(wait);
      TimelyLater(history, old(clock.time), clock.time);
      SleptPast(CellOf(origin).value.last, e.pass.stamp, clock.time, rule);
      Others(task);
    }

    /** The loop of `acquire`, given up after `naps` sleeps. The grant, if any, is the
        last pass; a task that has the counter to itself sleeps at most once, and on an
        ideal clock is served exactly when `next_available` said it would be. */
    method Acquire(origin: string, ghost task: nat, naps: nat) returns (served: bool, slept: nat)
      requires Valid()
      modifies this, clock
      ensures Valid() && old(history) <= history && old(clock.time) <= clock.time && slept <= naps
      ensures served ==>
                && |old(history)| < |history| && history[|history| - 1].origin == origin
                && Won(history, |old(history)|, task, rule) == {|history| - 1}
      ensures !served ==> Won(history, |old(history)|, task, rule) == {}
      ensures alone && 0 < rule.tokens && 0 < naps ==> served && slept <= 1
      ensures alone && 0 < rule.tokens && 0 < naps && clock.ideal ==>
                history[|history| - 1].pass.stamp == clock.time == FreeAt(old(CellOf(origin)), old(clock.time), rule)
    {
      hide Window, Start, Refilled, Timely, PassesOf, After, Granted, FreeAt, GrantedAt;
      served, slept := false, 0;
      ghost var free := FreeAt(CellOf(origin), clock.time, rule);
      while !served
        invariant Valid() && old(history) <= history && old(clock.time) <= clock.time && slept <= naps
        invariant Won(history, |old(history)|, task, rule) == if served then {|history| - 1} else {}
        invariant served ==> |old(history)| < |history| && history[|history| - 1].origin == origin
        invariant slept == 0 && !served ==> CellOf(origin) == old(CellOf(origin)) && clock.time == old(clock.time)
        invariant alone && slept > 0 && !served ==> Rested(origin) && (clock.ideal && 0 < rule.tokens ==> clock.time == free)
        invariant alone && 0 < rule.tokens ==> slept <= 1
        invariant alone && 0 < rule.tokens && clock.ideal && served ==> history[|history| - 1].pass.stamp == clock.time == free
        decreases naps - slept, !served
      {
        ghost var before, cell, now, rested := history, CellOf(origin), clock.time, alone && slept > 0;
        ghost var e;
        var wait;
        served, wait, e := Turn(origin, task);
        WonOneMore(before, e, |old(history)|, task, rule);
        if rested && 0 < rule.tokens {
          RestedIsGranted(cell, now, e.pass, rule);
        }
        if clock.ideal && slept == 0 {
          IdealTurn(cell, e.pass, rule);
        }
        if !served {
          if slept == naps {
            return;
          }
          before := history;
          Nap(origin, task, wait, e);
          WonByOthers(before, history, |old(history)|, task, rule);
          slept := slept + 1;
        }
      }
    }
  }

  lemma {:induction false} SleptPast(last: real, stamp: real, now: real, rule: WorkingRule)
    requires Window(last, rule) <= Window(stamp, rule) && Start(Window(stamp, rule) + 1, rule) <= now
    ensures Window(last, rule) < Window(now, rule)
  {
    BeforeStart(now, Window(stamp, rule) + 1, rule);
  }

  lemma {:induction false} RestedIsGranted(cell: Option<Cell>, now: real, p: Pass, rule: WorkingRule)
    requires cell.Some? && Window(cell.value.last, rule) < Window(now, rule)
    requires now <= p.seen && p.Take? && 0 < rule.tokens
    ensures Granted(cell, p, rule)
  {
    WindowOrder(now, p.seen, rule);
    BeforeStart(cell.value.last, Window(p.seen, rule), rule);
  }

  lemma {:induction false} IdealTurn(cell: Option<Cell>, p: Pass, rule: WorkingRule)
    requires p.Take? && p.seen == p.stamp
    ensures FreeAt(cell, p.stamp, rule) == if Granted(cell, p, rule) then p.stamp else Start(Window(p.stamp, rule) + 1, rule)
    ensures p.stamp < Start(Window(p.stamp, rule) + 1, rule)
  {
    InWindow(p.stamp, rule);
  }

  lemma {:induction false} WonOneMore(before: seq<Entry>, e: Entry, from: nat, task: nat, rule: WorkingRule)
    requires from <= |before| && e.task == task && Won(before, from, task, rule) == {}
    ensures Won(before + [e], from, task, rule) == if GrantedAt(before + [e], |before|, rule) then {|before|} else {}
  {
    hide Granted, After, PassesOf;
    forall i | from <= i < |before| && (before + [e])[i].task == task ensures !GrantedAt(before + [e], i, rule) {
      assert (before + [e])[..i] == before[..i];
      assert i !in Won(before, from, task, rule);
    }
  }

  /** What was won since `before` is what has been drawn since. */
  lemma {:induction false} DrawnMore(before: seq<Entry>, history: seq<Entry>, task: nat, rule: WorkingRule)
    requires before <= history
    ensures Won(history, |before|, task, rule) == {} ==> Tokens(history, task, rule) == Tokens(before, task, rule)
    ensures |before| < |history| && Won(history, |before|, task, rule) == {|history| - 1} ==>
              Tokens(history, task, rule) == Tokens(before, task, rule) + [history[|history| - 1].origin]
    decreases |history|
  {
    hide GrantedAt;
    if |before| < |history| {
      var n := |history| - 1;
      DrawnMore(before, history[..n], task, rule);
      EarlierWins(history, |before|, task, rule);
    } else {
      assert before == history;
    }
  }

  lemma {:induction false} EarlierWins(history: seq<Entry>, from: nat, task: nat, rule: WorkingRule)
    requires from < |history|
    ensures var n := |history| - 1;
            && Won(history[..n], from, task, rule) == Won(history, from, task, rule) - {n}
            && (n in Won(history, from, task, rule) <==> history[n].task == task && GrantedAt(history, n, rule))
  {
    hide Granted, After, PassesOf;
    var n := |history| - 1;
    assert forall i :: 0 <= i < n ==> history[..n][..i] == history[..i];
  }

  lemma {:induction false} WonByOthers(before: seq<Entry>, history: seq<Entry>, from: nat, task: nat, rule: WorkingRule)
    requires from <= |before| && before <= history && Won(before, from, task, rule) == {}
    requires forall i :: |before| <= i < |history| ==> history[i].task != task
    ensures Won(history, from, task, rule) == {}
  {
    hide Granted, After, PassesOf;
    forall i | from <= i < |before| && history[i].task == task ensures !GrantedAt(history, i, rule) {
      assert history[..i] == before[..i];
      assert i !in Won(before, from, task, rule);
    }
  }
}
