/**
 Fixed windows on one origin (pub_crawler/fixed_window_counter.py), as values: what
 a sequence of passes over the counter leaves in its cell and which it grants.

 A pass is what a task does between two suspensions, so passes do not overlap; the
 clock moves on between the reads inside one. Times are real milliseconds.
 */
module Windows {
  import opened Options

  /** `tokens` per `window` milliseconds. */
  datatype Rule = Rule(tokens: int, window: real)

  type WorkingRule = r: Rule | r.window > 0.0 witness Rule(1, 1000.0)

  /** The counter's entries for one origin. */
  datatype Cell = Cell(bucket: int, last: real)

  /** `Take` is one turn of `acquire`'s loop, `Look` is `next_available`. `seen` is the
      read that may refill, `stamp` the read after it. */
  datatype Pass = Take(seen: real, stamp: real) | Look(seen: real, stamp: real)

  // ---- windows of the clock ----

  function Window(t: real, rule: WorkingRule): int {
    (t / rule.window).Floor
  }

  function Start(k: int, rule: WorkingRule): real {
    k as real * rule.window
  }

  lemma {:induction false} InWindow(t: real, rule: WorkingRule)
    ensures Start(Window(t, rule), rule) <= t < Start(Window(t, rule) + 1, rule)
  {
    var q := t / rule.window;
    var k := q.Floor;
    assert k as real <= q < (k + 1) as real;
    assert q * rule.window == t;
    Scale(k as real, q, rule.window);
    StrictScale(q, (k + 1) as real, rule.window);
  }

  lemma {:induction false} Scale(x: real, y: real, w: real)
    requires x <= y && w > 0.0
    ensures x * w <= y * w
  {
  }

  lemma {:induction false} StrictScale(x: real, y: real, w: real)
    requires x < y && w > 0.0
    ensures x * w < y * w
  {
  }

  /** A time is before a window's start exactly when its own window is earlier. */
  lemma {:induction false} BeforeStart(t: real, k: int, rule: WorkingRule)
    ensures t < Start(k, rule) <==> Window(t, rule) < k
  {
    InWindow(t, rule);
    if Window(t, rule) < k {
      Scale((Window(t, rule) + 1) as real, k as real, rule.window);
    } else {
      Scale(k as real, Window(t, rule) as real, rule.window);
    }
  }

  lemma {:induction false} WindowOrder(s: real, t: real, rule: WorkingRule)
    requires s <= t
    ensures Window(s, rule) <= Window(t, rule)
  {
    InWindow(s, rule);
    BeforeStart(t, Window(s, rule), rule);
  }

  // ---- passes ----

  const NEVER: real := -1.0

  /** `_ensure_origin`: a fresh bucket unless the last grant is of the window at hand. */
  function Refilled(cell: Option<Cell>, t: real, rule: WorkingRule): Cell {
    match cell
    case None => Cell(rule.tokens, NEVER)
    case Some(c) => if c.last < Start(Window(t, rule), rule) then c.(bucket := rule.tokens) else c
  }

  predicate Granted(cell: Option<Cell>, p: Pass, rule: WorkingRule) {
    p.Take? && Refilled(cell, p.seen, rule).bucket > 0
  }

  function Passed(cell: Option<Cell>, p: Pass, rule: WorkingRule): Cell {
    var c := Refilled(cell, p.seen, rule);
    if Granted(cell, p, rule) then Cell(c.bucket - 1, p.stamp) else c
  }

  function After(passes: seq<Pass>, rule: WorkingRule): Option<Cell> {
    if passes == [] then None
    else Some(Passed(After(passes[..|passes| - 1], rule), passes[|passes| - 1], rule))
  }

  /** The times of the grants, in order. */
  function Stamps(passes: seq<Pass>, rule: WorkingRule): seq<real> {
    if passes == [] then []
    else
      var before, p := passes[..|passes| - 1], passes[|passes| - 1];
      Stamps(before, rule) + if Granted(After(before, rule), p, rule) then [p.stamp] else []
  }

  /** The clock does not run backwards and starts no earlier than the epoch. */
  predicate InOrder(passes: seq<Pass>) {
    && (forall i :: 0 <= i < |passes| ==> 0.0 <= passes[i].seen <= passes[i].stamp)
    && (forall i, j :: 0 <= i < j < |passes| ==> passes[i].stamp <= passes[j].seen)
  }

  // ---- at most `tokens` a window ----

  function CountIn(times: seq<real>, k: int, rule: WorkingRule): nat {
    if times == [] then 0
    else CountIn(times[..|times| - 1], k, rule) + if Window(times[|times| - 1], rule) == k then 1 else 0
  }

  function Limit(rule: WorkingRule): nat {
    if rule.tokens < 0 then 0 else rule.tokens
  }

  lemma {:induction false} CountPast(times: seq<real>, k: int, rule: WorkingRule)
    requires forall t :: t in times ==> Window(t, rule) < k
    ensures CountIn(times, k, rule) == 0
  {
    if times != [] {
      assert times[|times| - 1] in times;
      CountPast(times[..|times| - 1], k, rule);
    }
  }

  lemma {:induction false} CountOneMore(times: seq<real>, t: real, k: int, rule: WorkingRule)
    ensures CountIn(times + [t], k, rule) == CountIn(times, k, rule) + if Window(t, rule) == k then 1 else 0
  {
    assert (times + [t])[..|times|] == times;
  }

  /** What the cell of an origin promises at time `now`: the tokens it still holds were
      not given out in the window of its last grant, unless that window has passed. */
  ghost predicate Honest(cell: Option<Cell>, times: seq<real>, now: real, rule: WorkingRule) {
    && (forall k :: CountIn(times, k, rule) <= Limit(rule))
    && match cell
       case None => times == []
       case Some(c) =>
         && c.bucket <= rule.tokens && c.last <= now
         && (forall t :: t in times ==> t <= c.last)
         && (CountIn(times, Window(c.last, rule), rule) + c.bucket <= rule.tokens || Window(c.last, rule) < Window(now, rule))
  }

  lemma {:induction false} RefillKeepsHonest(cell: Option<Cell>, times: seq<real>, now: real, t: real, rule: WorkingRule)
    requires Honest(cell, times, now, rule) && 0.0 <= t && now <= t
    ensures Honest(Some(Refilled(cell, t, rule)), times, t, rule)
    ensures var c := Refilled(cell, t, rule);
            c.bucket > 0 ==> forall s :: s in times ==> s <= c.last
    ensures var c := Refilled(cell, t, rule);
            Window(c.last, rule) < Window(t, rule) || CountIn(times, Window(t, rule), rule) + c.bucket <= rule.tokens
  {
    var c := Refilled(cell, t, rule);
    BeforeStart(c.last, Window(t, rule), rule);
    WindowOrder(now, t, rule);
    if cell == None {
      BeforeStart(NEVER, 0, rule);
      BeforeStart(t, 0, rule);
    } else {
      WindowOrder(c.last, t, rule);
    }
  }

  lemma {:induction false} GrantKeepsHonest(c: Cell, times: seq<real>, t: real, stamp: real, rule: WorkingRule)
    requires Honest(Some(c), times, t, rule) && t <= stamp && c.bucket > 0
    requires Window(c.last, rule) < Window(t, rule) || CountIn(times, Window(t, rule), rule) + c.bucket <= rule.tokens
    ensures Honest(Some(Cell(c.bucket - 1, stamp)), times + [stamp], stamp, rule)
  {
    var k := Window(stamp, rule);
    WindowOrder(t, stamp, rule);
    WindowOrder(c.last, t, rule);
    if Window(c.last, rule) < k {
      forall s | s in times ensures Window(s, rule) < k {
        WindowOrder(s, c.last, rule);
      }
      CountPast(times, k, rule);
    }
    forall i ensures CountIn(times + [stamp], i, rule) <= Limit(rule) {
      CountOneMore(times, stamp, i, rule);
    }
    CountOneMore(times, stamp, k, rule);
  }

  lemma {:induction false} PassesKeepHonest(passes: seq<Pass>, rule: WorkingRule)
    requires InOrder(passes)
    ensures Honest(After(passes, rule), Stamps(passes, rule), if passes == [] then 0.0 else passes[|passes| - 1].stamp, rule)
  {
    if passes != [] {
      var before, p := passes[..|passes| - 1], passes[|passes| - 1];
      PassesKeepHonest(before, rule);
      var now := if before == [] then 0.0 else before[|before| - 1].stamp;
      var cell, times := After(before, rule), Stamps(before, rule);
      assert now <= p.seen;
      RefillKeepsHonest(cell, times, now, p.seen, rule);
      var c := Refilled(cell, p.seen, rule);
      if Granted(cell, p, rule) {
        GrantKeepsHonest(c, times, p.seen, p.stamp, rule);
      } else {
        WindowOrder(p.seen, p.stamp, rule);
        assert times + [] == times;
      }
    }
  }

  /** However passes interleave and wherever the clock crosses a boundary, at most
      `tokens` grants carry a time of any one window. */
  lemma {:induction false} AtMostTokensPerWindow(passes: seq<Pass>, rule: WorkingRule, k: int)
    requires InOrder(passes)
    ensures CountIn(Stamps(passes, rule), k, rule) <= Limit(rule)
  {
    PassesKeepHonest(passes, rule);
  }

  // ---- any stretch of time ----

  function CountBetween(times: seq<real>, a: real, b: real): nat {
    if times == [] then 0
    else CountBetween(times[..|times| - 1], a, b) + if a <= times[|times| - 1] < b then 1 else 0
  }

  function CountWindows(times: seq<real>, lo: int, n: nat, rule: WorkingRule): nat {
    if n == 0 then 0 else CountWindows(times, lo, n - 1, rule) + CountIn(times, lo + n - 1, rule)
  }

  lemma {:induction false} CountWindowsOneMore(times: seq<real>, t: real, lo: int, n: nat, rule: WorkingRule)
    ensures CountWindows(times + [t], lo, n, rule) ==
            CountWindows(times, lo, n, rule) + if lo <= Window(t, rule) < lo + n then 1 else 0
  {
    if n > 0 {
      CountWindowsOneMore(times, t, lo, n - 1, rule);
      CountOneMore(times, t, lo + n - 1, rule);
    }
  }

  lemma {:induction false} BetweenFitsWindows(times: seq<real>, a: real, b: real, n: nat, rule: WorkingRule)
    requires b <= Start(Window(a, rule) + n, rule)
    ensures CountBetween(times, a, b) <= CountWindows(times, Window(a, rule), n, rule)
  {
    if times != [] {
      var before, t := times[..|times| - 1], times[|times| - 1];
      BetweenFitsWindows(before, a, b, n, rule);
      CountWindowsOneMore(before, t, Window(a, rule), n, rule);
      assert before + [t] == times;
      if a <= t < b {
        WindowOrder(a, t, rule);
        BeforeStart(t, Window(a, rule) + n, rule);
      }
    }
  }

  lemma {:induction false} WindowsFitLimit(times: seq<real>, lo: int, n: nat, rule: WorkingRule)
    requires forall k :: CountIn(times, k, rule) <= Limit(rule)
    ensures CountWindows(times, lo, n, rule) <= n * Limit(rule)
  {
    if n > 0 {
      WindowsFitLimit(times, lo, n - 1, rule);
      assert n * Limit(rule) == (n - 1) * Limit(rule) + Limit(rule);
    }
  }

  /** `n` windows' length, rounded up. */
  function WindowsIn(length: real, rule: WorkingRule): (n: nat)
    requires length >= 0.0
    ensures length <= Start(n, rule) && (n > 0 ==> Start(n - 1, rule) < length)
  {
    InWindow(length, rule);
    BeforeStart(length, 0, rule);
    var k := Window(length, rule);
    if length == Start(k, rule) then
      Scale((k - 1) as real, k as real, rule.window);
      StrictScale((k - 1) as real, k as real, rule.window);
      k
    else k + 1
  }

  lemma {:induction false} StartSum(k: int, n: int, rule: WorkingRule)
    ensures Start(k + n, rule) == Start(k, rule) + Start(n, rule)
  {
    assert (k + n) as real == k as real + n as real;
  }

  /** A stretch of `length` holds at most `tokens` grants for each window it could
      fill, and one window more for its ragged ends. */
  lemma {:induction false} AtMostInAnyInterval(passes: seq<Pass>, rule: WorkingRule, a: real, length: real)
    requires InOrder(passes) && length >= 0.0
    ensures CountBetween(Stamps(passes, rule), a, a + length) <= (WindowsIn(length, rule) + 1) * Limit(rule)
  {
    var times, n := Stamps(passes, rule), WindowsIn(length, rule);
    PassesKeepHonest(passes, rule);
    InWindow(a, rule);
    StartSum(Window(a, rule) + 1, n, rule);
    BetweenFitsWindows(times, a, a + length, n + 1, rule);
    WindowsFitLimit(times, Window(a, rule), n + 1, rule);
  }

  // ---- looking spends nothing ----

  lemma {:induction false} RefillTwice(cell: Option<Cell>, s: real, t: real, rule: WorkingRule)
    requires 0.0 <= s <= t
    ensures Refilled(Some(Refilled(cell, s, rule)), t, rule) == Refilled(cell, t, rule)
  {
    WindowOrder(s, t, rule);
    Scale(Window(s, rule) as real, Window(t, rule) as real, rule.window);
    if cell == None {
      BeforeStart(t, 0, rule);
      BeforeStart(NEVER, 0, rule);
      BeforeStart(NEVER, Window(t, rule), rule);
    }
  }

  lemma {:induction false} LookThenPass(before: seq<Pass>, look: Pass, p: Pass, rule: WorkingRule)
    requires look.Look? && 0.0 <= look.seen <= p.seen
    ensures Stamps(before + [look], rule) == Stamps(before, rule)
    ensures var looked := After(before + [look], rule);
            Granted(looked, p, rule) == Granted(After(before, rule), p, rule) &&
            Passed(looked, p, rule) == Passed(After(before, rule), p, rule)
  {
    assert (before + [look])[..|before|] == before;
    RefillTwice(After(before, rule), look.seen, p.seen, rule);
  }

  lemma {:induction false} LastPass(passes: seq<Pass>, p: Pass, rule: WorkingRule)
    ensures After(passes + [p], rule) == Some(Passed(After(passes, rule), p, rule))
    ensures Stamps(passes + [p], rule) == Stamps(passes, rule) + if Granted(After(passes, rule), p, rule) then [p.stamp] else []
  {
    assert (passes + [p])[..|passes|] == passes;
  }

  /** A look anywhere between other passes changes no grant before or after it. */
  lemma {:induction false} LookIsInvisible(before: seq<Pass>, look: Pass, later: seq<Pass>, rule: WorkingRule)
    requires InOrder(before + [look] + later) && look.Look?
    ensures Stamps(before + [look] + later, rule) == Stamps(before + later, rule)
    ensures later != [] ==> After(before + [look] + later, rule) == After(before + later, rule)
    decreases |later|
  {
    if later == [] {
      assert before + [look] + later == before + [look] && before + later == before;
      LastPass(before, look, rule);
    } else {
      var rest, p := later[..|later| - 1], later[|later| - 1];
      assert before + [look] + later == before + [look] + rest + [p] && before + later == before + rest + [p];
      InOrderBefore(before + [look] + rest, p);
      LookIsInvisible(before, look, rest, rule);
      LastPass(before + [look] + rest, p, rule);
      LastPass(before + rest, p, rule);
      if rest == [] {
        assert before + [look] + rest == before + [look] && before + rest == before;
        assert (before + [look] + [p])[|before|] == look && (before + [look] + [p])[|before| + 1] == p;
        LookThenPass(before, look, p, rule);
      }
    }
  }

  lemma {:induction false} InOrderBefore(passes: seq<Pass>, p: Pass)
    requires InOrder(passes + [p])
    ensures InOrder(passes)
  {
    assert forall i :: 0 <= i < |passes| ==> (passes + [p])[i] == passes[i];
  }

  // ---- progress ----

  /** `more` are turns of tasks that all read the clock inside window `k`. */
  predicate TurnsIn(more: seq<Pass>, k: int, rule: WorkingRule) {
    forall i :: 0 <= i < |more| ==> more[i].Take? && Window(more[i].seen, rule) == k && Window(more[i].stamp, rule) == k
  }

  /** No grant so far is of window `k`. */
  predicate FreshFor(cell: Option<Cell>, k: int, rule: WorkingRule) {
    cell.Some? ==> Window(cell.value.last, rule) < k
  }

  function Least(m: int, n: int): int {
    if m < n then m else n
  }

  /** `m` turns have been taken in window `k`. */
  predicate Drawn(cell: Option<Cell>, k: int, m: nat, rule: WorkingRule) {
    if m == 0 then FreshFor(cell, k, rule)
    else cell.Some? && Window(cell.value.last, rule) == k && cell.value.bucket == rule.tokens - Least(m, rule.tokens)
  }

  lemma {:induction false} TurnServed(cell: Option<Cell>, p: Pass, k: int, m: nat, rule: WorkingRule)
    requires 0 < rule.tokens && Drawn(cell, k, m, rule) && TurnsIn([p], k, rule)
    ensures Granted(cell, p, rule) <==> m < rule.tokens
    ensures Drawn(Some(Passed(cell, p, rule)), k, m + 1, rule)
  {
    assert [p][0] == p;
    if cell.Some? {
      BeforeStart(cell.value.last, k, rule);
    }
  }

  /** In a window nobody has drawn on, turns are served first come first served until
      the tokens are gone. */
  lemma {:induction false} WindowServes(before: seq<Pass>, more: seq<Pass>, k: int, rule: WorkingRule)
    requires 0 < rule.tokens && FreshFor(After(before, rule), k, rule) && TurnsIn(more, k, rule)
    ensures |Stamps(before + more, rule)| == |Stamps(before, rule)| + Least(|more|, rule.tokens)
    ensures Drawn(After(before + more, rule), k, |more|, rule)
  {
    if more == [] {
      assert before + more == before;
    } else {
      var most, p := more[..|more| - 1], more[|more| - 1];
      var all := before + more;
      assert all[..|all| - 1] == before + most && all[|all| - 1] == p;
      WindowServes(before, most, k, rule);
      TurnServed(After(before + most, rule), p, k, |most|, rule);
    }
  }

  /** ... so the turn served is always the next in line. */
  lemma {:induction false} FirstComeFirstServed(before: seq<Pass>, more: seq<Pass>, k: int, rule: WorkingRule, i: nat)
    requires 0 < rule.tokens && FreshFor(After(before, rule), k, rule) && TurnsIn(more, k, rule) && i < |more|
    ensures Granted(After(before + more[..i], rule), more[i], rule) <==> i < rule.tokens
  {
    WindowServes(before, more[..i], k, rule);
    TurnServed(After(before + more[..i], rule), more[i], k, i, rule);
  }

  function Joined(rounds: seq<seq<Pass>>): seq<Pass> {
    if rounds == [] then [] else Joined(rounds[..|rounds| - 1]) + rounds[|rounds| - 1]
  }

  /** How many of the `n` tasks that joined after `before` have been served in `rounds`. */
  function Served(before: seq<Pass>, rounds: seq<seq<Pass>>, rule: WorkingRule): int {
    |Stamps(before + Joined(rounds), rule)| - |Stamps(before, rule)|
  }

  /** Every task still waiting takes one turn in each window, before its end. */
  ghost predicate Prompt(before: seq<Pass>, rounds: seq<seq<Pass>>, n: nat, k: int, rule: WorkingRule) {
    rounds == [] ||
    var m := |rounds| - 1;
    && Prompt(before, rounds[..m], n, k, rule)
    && TurnsIn(rounds[m], k + m, rule) && |rounds[m]| == n - Served(before, rounds[..m], rule)
  }

  lemma {:induction false} RoundServes(before: seq<Pass>, most: seq<seq<Pass>>, turns: seq<Pass>, n: nat, k: int, rule: WorkingRule)
    requires 0 < rule.tokens && FreshFor(After(before + Joined(most), rule), k, rule)
    requires TurnsIn(turns, k, rule) && |turns| == n - Served(before, most, rule)
    ensures Served(before, most + [turns], rule) == Served(before, most, rule) + Least(|turns|, rule.tokens)
    ensures FreshFor(After(before + Joined(most + [turns]), rule), k + 1, rule)
  {
    assert (most + [turns])[..|most|] == most;
    assert before + Joined(most + [turns]) == before + Joined(most) + turns;
    WindowServes(before + Joined(most), turns, k, rule);
  }

  lemma {:induction false} RoundsServe(before: seq<Pass>, rounds: seq<seq<Pass>>, n: nat, k: int, rule: WorkingRule)
    requires 0 < rule.tokens && FreshFor(After(before, rule), k, rule) && Prompt(before, rounds, n, k, rule)
    ensures Served(before, rounds, rule) == Least(Capacity(|rounds|, rule.tokens), n)
    ensures FreshFor(After(before + Joined(rounds), rule), k + |rounds|, rule)
  {
    if rounds == [] {
      assert before + Joined(rounds) == before;
    } else {
      var m := |rounds| - 1;
      RoundsServe(before, rounds[..m], n, k, rule);
      assert rounds[..m] + [rounds[m]] == rounds;
      RoundServes(before, rounds[..m], rounds[m], n, k + m, rule);
    }
  }

  function Capacity(rounds: nat, tokens: int): int {
    if rounds == 0 then 0 else Capacity(rounds - 1, tokens) + tokens
  }

  lemma {:induction false} CapacityIsProduct(rounds: nat, tokens: int)
    ensures Capacity(rounds, tokens) == rounds * tokens
  {
    if rounds > 0 {
      CapacityIsProduct(rounds - 1, tokens);
      assert rounds * tokens == (rounds - 1) * tokens + tokens;
    }
  }

  /** `n` tasks that start on an origin in a fresh window are all served within
      `n / tokens` windows, rounded up. */
  lemma {:induction false} AllServed(before: seq<Pass>, rounds: seq<seq<Pass>>, n: nat, k: int, rule: WorkingRule)
    requires 0 < rule.tokens && FreshFor(After(before, rule), k, rule) && Prompt(before, rounds, n, k, rule)
    requires |rounds| == (n + rule.tokens - 1) / rule.tokens
    ensures Served(before, rounds, rule) == n
  {
    RoundsServe(before, rounds, n, k, rule);
    CapacityIsProduct(|rounds|, rule.tokens);
    Roundup(n, rule.tokens);
  }

  lemma {:induction false} Roundup(n: nat, d: int)
    requires d > 0
    ensures (n + d - 1) / d * d >= n
  {
    var q, r := (n + d - 1) / d, (n + d - 1) % d;
    assert n + d - 1 == d * q + r;
    assert d * q == q * d;
  }
}
