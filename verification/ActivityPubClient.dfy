/**
 Throttled fetches (pub_crawler/activity_pub_client.py): every request of a redirect
 chain passes its own gates, the burst gate last.

 Redirects are those of section 15.4 of RFC 9110. Signing, headers and the transport
 are outside the model: a `Site` says how every URL answers.
 */
module Fetching {
  import opened Options
  import opened JsonValues
  import opened Windows
  import opened RateLimiting

  /** `Answer` is any response outside 300-399, `Raised` when its status, content type
      or body is refused. */
  datatype Response = Redirect(location: Option<string>) | Answer(doc: Result<Json>)

  datatype Site = Site(respond: string -> Response, origin: string -> string, paged: string -> bool, join: (string, string) -> string)

  datatype Outcome = Fetched(doc: Json) | TooManyRedirects | NoLocation | Failed

  const MAX_RECURSIONS := 20

  // ---- redirect chains ----

  /** The URL after `n` redirects, if there are that many with a location. */
  function Hop(site: Site, url: string, n: nat): Option<string>
    decreases n
  {
    if n == 0 then Some(url)
    else match site.respond(url)
      case Redirect(Some(to)) => Hop(site, site.join(url, to), n - 1)
      case _ => None
  }

  /** `_get_with_headers` when no gate keeps it waiting forever. */
  function Follow(site: Site, url: string, left: nat): Outcome
    decreases left
  {
    match site.respond(url)
    case Redirect(to) =>
      if left == 0 then TooManyRedirects
      else if to == None then NoLocation
      else Follow(site, site.join(url, to.value), left - 1)
    case Answer(Ok(doc)) => Fetched(doc)
    case Answer(Raised) => Failed
  }

  /** The URLs requested on the way. */
  function Visited(site: Site, url: string, left: nat): (urls: seq<string>)
    ensures 1 <= |urls| <= left + 1
    ensures forall i :: 0 <= i < |urls| ==> Hop(site, url, i) == Some(urls[i])
    decreases left
  {
    match site.respond(url)
    case Redirect(Some(to)) => if left == 0 then [url] else [url] + Visited(site, site.join(url, to), left - 1)
    case _ => [url]
  }

  predicate AnswersAfter(site: Site, url: string, n: nat, doc: Json) {
    Hop(site, url, n).Some? && site.respond(Hop(site, url, n).value) == Answer(Ok(doc))
  }

  /** A document is fetched exactly when at most `left` redirects lead to it. */
  lemma {:induction false} FetchedWithinLimit(site: Site, url: string, left: nat, doc: Json)
    ensures Follow(site, url, left) == Fetched(doc) <==> exists n :: 0 <= n <= left && AnswersAfter(site, url, n, doc)
    decreases left
  {
    match site.respond(url)
    case Redirect(Some(to)) =>
      var next := site.join(url, to);
      if left > 0 {
        FetchedWithinLimit(site, next, left - 1, doc);
        if n :| 0 <= n <= left - 1 && AnswersAfter(site, next, n, doc) {
          assert AnswersAfter(site, url, n + 1, doc);
        }
        if n :| 0 <= n <= left && AnswersAfter(site, url, n, doc) {
          assert AnswersAfter(site, next, n - 1, doc);
        }
      }
    case Redirect(None) =>
    case Answer(_) =>
      assert Follow(site, url, left) == Fetched(doc) <==> AnswersAfter(site, url, 0, doc);
  }

  /** It gives up exactly when the first `left + 1` answers are all redirects. */
  lemma {:induction false} TooManyBeyondLimit(site: Site, url: string, left: nat)
    ensures Follow(site, url, left) == TooManyRedirects <==>
            Hop(site, url, left).Some? && site.respond(Hop(site, url, left).value).Redirect?
    ensures Follow(site, url, left) == TooManyRedirects ==> |Visited(site, url, left)| == left + 1
    decreases left
  {
    match site.respond(url)
    case Redirect(Some(to)) =>
      if left > 0 {
        TooManyBeyondLimit(site, site.join(url, to), left - 1);
      }
    case _ =>
  }

  lemma {:induction false} HopTwice(site: Site, url: string, m: nat, n: nat)
    requires Hop(site, url, m).Some?
    ensures Hop(site, url, m + n) == Hop(site, Hop(site, url, m).value, n)
    decreases m
  {
    if m > 0 {
      HopTwice(site, site.join(url, site.respond(url).location.value), m - 1, n);
    }
  }

  lemma {:induction false} LoopNeverEnds(site: Site, url: string, period: nat, n: nat)
    requires 0 < period && Hop(site, url, period) == Some(url)
    ensures Hop(site, url, n).Some? && site.respond(Hop(site, url, n).value).Redirect?
    decreases n
  {
    if n < period {
      HopPrefix(site, url, n, period);
    } else {
      HopTwice(site, url, period, n - period);
      LoopNeverEnds(site, url, period, n - period);
    }
  }

  lemma {:induction false} HopPrefix(site: Site, url: string, n: nat, m: nat)
    requires n < m && Hop(site, url, m).Some?
    ensures Hop(site, url, n).Some? && site.respond(Hop(site, url, n).value).Redirect?
    decreases n
  {
    if n > 0 {
      HopPrefix(site, site.join(url, site.respond(url).location.value), n - 1, m - 1);
    }
  }

  /** A redirect loop costs MAX_RECURSIONS + 1 requests, whatever its length. */
  lemma {:induction false} LoopGivesUp(site: Site, url: string, period: nat)
    requires 0 < period && Hop(site, url, period) == Some(url)
    ensures Follow(site, url, MAX_RECURSIONS) == TooManyRedirects
    ensures |Visited(site, url, MAX_RECURSIONS)| == 21
  {
    LoopNeverEnds(site, url, period, MAX_RECURSIONS);
    TooManyBeyondLimit(site, url, MAX_RECURSIONS);
  }

  // ---- the client ----

  /** The looks `next_available` takes, one at each gate of the URL. */
  datatype Looks = Looks(paged: Option<Entry>, general: Entry, burst: Entry)

  ghost predicate Looked(e: Entry, task: nat, origin: string, from: real, until: real) {
    e.task == task && e.origin == origin && e.pass.Look? && from <= e.pass.seen <= e.pass.stamp <= until
  }

  function Latest(s: real, t: real): real {
    if s < t then t else s
  }

  /** A request `task` sent right after entry `token` of the burst counter. */
  datatype Request = Request(task: nat, url: string, token: nat)

  function Sent(requests: seq<Request>, task: nat): seq<string> {
    if requests == [] then []
    else
      var r := requests[|requests| - 1];
      Sent(requests[..|requests| - 1], task) + if r.task == task then [r.url] else []
  }

  /** The origins of some URLs, and of the page queries among them. */
  function Origins(site: Site, urls: seq<string>): seq<string> {
    if urls == [] then [] else [site.origin(urls[0])] + Origins(site, urls[1..])
  }

  function PagedOrigins(site: Site, urls: seq<string>): seq<string> {
    if urls == [] then [] else (if site.paged(urls[0]) then [site.origin(urls[0])] else []) + PagedOrigins(site, urls[1..])
  }

  /** Stopped after some of `urls`, short of the last. */
  ghost predicate StoppedIn(before: seq<string>, now: seq<string>, urls: seq<string>) {
    exists n :: 0 <= n < |urls| && now == before + urls[..n]
  }

  lemma {:induction false} StoppedAtOnce(before: seq<string>, urls: seq<string>)
    requires urls != []
    ensures StoppedIn(before, before, urls)
  {
    assert before == before + urls[..0];
  }

  lemma {:induction false} OneMoreHop(site: Site, before: seq<string>, url: string, rest: seq<string>, now: seq<string>)
    ensures before + [url] + rest == before + ([url] + rest)
    ensures StoppedIn(before + [url], now, rest) ==> StoppedIn(before, now, [url] + rest)
  {
    assert ([url] + rest)[1..] == rest && [url][1..] == [];
    if n :| 0 <= n < |rest| && now == before + [url] + rest[..n] {
      assert now == before + ([url] + rest)[..n + 1];
    }
  }

  /** One hop's tokens, then those of the rest. */
  lemma {:induction false} OneMoreDraw(site: Site, drawn: seq<string>, url: string, rest: seq<string>)
    ensures Origins(site, [url]) == [site.origin(url)]
    ensures drawn + [site.origin(url)] + Origins(site, rest) == drawn + Origins(site, [url] + rest)
    ensures drawn + PagedOrigins(site, [url]) + PagedOrigins(site, rest) == drawn + PagedOrigins(site, [url] + rest)
  {
    assert [url][1..] == [] && ([url] + rest)[1..] == rest;
  }

  lemma {:induction false} SentOneMore(requests: seq<Request>, r: Request, task: nat)
    ensures Sent(requests + [r], task) == if r.task == task then Sent(requests, task) + [r.url] else Sent(requests, task)
  {
    assert (requests + [r])[..|requests|] == requests;
  }

  /** Each request took its own token of its own origin from the burst counter. */
  ghost predicate Paid(site: Site, requests: seq<Request>, history: seq<Entry>, rule: WorkingRule) {
    && (forall i :: 0 <= i < |requests| ==>
          var r := requests[i];
          r.token < |history| && history[r.token].task == r.task && history[r.token].origin == site.origin(r.url) &&
          GrantedAt(history, r.token, rule))
    && (forall i, j :: 0 <= i < j < |requests| ==> requests[i].token < requests[j].token)
  }

  lemma {:induction false} PaidLater(site: Site, requests: seq<Request>, history: seq<Entry>, later: seq<Entry>, rule: WorkingRule)
    requires Paid(site, requests, history, rule) && history <= later
    ensures Paid(site, requests, later, rule)
  {
    hide Granted, After, PassesOf;
    forall i | 0 <= i < |requests| ensures GrantedAt(later, requests[i].token, rule) {
      assert later[..requests[i].token] == history[..requests[i].token];
    }
  }

  lemma {:induction false} PaidOneMore(site: Site, requests: seq<Request>, r: Request, history: seq<Entry>, rule: WorkingRule)
    requires Paid(site, requests, history, rule) && r.token == |history| - 1
    requires history[r.token].task == r.task && history[r.token].origin == site.origin(r.url) && GrantedAt(history, r.token, rule)
    requires forall i :: 0 <= i < |requests| ==> requests[i].token < r.token
    ensures Paid(site, requests + [r], history, rule)
  {
    hide GrantedAt;
  }

  /** The requests to an origin whose burst token was drawn in window `k`. */
  function StartsIn(site: Site, requests: seq<Request>, history: seq<Entry>, origin: string, k: int, rule: WorkingRule): set<nat>
    requires forall i :: 0 <= i < |requests| ==> requests[i].token < |history|
  {
    set i | 0 <= i < |requests| && site.origin(requests[i].url) == origin &&
            Window(history[requests[i].token].pass.stamp, rule) == k
  }

  /** Across all tasks, an origin sees at most the burst limit in a burst window. */
  lemma {:induction false} RequestsFitBurst(site: Site, requests: seq<Request>, history: seq<Entry>, now: real, origin: string, k: int, rule: WorkingRule)
    requires Paid(site, requests, history, rule) && Timely(history, now)
    ensures |StartsIn(site, requests, history, origin, k, rule)| <= Limit(rule)
  {
    hide GrantedAt, Window;
    var starts := StartsIn(site, requests, history, origin, k, rule);
    var tokens := set i | i in starts :: requests[i].token;
    SameCount(requests, starts, tokens);
    SharedLimit(history, now, origin, k, rule);
    assert tokens <= GrantsIn(history, origin, k, rule);
    SubsetSize(tokens, GrantsIn(history, origin, k, rule));
  }

  lemma {:induction false} SameCount(requests: seq<Request>, starts: set<nat>, tokens: set<nat>)
    requires forall i :: i in starts ==> i < |requests|
    requires tokens == set i | i in starts :: requests[i].token
    requires forall i, j :: 0 <= i < j < |requests| ==> requests[i].token < requests[j].token
    ensures |tokens| == |starts|
    decreases starts
  {
    if starts != {} {
      var i :| i in starts;
      var rest := set j | j in starts - {i} :: requests[j].token;
      SameCount(requests, starts - {i}, rest);
      assert requests[i].token !in rest;
      assert tokens == rest + {requests[i].token};
    }
  }

  class ActivityPubClient {
    const site: Site
    const clock: Clock
    const general: FixedWindowCounter
    const paged: FixedWindowCounter
    const burst: FixedWindowCounter
    ghost var requests: seq<Request>

    constructor (site: Site, clock: Clock, general: Rule, paged: Rule, burst: Rule, alone: bool)
      requires 0.0 <= clock.time && 0.0 < general.window && 0.0 < paged.window && 0.0 < burst.window
      ensures this.site == site && this.clock == clock && fresh({this.general, this.paged, this.burst})
      ensures this.general.rule == general && this.paged.rule == paged && this.burst.rule == burst
      ensures Valid() && requests == []
    {
      this.site, this.clock, requests := site, clock, [];
      this.general := new FixedWindowCounter(general, clock, alone);
      this.paged := new FixedWindowCounter(paged, clock, alone);
      this.burst := new FixedWindowCounter(burst, clock, alone);
    }

    ghost predicate Valid()
      reads this, clock, general, paged, burst
    {
      && general.clock == paged.clock == burst.clock == clock
      && general != paged && paged != burst && burst != general
      && general.Valid() && paged.Valid() && burst.Valid()
      && Paid(site, requests, burst.history, burst.rule)
    }

    /** What `task` has asked for and drawn so far. */
    ghost function Share(task: nat): (seq<string>, seq<string>, seq<string>, seq<string>)
      reads this, general, paged, burst
    {
      (Sent(requests, task), general.Draws(task), paged.Draws(task), burst.Draws(task))
    }

    ghost function OuterDue(url: string): real
      requires general.Consistent() && paged.Consistent()
      reads this, clock, general, paged
    {
      var o, now := site.origin(url), clock.time;
      var outer := FreeAt(general.CellOf(o), now, general.rule);
      if site.paged(url) then Latest(FreeAt(paged.CellOf(o), now, paged.rule), outer) else outer
    }

    /** When the gates of a URL are all open, asked now. */
    ghost function Due(url: string): real
      requires general.Consistent() && paged.Consistent() && burst.Consistent()
      reads this, clock, general, paged, burst
    {
      Latest(OuterDue(url), FreeAt(burst.CellOf(site.origin(url)), clock.time, burst.rule))
    }

    /** Nobody else uses the gates. */
    ghost predicate Alone() {
      general.alone && paged.alone && burst.alone
    }

    /** `next_available`: one look at each gate of the URL, and the latest of what they
        tell. */
    method NextAvailable(url: string, ghost task: nat) returns (free: real, ghost looks: Looks)
      requires Valid()
      modifies general, paged, burst, clock
      ensures Valid() && Sent(requests, task) == old(Sent(requests, task))
      ensures looks.paged.Some? <==> site.paged(url)
      ensures general.history == old(general.history) + [looks.general] && burst.history == old(burst.history) + [looks.burst]
      ensures paged.history == old(paged.history) + if looks.paged.Some? then [looks.paged.value] else []
      ensures forall e :: e == looks.general || e == looks.burst || looks.paged == Some(e) ==>
                Looked(e, task, site.origin(url), old(clock.time), clock.time)
      ensures var o := site.origin(url);
              var outer := Told(old(general.CellOf(o)), looks.general.pass, general.rule);
              var inner := Told(old(burst.CellOf(o)), looks.burst.pass, burst.rule);
              free == if looks.paged.None? then Latest(outer, inner)
                      else Latest(Latest(Told(old(paged.CellOf(o)), looks.paged.value.pass, paged.rule), outer), inner)
      ensures clock.ideal ==> free == old(Due(url)) && clock.time == old(clock.time)
    {
      hide Timely, Paid, GrantedAt, Won, Tokens, PassesOf, After, Window, Start, FreeAt, Refilled, Told;
      var o := site.origin(url);
      free := 0.0;
      ghost var page: Option<Entry> := None;
      if site.paged(url) {
        ghost var e;
        free, e := Peek(paged, o, task);
        page := Some(e);
      }
      var outer, inner;
      ghost var g, b;
      outer, g := Peek(general, o, task);
      inner, b := Peek(burst, o, task);
      free := if site.paged(url) then Latest(Latest(free, outer), inner) else Latest(outer, inner);
      looks := Looks(page, g, b);
    }

    method Peek(counter: FixedWindowCounter, origin: string, ghost task: nat) returns (free: real, ghost e: Entry)
      requires Valid() && counter in {general, paged, burst}
      modifies counter, clock
      ensures Valid() && counter.history == old(counter.history) + [e]
      ensures Looked(e, task, origin, old(clock.time), clock.time) && old(clock.time) <= clock.time
      ensures free == Told(old(counter.CellOf(origin)), e.pass, counter.rule)
      ensures clock.ideal ==> free == old(FreeAt(counter.CellOf(origin), clock.time, counter.rule)) && clock.time == old(clock.time)
    {
      hide Timely, Paid, GrantedAt, Won, Tokens, PassesOf, After, Window, Start, FreeAt, Refilled, Told;
      ghost var now, before := clock.time, counter.history;
      free, e := counter.NextAvailable(origin, task);
      OthersAged(counter, now);
      if counter == burst {
        PaidLater(site, requests, before, burst.history, burst.rule);
      }
    }

    /** The gates nobody touched since `before` are as good at a later time. */
    lemma {:induction false} OthersAged(counter: FixedWindowCounter, before: real)
      requires counter in {general, paged, burst} && general.clock == paged.clock == burst.clock == clock
      requires forall c :: c in {general, paged, burst} && c != counter ==> c.Consistent() && Timely(c.history, before)
      requires 0.0 <= before <= clock.time && counter.Valid()
      ensures general.Valid() && paged.Valid() && burst.Valid()
    {
      hide Timely, PassesOf, After;
      forall c | c in {general, paged, burst} && c != counter ensures c.Valid() {
        TimelyLater(c.history, before, clock.time);
      }
    }

    /** The other tasks pass one of the gates. */
    method OthersPass(counter: FixedWindowCounter, ghost task: nat)
      requires Valid() && counter in {general, paged, burst}
      modifies general, paged, burst, clock
      ensures Valid() && Share(task) == old(Share(task)) && old(clock.time) <= clock.time
    {
      hide Timely, Paid, GrantedAt, Won, Tokens, PassesOf, After, Window, Start, Sent;
      ghost var now, before := clock.time, counter.history;
      counter.Others(task);
      DrawsByOthers(before, counter.history, task, counter.rule);
      OthersAged(counter, now);
      if counter == burst {
        PaidLater(site, requests, before, burst.history, burst.rule);
      }
    }

    /** A task waits at a gate, for at most `naps` sleeps. */
    method Gate(counter: FixedWindowCounter, origin: string, ghost task: nat, naps: nat) returns (served: bool)
      requires Valid() && counter in {general, paged, burst}
      modifies general, paged, burst, clock
      ensures Valid() && old(counter.history) <= counter.history
      ensures forall c :: c in {general, paged, burst} && c != counter ==> c.Draws(task) == old(c.Draws(task))
      ensures counter.Draws(task) == old(counter.Draws(task)) + if served then [origin] else []
      ensures served ==>
                && |old(counter.history)| < |counter.history|
                && var n := |counter.history| - 1;
                   counter.history[n].task == task && counter.history[n].origin == origin && GrantedAt(counter.history, n, counter.rule)
      ensures counter.alone && 0 < counter.rule.tokens && 0 < naps ==> served
      ensures counter.alone && 0 < counter.rule.tokens && 0 < naps && clock.ideal ==>
                && clock.time == old(FreeAt(counter.CellOf(origin), clock.time, counter.rule))
                && counter.history[|counter.history| - 1].pass.stamp == clock.time
      ensures forall c :: c in {general, paged, burst} && c != counter ==> c.bucket == old(c.bucket) && c.last == old(c.last)
      ensures old(clock.time) <= clock.time
    {
      hide Timely, Paid, GrantedAt, Won, Tokens, PassesOf, After, Window, Start, FreeAt;
      ghost var now, before := clock.time, counter.history;
      var slept;
      served, slept := counter.Acquire(origin, task, naps);
      DrawnSince(before, counter.history, task, served, counter.rule);
      OthersAged(counter, now);
      if counter == burst {
        PaidLater(site, requests, before, burst.history, burst.rule);
      }
    }

    /** The request right after its burst token, with no suspension in between. */
    method Send(url: string, ghost task: nat) returns (response: Response)
      requires Valid() && burst.history != []
      requires var e := burst.history[|burst.history| - 1]; e.task == task && e.origin == site.origin(url)
      requires GrantedAt(burst.history, |burst.history| - 1, burst.rule)
      requires forall i :: 0 <= i < |requests| ==> requests[i].token < |burst.history| - 1
      modifies this`requests
      ensures Valid() && requests == old(requests) + [Request(task, url, |burst.history| - 1)]
      ensures response == site.respond(url)
    {
      hide Timely, Paid, GrantedAt;
      ghost var r := Request(task, url, |burst.history| - 1);
      PaidOneMore(site, requests, r, burst.history, burst.rule);
      requests := requests + [r];
      response := site.respond(url);
    }

    /** Another task passes the burst gate and sends a request. */
    method OtherRequest(url: string, ghost other: nat, ghost task: nat)
      requires Valid() && other != task
      modifies this`requests, general, paged, burst, clock
      ensures Valid() && Share(task) == old(Share(task)) && old(clock.time) <= clock.time
    {
      hide Timely, Paid, GrantedAt, Won, Tokens, PassesOf, After, Window, Start, Granted, Sent;
      ghost var now, before := clock.time, burst.history;
      var granted, wait, e := burst.Turn(site.origin(url), other);
      DrawsByOthers(before, burst.history, task, burst.rule);
      OthersAged(burst, now);
      PaidLater(site, requests, before, burst.history, burst.rule);
      if granted {
        TokensBefore(site, requests, before, burst.rule);
        ghost var sent := requests;
        var _ := Send(url, other);
        SentOneMore(sent, requests[|sent|], task);
      }
    }

    /** What other tasks may do while `task` is suspended. */
    method OtherTasks(ghost task: nat)
      requires Valid()
      modifies this`requests, general, paged, burst, clock
      ensures Valid() && Share(task) == old(Share(task)) && old(clock.time) <= clock.time
      ensures Alone() ==> clock.time == old(clock.time) && burst.history == old(burst.history) && requests == old(requests)
      ensures Alone() ==> forall c :: c in {general, paged, burst} ==> c.bucket == old(c.bucket) && c.last == old(c.last)
    {
      hide Timely, Paid, GrantedAt, Won, Tokens, PassesOf, After, Window, Start, Granted, Sent;
      if general.alone && paged.alone && burst.alone {
        return;
      }
      var rounds: nat :| 0 <= rounds;
      for i := 0 to rounds
        invariant Valid() && Share(task) == old(Share(task)) && old(clock.time) <= clock.time
      {
        var url: string := *;
        OthersPass(general, task);
        OthersPass(paged, task);
        OtherRequest(url, task + 1 + i, task);
      }
    }

    /** No gate can keep a task waiting beyond `naps` sleeps. */
    ghost predicate Free(naps: nat) {
      0 < naps && forall c :: c in {general, paged, burst} ==> c.alone && 0 < c.rule.tokens
    }

    /** The gates of one hop before the burst gate. */
    method OuterGates(url: string, ghost task: nat, naps: nat) returns (served: bool)
      requires Valid()
      modifies this`requests, general, paged, burst, clock
      ensures Valid() && Sent(requests, task) == old(Sent(requests, task)) && burst.Draws(task) == old(burst.Draws(task))
      ensures served ==>
                && general.Draws(task) == old(general.Draws(task)) + [site.origin(url)]
                && paged.Draws(task) == old(paged.Draws(task)) + PagedOrigins(site, [url])
      ensures Free(naps) ==> served
      ensures Free(naps) && clock.ideal ==>
                && clock.time == old(OuterDue(url)) && old(clock.time) <= clock.time
                && burst.bucket == old(burst.bucket) && burst.last == old(burst.last)
    {
      hide Timely, Paid, GrantedAt, PassesOf, After, Window, Start, Granted, Sent, Won, Tokens, FreeAt;
      served := true;
      var o := site.origin(url);
      ghost var now := clock.time;
      general.LastIsPast(o);
      if site.paged(url) {
        served := Gate(paged, o, task, naps);
        OtherTasks(task);
      }
      if served {
        if 0 < general.rule.tokens {
          FreeLater(old(general.CellOf(o)), now, clock.time, general.rule);
        }
        served := Gate(general, o, task, naps);
        OtherTasks(task);
      }
    }

    /** The last request went out at time `t`. */
    ghost predicate SentAt(t: real)
      reads this, burst
    {
      && requests != [] && requests[|requests| - 1].token == |burst.history| - 1
      && burst.history != [] && burst.history[|burst.history| - 1].pass.stamp == t
    }

    /** The burst gate and, at once, the request. */
    method BurstAndSend(url: string, ghost task: nat, naps: nat) returns (response: Option<Response>)
      requires Valid()
      modifies this`requests, general, paged, burst, clock
      ensures Valid() && general.Draws(task) == old(general.Draws(task)) && paged.Draws(task) == old(paged.Draws(task))
      ensures response.Some? ==>
                && response.value == site.respond(url) && Sent(requests, task) == old(Sent(requests, task)) + [url]
                && burst.Draws(task) == old(burst.Draws(task)) + [site.origin(url)]
      ensures response == None ==> Sent(requests, task) == old(Sent(requests, task))
      ensures Free(naps) ==> response.Some?
      ensures Free(naps) && clock.ideal ==>
                SentAt(FreeAt(old(burst.CellOf(site.origin(url))), old(clock.time), burst.rule))
    {
      hide Timely, Paid, GrantedAt, PassesOf, After, Window, Start, Granted, Sent, Won, Tokens, FreeAt;
      TokensBefore(site, requests, burst.history, burst.rule);
      var served := Gate(burst, site.origin(url), task, naps);
      if !served {
        return None;
      }
      ghost var sent := requests;
      var answer := Send(url, task);
      SentOneMore(sent, requests[|sent|], task);
      return Some(answer);
    }

    /** One hop: its gates, then the request. A task alone on an ideal clock sends it
        exactly when `next_available` said it could. */
    method OneHop(url: string, ghost task: nat, naps: nat) returns (response: Option<Response>)
      requires Valid()
      modifies this`requests, general, paged, burst, clock
      ensures Valid()
      ensures response.Some? ==>
                && response.value == site.respond(url) && Sent(requests, task) == old(Sent(requests, task)) + [url]
                && burst.Draws(task) == old(burst.Draws(task)) + [site.origin(url)]
                && general.Draws(task) == old(general.Draws(task)) + [site.origin(url)]
                && paged.Draws(task) == old(paged.Draws(task)) + PagedOrigins(site, [url])
      ensures response == None ==> Sent(requests, task) == old(Sent(requests, task))
      ensures Free(naps) ==> response.Some?
      ensures Free(naps) && clock.ideal ==> SentAt(old(Due(url)))
    {
      hide Timely, Paid, GrantedAt, PassesOf, After, Window, Start, Granted, Sent, Won, Tokens, PagedOrigins, FreeAt;
      burst.LastIsPast(site.origin(url));
      var served := OuterGates(url, task, naps);
      if !served {
        return None;
      }
      if Free(naps) && clock.ideal {
        FreeLater(old(burst.CellOf(site.origin(url))), old(clock.time), clock.time, burst.rule);
      }
      response := BurstAndSend(url, task, naps);
      OtherTasks(task);
    }

    method GetWithHeaders(url: string, left: nat, ghost task: nat, naps: nat) returns (result: Option<Outcome>)
      requires Valid()
      modifies this`requests, general, paged, burst, clock
      ensures Valid()
      ensures result.Some? ==>
                var urls := Visited(site, url, left);
                && result.value == Follow(site, url, left) && Sent(requests, task) == old(Sent(requests, task)) + urls
                && burst.Draws(task) == old(burst.Draws(task)) + Origins(site, urls)
                && general.Draws(task) == old(general.Draws(task)) + Origins(site, urls)
                && paged.Draws(task) == old(paged.Draws(task)) + PagedOrigins(site, urls)
      ensures result == None ==> StoppedIn(old(Sent(requests, task)), Sent(requests, task), Visited(site, url, left))
      ensures Free(naps) ==> result.Some?
      decreases left
    {
      hide Timely, Paid, GrantedAt, PassesOf, After, Window, Start, Granted, Sent, Won, Tokens, Origins, PagedOrigins, StoppedIn;
      ghost var before := Sent(requests, task);
      OneMoreDraw(site, [], url, []);
      var response := OneHop(url, task, naps);
      if response == None {
        StoppedAtOnce(before, Visited(site, url, left));
        return None;
      }
      match response.value
      case Redirect(to) =>
        if left == 0 {
          return Some(TooManyRedirects);
        }
        if to == None {
          return Some(NoLocation);
        }
        var next := site.join(url, to.value);
        result := GetWithHeaders(next, left - 1, task, naps);
        OneMoreDraw(site, old(burst.Draws(task)), url, Visited(site, next, left - 1));
        OneMoreDraw(site, old(general.Draws(task)), url, Visited(site, next, left - 1));
        OneMoreDraw(site, old(paged.Draws(task)), url, Visited(site, next, left - 1));
        OneMoreHop(site, before, url, Visited(site, next, left - 1), Sent(requests, task));
      case Answer(doc) =>
        match doc
        case Ok(json) => result := Some(Fetched(json));
        case Raised => result := Some(Failed);
    }

    /** `get`: at most MAX_RECURSIONS + 1 requests, on any redirect graph. */
    method Get(url: string, ghost task: nat, naps: nat) returns (result: Option<Outcome>)
      requires Valid()
      modifies this`requests, general, paged, burst, clock
      ensures Valid() && |Sent(requests, task)| <= old(|Sent(requests, task)|) + 21
      ensures result.Some? ==> result.value == Follow(site, url, MAX_RECURSIONS)
      ensures Free(naps) ==> result.Some?
    {
      hide Timely, Paid, GrantedAt, PassesOf, After, Window, Start, Granted, Sent, Won, Tokens, Origins, PagedOrigins;
      result := GetWithHeaders(url, MAX_RECURSIONS, task, naps);
    }
  }

  lemma {:induction false} DrawnSince(before: seq<Entry>, history: seq<Entry>, task: nat, served: bool, rule: WorkingRule)
    requires before <= history && (served ==> |before| < |history|)
    requires Won(history, |before|, task, rule) == if served then {|history| - 1} else {}
    ensures Tokens(history, task, rule) == Tokens(before, task, rule) + if served then [history[|history| - 1].origin] else []
    ensures served ==> history[|history| - 1].task == task && GrantedAt(history, |history| - 1, rule)
  {
    hide GrantedAt, Tokens;
    DrawnMore(before, history, task, rule);
    if served {
      assert |history| - 1 in Won(history, |before|, task, rule);
    }
  }

  lemma {:induction false} TokensBefore(site: Site, requests: seq<Request>, history: seq<Entry>, rule: WorkingRule)
    requires Paid(site, requests, history, rule)
    ensures forall i :: 0 <= i < |requests| ==> requests[i].token < |history|
  {
  }

  lemma {:induction false} DrawsByOthers(before: seq<Entry>, history: seq<Entry>, task: nat, rule: WorkingRule)
    requires before <= history && forall i :: |before| <= i < |history| ==> history[i].task != task
    ensures Tokens(history, task, rule) == Tokens(before, task, rule)
  {
    hide GrantedAt, Tokens;
    assert Won(history, |before|, task, rule) == {};
    DrawnMore(before, history, task, rule);
  }
}
