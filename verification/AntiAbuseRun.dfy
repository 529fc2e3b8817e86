/** Runs of the filter: how many requests a customer gets through in a minute. */
module AntiAbuseRun {
  import opened Integers
  import opened AntiAbuse

  datatype Action = CheckAt(req: Request, now: int) | InstallRules(bundle: Bundle)

  datatype Entry = Entry(customer: string, at: int, verdict: Verdict)

  datatype World = World(filter: Filter, log: seq<Entry>)

  function Step(w: World, a: Action): World {
    match a
    case CheckAt(req, now) =>
      var (f, v) := Check(w.filter, req, now);
      World(f, w.log + [Entry(req.customer, now, v)])
    case InstallRules(b) => w.(filter := w.filter.(rules := Installed(b)))
  }

  function Run(f: Filter, actions: seq<Action>): World {
    if actions == [] then World(f, []) else Step(Run(f, actions[..|actions| - 1]), actions[|actions| - 1])
  }

  /** The cap stays the same through every installed ruleset, and the clock never goes back. */
  predicate SteadyCap(rules: Rules, actions: seq<Action>) {
    forall i :: 0 <= i < |actions| && actions[i].InstallRules? ==> actions[i].bundle.cap == rules.cap
  }

  predicate Ordered(actions: seq<Action>) {
    forall i, j :: 0 <= i < j < |actions| && actions[i].CheckAt? && actions[j].CheckAt? ==>
      actions[i].now <= actions[j].now
  }

  /** Requests of `c` allowed at `from` or later, and those in the half-open minute that begins there. */
  function Since(log: seq<Entry>, c: string, from: int): nat {
    if log == [] then 0
    else
      var e := log[|log| - 1];
      Since(log[..|log| - 1], c, from) + if e.customer == c && e.verdict == Allow && from <= e.at then 1 else 0
  }

  function InMinute(log: seq<Entry>, c: string, from: int): nat {
    if log == [] then 0
    else
      var e := log[|log| - 1];
      InMinute(log[..|log| - 1], c, from)
      + if e.customer == c && e.verdict == Allow && from <= e.at < from + 60_000_000_000 then 1 else 0
  }

  lemma LogOne(log: seq<Entry>, e: Entry, c: string, from: int)
    ensures Since(log + [e], c, from) ==
            Since(log, c, from) + if e.customer == c && e.verdict == Allow && from <= e.at then 1 else 0
    ensures InMinute(log + [e], c, from) ==
            InMinute(log, c, from)
            + if e.customer == c && e.verdict == Allow && from <= e.at < from + 60_000_000_000 then 1 else 0
  {
    assert (log + [e])[..|log|] == log;
  }

  lemma {:induction false} MinuteIsLess(log: seq<Entry>, c: string, from: int)
    ensures InMinute(log, c, from) <= Since(log, c, from)
  {
    if log != [] { MinuteIsLess(log[..|log| - 1], c, from); }
  }

  // ---- The bucket of one customer ------------------------------------------------------------

  /** What the bucket says about the log. The first request of a window is at its start, so any span
      that begins later, or that begins less than a minute before, misses one. */
  ghost predicate BucketOk(log: seq<Entry>, c: string, b: Bucket, cap: nat, clock: int) {
    && b.start <= clock && 1 <= b.count <= cap
    && Since(log, c, b.start) == b.count
    && (forall t :: t > b.start ==> Since(log, c, t) <= b.count - 1)
    && (forall t :: t > b.start - WINDOW ==> Since(log, c, t) <= cap - 1 + b.count)
    && (forall t :: t > clock || t >= b.start + WINDOW ==> Since(log, c, t) == 0)
    && (forall t :: InMinute(log, c, t) <= 2 * cap - 1)
  }

  ghost predicate CustomerOk(buckets: map<string, Bucket>, log: seq<Entry>, c: string, cap: nat, clock: int) {
    if c in buckets then BucketOk(log, c, buckets[c], cap, clock) else forall t :: Since(log, c, t) == 0
  }

  /** One allowed request more, in the current window or starting a new one. */
  lemma AllowInWindow(log: seq<Entry>, c: string, b: Bucket, cap: nat, clock: int, now: int)
    requires BucketOk(log, c, b, cap, clock) && clock <= now && b.count < cap && now - b.start < WINDOW
    ensures BucketOk(log + [Entry(c, now, Allow)], c, b.(count := b.count + 1), cap, now)
  {
    var log' := log + [Entry(c, now, Allow)];
    forall t
      ensures Since(log', c, t) == Since(log, c, t) + if t <= now then 1 else 0
      ensures InMinute(log', c, t) <= 2 * cap - 1
    {
      LogOne(log, Entry(c, now, Allow), c, t);
      MinuteIsLess(log, c, t);
    }
  }

  lemma AllowInNewWindow(log: seq<Entry>, c: string, b: Bucket, cap: nat, clock: int, now: int)
    requires BucketOk(log, c, b, cap, clock) && clock <= now && now - b.start >= WINDOW
    ensures BucketOk(log + [Entry(c, now, Allow)], c, Bucket(now, 1), cap, now)
  {
    var log' := log + [Entry(c, now, Allow)];
    forall t
      ensures Since(log', c, t) == Since(log, c, t) + if t <= now then 1 else 0
      ensures InMinute(log', c, t) <= 2 * cap - 1
    {
      LogOne(log, Entry(c, now, Allow), c, t);
      MinuteIsLess(log, c, t);
    }
  }

  lemma FirstAllow(log: seq<Entry>, c: string, cap: nat, now: int)
    requires cap > 0 && forall t :: Since(log, c, t) == 0
    ensures BucketOk(log + [Entry(c, now, Allow)], c, Bucket(now, 1), cap, now)
  {
    var log' := log + [Entry(c, now, Allow)];
    forall t
      ensures Since(log', c, t) == if t <= now then 1 else 0
      ensures InMinute(log', c, t) <= 1
    {
      LogOne(log, Entry(c, now, Allow), c, t);
      MinuteIsLess(log, c, t);
    }
  }

  /** Anything else that is logged counts for nobody. */
  lemma NoAllow(log: seq<Entry>, e: Entry, c: string, b: Bucket, cap: nat, clock: int, now: int)
    requires BucketOk(log, c, b, cap, clock) && clock <= now && (e.customer != c || e.verdict != Allow)
    ensures BucketOk(log + [e], c, b, cap, now)
  {
    forall t
      ensures Since(log + [e], c, t) == Since(log, c, t) && InMinute(log + [e], c, t) == InMinute(log, c, t)
    {
      LogOne(log, e, c, t);
    }
  }

  lemma OthersKeepCustomer(buckets: map<string, Bucket>, log: seq<Entry>, e: Entry, c: string,
                           cap: nat, clock: int, now: int)
    requires CustomerOk(buckets, log, c, cap, clock) && clock <= now && (e.customer != c || e.verdict != Allow)
    ensures CustomerOk(buckets, log + [e], c, cap, now)
  {
    if c in buckets {
      NoAllow(log, e, c, buckets[c], cap, clock, now);
    } else {
      forall t ensures Since(log + [e], c, t) == 0 { LogOne(log, e, c, t); }
    }
  }

  /** The rate-limit gate, for the customer who asks. */
  lemma GateKeepsCustomer(buckets: map<string, Bucket>, log: seq<Entry>, c: string, cap: nat, clock: int, now: int)
    requires cap > 0 && CustomerOk(buckets, log, c, cap, clock) && clock <= now
    ensures var (buckets', ok) := CheckRate(buckets, c, cap, now);
            CustomerOk(buckets', log + [Entry(c, now, if ok then Allow else Block(RateLimit))], c, cap, now)
  {
    if c !in buckets {
      FirstAllow(log, c, cap, now);
    } else {
      var b := buckets[c];
      WindowOver(now - b.start);
      if now - b.start >= WINDOW { AllowInNewWindow(log, c, b, cap, clock, now); }
      else if b.count < cap { AllowInWindow(log, c, b, cap, clock, now); }
      else { NoAllow(log, Entry(c, now, Block(RateLimit)), c, b, cap, clock, now); }
    }
  }

  /** The gate touches the bucket of the customer who asks and no other. */
  lemma GateSparesOthers(buckets: map<string, Bucket>, customer: string, cap: nat, now: int, c: string)
    requires c != customer
    ensures var buckets' := CheckRate(buckets, customer, cap, now).0;
            (c in buckets' <==> c in buckets) && (c in buckets ==> buckets'[c] == buckets[c])
  {}

  lemma StepKeepsCustomer(w: World, req: Request, now: int, c: string, cap: nat, clock: int)
    requires cap > 0 && w.filter.rules.cap == cap && CustomerOk(w.filter.buckets, w.log, c, cap, clock) && clock <= now
    ensures var w' := Step(w, CheckAt(req, now));
            CustomerOk(w'.filter.buckets, w'.log, c, cap, now)
  {
    var blocked := RuleBlock(w.filter.rules, req);
    if blocked.Some? {
      OthersKeepCustomer(w.filter.buckets, w.log, Entry(req.customer, now, Block(blocked.value)), c, cap, clock, now);
    } else if req.customer == c {
      GateKeepsCustomer(w.filter.buckets, w.log, c, cap, clock, now);
    } else {
      var (buckets, ok) := CheckRate(w.filter.buckets, req.customer, cap, now);
      var e := Entry(req.customer, now, if ok then Allow else Block(RateLimit));
      OthersKeepCustomer(w.filter.buckets, w.log, e, c, cap, clock, now);
      GateSparesOthers(w.filter.buckets, req.customer, cap, now, c);
      assert CustomerOk(buckets, w.log + [e], c, cap, now);
    }
  }

  /** The latest time in the actions, or `start` if there is none. */
  function Clock(actions: seq<Action>, start: int): int {
    if actions == [] then start
    else if actions[|actions| - 1].CheckAt? then actions[|actions| - 1].now
    else Clock(actions[..|actions| - 1], start)
  }

  /** A filter as it is before its first request. */
  predicate Fresh(f: Filter) { f.buckets == map[] }

  lemma {:induction false} RunKeepsCustomer(f: Filter, actions: seq<Action>, c: string, start: int)
    requires Fresh(f) && f.rules.cap > 0 && SteadyCap(f.rules, actions) && Ordered(actions)
    requires forall i :: 0 <= i < |actions| && actions[i].CheckAt? ==> start <= actions[i].now
    ensures var w := Run(f, actions);
            w.filter.rules.cap == f.rules.cap
            && CustomerOk(w.filter.buckets, w.log, c, f.rules.cap, Clock(actions, start))
  {
    if actions != [] {
      var rest, a := actions[..|actions| - 1], actions[|actions| - 1];
      RunKeepsCustomer(f, rest, c, start);
      if a.CheckAt? {
        ClockBefore(actions, start);
        StepKeepsCustomer(Run(f, rest), a.req, a.now, c, f.rules.cap, Clock(rest, start));
      }
    }
  }

  lemma {:induction false} ClockBefore(actions: seq<Action>, start: int)
    requires actions != [] && actions[|actions| - 1].CheckAt? && Ordered(actions)
    requires forall i :: 0 <= i < |actions| && actions[i].CheckAt? ==> start <= actions[i].now
    ensures Clock(actions[..|actions| - 1], start) <= actions[|actions| - 1].now
  {
    ClockIsOfSome(actions[..|actions| - 1], start);
  }

  lemma {:induction false} ClockIsOfSome(actions: seq<Action>, start: int)
    ensures Clock(actions, start) == start ||
            exists i :: 0 <= i < |actions| && actions[i].CheckAt? && actions[i].now == Clock(actions, start)
  {
    if actions != [] && actions[|actions| - 1].InstallRules? {
      var rest := actions[..|actions| - 1];
      ClockIsOfSome(rest, start);
      if Clock(rest, start) != start {
        var i :| 0 <= i < |rest| && rest[i].CheckAt? && rest[i].now == Clock(rest, start);
        assert actions[i] == rest[i];
      }
    }
  }

  // ---- The rate limit ------------------------------------------------------------------------

  function Earliest(actions: seq<Action>): (t: int)
    ensures forall i :: 0 <= i < |actions| && actions[i].CheckAt? ==> t <= actions[i].now
  {
    if actions == [] then 0
    else
      var rest := Earliest(actions[..|actions| - 1]);
      var a := actions[|actions| - 1];
      if a.CheckAt? && a.now < rest then a.now else rest
  }

  /** The window tumbles rather than slides: in no half-open minute does a customer get through more
      than twice the cap less one. */
  lemma AtMostTwiceTheCap(f: Filter, actions: seq<Action>, c: string, from: int)
    requires Fresh(f) && f.rules.cap > 0 && SteadyCap(f.rules, actions) && Ordered(actions)
    ensures InMinute(Run(f, actions).log, c, from) <= 2 * f.rules.cap - 1
  {
    RunKeepsCustomer(f, actions, c, Earliest(actions));
    MinuteIsLess(Run(f, actions).log, c, from);
  }

  /** A request is refused for its rate only if the full cap was allowed in the minute before it. */
  lemma RefusedOnlyWhenFull(f: Filter, actions: seq<Action>, req: Request, now: int)
    requires Fresh(f) && SteadyCap(f.rules, actions) && Ordered(actions + [CheckAt(req, now)])
    requires Check(Run(f, actions).filter, req, now).1 == Block(RateLimit)
    ensures Since(Run(f, actions).log, req.customer, now - 60_000_000_000 + 1) >= f.rules.cap > 0
  {
    CapStays(f, actions);
    var w := Run(f, actions);
    RefusalIsByRate(w.filter, req, now);
    var all := actions + [CheckAt(req, now)];
    OrderedPrefix(actions, CheckAt(req, now));
    assert forall i :: 0 <= i < |actions| ==> actions[i] == all[i];
    RunKeepsCustomer(f, actions, req.customer, Earliest(all));
    ClockBefore(all, Earliest(all));
    assert all[..|all| - 1] == actions;
    FullBucketRefuses(w.filter.buckets, w.log, req.customer, f.rules.cap, Clock(actions, Earliest(all)), now);
  }

  lemma RefusalIsByRate(f: Filter, req: Request, now: int)
    requires Check(f, req, now).1 == Block(RateLimit)
    ensures f.rules.cap > 0 && !CheckRate(f.buckets, req.customer, f.rules.cap, now).1
  {}

  lemma FullBucketRefuses(buckets: map<string, Bucket>, log: seq<Entry>, c: string, cap: nat, clock: int, now: int)
    requires cap > 0 && CustomerOk(buckets, log, c, cap, clock) && clock <= now
    requires !CheckRate(buckets, c, cap, now).1
    ensures Since(log, c, now - WINDOW + 1) >= cap
  {
    if c in buckets {
      WindowOver(now - buckets[c].start);
      SinceGrows(log, c, now - WINDOW + 1, buckets[c].start);
    }
  }

  lemma OrderedPrefix(actions: seq<Action>, a: Action)
    requires Ordered(actions + [a])
    ensures Ordered(actions)
  {
    var all := actions + [a];
    forall i, j | 0 <= i < j < |actions| && actions[i].CheckAt? && actions[j].CheckAt?
      ensures actions[i].now <= actions[j].now
    {
      assert all[i] == actions[i] && all[j] == actions[j];
    }
  }

  lemma {:induction false} SinceGrows(log: seq<Entry>, c: string, from: int, later: int)
    requires from <= later
    ensures Since(log, c, from) >= Since(log, c, later)
  {
    if log != [] { SinceGrows(log[..|log| - 1], c, from, later); }
  }

  lemma {:induction false} CapStays(f: Filter, actions: seq<Action>)
    requires SteadyCap(f.rules, actions)
    ensures Run(f, actions).filter.rules.cap == f.rules.cap
  {
    if actions != [] { CapStays(f, actions[..|actions| - 1]); }
  }

  // ---- The bound is attained -----------------------------------------------------------------

  lemma RunPush(f: Filter, actions: seq<Action>, a: Action)
    ensures Run(f, actions + [a]) == Step(Run(f, actions), a)
  {
    assert (actions + [a])[..|actions|] == actions;
  }

  /** The rate limit asked by `c`, all rules passed. */
  function Ask(w: World, c: string, now: int): World {
    var (buckets, ok) := CheckRate(w.filter.buckets, c, w.filter.rules.cap, now);
    World(w.filter.(buckets := buckets), w.log + [Entry(c, now, if ok then Allow else Block(RateLimit))])
  }

  /** A request without host, port and content hash: no ruleset blocks it. */
  function Plain(c: string): Request { Request("", c, None, None) }

  lemma NoHost()
    ensures HostOf("") == None
  {
    assert AfterScheme("") == "";
    assert AfterLast("", '@') == "" && Before("", '/') == "" && Before("", ':') == "";
  }

  lemma PlainPasses(rules: Rules, c: string)
    ensures RuleBlock(rules, Plain(c)) == None
  {
    NoHost();
  }

  /** A request that no rule blocks is asked of the rate limit. */
  lemma StepOfRated(w: World, req: Request, now: int)
    requires RuleBlock(w.filter.rules, req).None?
    ensures Step(w, CheckAt(req, now)) == Ask(w, req.customer, now)
  {}

  lemma PlainAsks(w: World, c: string, now: int)
    ensures Step(w, CheckAt(Plain(c), now)) == Ask(w, c, now)
  {
    PlainPasses(w.filter.rules, c);
    StepOfRated(w, Plain(c), now);
  }

  /** Plain requests at the given times. */
  function Plains(c: string, times: seq<int>): (r: seq<Action>)
    ensures |r| == |times| && forall i :: 0 <= i < |r| ==> r[i] == CheckAt(Plain(c), times[i])
  {
    seq(|times|, i requires 0 <= i < |times| => CheckAt(Plain(c), times[i]))
  }

  /** The world after asking at the given times. */
  function Asks(w: World, c: string, times: seq<int>): World {
    if times == [] then w else Ask(Asks(w, c, times[..|times| - 1]), c, times[|times| - 1])
  }

  lemma {:induction false} RunOfPlains(f: Filter, c: string, times: seq<int>)
    ensures Run(f, Plains(c, times)) == Asks(World(f, []), c, times)
  {
    if times == [] {
      assert Plains(c, times) == [];
    } else {
      var n := |times| - 1;
      RunOfPlains(f, c, times[..n]);
      RunPushPlain(f, Plains(c, times[..n]), c, times[n]);
      assert Plains(c, times) == Plains(c, times[..n]) + [CheckAt(Plain(c), times[n])];
    }
  }

  lemma RunPushPlain(f: Filter, actions: seq<Action>, c: string, now: int)
    ensures Run(f, actions + [CheckAt(Plain(c), now)]) == Ask(Run(f, actions), c, now)
  {
    RunPush(f, actions, CheckAt(Plain(c), now));
    PlainAsks(Run(f, actions), c, now);
  }

  function Repeat(t: int, n: nat): (r: seq<int>)
    ensures |r| == n && forall i :: 0 <= i < n ==> r[i] == t
  {
    seq(n, i => t)
  }

  predicate Holds(w: World, c: string, cap: nat, b: Bucket) {
    w.filter.rules.cap == cap && c in w.filter.buckets && w.filter.buckets[c] == b
  }

  /** One more allowed request, in the window of the customer's bucket or in a new one. */
  lemma Allowed(w: World, c: string, cap: nat, now: int, b: Bucket)
    requires cap > 0 && Holds(w, c, cap, b) && (now - b.start >= WINDOW || b.count < cap)
    ensures var next := if now - b.start >= WINDOW then Bucket(now, 1) else b.(count := b.count + 1);
            Holds(Ask(w, c, now), c, cap, next) && Ask(w, c, now).log == w.log + [Entry(c, now, Allow)]
  {
    WindowOver(now - b.start);
  }

  /** Filling up a window that has begun. */
  lemma {:induction false} FillWindow(w: World, c: string, cap: nat, now: int, times: seq<int>, b: Bucket, t: int)
    requires cap > 0 && Holds(w, c, cap, b) && forall i :: 0 <= i < |times| ==> times[i] == now
    requires now - b.start < WINDOW && b.count + |times| <= cap
    ensures var w' := Asks(w, c, times);
            && Holds(w', c, cap, b.(count := b.count + |times|))
            && InMinute(w'.log, c, t) == InMinute(w.log, c, t) + if t <= now < t + WINDOW then |times| else 0
  {
    if times != [] {
      var n := |times| - 1;
      var before := Asks(w, c, times[..n]);
      FillWindow(w, c, cap, now, times[..n], b, t);
      Allowed(before, c, cap, now, b.(count := b.count + n));
      LogOne(before.log, Entry(c, now, Allow), c, t);
    }
  }

  lemma {:induction false} AsksConcat(w: World, c: string, a: seq<int>, b: seq<int>)
    ensures Asks(w, c, a + b) == Asks(Asks(w, c, a), c, b)
  {
    if b == [] {
      assert a + b == a;
    } else {
      AsksConcat(w, c, a, b[..|b| - 1]);
      assert (a + b)[..|a + b| - 1] == a + b[..|b| - 1];
    }
  }

  lemma AsksOne(w: World, c: string, t: int)
    ensures Asks(w, c, [t]) == Ask(w, c, t)
  {
    var none: seq<int> := [t][..0];
    assert none == [] && Asks(w, c, none) == w;
  }

  /** One request, the rest of the cap a nanosecond later, and a full cap when the minute is over. */
  function Burst(cap: nat): seq<int>
    requires cap > 0
  {
    [0] + Repeat(1, cap - 1) + [WINDOW] + Repeat(WINDOW, cap - 1)
  }

  lemma BurstInParts(w: World, c: string, cap: nat)
    requires cap > 0
    ensures Asks(w, c, Burst(cap)) ==
            Asks(Ask(Asks(Ask(w, c, 0), c, Repeat(1, cap - 1)), c, WINDOW), c, Repeat(WINDOW, cap - 1))
  {
    var times := [0] + Repeat(1, cap - 1);
    AsksConcat(w, c, [0], Repeat(1, cap - 1));
    AsksOne(w, c, 0);
    AsksConcat(w, c, times, [WINDOW]);
    AsksOne(Asks(w, c, times), c, WINDOW);
    AsksConcat(w, c, times + [WINDOW], Repeat(WINDOW, cap - 1));
  }

  lemma BurstFills(w: World, c: string, cap: nat)
    requires w.filter.rules.cap == cap > 0 && c !in w.filter.buckets && w.log == []
    ensures InMinute(Asks(w, c, Burst(cap)).log, c, 1) == 2 * cap - 1
  {
    BurstInParts(w, c, cap);
    FirstWindow(w, c, cap);
    SecondWindow(Asks(Ask(w, c, 0), c, Repeat(1, cap - 1)), c, cap);
  }

  lemma FirstWindow(w: World, c: string, cap: nat)
    requires w.filter.rules.cap == cap > 0 && c !in w.filter.buckets && w.log == []
    ensures var filled := Asks(Ask(w, c, 0), c, Repeat(1, cap - 1));
            Holds(filled, c, cap, Bucket(0, cap)) && InMinute(filled.log, c, 1) == cap - 1
  {
    FirstEntry(w, c, cap);
    FillWindow(Ask(w, c, 0), c, cap, 1, Repeat(1, cap - 1), Bucket(0, 1), 1);
  }

  lemma FirstEntry(w: World, c: string, cap: nat)
    requires w.filter.rules.cap == cap > 0 && c !in w.filter.buckets && w.log == []
    ensures Holds(Ask(w, c, 0), c, cap, Bucket(0, 1)) && InMinute(Ask(w, c, 0).log, c, 1) == 0
  {
    WindowOver(0);
    LogOne([], Entry(c, 0, Allow), c, 1);
  }

  lemma SecondWindow(w: World, c: string, cap: nat)
    requires cap > 0 && Holds(w, c, cap, Bucket(0, cap)) && InMinute(w.log, c, 1) == cap - 1
    ensures InMinute(Asks(Ask(w, c, WINDOW), c, Repeat(WINDOW, cap - 1)).log, c, 1) == 2 * cap - 1
  {
    Allowed(w, c, cap, WINDOW, Bucket(0, cap));
    LogOne(w.log, Entry(c, WINDOW, Allow), c, 1);
    FillWindow(Ask(w, c, WINDOW), c, cap, WINDOW, Repeat(WINDOW, cap - 1), Bucket(WINDOW, 1), 1);
  }

  lemma PlainsInOrder(rules: Rules, c: string, times: seq<int>)
    requires forall i, j :: 0 <= i < j < |times| ==> times[i] <= times[j]
    ensures Ordered(Plains(c, times)) && SteadyCap(rules, Plains(c, times))
  {}

  /** For every ruleset with a cap some ordered run reaches the bound. */
  lemma BoundIsAttained(f: Filter, c: string)
    requires Fresh(f) && f.rules.cap > 0
    ensures var actions := Plains(c, Burst(f.rules.cap));
            && Ordered(actions) && SteadyCap(f.rules, actions)
            && InMinute(Run(f, actions).log, c, 1) == 2 * f.rules.cap - 1
  {
    BurstInOrder(f.rules.cap);
    PlainsInOrder(f.rules, c, Burst(f.rules.cap));
    RunOfPlains(f, c, Burst(f.rules.cap));
    BurstFills(World(f, []), c, f.rules.cap);
  }

  lemma BurstInOrder(cap: nat)
    requires cap > 0
    ensures forall i, j :: 0 <= i < j < |Burst(cap)| ==> Burst(cap)[i] <= Burst(cap)[j]
  {
    var times := Burst(cap);
    forall i | 0 <= i < |times| ensures times[i] == if i == 0 then 0 else if i < cap then 1 else WINDOW {}
  }

  /** A sliding window would allow the cap and no more in every minute; this one does exactly when the
      cap is one. */
  lemma SlidingExactly(f: Filter)
    requires Fresh(f) && f.rules.cap > 0
    ensures (forall actions: seq<Action>, c: string, from: int :: Ordered(actions) && SteadyCap(f.rules, actions) ==>
               InMinute(Run(f, actions).log, c, from) <= f.rules.cap)
            <==> f.rules.cap == 1
  {
    if f.rules.cap == 1 {
      forall actions: seq<Action>, c: string, from: int | Ordered(actions) && SteadyCap(f.rules, actions)
        ensures InMinute(Run(f, actions).log, c, from) <= 1
      {
        AtMostTwiceTheCap(f, actions, c, from);
      }
    } else {
      BoundIsAttained(f, "");
    }
  }

  // ---- Customers and blocked requests do not interfere ---------------------------------------

  /** The requests of `c` that no rule blocks, and the ruleset changes. */
  function Relevant(f: Filter, actions: seq<Action>, c: string): seq<Action> {
    if actions == [] then []
    else
      var before, a := actions[..|actions| - 1], actions[|actions| - 1];
      var keep := a.CheckAt? ==> a.req.customer == c && RuleBlock(Run(f, before).filter.rules, a.req).None?;
      Relevant(f, before, c) + if keep then [a] else []
  }

  /** The entries of `c` that were decided by the rate limit. */
  function Rated(log: seq<Entry>, c: string): seq<Entry> {
    if log == [] then []
    else
      var e := log[|log| - 1];
      Rated(log[..|log| - 1], c) + if e.customer == c && e.verdict in {Allow, Block(RateLimit)} then [e] else []
  }

  /** Two worlds that `c` cannot tell apart: `alone` has only what matters to `c`. */
  predicate Alike(w: World, alone: World, c: string) {
    && alone.filter.rules == w.filter.rules
    && (c in alone.filter.buckets <==> c in w.filter.buckets)
    && (c in w.filter.buckets ==> alone.filter.buckets[c] == w.filter.buckets[c])
    && alone.log == Rated(w.log, c)
  }

  lemma RatedOne(log: seq<Entry>, e: Entry, c: string)
    ensures Rated(log + [e], c) ==
            if e.customer == c && e.verdict in {Allow, Block(RateLimit)} then Rated(log, c) + [e] else Rated(log, c)
  {
    assert (log + [e])[..|log|] == log && Rated(log, c) + [] == Rated(log, c);
  }

  lemma RelevantStep(w: World, alone: World, req: Request, now: int)
    requires Alike(w, alone, req.customer) && RuleBlock(w.filter.rules, req).None?
    ensures Alike(Step(w, CheckAt(req, now)), Step(alone, CheckAt(req, now)), req.customer)
  {
    StepOfRated(w, req, now);
    StepOfRated(alone, req, now);
    OwnAsk(w, alone, req.customer, now);
  }

  lemma SameRate(m: map<string, Bucket>, m': map<string, Bucket>, c: string, cap: nat, now: int)
    requires c in m <==> c in m'
    requires c in m ==> m[c] == m'[c]
    ensures var (n, ok), (n', ok') := CheckRate(m, c, cap, now), CheckRate(m', c, cap, now);
            ok == ok' && (c in n <==> c in n') && (c in n ==> n[c] == n'[c])
  {}

  lemma OwnAsk(w: World, alone: World, c: string, now: int)
    requires Alike(w, alone, c)
    ensures Alike(Ask(w, c, now), Ask(alone, c, now), c)
  {
    SameRate(w.filter.buckets, alone.filter.buckets, c, w.filter.rules.cap, now);
    var (buckets, ok) := CheckRate(w.filter.buckets, c, w.filter.rules.cap, now);
    RatedOne(w.log, Entry(c, now, if ok then Allow else Block(RateLimit)), c);
  }

  /** A request that a rule blocks leaves an entry and nothing else. */
  lemma StepOfBlocked(w: World, req: Request, now: int)
    requires RuleBlock(w.filter.rules, req).Some?
    ensures var category := RuleBlock(w.filter.rules, req).value;
            category != RateLimit
            && Step(w, CheckAt(req, now)) == w.(log := w.log + [Entry(req.customer, now, Block(category))])
  {}

  lemma OthersAsk(w: World, alone: World, customer: string, now: int, c: string)
    requires Alike(w, alone, c) && customer != c
    ensures Alike(Ask(w, customer, now), alone, c)
  {
    var (buckets, ok) := CheckRate(w.filter.buckets, customer, w.filter.rules.cap, now);
    RatedOne(w.log, Entry(customer, now, if ok then Allow else Block(RateLimit)), c);
    GateSparesOthers(w.filter.buckets, customer, w.filter.rules.cap, now, c);
  }

  lemma IrrelevantStep(w: World, alone: World, req: Request, now: int, c: string)
    requires Alike(w, alone, c) && (req.customer != c || RuleBlock(w.filter.rules, req).Some?)
    ensures Alike(Step(w, CheckAt(req, now)), alone, c)
  {
    var blocked := RuleBlock(w.filter.rules, req);
    if blocked.Some? {
      StepOfBlocked(w, req, now);
      RatedOne(w.log, Entry(req.customer, now, Block(blocked.value)), c);
    } else {
      StepOfRated(w, req, now);
      OthersAsk(w, alone, req.customer, now, c);
    }
  }

  /** What happens to a customer's requests depends only on that customer's requests that no rule
      blocked: other customers and blocked requests can be struck from the run. */
  lemma {:induction false} CustomersAreIndependent(f: Filter, actions: seq<Action>, c: string)
    ensures Alike(Run(f, actions), Run(f, Relevant(f, actions, c)), c)
  {
    if actions != [] {
      var before, a := actions[..|actions| - 1], actions[|actions| - 1];
      CustomersAreIndependent(f, before, c);
      var kept := Relevant(f, before, c);
      RunPush(f, kept, a);
      assert kept + [] == kept;
      if a.CheckAt? {
        if a.req.customer == c && RuleBlock(Run(f, before).filter.rules, a.req).None? {
          RelevantStep(Run(f, before), Run(f, kept), a.req, a.now);
        } else {
          IrrelevantStep(Run(f, before), Run(f, kept), a.req, a.now, c);
        }
      }
    }
  }
}
