/** daemon/crates/anti-abuse/src/lib.rs: blocklist rules followed by a per-customer rate limit. */
module AntiAbuse {
  import opened Integers

  datatype Category = Csam | Port | Phish | Destination | RateLimit
  datatype Verdict = Allow | Block(category: Category)

  datatype Request = Request(url: string, customer: string, port: Option<nat>, hash: Option<string>)

  /** The ruleset as the coordinator sends it, and as `install` keeps it. */
  datatype Bundle = Bundle(csam: set<string>, ports: seq<nat>, phish: set<string>, destinations: seq<string>, cap: nat)
  datatype Rules = Rules(csam: set<string>, ports: set<nat>, phish: set<string>, suffixes: seq<string>, cap: nat)

  // ---- Text ----------------------------------------------------------------------------------

  /** Letters outside ASCII are left alone. */
  function LowerChar(c: char): char { if 'A' <= c <= 'Z' then (c as int + 32) as char else c }

  function Lower(s: string): string { seq(|s|, i requires 0 <= i < |s| => LowerChar(s[i])) }

  function TrimStart(s: string, c: char): string {
    if s != "" && s[0] == c then TrimStart(s[1..], c) else s
  }

  /** The first `c` at `i` or later; the length of `s` if there is none. */
  function IndexFrom(s: string, c: char, i: nat): (k: nat)
    requires i <= |s|
    ensures i <= k <= |s| && (k < |s| ==> s[k] == c) && forall j :: i <= j < k ==> s[j] != c
    decreases |s| - i
  {
    if i == |s| || s[i] == c then i else IndexFrom(s, c, i + 1)
  }

  /** Just after the last `c` before `n`; 0 if there is none. */
  function AfterIndex(s: string, c: char, n: nat): (k: nat)
    requires n <= |s|
    ensures k <= n && (k > 0 ==> s[k - 1] == c) && forall j :: k <= j < n ==> s[j] != c
  {
    if n == 0 || s[n - 1] == c then n else AfterIndex(s, c, n - 1)
  }

  /** `s.split(c).next()` */
  function Before(s: string, c: char): string { s[..IndexFrom(s, c, 0)] }

  /** `s.rsplit(c).next()` */
  function AfterLast(s: string, c: char): string { s[AfterIndex(s, c, |s|)..] }

  predicate SchemeEndAt(s: string, i: nat) { i + 2 < |s| && s[i] == ':' && s[i + 1] == '/' && s[i + 2] == '/' }

  /** The first "://" at `i` or later; the length of `s` if there is none. */
  function SchemeEnd(s: string, i: nat): (k: nat)
    requires i <= |s|
    ensures i <= k <= |s| && (k < |s| ==> SchemeEndAt(s, k)) && forall j: nat :: i <= j < k ==> !SchemeEndAt(s, j)
    decreases |s| - i
  {
    if i == |s| || SchemeEndAt(s, i) then i else SchemeEnd(s, i + 1)
  }

  /** `url.split("://").nth(1).unwrap_or(url)`: what lies between the first and the second "://". */
  function AfterScheme(url: string): string {
    var i := SchemeEnd(url, 0);
    if i == |url| then url else url[i + 3..SchemeEnd(url, i + 3)]
  }

  function HostOf(url: string): Option<string> {
    var host := Before(Before(AfterLast(AfterScheme(url), '@'), '/'), ':');
    if host == "" then None else Some(host)
  }

  /** A blocked pattern with its leading stars and then its leading dots removed. */
  function Suffix(pattern: string): string { Lower(TrimStart(TrimStart(pattern, '*'), '.')) }

  function Suffixes(patterns: seq<string>): (r: seq<string>)
    ensures |r| == |patterns|
    ensures forall i :: 0 <= i < |r| ==> r[i] == Suffix(patterns[i])
  {
    seq(|patterns|, i requires 0 <= i < |patterns| => Suffix(patterns[i]))
  }

  predicate EndsWith(s: string, tail: string) { |tail| <= |s| && s[|s| - |tail|..] == tail }

  predicate HostMatches(host: string, suffix: string) { host == suffix || EndsWith(host, "." + suffix) }

  function Installed(b: Bundle): Rules {
    Rules(b.csam, (set p | p in b.ports), b.phish, Suffixes(b.destinations), b.cap)
  }

  // ---- Checks --------------------------------------------------------------------------------

  /** The first of the hash, port and host rules that blocks a request. */
  function RuleBlock(rules: Rules, req: Request): Option<Category> {
    if req.hash.Some? && req.hash.value in rules.csam then Some(Csam)
    else if req.port.Some? && req.port.value in rules.ports then Some(Port)
    else
      match HostOf(req.url)
      case None => None
      case Some(h) =>
        if Lower(h) in rules.phish then Some(Phish)
        else if exists i :: 0 <= i < |rules.suffixes| && HostMatches(Lower(h), rules.suffixes[i]) then Some(Destination)
        else None
  }

  /** Times are in nanoseconds. */
  const WINDOW := 60_000_000_000

  /** `(now - start).num_seconds()` truncates toward zero. */
  function NumSeconds(elapsed: int): int {
    if elapsed >= 0 then elapsed / 1_000_000_000 else -(-elapsed / 1_000_000_000)
  }

  lemma WindowOver(elapsed: int)
    ensures NumSeconds(elapsed) >= 60 <==> elapsed >= WINDOW
  {}

  /** When the window of a customer began and how many requests it has allowed. */
  datatype Bucket = Bucket(start: int, count: nat)

  datatype Filter = Filter(rules: Rules, buckets: map<string, Bucket>)

  function CheckRate(buckets: map<string, Bucket>, customer: string, cap: nat, now: int): (map<string, Bucket>, bool) {
    if cap == 0 then (buckets, true)
    else
      var b := if customer in buckets then buckets[customer] else Bucket(now, 0);
      if NumSeconds(now - b.start) >= 60 then (buckets[customer := Bucket(now, 1)], true)
      else if b.count >= cap then (buckets[customer := b], false)
      else (buckets[customer := b.(count := b.count + 1)], true)
  }

  function Check(f: Filter, req: Request, now: int): (Filter, Verdict) {
    match RuleBlock(f.rules, req)
    case Some(c) => (f, Block(c))
    case None =>
      var (buckets, ok) := CheckRate(f.buckets, req.customer, f.rules.cap, now);
      (f.(buckets := buckets), if ok then Allow else Block(RateLimit))
  }

  lemma PutTwice(m: map<string, Bucket>, k: string, a: Bucket, b: Bucket)
    ensures m[k := a][k := b] == m[k := b]
    ensures k in m && m[k] == a ==> m[k := a] == m
  {}

  /** `InMemoryFilter`: rules and rate buckets behind one lock. */
  class InMemoryFilter {
    var rules: Rules
    var rateBuckets: map<string, Bucket>

    function View(): Filter
      reads this
    {
      Filter(rules, rateBuckets)
    }

    constructor ()
      ensures View() == Filter(Rules({}, {}, {}, [], 0), map[])
    {
      rules, rateBuckets := Rules({}, {}, {}, [], 0), map[];
    }

    /** Installing a ruleset keeps the rate buckets. */
    method Install(b: Bundle)
      modifies this`rules
      ensures View() == old(View()).(rules := Installed(b))
    {
      var suffixes: seq<string> := [];
      for i := 0 to |b.destinations|
        invariant suffixes == Suffixes(b.destinations)[..i]
      {
        suffixes := suffixes + [Lower(TrimStart(TrimStart(b.destinations[i], '*'), '.'))];
      }
      rules := Rules(b.csam, (set p | p in b.ports), b.phish, suffixes, b.cap);
    }

    method CheckRateLimit(customer: string, cap: nat, now: int) returns (ok: bool)
      modifies this`rateBuckets
      ensures (rateBuckets, ok) == CheckRate(old(rateBuckets), customer, cap, now)
    {
      if cap == 0 { return true; }
      if customer !in rateBuckets { rateBuckets := rateBuckets[customer := Bucket(now, 0)]; }
      var entry := rateBuckets[customer];
      if NumSeconds(now - entry.start) >= 60 {
        PutTwice(old(rateBuckets), customer, entry, Bucket(now, 1));
        rateBuckets := rateBuckets[customer := Bucket(now, 1)];
        return true;
      }
      if entry.count >= cap {
        assert rateBuckets[customer := entry] == rateBuckets;
        return false;
      }
      PutTwice(old(rateBuckets), customer, entry, entry.(count := entry.count + 1));
      rateBuckets := rateBuckets[customer := entry.(count := entry.count + 1)];
      ok := true;
    }

    method CheckRules(req: Request) returns (blocked: Option<Category>)
      ensures blocked == RuleBlock(rules, req)
    {
      if req.hash.Some? && req.hash.value in rules.csam { return Some(Csam); }
      if req.port.Some? && req.port.value in rules.ports { return Some(Port); }
      var found := HostOf(req.url);
      if found.None? { return None; }
      var host := Lower(found.value);
      if host in rules.phish { return Some(Phish); }
      for i := 0 to |rules.suffixes|
        invariant forall j :: 0 <= j < i ==> !HostMatches(host, rules.suffixes[j])
      {
        if HostMatches(host, rules.suffixes[i]) { return Some(Destination); }
      }
      blocked := None;
    }

    method CheckRequest(req: Request, now: int) returns (v: Verdict)
      modifies this`rateBuckets
      ensures (View(), v) == Check(old(View()), req, now)
    {
      var blocked := CheckRules(req);
      if blocked.Some? { return Block(blocked.value); }
      var ok := CheckRateLimit(req.customer, rules.cap, now);
      v := if ok then Allow else Block(RateLimit);
    }
  }
}
