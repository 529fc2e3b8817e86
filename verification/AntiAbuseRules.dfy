/** What a ruleset blocks, from the lists the coordinator sends to the verdict on a request. */
module AntiAbuseRules {
  import opened Integers
  import opened AntiAbuse
  import opened AntiAbuseRun
  import opened DestinationHosts

  // ---- The four lists ------------------------------------------------------------------------

  predicate HashListed(b: Bundle, req: Request) { req.hash.Some? && req.hash.value in b.csam }

  predicate PortListed(b: Bundle, req: Request) { req.port.Some? && req.port.value in b.ports }

  predicate PhishListed(b: Bundle, req: Request) {
    HostOf(req.url).Some? && Lower(HostOf(req.url).value) in b.phish
  }

  /** `host` is the domain or lies below it: it ends in the domain at a label boundary. */
  predicate Below(host: string, domain: string) {
    && |domain| <= |host| && host[|host| - |domain|..] == domain
    && (|domain| == |host| || host[|host| - |domain| - 1] == '.')
  }

  predicate DestinationListed(b: Bundle, req: Request) {
    HostOf(req.url).Some? &&
    exists i :: 0 <= i < |b.destinations| && Below(Lower(HostOf(req.url).value), Suffix(b.destinations[i]))
  }

  lemma MatchesBelow(host: string, domain: string)
    ensures HostMatches(host, domain) <==> Below(host, domain)
  {
    if |domain| < |host| {
      var last := |host| - |domain| - 1;
      assert host[last..][1..] == host[last + 1..] && ("." + domain)[1..] == domain;
    }
    if |domain| <= |host| && host[|host| - |domain|..] == domain {
      var front := host[..|host| - |domain|];
      assert host == front + domain;
      SuffixBoundary(front, domain);
    }
  }

  lemma SomeMatch(b: Bundle, host: string)
    ensures (exists i :: 0 <= i < |Installed(b).suffixes| && HostMatches(host, Installed(b).suffixes[i]))
            <==> exists i :: 0 <= i < |b.destinations| && Below(host, Suffix(b.destinations[i]))
  {
    var suffixes := Installed(b).suffixes;
    forall i | 0 <= i < |suffixes|
      ensures suffixes[i] == Suffix(b.destinations[i])
      ensures HostMatches(host, suffixes[i]) <==> Below(host, Suffix(b.destinations[i]))
    {
      MatchesBelow(host, suffixes[i]);
    }
    if i :| 0 <= i < |suffixes| && HostMatches(host, suffixes[i]) {
      assert Below(host, Suffix(b.destinations[i]));
    }
    if i :| 0 <= i < |b.destinations| && Below(host, Suffix(b.destinations[i])) {
      assert HostMatches(host, suffixes[i]);
    }
  }

  // ---- Verdicts ------------------------------------------------------------------------------

  /** The filter after a ruleset is installed. */
  function Under(f: Filter, b: Bundle): Filter { f.(rules := Installed(b)) }

  function VerdictOn(f: Filter, b: Bundle, req: Request, now: int): Verdict { Check(Under(f, b), req, now).1 }

  lemma RuleExactly(b: Bundle, req: Request)
    ensures RuleBlock(Installed(b), req) ==
            if HashListed(b, req) then Some(Csam)
            else if PortListed(b, req) then Some(Port)
            else if PhishListed(b, req) then Some(Phish)
            else if DestinationListed(b, req) then Some(Destination)
            else None
  {
    if HostOf(req.url).Some? { SomeMatch(b, Lower(HostOf(req.url).value)); }
  }

  lemma VerdictOfRule(f: Filter, b: Bundle, req: Request, now: int, c: Category)
    requires c != RateLimit
    ensures VerdictOn(f, b, req, now) == Block(c) <==> RuleBlock(Installed(b), req) == Some(c)
    ensures VerdictOn(f, b, req, now) in {Allow, Block(RateLimit)} <==> RuleBlock(Installed(b), req).None?
  {
    RulesNeverRate(Installed(b), req);
  }

  lemma RulesNeverRate(rules: Rules, req: Request)
    ensures RuleBlock(rules, req) != Some(RateLimit)
  {}

  predicate Listed(b: Bundle, req: Request) {
    HashListed(b, req) || PortListed(b, req) || PhishListed(b, req) || DestinationListed(b, req)
  }

  /** A request is blocked by a rule exactly when one of the four lists has it, and the category is that of
      the first list, in this order, that does. */
  lemma BlockedExactly(f: Filter, b: Bundle, req: Request, now: int)
    ensures var v := VerdictOn(f, b, req, now);
            && (v == Block(Csam) <==> HashListed(b, req))
            && (v == Block(Port) <==> !HashListed(b, req) && PortListed(b, req))
            && (v == Block(Phish) <==> !HashListed(b, req) && !PortListed(b, req) && PhishListed(b, req))
            && (v == Block(Destination) <==>
                  !HashListed(b, req) && !PortListed(b, req) && !PhishListed(b, req) && DestinationListed(b, req))
            && (v in {Allow, Block(RateLimit)} <==> !Listed(b, req))
  {
    RuleExactly(b, req);
    VerdictOfRule(f, b, req, now, Csam);
    VerdictOfRule(f, b, req, now, Port);
    VerdictOfRule(f, b, req, now, Phish);
    VerdictOfRule(f, b, req, now, Destination);
  }

  /** Every entry of the one ruleset is in the other. */
  predicate Extends(b': Bundle, b: Bundle) {
    && b.csam <= b'.csam && b.phish <= b'.phish && (forall p :: p in b.ports ==> p in b'.ports)
    && forall d :: d in b.destinations ==> d in b'.destinations
  }

  /** Adding entries, to whatever list, never unblocks a request. */
  lemma EntriesOnlyBlock(f: Filter, f': Filter, b: Bundle, b': Bundle, req: Request, now: int, now': int)
    requires Extends(b', b) && VerdictOn(f, b, req, now) !in {Allow, Block(RateLimit)}
    ensures VerdictOn(f', b', req, now') !in {Allow, Block(RateLimit)}
  {
    BlockedExactly(f, b, req, now);
    BlockedExactly(f', b', req, now');
    if DestinationListed(b, req) {
      var i :| 0 <= i < |b.destinations| && Below(Lower(HostOf(req.url).value), Suffix(b.destinations[i]));
      assert b.destinations[i] in b'.destinations;
      var j :| 0 <= j < |b'.destinations| && b'.destinations[j] == b.destinations[i];
      assert Below(Lower(HostOf(req.url).value), Suffix(b'.destinations[j]));
    }
  }

  // ---- Case ----------------------------------------------------------------------------------

  /** The small form of a capital of ASCII. */
  predicate SmallOf(small: char, capital: char) {
    'A' <= capital <= 'Z' && small as int == capital as int + 32
  }

  predicate SameButForCase(s: string, t: string) {
    |s| == |t| && forall i :: 0 <= i < |s| ==> s[i] == t[i] || SmallOf(s[i], t[i]) || SmallOf(t[i], s[i])
  }

  /** The same host but for the case of ASCII letters, or no host. */
  predicate SameHost(url: string, url': string) {
    HostOf(url) == HostOf(url') ||
    (HostOf(url).Some? && HostOf(url').Some? && SameButForCase(HostOf(url).value, HostOf(url').value))
  }

  lemma LowerOfBoth(s: string, t: string)
    requires SameButForCase(s, t)
    ensures Lower(s) == Lower(t)
  {}

  lemma SameRules(rules: Rules, req: Request, url: string)
    requires SameHost(req.url, url)
    ensures RuleBlock(rules, req.(url := url)) == RuleBlock(rules, req)
  {
    if HostOf(req.url) != HostOf(url) { LowerOfBoth(HostOf(req.url).value, HostOf(url).value); }
  }

  /** The case of the host does not matter: the same verdict, and the same buckets after it. */
  lemma CaseDoesNotMatter(f: Filter, req: Request, url: string, now: int)
    requires SameHost(req.url, url)
    ensures Check(f, req.(url := url), now) == Check(f, req, now)
  {
    SameRules(f.rules, req, url);
  }

  predicate All(s: string, c: char) { forall i :: 0 <= i < |s| ==> s[i] == c }

  lemma {:induction false} TrimsAll(s: string, c: char, rest: string)
    requires All(s, c) && (rest == "" || rest[0] != c)
    ensures TrimStart(s + rest, c) == rest
  {
    if s == "" {
      assert s + rest == rest;
    } else {
      TrimsAll(s[1..], c, rest);
      assert (s + rest)[1..] == s[1..] + rest;
    }
  }

  /** A pattern is installed without its leading stars, then without its leading dots, in small letters. */
  lemma PatternExactly(stars: string, dots: string, domain: string)
    requires All(stars, '*') && All(dots, '.') && (domain == "" || domain[0] != '.')
    requires dots + domain == "" || (dots + domain)[0] != '*'
    ensures Suffix(stars + (dots + domain)) == Lower(domain)
  {
    TrimsAll(stars, '*', dots + domain);
    TrimsAll(dots, '.', domain);
  }

  // ---- No cap --------------------------------------------------------------------------------

  lemma UncappedStep(w: World, a: Action)
    requires w.filter.rules.cap == 0 && (a.InstallRules? ==> a.bundle.cap == 0)
    ensures var w' := Step(w, a);
            && w'.filter.rules.cap == 0
            && (w'.log == w.log || (exists e: Entry :: e.verdict != Block(RateLimit) && w'.log == w.log + [e]))
  {
    if a.CheckAt? {
      if RuleBlock(w.filter.rules, a.req).Some? {
        StepOfBlocked(w, a.req, a.now);
      } else {
        StepOfRated(w, a.req, a.now);
        assert Step(w, a).log == w.log + [Entry(a.req.customer, a.now, Allow)];
      }
    }
  }

  /** A cap of zero means none: in no run is a request refused for its rate. */
  lemma {:induction false} ZeroCapIsUnlimited(f: Filter, actions: seq<Action>)
    requires f.rules.cap == 0 && SteadyCap(f.rules, actions)
    ensures var w := Run(f, actions);
            w.filter.rules.cap == 0 && forall i :: 0 <= i < |w.log| ==> w.log[i].verdict != Block(RateLimit)
  {
    if actions != [] {
      ZeroCapIsUnlimited(f, actions[..|actions| - 1]);
      UncappedStep(Run(f, actions[..|actions| - 1]), actions[|actions| - 1]);
    }
  }
}
