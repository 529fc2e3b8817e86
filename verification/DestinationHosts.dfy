/** The host that the rules of AntiAbuse see in a destination, and the patterns they compare it with. */
module DestinationHosts {
  import opened AntiAbuse
  import opened Integers

  // ---- The host of an authority --------------------------------------------------------------

  /** The last three splits of `host_of`. */
  function HostName(rest: string): string { Before(Before(AfterLast(rest, '@'), '/'), ':') }

  predicate NoDelimiter(s: string) { '/' !in s && '@' !in s && '?' !in s && '#' !in s }

  /** User information up to its '@', host, and port from its ':' on: section 3.2 of RFC 3986. The host may
      be an IPv6 address, with or without its brackets. */
  predicate Authority(user: string, host: string, port: string) {
    && (user == "" || user[|user| - 1] == '@') && '/' !in user
    && host != "" && NoDelimiter(host) && NoDelimiter(port)
    && (port == "" || (port[0] == ':' && ':' !in port[1..]))
  }

  /** Path, query and fragment. */
  predicate Tail(tail: string) { tail == "" || tail[0] in {'/', '?', '#'} }

  /** `text` begins with `host` and goes on with a port, a path or nothing. */
  predicate BeginsWithHost(text: string, host: string) { host <= text && (text == host || text[|host|] in {':', '/'}) }

  /** What the code takes for the host is the host of the authority: after the last '@' of the tail it stands
      again, or there is no '@' and the authority ends where the code looks for its end. */
  predicate SeesHost(host: string, port: string, tail: string) {
    && ':' !in host
    && if '@' in tail then BeginsWithHost(AfterLast(tail, '@'), host)
       else port != "" || tail == "" || tail[0] == '/'
  }

  lemma BeginsExactly(text: string, host: string)
    ensures Before(Before(text, '/'), ':') == host <==>
            ':' !in host && '/' !in host && BeginsWithHost(text, host)
  {
    var path := Before(text, '/');
    var found := Before(path, ':');
    assert found <= path <= text;
    assert '/' !in path && ':' !in found;
    if ':' !in host && '/' !in host && BeginsWithHost(text, host) {
      var rest := text[|host|..];
      assert text == host + rest;
      BeforeInTail(host, '/', rest);
      BeforeInTail(host, ':', Before(rest, '/'));
      assert rest != "" ==> rest[0] == text[|host|];
    }
  }

  lemma HostOfAuthority(user: string, host: string, port: string, tail: string)
    requires Authority(user, host, port) && Tail(tail)
    ensures HostName(user + host + port + tail) == host <==> SeesHost(host, port, tail)
  {
    if '@' in tail {
      LastInTail(user + host + port, '@', tail);
      BeginsExactly(AfterLast(tail, '@'), host);
    } else {
      assert user + host + port + tail == user + (host + port + tail);
      CutAfterLast(user, '@', host + port + tail);
      HostThenTail(host, port, tail);
    }
  }

  lemma HostThenTail(host: string, port: string, tail: string)
    requires Authority("", host, port) && Tail(tail)
    ensures Before(Before(host + port + tail, '/'), ':') == host <==>
            ':' !in host && (port != "" || tail == "" || tail[0] == '/')
  {
    var upTo := Before(tail, '/');
    BeforeInTail(host + port, '/', tail);
    assert host + port + upTo == host + (port + upTo);
    HostUpTo(host, port + upTo);
    assert (port + upTo == "" || (port + upTo)[0] == ':') <==> (port != "" || tail == "" || tail[0] == '/');
  }

  lemma HostUpTo(host: string, after: string)
    ensures Before(host + after, ':') == host <==> ':' !in host && (after == "" || after[0] == ':')
  {
    if ':' in host {
      var i :| 0 <= i < |host| && host[i] == ':';
      assert (host + after)[i] == ':';
      assert |Before(host + after, ':')| <= i;
    } else {
      BeforeInTail(host, ':', after);
      assert after != "" && after[0] != ':' ==> Before(after, ':') != "";
    }
  }

  // ---- The host of a URL ---------------------------------------------------------------------

  /** The part of `tail` in front of the next "://". */
  function Seen(authority: string, tail: string): string {
    var cut := SchemeEnd(authority + tail, 0);
    if cut <= |authority| then "" else tail[..cut - |authority|]
  }

  /** No "://" begins before the one that follows `scheme`: true of every scheme, and of whatever stands in
      front of a "://" that comes late in a destination. */
  predicate FirstScheme(scheme: string) { SchemeEnd(scheme + "://", 0) == |scheme| }

  /** When the host rules see the host of a URL. They do not when it is an IPv6 literal, when a query or a
      fragment follows it directly, or when an '@' in the tail leads elsewhere. */
  lemma HostOfUrl(scheme: string, user: string, host: string, port: string, tail: string)
    requires FirstScheme(scheme) && Authority(user, host, port) && Tail(tail)
    requires port == "" ==> host[|host| - 1] != ':'
    ensures HostOf(scheme + "://" + (user + host + port + tail)) == Some(host) <==>
            SeesHost(host, port, Seen(user + host + port, tail))
  {
    var authority := user + host + port;
    var cut := SchemeEnd(authority + tail, 0);
    CutScheme(scheme, authority + tail);
    CutsInTail(user, host, port, tail);
    if cut < |authority| {
      assert (authority + tail)[..cut] == user + host + "" + "";
      HostOfAuthority(user, host, "", "");
    } else {
      assert (authority + tail)[..cut] == user + host + port + Seen(authority, tail);
      HostOfAuthority(user, host, port, Seen(authority, tail));
    }
  }

  /** A "://" cannot begin inside the authority, except at the ':' of an empty port. */
  lemma CutsInTail(user: string, host: string, port: string, tail: string)
    requires Authority(user, host, port) && Tail(tail)
    requires port == "" ==> host[|host| - 1] != ':'
    ensures var authority, cut := user + host + port, SchemeEnd(user + host + port + tail, 0);
            cut >= |authority| || (cut == |authority| - 1 && port == ":")
  {
    var authority := user + host + port;
    assert '/' !in authority;
    assert forall i :: 0 <= i < |authority| ==> (authority + tail)[i] == authority[i] && authority[i] != '/';
    var last := authority[|authority| - 1];
    assert last == if port == "" then host[|host| - 1] else port[|port| - 1];
    assert |port| > 1 ==> port[|port| - 1] == port[1..][|port| - 2] && port[1..][|port| - 2] in port[1..];
    var cut := SchemeEnd(authority + tail, 0);
    if cut < |authority| {
      assert SchemeEndAt(authority + tail, cut);
    }
  }

  lemma CutScheme(scheme: string, rest: string)
    requires FirstScheme(scheme)
    ensures AfterScheme(scheme + "://" + rest) == rest[..SchemeEnd(rest, 0)]
  {
    var prefix := scheme + "://";
    EndInFront(prefix, rest, 0);
    EndInTail(prefix, rest, 0);
    SliceInTail(prefix, rest, SchemeEnd(rest, 0));
  }

  lemma SliceInTail(prefix: string, rest: string, n: nat)
    requires n <= |rest|
    ensures (prefix + rest)[|prefix|..|prefix| + n] == rest[..n]
  {}

  lemma {:induction false} EndInFront(front: string, rest: string, i: nat)
    requires i <= |front| && SchemeEnd(front, i) < |front|
    ensures SchemeEnd(front + rest, i) == SchemeEnd(front, i)
    decreases |front| - i
  {
    AtInFront(front, rest, i);
    if !SchemeEndAt(front, i) { EndInFront(front, rest, i + 1); }
  }

  lemma AtInFront(front: string, rest: string, i: nat)
    requires i + 2 < |front|
    ensures SchemeEndAt(front + rest, i) == SchemeEndAt(front, i)
  {}

  lemma {:induction false} EndInTail(prefix: string, rest: string, i: nat)
    requires i <= |rest|
    ensures SchemeEnd(prefix + rest, |prefix| + i) == |prefix| + SchemeEnd(rest, i)
    decreases |rest| - i
  {
    var url := prefix + rest;
    if i < |rest| {
      assert forall j: nat :: j < |rest| ==> url[|prefix| + j] == rest[j];
      assert SchemeEndAt(url, |prefix| + i) == SchemeEndAt(rest, i);
      if !SchemeEndAt(rest, i) { EndInTail(prefix, rest, i + 1); }
    }
  }

  /** Nothing to split at but colons. */
  lemma HostIsWhole(s: string)
    requires '@' !in s && '/' !in s
    ensures AfterScheme(s) == s && HostName(s) == Before(s, ':')
  {
    NoScheme(s);
    assert s[0..] == s && s[..|s|] == s;
  }

  lemma NoScheme(s: string)
    requires '/' !in s
    ensures SchemeEnd(s, 0) == |s|
  {
    assert forall i: nat :: i < |s| ==> s[i] != '/';
  }

  /** A query or a fragment right after the host is taken for a part of it. */
  lemma QueryJoinsHost(scheme: string, host: string, query: string)
    requires FirstScheme(scheme) && host != ""
    requires ':' !in host + query && '/' !in host + query && '@' !in host + query
    ensures HostOf(scheme + "://" + (host + query)) == Some(host + query)
  {
    var rest := host + query;
    CutScheme(scheme, rest);
    HostIsWhole(rest);
    assert rest[..|rest|] == rest;
  }

  // ---- A destination without a scheme --------------------------------------------------------

  /** Without "://" the whole destination is looked at. */
  lemma HostOfBare(user: string, host: string, port: string, tail: string)
    requires Authority(user, host, port) && Tail(tail)
    requires SchemeEnd(user + host + port + tail, 0) == |user + host + port + tail|
    ensures HostOf(user + host + port + tail) == Some(host) <==> SeesHost(host, port, tail)
  {
    HostOfAuthority(user, host, port, tail);
  }

  /** The daemon's own callers send "host:port", whatever the host: the rules see the whole of it exactly
      when it has no colon, '/' or '@', and of a host with nothing but colons the part before the first. */
  lemma HostOfDialled(host: string, port: string)
    requires port != "" && port[0] == ':' && '/' !in port && '@' !in port
    ensures HostOf(host + port) == Some(host) <==> host != "" && ':' !in host && '/' !in host && '@' !in host
    ensures '/' !in host && '@' !in host ==>
              HostOf(host + port) == (var seen := Before(host, ':'); if seen == "" then None else Some(seen))
  {
    SeenIsSplit(host + port);
    if '/' !in host && '@' !in host {
      HostIsWhole(host + port);
      BeforeFirst(host, ':', port);
      HostUpTo(host, "");
      assert host + "" == host;
    }
  }

  /** What the rules see never holds a character that they split at. */
  lemma SeenIsSplit(url: string)
    ensures var seen := HostOf(url);
            seen.Some? ==> seen.value != "" && ':' !in seen.value && '/' !in seen.value && '@' !in seen.value
  {
    var rest := AfterScheme(url);
    var last := AfterLast(rest, '@');
    var path := Before(last, '/');
    assert '@' !in last && path <= last && '/' !in path && Before(path, ':') <= path;
  }

  // ---- Splits --------------------------------------------------------------------------------

  /** Splitting at a character that the front does not contain. */
  lemma BeforeInTail(a: string, c: char, b: string)
    requires c !in a
    ensures Before(a + b, c) == a + Before(b, c)
  {
    var k, m := IndexFrom(a + b, c, 0), IndexFrom(b, c, 0);
    assert forall j :: 0 <= j < |a| ==> (a + b)[j] == a[j];
    assert forall j :: 0 <= j < |b| ==> (a + b)[|a| + j] == b[j];
    assert k < |a + b| ==> k >= |a|;
    assert m < |b| ==> (a + b)[|a| + m] == c;
  }

  /** Splitting at a character with which the rest begins. */
  lemma BeforeFirst(a: string, c: char, b: string)
    requires b != "" && b[0] == c
    ensures Before(a + b, c) == Before(a, c)
  {
    var k, m := IndexFrom(a + b, c, 0), IndexFrom(a, c, 0);
    assert forall j :: 0 <= j < |a| ==> (a + b)[j] == a[j];
    assert (a + b)[|a|] == c;
    assert k == m;
  }

  lemma CutAfterLast(a: string, c: char, b: string)
    requires c !in b && (a == "" || a[|a| - 1] == c)
    ensures AfterLast(a + b, c) == b
  {
    var s := a + b;
    var k := AfterIndex(s, c, |s|);
    assert a != "" ==> s[|a| - 1] == c;
    assert forall j :: |a| <= j < |s| ==> s[j] == b[j - |a|];
  }

  lemma LastInTail(a: string, c: char, b: string)
    requires c in b
    ensures AfterLast(a + b, c) == AfterLast(b, c)
  {
    var s := a + b;
    var k, m := AfterIndex(b, c, |b|), AfterIndex(s, c, |s|);
    assert forall j :: |a| <= j < |s| ==> s[j] == b[j - |a|];
    assert forall j :: 0 <= j < |b| ==> s[|a| + j] == b[j];
    assert k > 0 && s[|a| + k - 1] == c;
    assert m == |a| + k;
  }

  /** A suffix matches at a label boundary only. */
  lemma SuffixBoundary(prefix: string, suffix: string)
    ensures HostMatches(prefix + suffix, suffix) <==> prefix == "" || prefix[|prefix| - 1] == '.'
  {
    var host, tail := prefix + suffix, "." + suffix;
    if prefix == "" {
      assert host == suffix;
    } else {
      assert |tail| <= |host| && |host| - |tail| == |prefix| - 1;
      assert host[|prefix| - 1] == prefix[|prefix| - 1];
      assert host[|prefix| - 1..][0] == host[|prefix| - 1];
      assert prefix[|prefix| - 1] == '.' ==> host[|prefix| - 1..] == tail;
    }
  }

  /** The pattern "*.domain" is installed as the bare domain in lower case. */
  lemma StarPattern(domain: string)
    requires domain != "" && domain[0] != '.'
    ensures Suffix("*." + domain) == Lower(domain)
  {
    var dotted := "." + domain;
    assert ("*." + domain)[1..] == dotted && dotted[1..] == domain && dotted[0] == '.';
    assert TrimStart("*." + domain, '*') == TrimStart(dotted, '*') == dotted;
    assert TrimStart(dotted, '.') == TrimStart(domain, '.') == domain;
  }
}
