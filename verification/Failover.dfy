/** sdks/go/vpn/failover.go: the strike counter that decides when to leave a silent provider. */
module Failover {
  import opened Integers

  /** What a tick sees of the peer; no tunnel yet and failed reads look the same. */
  datatype Sample = Unavailable | Rx(bytes: nat)

  datatype Candidate = Candidate(endpoint: string, priority: int)

  /** What the coordinator would answer at a tick, and whether the tunnel would take the new endpoint. */
  datatype Answer = NoAnswer | Candidates(list: seq<Candidate>, accepted: bool)

  datatype Tick = Tick(sample: Sample, answer: Answer)

  datatype Detector = Detector(needed: int, strikes: nat, lastByteCount: nat, endpoint: string)

  function DetectUnreachable(d: Detector, s: Sample): (Detector, bool) {
    match s
    case Unavailable => (d, false)
    case Rx(n) =>
      if n > d.lastByteCount then (d.(lastByteCount := n), false)
      else (d, !(d.lastByteCount == 0 && n == 0))
  }

  /** The first candidate of the highest priority. */
  function Best(list: seq<Candidate>): (i: nat)
    requires list != []
    ensures i < |list|
    ensures forall j :: 0 <= j < |list| ==> list[j].priority <= list[i].priority
    ensures forall j :: 0 <= j < i ==> list[j].priority < list[i].priority
  {
    if |list| == 1 then 0
    else
      var i := Best(list[..|list| - 1]);
      if list[|list| - 1].priority > list[i].priority then |list| - 1 else i
  }

  predicate Succeeds(a: Answer) { a.Candidates? && a.list != [] && a.accepted }

  function TriggerFailover(d: Detector, a: Answer): (Detector, bool) {
    if Succeeds(a) then (d.(endpoint := a.list[Best(a.list)].endpoint), true) else (d, false)
  }

  /** One turn of the loop: the new state, and whether a failover was attempted. */
  function OnTick(d: Detector, t: Tick): (Detector, bool) {
    var (seen, unreachable) := DetectUnreachable(d, t.sample);
    if !unreachable then (seen.(strikes := 0), false)
    else
      var struck := seen.(strikes := seen.strikes + 1);
      if struck.strikes < struck.needed then (struck, false)
      else
        var (moved, ok) := TriggerFailover(struck, t.answer);
        (if ok then moved.(strikes := 0) else moved, true)
  }

  /** The state after a series of ticks, and at which of them a failover was attempted. */
  function Watch(d: Detector, ticks: seq<Tick>): (Detector, seq<bool>) {
    if ticks == [] then (d, [])
    else
      var (before, attempts) := Watch(d, ticks[..|ticks| - 1]);
      var (after, attempted) := OnTick(before, ticks[|ticks| - 1]);
      (after, attempts + [attempted])
  }

  /** The detector with its loop. */
  class FailoverDetector {
    const strikesNeeded: int
    var strikes: nat
    var lastByteCount: nat
    var providerEndpoint: string

    function View(): Detector
      reads this
    {
      Detector(strikesNeeded, strikes, lastByteCount, providerEndpoint)
    }

    constructor (strikesNeeded: int, endpoint: string)
      ensures View() == Detector(strikesNeeded, 0, 0, endpoint)
    {
      this.strikesNeeded, strikes, lastByteCount, providerEndpoint := strikesNeeded, 0, 0, endpoint;
    }

    method Detect(s: Sample) returns (unreachable: bool)
      modifies this`lastByteCount
      ensures (View(), unreachable) == DetectUnreachable(old(View()), s)
    {
      if s.Unavailable? { return false; }
      if s.bytes > lastByteCount {
        lastByteCount := s.bytes;
        return false;
      }
      if lastByteCount == 0 && s.bytes == 0 { return false; }
      unreachable := true;
    }

    method Trigger(a: Answer) returns (ok: bool)
      modifies this`providerEndpoint
      ensures (View(), ok) == TriggerFailover(old(View()), a)
    {
      if a.NoAnswer? || |a.list| == 0 { return false; }
      var working := 0;
      for i := 0 to |a.list|
        invariant 0 <= working < |a.list|
        invariant working == if i == 0 then 0 else Best(a.list[..i])
      {
        assert a.list[..i + 1][..i] == a.list[..i];
        if a.list[i].priority > a.list[working].priority { working := i; }
      }
      assert a.list[..|a.list|] == a.list;
      if !a.accepted { return false; }
      providerEndpoint := a.list[working].endpoint;
      ok := true;
    }

    /** `loop`, until the context or the stop channel ends it after the last tick. */
    method Loop(ticks: seq<Tick>) returns (attempts: seq<bool>)
      modifies this
      ensures (View(), attempts) == Watch(old(View()), ticks)
    {
      attempts := [];
      for i := 0 to |ticks|
        invariant (View(), attempts) == Watch(old(View()), ticks[..i])
      {
        assert ticks[..i + 1][..i] == ticks[..i];
        var attempted := false;
        var unreachable := Detect(ticks[i].sample);
        if unreachable {
          strikes := strikes + 1;
          if strikes >= strikesNeeded {
            attempted := true;
            var ok := Trigger(ticks[i].answer);
            if ok { strikes := 0; }
          }
        } else {
          strikes := 0;
        }
        attempts := attempts + [attempted];
      }
      assert ticks[..|ticks|] == ticks;
    }
  }

  // ---- What the counter means ----------------------------------------------------------------

  /** The most bytes any of the ticks reported. */
  function Peak(ticks: seq<Tick>): nat {
    if ticks == [] then 0
    else
      var s := ticks[|ticks| - 1].sample;
      if s.Rx? then Max(Peak(ticks[..|ticks| - 1]), s.bytes) else Peak(ticks[..|ticks| - 1])
  }

  /** Tick `i` is unhealthy: bytes had been received before, and it reports no more than their peak. */
  predicate Unhealthy(ticks: seq<Tick>, i: nat)
    requires i < |ticks|
  {
    ticks[i].sample.Rx? && 0 < Peak(ticks[..i]) && ticks[i].sample.bytes <= Peak(ticks[..i])
  }

  /** The end of the last tick that was healthy or failed over successfully. */
  function RunStart(needed: int, ticks: seq<Tick>): (start: nat)
    ensures start <= |ticks|
    decreases |ticks|, 0
  {
    if ticks == [] then 0
    else
      var n := |ticks| - 1;
      if Unhealthy(ticks, n) && !(Attempt(needed, ticks, n) && Succeeds(ticks[n].answer))
      then RunStart(needed, ticks[..n]) else |ticks|
  }

  /** A failover is attempted at tick `i`: the unhealthy run, that tick included, is long enough. */
  predicate Attempt(needed: int, ticks: seq<Tick>, i: nat)
    requires i < |ticks|
    decreases i, 1
  {
    Unhealthy(ticks, i) && i + 1 - RunStart(needed, ticks[..i]) >= needed
  }

  lemma PrefixTick(needed: int, ticks: seq<Tick>, n: nat, i: nat)
    requires i < n <= |ticks|
    ensures Unhealthy(ticks[..n], i) == Unhealthy(ticks, i)
    ensures Attempt(needed, ticks[..n], i) == Attempt(needed, ticks, i)
  {
    assert ticks[..n][..i] == ticks[..i] && ticks[..n][i] == ticks[i];
  }

  /** The loop against the history alone: the stored counter is the running peak, the strikes are the
      length of the current unhealthy run, and failover is attempted exactly when that is long enough. */
  lemma {:induction false} LoopFollowsHistory(needed: int, endpoint: string, ticks: seq<Tick>)
    ensures var (d, attempts) := Watch(Detector(needed, 0, 0, endpoint), ticks);
            && d.needed == needed && d.lastByteCount == Peak(ticks)
            && d.strikes == |ticks| - RunStart(needed, ticks)
            && |attempts| == |ticks| && forall i :: 0 <= i < |ticks| ==> attempts[i] == Attempt(needed, ticks, i)
  {
    if ticks != [] {
      var n := |ticks| - 1;
      LoopFollowsHistory(needed, endpoint, ticks[..n]);
      forall i: nat | i < n ensures Attempt(needed, ticks[..n], i) == Attempt(needed, ticks, i) {
        PrefixTick(needed, ticks, n, i);
      }
    }
  }

  /** The endpoint that a tick with answer `a` moves to: the first candidate of highest priority. */
  ghost predicate MovesTo(a: Answer, endpoint: string) {
    a.Candidates? && exists i: nat :: FirstHighest(a.list, i) && a.list[i].endpoint == endpoint
  }
  predicate FirstHighest(list: seq<Candidate>, i: nat) {
    && i < |list| && (forall j :: 0 <= j < |list| ==> list[j].priority <= list[i].priority)
    && forall j :: 0 <= j < i ==> list[j].priority < list[i].priority
  }

  /** The endpoint over any history: it changes exactly at the attempts that succeed, which have candidates
      and are accepted by the tunnel, and then to the first of highest priority. */
  lemma EndpointFollowsHistory(needed: int, endpoint: string, ticks: seq<Tick>)
    requires ticks != []
    ensures var n, start := |ticks| - 1, Detector(needed, 0, 0, endpoint);
            var before, after := Watch(start, ticks[..n]).0.endpoint, Watch(start, ticks).0.endpoint;
            if Attempt(needed, ticks, n) && ticks[n].answer.Candidates? && ticks[n].answer.list != []
               && ticks[n].answer.accepted
            then MovesTo(ticks[n].answer, after) else after == before
  {
    var n := |ticks| - 1;
    LoopFollowsHistory(needed, endpoint, ticks);
    if Succeeds(ticks[n].answer) { assert FirstHighest(ticks[n].answer.list, Best(ticks[n].answer.list)); }
  }

  predicate Reset(needed: int, ticks: seq<Tick>, i: nat)
    requires i < |ticks|
  {
    !Unhealthy(ticks, i) || (Attempt(needed, ticks, i) && Succeeds(ticks[i].answer))
  }

  /** The run is what its name says: it begins after the last healthy tick or successful failover. */
  lemma {:induction false} RunIsUnhealthy(needed: int, ticks: seq<Tick>)
    ensures var start := RunStart(needed, ticks);
            && (start > 0 ==> Reset(needed, ticks, start - 1))
            && forall j: nat :: start <= j < |ticks| ==> !Reset(needed, ticks, j)
  {
    if ticks != [] {
      var n := |ticks| - 1;
      RunIsUnhealthy(needed, ticks[..n]);
      forall i: nat | i < n ensures Reset(needed, ticks[..n], i) == Reset(needed, ticks, i) {
        PrefixTick(needed, ticks, n, i);
        assert ticks[..n][i] == ticks[i];
      }
    }
  }

  lemma {:induction false} PeakIsAttained(ticks: seq<Tick>)
    ensures Peak(ticks) > 0 ==> exists j :: 0 <= j < |ticks| && ticks[j].sample == Rx(Peak(ticks))
    ensures forall j :: 0 <= j < |ticks| && ticks[j].sample.Rx? ==> ticks[j].sample.bytes <= Peak(ticks)
  {
    if ticks != [] {
      var n := |ticks| - 1;
      PeakIsAttained(ticks[..n]);
      forall j | 0 <= j < n ensures ticks[..n][j] == ticks[j] {}
      if Peak(ticks[..n]) > 0 {
        var j :| 0 <= j < n && ticks[..n][j].sample == Rx(Peak(ticks[..n]));
        assert ticks[j].sample == Rx(Peak(ticks[..n]));
      }
      if ticks[n].sample.Rx? && ticks[n].sample.bytes == Peak(ticks) { assert ticks[n].sample == Rx(Peak(ticks)); }
    }
  }

  /** No failover before the first byte from the provider. */
  lemma NeverBeforeFirstByte(needed: int, ticks: seq<Tick>, i: nat)
    requires i < |ticks| && Attempt(needed, ticks, i)
    ensures exists j :: 0 <= j < i && ticks[j].sample.Rx? && ticks[j].sample.bytes > 0
  {
    PeakIsAttained(ticks[..i]);
    var j :| 0 <= j < i && ticks[..i][j].sample == Rx(Peak(ticks[..i]));
    assert ticks[j] == ticks[..i][j];
  }

  /** A failed attempt is repeated at every unhealthy tick that follows. */
  lemma RetriesUntilSuccess(needed: int, ticks: seq<Tick>, i: nat)
    requires i + 1 < |ticks| && Attempt(needed, ticks, i) && !Succeeds(ticks[i].answer) && Unhealthy(ticks, i + 1)
    ensures Attempt(needed, ticks, i + 1)
  {
    var upTo := ticks[..i + 1];
    assert upTo[..i] == ticks[..i] && upTo[i] == ticks[i];
    PrefixTick(needed, ticks, i + 1, i);
  }

  /** After a successful failover the next attempt is at least `needed` ticks away. */
  lemma AttemptsAreSpaced(needed: int, ticks: seq<Tick>, i: nat, j: nat)
    requires i < j < |ticks| && Attempt(needed, ticks, i) && Succeeds(ticks[i].answer) && Attempt(needed, ticks, j)
    ensures j - i >= needed
  {
    PrefixTick(needed, ticks, j, i);
    RunIsUnhealthy(needed, ticks[..j]);
    assert ticks[..j][i] == ticks[i];
    assert Reset(needed, ticks[..j], i);
  }
}
