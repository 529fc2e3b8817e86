/** The dispatch stream as the coordinator sees it, by attempt id, and how the Once of a tunnel ends. */
module TunnelStreams {
  import opened Integers
  import opened Tunnels

  lemma RunPush(schedule: seq<Action>, a: Action)
    requires Run(schedule).Some?
    ensures Run(schedule + [a]) == Step(Run(schedule).value, a)
  {
    assert (schedule + [a])[..|schedule|] == schedule;
  }

  // ---- The Once ends -------------------------------------------------------------------------

  /** Statements left in the function that the Once runs. */
  function Left(o: Once): nat {
    match o
    case NotStarted => 6
    case Done(_, _) => 0
    case Running(_, _, _, stage) =>
      match stage
      case CloseSocket => 5
      case CloseDone => 4
      case Unregister => 3
      case Notify => 2
      case Leave => 1
  }

  lemma OthersKeepOnce(s: State, a: Action, k: nat)
    requires Step(s, a).Some? && !a.InOnce? && k < |s.table|
    ensures k < |Step(s, a).value.table| && Step(s, a).value.table[k].once == s.table[k].once
  {}

  lemma OnceStepAdvances(s: State, j: nat, thread: Thread, notify: bool, reason: string, ok: bool, k: nat)
    requires j < |s.table| && k < |s.table| && !s.table[k].once.NotStarted?
    requires OnceStep(s, j, thread, notify, reason, ok).Some?
    ensures var s', o := OnceStep(s, j, thread, notify, reason, ok).value, s.table[k].once;
            && |s'.table| == |s.table| && !s'.table[k].once.NotStarted? && s'.table[k].once.winner == o.winner
            && Left(s'.table[k].once) == (if j == k && o.Running? then Left(o) - 1 else Left(o))
            && (j == k && o.Running? ==> thread == o.winner)
  {}

  /** A step of the thread that won the Once does one of them; no other step does one or undoes one. */
  lemma WinnerAdvances(s: State, a: Action, k: nat)
    requires Inv(s) && k < |s.table| && !s.table[k].once.NotStarted? && Step(s, a).Some?
    ensures var s', o := Step(s, a).value, s.table[k].once;
            && k < |s'.table| && !s'.table[k].once.NotStarted? && s'.table[k].once.winner == o.winner
            && Left(s'.table[k].once) ==
               if a.InOnce? && a.thread == o.winner && o.Running? then Left(o) - 1 else Left(o)
  {
    if a.InOnce? { OnceAdvances(s, a.thread, a.closeSent, k); } else { OthersKeepOnce(s, a, k); }
  }

  lemma OnceAdvances(s: State, thread: Thread, ok: bool, k: nat)
    requires Inv(s) && k < |s.table| && !s.table[k].once.NotStarted? && CloseStep(s, thread, ok).Some?
    ensures var s', o := CloseStep(s, thread, ok).value, s.table[k].once;
            && |s'.table| == |s.table| && !s'.table[k].once.NotStarted? && s'.table[k].once.winner == o.winner
            && Left(s'.table[k].once) == if thread == o.winner && o.Running? then Left(o) - 1 else Left(o)
  {
    assert OnceOk(s, k);
    match thread
    case Receiver => OnceStepAdvances(s, s.recv.tunnel, Receiver, s.recv.notify, s.recv.reason, ok, k);
    case Pump(j) => OnceStepAdvances(s, j, Pump(j), true, s.table[j].pump.reason, ok, k);
  }

  function Move(a: Action, thread: Thread): nat { if a.InOnce? && a.thread == thread then 1 else 0 }

  /** Steps of a thread inside `closeWithReason`. */
  function Moves(actions: seq<Action>, thread: Thread): nat {
    if actions == [] then 0
    else Moves(actions[..|actions| - 1], thread) + Move(actions[|actions| - 1], thread)
  }

  /** Tunnel `k` after its Once was `o` and the thread inside took `n` steps. */
  predicate OnceAfter(o: Once, s: State, n: nat, k: nat)
    requires !o.NotStarted?
  {
    && k < |s.table| && !s.table[k].once.NotStarted? && s.table[k].once.winner == o.winner
    && Left(s.table[k].once) == Max(0, Left(o) - n)
  }

  lemma OneMoreMove(schedule: seq<Action>, a: Action, o: Once, n: nat, k: nat)
    requires !o.NotStarted? && Run(schedule).Some? && Run(schedule + [a]).Some?
    requires OnceAfter(o, Run(schedule).value, n, k)
    ensures OnceAfter(o, Run(schedule + [a]).value, n + Move(a, o.winner), k)
  {
    RunInv(schedule);
    RunPush(schedule, a);
    WinnerAdvances(Run(schedule).value, a, k);
  }

  lemma {:induction false} OnceInRun(schedule: seq<Action>, more: seq<Action>, o: Once, k: nat)
    requires Run(schedule).Some? && Run(schedule + more).Some? && k < |Run(schedule).value.table|
    requires o == Run(schedule).value.table[k].once && !o.NotStarted?
    ensures OnceAfter(o, Run(schedule + more).value, Moves(more, o.winner), k)
  {
    if more == [] {
      assert schedule + more == schedule;
    } else {
      var rest, a := more[..|more| - 1], more[|more| - 1];
      assert (schedule + more)[..|schedule + more| - 1] == schedule + rest;
      assert schedule + more == schedule + rest + [a];
      OnceInRun(schedule, rest, o, k);
      OneMoreMove(schedule + rest, a, o, Moves(rest, o.winner), k);
    }
  }

  /** However a run goes on, the Once is done exactly when the thread inside it has taken as many steps as
      it had left, which is at most five. */
  lemma OnceFinishes(schedule: seq<Action>, more: seq<Action>, k: nat)
    requires Run(schedule).Some? && Run(schedule + more).Some? && k < |Run(schedule).value.table|
    requires Run(schedule).value.table[k].once.Running?
    ensures var o, s' := Run(schedule).value.table[k].once, Run(schedule + more).value;
            Left(o) <= 5 && k < |s'.table| && (s'.table[k].once.Done? <==> Moves(more, o.winner) >= Left(o))
  {
    OnceInRun(schedule, more, Run(schedule).value.table[k].once, k);
  }

  // ---- Data frames under an id that was taken over -------------------------------------------

  /** The id of tunnel `k` belongs to another tunnel now. */
  predicate Replaced(s: State, k: nat)
    requires k < |s.table|
  {
    s.table[k].id in s.m && s.m[s.table[k].id] != k
  }

  /** The step puts a data frame of tunnel `k` on the stream. */
  predicate SendsData(s: State, a: Action, k: nat) {
    a.SendData? && a.sender == k && a.sendError.None? && k < |s.table| && s.table[k].pump.Sending?
  }

  /** No other step does. */
  lemma SendsDataExactly(s: State, a: Action, k: nat)
    requires Step(s, a).Some? && k < |s.table|
    ensures SendsData(s, a, k) <==>
            exists data :: Step(s, a).value.sent == s.sent + [Sent(TunnelData(s.table[k].id, data), Some(k))]
  {
    var s' := Step(s, a).value;
    if SendsData(s, a, k) {
      assert s'.sent == s.sent + [Sent(TunnelData(s.table[k].id, s.table[k].pump.data), Some(k))];
    }
    if data :| s'.sent == s.sent + [Sent(TunnelData(s.table[k].id, data), Some(k))] {
      assert s'.sent[|s.sent|] == Sent(TunnelData(s.table[k].id, data), Some(k));
    }
  }

  /** Data frames that tunnel `k` sends in a run after its socket was closed. */
  function LateData(schedule: seq<Action>, k: nat): nat {
    if schedule == [] then 0
    else
      var before, a := Run(schedule[..|schedule| - 1]), schedule[|schedule| - 1];
      var late := before.Some? && SendsData(before.value, a, k) && before.value.table[k].socketCloses > 0;
      LateData(schedule[..|schedule| - 1], k) + if late then 1 else 0
  }

  /** Data frames that tunnel `k` sends in a run while its id belongs to another tunnel. */
  function ForeignData(schedule: seq<Action>, k: nat): nat {
    if schedule == [] then 0
    else
      var before, a := Run(schedule[..|schedule| - 1]), schedule[|schedule| - 1];
      var foreign := before.Some? && SendsData(before.value, a, k) && Replaced(before.value, k);
      ForeignData(schedule[..|schedule| - 1], k) + if foreign then 1 else 0
  }

  /** A tunnel whose id belongs to another one has executed its delete, and its socket is closed. */
  lemma ReplacedIsClosed(s: State, k: nat)
    requires Reachable(s) && k < |s.table| && Replaced(s, k)
    ensures Deleted(s.table[k]) && s.table[k].socketCloses == 1
  {
    ReachableInv(s);
    assert Registration(s, k) && OnceOk(s, k);
  }

  /** With its socket closed and nothing left to send, a pump sends nothing again. */
  predicate Quiet(t: Tunnel) { t.socketCloses > 0 && !t.pump.Sending? }

  lemma OnceStepStaysQuiet(s: State, j: nat, thread: Thread, notify: bool, reason: string, ok: bool, k: nat)
    requires j < |s.table| && k < |s.table| && OnceStep(s, j, thread, notify, reason, ok).Some?
    ensures var s' := OnceStep(s, j, thread, notify, reason, ok).value;
            k < |s'.table| && (Quiet(s.table[k]) ==> Quiet(s'.table[k]))
  {}

  lemma CloseStepStaysQuiet(s: State, thread: Thread, ok: bool, k: nat)
    requires k < |s.table| && CloseStep(s, thread, ok).Some?
    ensures var s' := CloseStep(s, thread, ok).value;
            k < |s'.table| && (Quiet(s.table[k]) ==> Quiet(s'.table[k]))
  {
    match thread
    case Receiver => OnceStepStaysQuiet(s, s.recv.tunnel, Receiver, s.recv.notify, s.recv.reason, ok, k);
    case Pump(j) => OnceStepStaysQuiet(s, j, Pump(j), true, s.table[j].pump.reason, ok, k);
  }

  lemma OthersStayQuiet(s: State, a: Action, k: nat)
    requires Step(s, a).Some? && !a.InOnce? && k < |s.table|
    ensures var s' := Step(s, a).value;
            && k < |s'.table| && (Quiet(s.table[k]) ==> Quiet(s'.table[k]))
            && (SendsData(s, a, k) && s.table[k].socketCloses > 0 ==> Quiet(s'.table[k]))
  {}

  lemma QuietStays(s: State, a: Action, k: nat)
    requires Step(s, a).Some? && k < |s.table|
    ensures var s' := Step(s, a).value;
            && k < |s'.table| && (Quiet(s.table[k]) ==> Quiet(s'.table[k]))
            && (SendsData(s, a, k) && s.table[k].socketCloses > 0 ==> Quiet(s'.table[k]))
  {
    if a.InOnce? { CloseStepStaysQuiet(s, a.thread, a.closeSent, k); } else { OthersStayQuiet(s, a, k); }
  }

  lemma {:induction false} LateDataIsLast(schedule: seq<Action>, k: nat)
    requires Run(schedule).Some?
    ensures LateData(schedule, k) <= 1
    ensures LateData(schedule, k) == 1 ==> var s := Run(schedule).value; k < |s.table| && Quiet(s.table[k])
  {
    if schedule != [] {
      var before, a := schedule[..|schedule| - 1], schedule[|schedule| - 1];
      LateDataIsLast(before, k);
      if k < |Run(before).value.table| { QuietStays(Run(before).value, a, k); }
    }
  }

  lemma {:induction false} ForeignIsLate(schedule: seq<Action>, k: nat)
    requires Run(schedule).Some?
    ensures ForeignData(schedule, k) <= LateData(schedule, k)
  {
    if schedule != [] {
      var before, a := schedule[..|schedule| - 1], schedule[|schedule| - 1];
      ForeignIsLate(before, k);
      var s := Run(before).value;
      if SendsData(s, a, k) && Replaced(s, k) {
        ReplacedIsClosed(s, k);
      }
    }
  }

  /** The stream per id, in every interleaving: a tunnel sends at most one data frame after its socket was
      closed, whoever closed it, and those under an id that belongs to another tunnel are among them. */
  lemma StreamPerId(schedule: seq<Action>, k: nat)
    requires Run(schedule).Some?
    ensures ForeignData(schedule, k) <= LateData(schedule, k) <= 1
  {
    LateDataIsLast(schedule, k);
    ForeignIsLate(schedule, k);
  }

  // ---- One such frame ------------------------------------------------------------------------

  function Fresh(id: string): Tunnel { Tunnel(id, NotStarted, 0, 0, Reading, []) }

  lemma Opened(schedule: seq<Action>, s: State, id: string, target: string) returns (next: seq<Action>)
    requires Run(schedule) == Some(s) && s.recv == Idle && id !in s.m && id != "" && target != ""
    ensures Run(next) == Some(s.(table := s.table + [Fresh(id)], m := s.m[id := |s.table|]))
  {
    var dialed, inserted := schedule + [OpenFrame(id, target)], schedule + [OpenFrame(id, target)] + [Dialed(None)];
    RunPush(schedule, OpenFrame(id, target));
    RunPush(dialed, Dialed(None));
    RunPush(inserted, Insert);
    next := inserted + [Insert];
  }

  /** The next statement of a `closeWithReason` that the receiver runs after the coordinator's close. */
  function Advanced(t: Tunnel): Tunnel {
    match t.once
    case NotStarted => t.(once := Running(Receiver, false, "", CloseSocket))
    case Done(_, _) => t
    case Running(winner, notify, reason, stage) =>
      match stage
      case CloseSocket => t.(socketCloses := t.socketCloses + 1, once := t.once.(stage := CloseDone))
      case CloseDone => t.(doneCloses := t.doneCloses + 1, once := t.once.(stage := Unregister))
      case Unregister => t.(once := t.once.(stage := Notify))
      case Notify => t.(once := t.once.(stage := Leave))
      case Leave => t.(once := Done(winner, notify))
  }

  function Finished(t: Tunnel): Tunnel
    decreases Left(t.once)
  {
    if t.once.Done? then t else Finished(Advanced(t))
  }

  predicate ReceiverCloses(s: State, k: nat) {
    && s.recv == Closing(k, "", false) && k < |s.table| && s.table[k].id !in s.m
    && (s.table[k].once.Running? ==>
          var o := s.table[k].once; o == Running(Receiver, false, "", o.stage))
  }

  lemma ReceiverAdvances(s: State, k: nat)
    requires ReceiverCloses(s, k)
    ensures Step(s, InOnce(Receiver, true)) ==
            Some(if s.table[k].once.Done? then s.(recv := Idle) else s.With(k, Advanced(s.table[k])))
  {
    var id := s.table[k].id;
    assert s.m - {id} == s.m;
  }

  lemma {:induction false} ReceiverFinishes(schedule: seq<Action>, s: State, k: nat) returns (next: seq<Action>)
    requires Run(schedule) == Some(s) && ReceiverCloses(s, k)
    ensures Run(next) == Some(s.With(k, Finished(s.table[k])).(recv := Idle))
    decreases Left(s.table[k].once)
  {
    ReceiverAdvances(s, k);
    RunPush(schedule, InOnce(Receiver, true));
    next := schedule + [InOnce(Receiver, true)];
    if s.table[k].once.Done? {
      assert s.table[k := s.table[k]] == s.table;
    } else {
      var s' := s.With(k, Advanced(s.table[k]));
      next := ReceiverFinishes(next, s', k);
      assert s'.table[k := Finished(s'.table[k])] == s.table[k := Finished(s.table[k])];
    }
  }

  function ClosedBy(t: Tunnel): Tunnel {
    t.(once := Done(Receiver, false), socketCloses := t.socketCloses + 1, doneCloses := t.doneCloses + 1)
  }

  lemma FinishedIsClosed(t: Tunnel)
    requires t.once.NotStarted?
    ensures Finished(t) == ClosedBy(t)
  {
    var entered := Advanced(t);
    var socket := Advanced(entered);
    var done := Advanced(socket);
    var deleted := Advanced(done);
    var notified := Advanced(deleted);
    assert Finished(Advanced(notified)) == Advanced(notified) == ClosedBy(t);
    assert Finished(deleted) == Finished(notified);
    assert Finished(entered) == Finished(socket) == Finished(done) == Finished(deleted);
  }

  lemma ClosedByFrame(schedule: seq<Action>, s: State, id: string) returns (next: seq<Action>)
    requires Run(schedule) == Some(s) && s.recv == Idle && id in s.m && s.m[id] < |s.table|
    requires s.table[s.m[id]].id == id && s.table[s.m[id]].once == NotStarted
    ensures Run(next) == Some(s.With(s.m[id], ClosedBy(s.table[s.m[id]])).(m := s.m - {id}))
  {
    var k := s.m[id];
    RunPush(schedule, CloseFrame(id, ""));
    FinishedIsClosed(s.table[k]);
    next := ReceiverFinishes(schedule + [CloseFrame(id, "")], s.(m := s.m - {id}, recv := Closing(k, "", false)), k);
  }

  /** Such a frame is possible: whatever the id and the bytes, in some run the bytes of a tunnel that the
      coordinator has closed go out after the coordinator has opened another one under the id. */
  lemma LateDataUnderNewTunnel(id: string, target: string, data: Bytes) returns (schedule: seq<Action>)
    requires id != "" && target != "" && 0 < |data| <= TUNNEL_CHUNK_SIZE
    ensures Run(schedule).Some? && Run(schedule).value.m == map[id := 1]
    ensures Run(schedule).value.sent == [Sent(TunnelData(id, data), Some(0))] && ForeignData(schedule, 0) == 1
  {
    schedule := Opened([], START, id, target);
    var s := Run(schedule).value;
    RunPush(schedule, Read(0, data, None));
    schedule := schedule + [Read(0, data, None)];
    s := Run(schedule).value;
    schedule := ClosedByFrame(schedule, s, id);
    s := Run(schedule).value;
    schedule := Opened(schedule, s, id, target);
    s := Run(schedule).value;
    RunPush(schedule, SendData(0, None));
    StreamPerId(schedule, 0);
    var last := schedule + [SendData(0, None)];
    assert last[..|schedule|] == schedule && SendsData(s, SendData(0, None), 0) && Replaced(s, 0);
    StreamPerId(last, 0);
    schedule := last;
  }
}
