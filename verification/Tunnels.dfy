/** The TCP-over-dispatch multiplexer of coordinator/cmd/dev-stub-daemon/main.go as interleaved
    atomic steps: one receive goroutine, one pump goroutine per tunnel, a map under a mutex, and a
    `sync.Once` per tunnel whose function other callers wait for. */
module Tunnels {
  import opened Integers

  type Bytes = seq<bv8>

  const TUNNEL_CHUNK_SIZE := 32_768 // 32 * 1024

  datatype Thread = Receiver | Pump(tunnel: nat)

  /** Where the function passed to `closeOnce.Do` stands: about to do what the name says. */
  datatype Stage = CloseSocket | CloseDone | Unregister | Notify | Leave

  /** `sync.Once`; Done also records which call ran the function. */
  datatype Once =
    | NotStarted
    | Running(winner: Thread, notify: bool, reason: string, stage: Stage)
    | Done(winner: Thread, notify: bool)

  datatype ReadError = EOF | Failed(message: string) {
    function Reason(): string { if EOF? then "" else "dest_read_failed: " + message }
  }

  datatype PumpPc =
    | Reading
    | Sending(data: Bytes, readError: Option<ReadError>)
    | PumpClosing(reason: string)
    | Exited

  /** A tunnel object: it keeps its place in the table for good, the map only names it for a while.
      `socketCloses` and `doneCloses` count calls, `received` is everything read from the socket. */
  datatype Tunnel = Tunnel(id: string, once: Once, socketCloses: nat, doneCloses: nat, pump: PumpPc, received: Bytes)

  datatype ReceiverPc =
    | Idle
    | Dialing(id: string, target: string)
    | Inserting(id: string)
    | Refusing(id: string, reason: string)
    | Writing(tunnel: nat, payload: Bytes)
    | Closing(tunnel: nat, reason: string, notify: bool)

  datatype Frame = TunnelData(id: string, payload: Bytes) | TunnelClose(id: string, error: string) | Other

  /** A frame on the dispatch stream, with the tunnel object it speaks for, if any. */
  datatype Sent = Sent(frame: Frame, source: Option<nat>)

  datatype State = State(table: seq<Tunnel>, m: map<string, nat>, recv: ReceiverPc, sent: seq<Sent>) {
    function With(k: nat, t: Tunnel): State
      requires k < |table|
    {
      this.(table := table[k := t])
    }

    function Send(f: Frame, source: Option<nat>, ok: bool): State {
      if ok then this.(sent := sent + [Sent(f, source)]) else this
    }
  }

  /** One atomic step, with what the outside world answers. */
  datatype Action =
    | OpenFrame(openId: string, target: string)
    | Dialed(dialError: Option<string>)
    | Insert
    | SendRefusal(refusalSent: bool)
    | DataFrame(dataId: string, payload: Bytes)
    | Written(writeError: Option<string>)
    | CloseFrame(closeId: string, reason: string)
    | Read(reader: nat, data: Bytes, readError: Option<ReadError>)
    | SendData(sender: nat, sendError: Option<string>)
    | InOnce(thread: Thread, closeSent: bool)
    | OtherFrame

  /** The state after the step; None when the step is not enabled. */
  function Step(s: State, a: Action): Option<State> {
    match a
    case OpenFrame(id, target) => if s.recv != Idle then None else Some(Open(s, id, target))
    case Dialed(error) =>
      if !s.recv.Dialing? then None
      else Some(s.(recv := if error.None? then Inserting(s.recv.id)
                           else Refusing(s.recv.id, "dial " + s.recv.target + ": " + error.value)))
    case Insert => if !s.recv.Inserting? then None else Some(InsertTunnel(s, s.recv.id))
    case SendRefusal(ok) =>
      if !s.recv.Refusing? then None
      else Some(s.Send(TunnelClose(s.recv.id, s.recv.reason), None, ok).(recv := Idle))
    case DataFrame(id, payload) =>
      if s.recv != Idle then None
      else Some(if id in s.m then s.(recv := Writing(s.m[id], payload)) else s)
    case Written(error) =>
      if !s.recv.Writing? then None
      else Some(s.(recv := if error.None? then Idle
                           else Closing(s.recv.tunnel, "dest_write_failed: " + error.value, true)))
    case CloseFrame(id, reason) =>
      if s.recv != Idle then None
      else Some(if id in s.m then s.(m := s.m - {id}, recv := Closing(s.m[id], reason, false)) else s)
    case Read(k, data, error) =>
      if k < |s.table| && CanRead(s.table[k], data, error) then Some(s.With(k, ReadInto(s.table[k], data, error)))
      else None
    case SendData(k, error) =>
      if k < |s.table| && s.table[k].pump.Sending? then Some(SendChunk(s, k, error)) else None
    case InOnce(thread, ok) => CloseStep(s, thread, ok)
    case OtherFrame => Some(s.Send(Other, None, true))
  }

  function Open(s: State, id: string, target: string): State {
    if id == "" then s
    else if target == "" then s.(recv := Refusing(id, "empty target_host_port"))
    else s.(recv := Dialing(id, target))
  }

  /** The critical section of `open`: a duplicate id keeps the existing tunnel. */
  function InsertTunnel(s: State, id: string): State {
    if id in s.m then s.(recv := Idle)
    else s.(table := s.table + [Tunnel(id, NotStarted, 0, 0, Reading, [])], m := s.m[id := |s.table|], recv := Idle)
  }

  /** What `dest.Read` may answer: any chunk while the socket is open, only an error afterwards. */
  predicate CanRead(t: Tunnel, data: Bytes, error: Option<ReadError>) {
    t.pump == Reading && |data| <= TUNNEL_CHUNK_SIZE && (t.socketCloses > 0 ==> data == [] && error.Some?)
  }

  function ReadInto(t: Tunnel, data: Bytes, error: Option<ReadError>): Tunnel {
    t.(received := t.received + data,
       pump := if data != [] then Sending(data, error)
               else if error.Some? then PumpClosing(error.value.Reason())
               else Reading)
  }

  function SendChunk(s: State, k: nat, sendError: Option<string>): State
    requires k < |s.table| && s.table[k].pump.Sending?
  {
    var t := s.table[k];
    if sendError.Some? then s.With(k, t.(pump := PumpClosing("send_failed: " + sendError.value)))
    else
      s.Send(TunnelData(t.id, t.pump.data), Some(k), true)
      .With(k, t.(pump := if t.pump.readError.Some? then PumpClosing(t.pump.readError.value.Reason()) else Reading))
  }

  /** A thread inside `closeWithReason`: enter the Once, run its function, or wait and return. */
  function CloseStep(s: State, thread: Thread, ok: bool): Option<State> {
    match thread
    case Receiver =>
      if s.recv.Closing? && s.recv.tunnel < |s.table|
      then OnceStep(s, s.recv.tunnel, Receiver, s.recv.notify, s.recv.reason, ok) else None
    case Pump(k) =>
      if k < |s.table| && s.table[k].pump.PumpClosing?
      then OnceStep(s, k, Pump(k), true, s.table[k].pump.reason, ok) else None
  }

  function OnceStep(s: State, k: nat, thread: Thread, notify: bool, reason: string, ok: bool): Option<State>
    requires k < |s.table|
  {
    var t := s.table[k];
    match t.once
    case NotStarted => Some(s.With(k, t.(once := Running(thread, notify, reason, CloseSocket))))
    case Running(winner, _, _, _) => if winner == thread then Some(RunClose(s, k, ok)) else None
    case Done(_, _) =>
      Some(if thread == Receiver then s.(recv := Idle) else s.With(k, t.(pump := Exited)))
  }

  /** The next statement of the function inside the Once. */
  function RunClose(s: State, k: nat, ok: bool): State
    requires k < |s.table| && s.table[k].once.Running?
  {
    var t := s.table[k];
    match t.once.stage
    case CloseSocket => s.With(k, t.(socketCloses := t.socketCloses + 1, once := t.once.(stage := CloseDone)))
    case CloseDone => s.With(k, t.(doneCloses := t.doneCloses + 1, once := t.once.(stage := Unregister)))
    case Unregister => s.With(k, t.(once := t.once.(stage := Notify))).(m := s.m - {t.id})
    case Notify =>
      s.Send(TunnelClose(t.id, t.once.reason), Some(k), t.once.notify && ok)
      .With(k, t.(once := t.once.(stage := Leave)))
    case Leave => s.With(k, t.(once := Done(t.once.winner, t.once.notify)))
  }

  const START := State([], map[], Idle, [])

  /** The state after a schedule; None if some step was not enabled when its turn came. */
  function Run(schedule: seq<Action>): Option<State>
    decreases |schedule|, 0
  {
    if schedule == [] then Some(START) else RunOn(schedule[..|schedule| - 1], schedule[|schedule| - 1])
  }

  /** One step after a schedule. */
  function RunOn(schedule: seq<Action>, a: Action): Option<State>
    decreases |schedule|, 1
  {
    var before := Run(schedule);
    if before.None? then None else Step(before.value, a)
  }

  // ---- What the stream shows of one tunnel ---------------------------------------------------

  /** Bytes of the TunnelData frames of tunnel `k`, in the order they were sent. */
  function DataOf(sent: seq<Sent>, k: nat): Bytes {
    if sent == [] then []
    else
      var f := sent[|sent| - 1];
      DataOf(sent[..|sent| - 1], k) + if f.source == Some(k) && f.frame.TunnelData? then f.frame.payload else []
  }

  /** Number of TunnelClose frames of tunnel `k`. */
  function ClosesOf(sent: seq<Sent>, k: nat): nat {
    if sent == [] then 0
    else
      var f := sent[|sent| - 1];
      ClosesOf(sent[..|sent| - 1], k) + if f.source == Some(k) && f.frame.TunnelClose? then 1 else 0
  }

  /** Number of TunnelData frames of tunnel `k` sent after a TunnelClose of it. */
  function DataAfterClose(sent: seq<Sent>, k: nat): nat {
    if sent == [] then 0
    else
      var f, before := sent[|sent| - 1], sent[..|sent| - 1];
      DataAfterClose(before, k)
      + if f.source == Some(k) && f.frame.TunnelData? && ClosesOf(before, k) > 0 then 1 else 0
  }

  lemma OneMore(sent: seq<Sent>, f: Sent, k: nat)
    ensures var own := f.source == Some(k);
            && DataOf(sent + [f], k) == DataOf(sent, k) + (if own && f.frame.TunnelData? then f.frame.payload else [])
            && ClosesOf(sent + [f], k) == ClosesOf(sent, k) + (if own && f.frame.TunnelClose? then 1 else 0)
            && DataAfterClose(sent + [f], k) ==
               DataAfterClose(sent, k) + (if own && f.frame.TunnelData? && ClosesOf(sent, k) > 0 then 1 else 0)
  {
    assert (sent + [f])[..|sent|] == sent;
  }

  // ---- The invariant -------------------------------------------------------------------------

  /** The tunnel has executed its `delete(t.m, tun.attemptID)`. */
  predicate Deleted(t: Tunnel) {
    t.once.Done? || (t.once.Running? && t.once.stage in {Notify, Leave})
  }

  /** The map names only tunnels with that id, and every other tunnel that ever had it is deleted;
      a tunnel the map no longer names is deleted, or is the one the receiver is closing. */
  ghost predicate MapOk(s: State) {
    && (forall id :: id in s.m ==> s.m[id] < |s.table| && s.table[s.m[id]].id == id)
    && (forall k :: 0 <= k < |s.table| ==> Registration(s, k))
  }

  ghost predicate Registration(s: State, k: nat)
    requires k < |s.table|
  {
    var t := s.table[k];
    if t.id in s.m && s.m[t.id] == k then !Deleted(t)
    else Deleted(t) || (t.id !in s.m && s.recv.Closing? && s.recv.tunnel == k)
  }

  /** The Once runs in the thread that entered it, and the socket is closed at its first statement. */
  ghost predicate OnceOk(s: State, k: nat)
    requires k < |s.table|
  {
    var t := s.table[k];
    match t.once
    case NotStarted => t.socketCloses == 0 && t.doneCloses == 0
    case Running(winner, notify, reason, stage) =>
      && t.socketCloses == (if stage == CloseSocket then 0 else 1)
      && t.doneCloses == (if stage in {CloseSocket, CloseDone} then 0 else 1)
      && (winner == Receiver ==> s.recv == Closing(k, reason, notify))
      && (winner != Receiver ==> winner == Pump(k) && notify && t.pump == PumpClosing(reason))
    case Done(winner, notify) =>
      && t.socketCloses == 1 && t.doneCloses == 1
      && (winner != Receiver ==> notify && (t.pump.PumpClosing? || t.pump.Exited?))
  }

  /** The tunnel's frames against its Once and the bytes read. */
  ghost predicate StreamOk(t: Tunnel, k: nat, sent: seq<Sent>) {
    var notified := t.once.Done? || (t.once.Running? && t.once.stage == Leave);
    && ClosesOf(sent, k) <= (if notified && t.once.notify then 1 else 0)
    && (match t.pump
        case Reading => DataOf(sent, k) == t.received
        case Sending(data, _) => DataOf(sent, k) + data == t.received
        case _ => DataOf(sent, k) <= t.received)
    && DataAfterClose(sent, k) <=
       (if ClosesOf(sent, k) > 0 && !t.pump.Sending? && t.once.winner == Receiver then 1 else 0)
  }

  /** Tunnels not yet in the table have sent nothing; the receiver works on an existing tunnel. */
  ghost predicate Inv(s: State) {
    && MapOk(s)
    && (s.recv.Writing? || s.recv.Closing? ==> s.recv.tunnel < |s.table|)
    && (forall k :: 0 <= k < |s.table| ==> OnceOk(s, k) && StreamOk(s.table[k], k, s.sent))
    && (forall k :: |s.table| <= k ==>
          DataOf(s.sent, k) == [] && ClosesOf(s.sent, k) == 0 && DataAfterClose(s.sent, k) == 0)
  }

  lemma StartInv()
    ensures Inv(START)
  {}

  /** A step that changes only tunnel `k` (and sends nothing) need only be checked at `k`. */
  lemma OneTunnel(s: State, s': State, k: nat)
    requires Inv(s) && k < |s.table| == |s'.table| && s' == s.With(k, s'.table[k])
    requires s'.table[k].id == s.table[k].id
    requires Registration(s', k) && OnceOk(s', k) && StreamOk(s'.table[k], k, s.sent)
    ensures Inv(s')
  {
    forall j | 0 <= j < |s.table| && j != k
      ensures Registration(s', j) && OnceOk(s', j)
    {
      assert Registration(s, j) && OnceOk(s, j);
    }
  }

  lemma ReceiverMoves(s: State, recv: ReceiverPc)
    requires Inv(s) && !s.recv.Closing? && (recv.Writing? || recv.Closing? ==> recv.tunnel < |s.table|)
    ensures Inv(s.(recv := recv))
  {
    var s' := s.(recv := recv);
    forall j | 0 <= j < |s.table| ensures Registration(s', j) && OnceOk(s', j) {
      assert Registration(s, j) && OnceOk(s, j);
    }
  }

  lemma ForeignFrame(s: State, f: Sent)
    requires Inv(s) && f.source == None
    ensures Inv(s.(sent := s.sent + [f]))
  {
    var s' := s.(sent := s.sent + [f]);
    forall j: nat
      ensures DataOf(s'.sent, j) == DataOf(s.sent, j) && ClosesOf(s'.sent, j) == ClosesOf(s.sent, j)
      ensures DataAfterClose(s'.sent, j) == DataAfterClose(s.sent, j)
    {
      OneMore(s.sent, f, j);
    }
    forall j | 0 <= j < |s.table| ensures Registration(s', j) && OnceOk(s', j) && StreamOk(s'.table[j], j, s'.sent) {
      assert Registration(s, j) && OnceOk(s, j) && StreamOk(s.table[j], j, s.sent);
    }
  }

  lemma InsertKeepsInv(s: State)
    requires Inv(s) && s.recv.Inserting?
    ensures Inv(InsertTunnel(s, s.recv.id))
  {
    if s.recv.id in s.m {
      ReceiverMoves(s, Idle);
    } else {
      NewTunnelKeepsInv(s, InsertTunnel(s, s.recv.id), Tunnel(s.recv.id, NotStarted, 0, 0, Reading, []));
    }
  }

  lemma NewTunnelKeepsInv(s: State, s': State, t: Tunnel)
    requires Inv(s) && s.recv.Inserting? && t == Tunnel(t.id, NotStarted, 0, 0, Reading, []) && t.id !in s.m
    requires s' == State(s.table + [t], s.m[t.id := |s.table|], Idle, s.sent)
    ensures Inv(s')
  {
    NewTunnelIsRegistered(s, s', t);
    forall j | 0 <= j < |s.table| ensures Registration(s', j) && OnceOk(s', j) && StreamOk(s'.table[j], j, s'.sent) {
      NewTunnelSparesOthers(s, s', t, j);
    }
  }

  lemma NewTunnelIsRegistered(s: State, s': State, t: Tunnel)
    requires Inv(s) && t == Tunnel(t.id, NotStarted, 0, 0, Reading, []) && t.id !in s.m
    requires s' == State(s.table + [t], s.m[t.id := |s.table|], Idle, s.sent)
    ensures forall id :: id in s'.m ==> s'.m[id] < |s'.table| && s'.table[s'.m[id]].id == id
    ensures Registration(s', |s.table|) && OnceOk(s', |s.table|) && StreamOk(t, |s.table|, s.sent)
  {}

  lemma NewTunnelSparesOthers(s: State, s': State, t: Tunnel, j: nat)
    requires Inv(s) && s.recv.Inserting? && t.id !in s.m && j < |s.table|
    requires s' == State(s.table + [t], s.m[t.id := |s.table|], Idle, s.sent)
    ensures Registration(s', j) && OnceOk(s', j) && StreamOk(s'.table[j], j, s'.sent)
  {
    assert Registration(s, j) && OnceOk(s, j) && StreamOk(s.table[j], j, s.sent);
  }

  lemma CloseFrameKeepsInv(s: State, id: string, reason: string)
    requires Inv(s) && s.recv == Idle && id in s.m
    ensures Inv(s.(m := s.m - {id}, recv := Closing(s.m[id], reason, false)))
  {
    var s' := s.(m := s.m - {id}, recv := Closing(s.m[id], reason, false));
    forall j | 0 <= j < |s.table| ensures Registration(s', j) && OnceOk(s', j) {
      assert Registration(s, j) && OnceOk(s, j);
    }
  }

  lemma ReadKeepsInv(s: State, k: nat, data: Bytes, error: Option<ReadError>)
    requires Inv(s) && k < |s.table| && CanRead(s.table[k], data, error)
    ensures Inv(s.With(k, ReadInto(s.table[k], data, error)))
  {
    assert Registration(s, k) && OnceOk(s, k) && StreamOk(s.table[k], k, s.sent);
    var s' := s.With(k, ReadInto(s.table[k], data, error));
    assert data == [] ==> s'.table[k].received == s.table[k].received;
    OneTunnel(s, s', k);
  }

  lemma SendKeepsInv(s: State, k: nat, sendError: Option<string>)
    requires Inv(s) && k < |s.table| && s.table[k].pump.Sending?
    ensures Inv(SendChunk(s, k, sendError))
  {
    var s' := SendChunk(s, k, sendError);
    assert Registration(s, k) && OnceOk(s, k) && StreamOk(s.table[k], k, s.sent);
    if sendError.Some? {
      OneTunnel(s, s', k);
    } else {
      var f := Sent(TunnelData(s.table[k].id, s.table[k].pump.data), Some(k));
      OneMore(s.sent, f, k);
      OwnFrame(s, s', k, f);
    }
  }

  /** A step that sends one frame of tunnel `k` and changes only that tunnel. */
  lemma OwnFrame(s: State, s': State, k: nat, f: Sent)
    requires Inv(s) && k < |s.table| == |s'.table| && f.source == Some(k)
    requires s' == s.(sent := s.sent + [f]).With(k, s'.table[k]) && s'.table[k].id == s.table[k].id
    requires Registration(s', k) && OnceOk(s', k) && StreamOk(s'.table[k], k, s'.sent)
    ensures Inv(s')
  {
    forall j: nat | j != k
      ensures DataOf(s'.sent, j) == DataOf(s.sent, j) && ClosesOf(s'.sent, j) == ClosesOf(s.sent, j)
      ensures DataAfterClose(s'.sent, j) == DataAfterClose(s.sent, j)
    {
      OneMore(s.sent, f, j);
    }
    forall j | 0 <= j < |s.table| && j != k
      ensures Registration(s', j) && OnceOk(s', j) && StreamOk(s'.table[j], j, s'.sent)
    {
      assert Registration(s, j) && OnceOk(s, j) && StreamOk(s.table[j], j, s.sent);
    }
  }

  lemma RunCloseKeepsInv(s: State, k: nat, ok: bool)
    requires Inv(s) && k < |s.table| && s.table[k].once.Running?
    ensures Inv(RunClose(s, k, ok))
  {
    var t := s.table[k];
    var s' := RunClose(s, k, ok);
    assert Registration(s, k) && OnceOk(s, k) && StreamOk(t, k, s.sent);
    match t.once.stage
    case CloseSocket => OneTunnel(s, s', k);
    case CloseDone => OneTunnel(s, s', k);
    case Unregister => UnregisterKeepsInv(s, k);
    case Notify => NotifyKeepsInv(s, k, ok);
    case Leave => OneTunnel(s, s', k);
  }

  lemma NotifyKeepsInv(s: State, k: nat, ok: bool)
    requires Inv(s) && k < |s.table| && s.table[k].once.Running? && s.table[k].once.stage == Notify
    ensures Inv(RunClose(s, k, ok))
  {
    var t := s.table[k];
    var s' := RunClose(s, k, ok);
    assert Registration(s, k) && OnceOk(s, k) && StreamOk(t, k, s.sent);
    if t.once.notify && ok {
      var f := Sent(TunnelClose(t.id, t.once.reason), Some(k));
      NotifiedStream(t, k, s.sent, f);
      OwnFrame(s, s', k, f);
    } else {
      OneTunnel(s, s', k);
    }
  }

  /** The one TunnelClose of a tunnel leaves its stream in order. */
  lemma NotifiedStream(t: Tunnel, k: nat, sent: seq<Sent>, f: Sent)
    requires t.once.Running? && t.once.stage == Notify && t.once.notify && StreamOk(t, k, sent)
    requires f == Sent(TunnelClose(t.id, t.once.reason), Some(k))
    requires t.once.winner != Receiver ==> t.pump.PumpClosing?
    ensures StreamOk(t.(once := t.once.(stage := Leave)), k, sent + [f])
  {
    OneMore(sent, f, k);
  }

  /** Deleting by attempt id removes this tunnel's own entry or nothing. */
  lemma UnregisterKeepsInv(s: State, k: nat)
    requires Inv(s) && k < |s.table| && s.table[k].once.Running? && s.table[k].once.stage == Unregister
    ensures Inv(RunClose(s, k, true))
  {
    var s' := RunClose(s, k, true);
    assert Registration(s, k) && OnceOk(s, k) && StreamOk(s.table[k], k, s.sent);
    forall j | 0 <= j < |s.table| && j != k
      ensures Registration(s', j) && OnceOk(s', j) && StreamOk(s'.table[j], j, s'.sent)
    {
      assert Registration(s, j) && OnceOk(s, j) && StreamOk(s.table[j], j, s.sent);
    }
  }

  lemma OnceStepKeepsInv(s: State, k: nat, thread: Thread, notify: bool, reason: string, ok: bool)
    requires Inv(s) && k < |s.table| && OnceStep(s, k, thread, notify, reason, ok).Some?
    requires thread == Receiver ==> s.recv == Closing(k, reason, notify)
    requires thread != Receiver ==> thread == Pump(k) && notify && s.table[k].pump == PumpClosing(reason)
    ensures Inv(OnceStep(s, k, thread, notify, reason, ok).value)
  {
    var s' := OnceStep(s, k, thread, notify, reason, ok).value;
    assert Registration(s, k) && OnceOk(s, k) && StreamOk(s.table[k], k, s.sent);
    match s.table[k].once
    case NotStarted => OneTunnel(s, s', k);
    case Running(_, _, _, _) => RunCloseKeepsInv(s, k, ok);
    case Done(_, _) =>
      if thread == Receiver {
        forall j | 0 <= j < |s.table| ensures Registration(s', j) && OnceOk(s', j) {
          assert Registration(s, j) && OnceOk(s, j);
        }
      } else {
        OneTunnel(s, s', k);
      }
  }

  lemma StepKeepsInv(s: State, a: Action)
    requires Inv(s) && Step(s, a).Some?
    ensures Inv(Step(s, a).value)
  {
    match a
    case OpenFrame(id, target) => ReceiverMoves(s, Open(s, id, target).recv);
    case Dialed(error) => ReceiverMoves(s, Step(s, a).value.recv);
    case Insert => InsertKeepsInv(s);
    case SendRefusal(ok) =>
      ReceiverMoves(s, Idle);
      if ok { ForeignFrame(s.(recv := Idle), Sent(TunnelClose(s.recv.id, s.recv.reason), None)); }
    case DataFrame(id, payload) => if id in s.m { ReceiverMoves(s, Writing(s.m[id], payload)); }
    case Written(error) => ReceiverMoves(s, Step(s, a).value.recv);
    case CloseFrame(id, reason) => if id in s.m { CloseFrameKeepsInv(s, id, reason); }
    case Read(k, data, error) => ReadKeepsInv(s, k, data, error);
    case SendData(k, error) => SendKeepsInv(s, k, error);
    case InOnce(Receiver, ok) => OnceStepKeepsInv(s, s.recv.tunnel, Receiver, s.recv.notify, s.recv.reason, ok);
    case InOnce(Pump(k), ok) => OnceStepKeepsInv(s, k, Pump(k), true, s.table[k].pump.reason, ok);
    case OtherFrame => ForeignFrame(s, Sent(Other, None));
  }

  lemma {:induction false} RunInv(schedule: seq<Action>)
    requires Run(schedule).Some?
    ensures Inv(Run(schedule).value)
  {
    if schedule == [] {
      StartInv();
    } else {
      RunInv(schedule[..|schedule| - 1]);
      StepKeepsInv(Run(schedule[..|schedule| - 1]).value, schedule[|schedule| - 1]);
    }
  }

  // ---- What holds in every interleaving ------------------------------------------------------

  ghost predicate Reachable(s: State) { exists schedule :: Run(schedule) == Some(s) }

  lemma ReachableInv(s: State)
    requires Reachable(s)
    ensures Inv(s)
  {
    var schedule :| Run(schedule) == Some(s);
    RunInv(schedule);
  }

  /** When a tunnel is inserted, every earlier tunnel with its id has executed its delete. */
  lemma InsertFollowsDeletes(s: State, j: nat)
    requires Reachable(s) && s.recv.Inserting? && s.recv.id !in s.m
    requires j < |s.table| && s.table[j].id == s.recv.id
    ensures Deleted(s.table[j])
  {
    ReachableInv(s);
    assert Registration(s, j);
  }

  /** A teardown that deletes by attempt id never unregisters another tunnel, whatever its id. */
  lemma DeleteSparesOthers(s: State, k: nat, thread: Thread, ok: bool, id: string)
    requires Reachable(s) && k < |s.table|
    requires s.table[k].once.Running? && s.table[k].once.winner == thread && s.table[k].once.stage == Unregister
    requires Step(s, InOnce(thread, ok)).Some?
    ensures var s' := Step(s, InOnce(thread, ok)).value;
            id in s.m && s.m[id] != k ==> id in s'.m && s'.m[id] == s.m[id]
  {
    ReachableInv(s);
    assert Registration(s, k) && OnceOk(s, k);
    if id in s.m && s.m[id] != k { assert Registration(s, s.m[id]); }
  }

  /** The socket and the done channel are closed once, and are closed when the Once is done. */
  lemma ClosedOnce(s: State, k: nat)
    requires Reachable(s) && k < |s.table|
    ensures s.table[k].socketCloses <= 1 && s.table[k].doneCloses <= 1
    ensures s.table[k].once.Done? ==> s.table[k].socketCloses == 1 && s.table[k].doneCloses == 1
    ensures s.table[k].once.Done? ==> !(s.table[k].id in s.m && s.m[s.table[k].id] == k)
  {
    ReachableInv(s);
    assert OnceOk(s, k) && Registration(s, k);
  }

  /** The stream per tunnel: data is a prefix of the bytes read, in order, and all of them while the
      pump waits for more; at most one TunnelClose, none when the coordinator's close won the Once;
      at most one TunnelData after it, none when the pump itself closed. */
  lemma StreamPerTunnel(s: State, k: nat)
    requires Reachable(s) && k < |s.table|
    ensures DataOf(s.sent, k) <= s.table[k].received
    ensures s.table[k].pump == Reading ==> DataOf(s.sent, k) == s.table[k].received
    ensures ClosesOf(s.sent, k) <= 1
    ensures s.table[k].once.NotStarted? || !s.table[k].once.notify ==> ClosesOf(s.sent, k) == 0
    ensures DataAfterClose(s.sent, k) <= 1
    ensures !s.table[k].once.NotStarted? && s.table[k].once.winner != Receiver ==> DataAfterClose(s.sent, k) == 0
  {
    ReachableInv(s);
    assert OnceOk(s, k) && StreamOk(s.table[k], k, s.sent);
  }

  /** A thread that waits for the Once never waits in vain: the thread inside can always go on. */
  lemma WaitersAreServed(s: State, k: nat, waiter: Thread)
    requires Reachable(s) && k < |s.table|
    requires (waiter == Receiver && s.recv.Closing? && s.recv.tunnel == k)
             || (waiter == Pump(k) && s.table[k].pump.PumpClosing?)
    ensures Step(s, InOnce(waiter, true)).Some?
            || (s.table[k].once.Running? && Step(s, InOnce(s.table[k].once.winner, true)).Some?)
  {
    ReachableInv(s);
    assert OnceOk(s, k);
  }

  // ---- The code between two scheduling points ------------------------------------------------

  /** The `tunnels` struct, the stream it sends on and the program counters of its goroutines. */
  class TunnelTable {
    var table: seq<Tunnel>
    var m: map<string, nat>
    var recv: ReceiverPc
    var sent: seq<Sent>

    function View(): State
      reads this
    {
      State(table, m, recv, sent)
    }

    constructor ()
      ensures View() == START
    {
      table, m, recv, sent := [], map[], Idle, [];
    }

    method SendFrame(f: Frame, source: Option<nat>, ok: bool)
      modifies this`sent
      ensures View() == old(View()).Send(f, source, ok)
    {
      if ok { sent := sent + [Sent(f, source)]; }
    }

    /** `open` up to the dial. */
    method BeginOpen(id: string, target: string)
      requires recv == Idle
      modifies this`recv
      ensures Step(old(View()), OpenFrame(id, target)) == Some(View())
    {
      if id == "" { return; }
      if target == "" {
        recv := Refusing(id, "empty target_host_port");
        return;
      }
      recv := Dialing(id, target);
    }

    /** `open` from the lock on: register the dialed connection, or drop it as a duplicate. */
    method Register()
      requires recv.Inserting?
      modifies this
      ensures Step(old(View()), Insert) == Some(View())
    {
      var id := recv.id;
      recv := Idle;
      if id in m { return; }
      m := m[id := |table|];
      table := table + [Tunnel(id, NotStarted, 0, 0, Reading, [])];
    }

    /** `feed` up to the socket write. */
    method Lookup(id: string, payload: Bytes)
      requires recv == Idle
      modifies this`recv
      ensures Step(old(View()), DataFrame(id, payload)) == Some(View())
    {
      if id !in m { return; }
      recv := Writing(m[id], payload);
    }

    /** `close` up to the call of `closeWithReason`. */
    method Remove(id: string, reason: string)
      requires recv == Idle
      modifies this
      ensures Step(old(View()), CloseFrame(id, reason)) == Some(View())
    {
      if id !in m { return; }
      recv := Closing(m[id], reason, false);
      m := m - {id};
    }

    /** One turn of `pumpFromDest` up to the send. */
    method PumpRead(k: nat, data: Bytes, readError: Option<ReadError>)
      requires k < |table| && CanRead(table[k], data, readError)
      modifies this`table
      ensures Step(old(View()), Read(k, data, readError)) == Some(View())
    {
      var t := table[k].(received := table[k].received + data);
      if |data| > 0 {
        t := t.(pump := Sending(data, readError));
      } else if readError.Some? {
        t := t.(pump := PumpClosing(readError.value.Reason()));
      }
      table := table[k := t];
    }

    /** The send of `pumpFromDest` and what follows it. */
    method PumpSend(k: nat, sendError: Option<string>)
      requires k < |table| && table[k].pump.Sending?
      modifies this
      ensures Step(old(View()), SendData(k, sendError)) == Some(View())
    {
      var t := table[k];
      if sendError.Some? {
        table := table[k := t.(pump := PumpClosing("send_failed: " + sendError.value))];
        return;
      }
      SendFrame(TunnelData(t.id, t.pump.data), Some(k), true);
      var next := if t.pump.readError.Some? then PumpClosing(t.pump.readError.value.Reason()) else Reading;
      table := table[k := t.(pump := next)];
    }

    /** `closeWithReason`: enter the Once, take the next step inside it, or return after it. */
    method CloseWithReason(k: nat, thread: Thread, reason: string, notify: bool, ok: bool)
      requires k < |table| && OnceStep(View(), k, thread, notify, reason, ok).Some?
      modifies this
      ensures OnceStep(old(View()), k, thread, notify, reason, ok) == Some(View())
    {
      match table[k].once {
        case NotStarted =>
          table := table[k := table[k].(once := Running(thread, notify, reason, CloseSocket))];
        case Running(_, _, _, _) =>
          RunOnce(k, ok);
        case Done(_, _) =>
          if thread == Receiver { recv := Idle; } else { table := table[k := table[k].(pump := Exited)]; }
      }
    }

    /** One statement of the function that `closeWithReason` passes to the Once. */
    method RunOnce(k: nat, ok: bool)
      requires k < |table| && table[k].once.Running?
      modifies this
      ensures View() == RunClose(old(View()), k, ok)
    {
      var t := table[k];
      match t.once.stage {
        case CloseSocket =>
          table := table[k := t.(socketCloses := t.socketCloses + 1, once := t.once.(stage := CloseDone))];
        case CloseDone =>
          table := table[k := t.(doneCloses := t.doneCloses + 1, once := t.once.(stage := Unregister))];
        case Unregister =>
          m := m - {t.id};
          table := table[k := t.(once := t.once.(stage := Notify))];
        case Notify =>
          SendFrame(TunnelClose(t.id, t.once.reason), Some(k), t.once.notify && ok);
          table := table[k := t.(once := t.once.(stage := Leave))];
        case Leave =>
          table := table[k := t.(once := Done(t.once.winner, t.once.notify))];
      }
    }
  }
}
