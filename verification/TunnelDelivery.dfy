/** The receiver's side of the multiplexer: which frame it serves at any time, what reaches which socket, and
    what a TunnelClose tells. */
module TunnelDelivery {
  import opened Integers
  import opened Tunnels

  // ---- The frame being served ----------------------------------------------------------------

  predicate IsFrame(a: Action) { a.OpenFrame? || a.DataFrame? || a.CloseFrame? }

  predicate IsOutcome(a: Action) { a.Dialed? || a.Written? }

  /** The last frame from the coordinator, and the last answer of a dial or a socket write. */
  function LastFrame(schedule: seq<Action>): Option<Action> {
    if schedule == [] then None
    else if IsFrame(schedule[|schedule| - 1]) then Some(schedule[|schedule| - 1])
    else LastFrame(schedule[..|schedule| - 1])
  }
  function LastOutcome(schedule: seq<Action>): Option<Action> {
    if schedule == [] then None
    else if IsOutcome(schedule[|schedule| - 1]) then Some(schedule[|schedule| - 1])
    else LastOutcome(schedule[..|schedule| - 1])
  }

  /** Why an open is refused: it names no target, or its target could not be dialed. */
  predicate RefusedFor(frame: Action, outcome: Option<Action>, reason: string) {
    frame.OpenFrame? &&
    if frame.target == "" then reason == "empty target_host_port"
    else outcome.Some? && outcome.value.Dialed? && outcome.value.dialError.Some?
         && reason == "dial " + frame.target + ": " + outcome.value.dialError.value
  }

  /** What the receiver is doing is what the last frame asks for, with the last answer it got. */
  predicate Serves(s: State, frame: Option<Action>, outcome: Option<Action>) {
    match s.recv
    case Idle => true
    case Dialing(id, target) => id != "" && target != "" && frame == Some(OpenFrame(id, target))
    case Inserting(id) =>
      && id != "" && frame.Some? && frame.value.OpenFrame? && frame.value.openId == id && frame.value.target != ""
      && outcome == Some(Dialed(None))
    case Refusing(id, reason) =>
      id != "" && frame.Some? && RefusedFor(frame.value, outcome, reason) && frame.value.openId == id
    case Writing(k, payload) => k < |s.table| && frame == Some(DataFrame(s.table[k].id, payload))
    case Closing(k, reason, notify) =>
      k < |s.table| &&
      if notify then
        && frame.Some? && frame.value.DataFrame? && frame.value.dataId == s.table[k].id
        && outcome.Some? && outcome.value.Written? && outcome.value.writeError.Some?
        && reason == "dest_write_failed: " + outcome.value.writeError.value
      else frame == Some(CloseFrame(s.table[k].id, reason))
  }

  /** Tunnels keep their place and their id, and only the receiver moves the receiver. */
  lemma PumpsSpareReceiver(s: State, a: Action)
    requires Step(s, a).Some? && (a.Read? || a.SendData? || a.OtherFrame?)
    ensures var s' := Step(s, a).value;
            && s'.recv == s.recv && s'.m == s.m && |s'.table| == |s.table|
            && forall k :: 0 <= k < |s.table| ==> s'.table[k].id == s.table[k].id
  {}

  lemma OnceSparesReceiver(s: State, j: nat, thread: Thread, notify: bool, reason: string, ok: bool)
    requires j < |s.table| && OnceStep(s, j, thread, notify, reason, ok).Some?
    ensures var s' := OnceStep(s, j, thread, notify, reason, ok).value;
            && (s'.recv == s.recv || (thread == Receiver && s'.recv == Idle && s.table[j].once.Done?))
            && |s'.table| == |s.table| && (forall id :: id in s'.m ==> id in s.m && s'.m[id] == s.m[id])
            && forall k :: 0 <= k < |s.table| ==> s'.table[k].id == s.table[k].id
  {}

  lemma CloseStepSparesReceiver(s: State, thread: Thread, ok: bool)
    requires CloseStep(s, thread, ok).Some?
    ensures var s' := CloseStep(s, thread, ok).value;
            && (s'.recv == s.recv ||
                (thread == Receiver && s'.recv == Idle && s.recv.Closing? && s.recv.tunnel < |s.table|
                 && s.table[s.recv.tunnel].once.Done?))
            && |s'.table| == |s.table| && (forall id :: id in s'.m ==> id in s.m && s'.m[id] == s.m[id])
            && forall k :: 0 <= k < |s.table| ==> s'.table[k].id == s.table[k].id
  {
    match thread
    case Receiver => OnceSparesReceiver(s, s.recv.tunnel, Receiver, s.recv.notify, s.recv.reason, ok);
    case Pump(j) => OnceSparesReceiver(s, j, Pump(j), true, s.table[j].pump.reason, ok);
  }

  lemma ServesStep(s: State, a: Action, frame: Option<Action>, outcome: Option<Action>)
    requires Inv(s) && Serves(s, frame, outcome) && Step(s, a).Some?
    ensures Serves(Step(s, a).value, if IsFrame(a) then Some(a) else frame, if IsOutcome(a) then Some(a) else outcome)
  {
    if a.InOnce? { CloseStepSparesReceiver(s, a.thread, a.closeSent); }
    else if a.Read? || a.SendData? || a.OtherFrame? { PumpsSpareReceiver(s, a); }
  }

  /** In every interleaving the receiver dials the target, registers the id, refuses with the reason, writes
      the payload or tears down the tunnel that the last frame from the coordinator is about. */
  lemma {:induction false} ReceiverServes(schedule: seq<Action>)
    requires Run(schedule).Some?
    ensures Serves(Run(schedule).value, LastFrame(schedule), LastOutcome(schedule))
  {
    if schedule != [] {
      var before, a := schedule[..|schedule| - 1], schedule[|schedule| - 1];
      ReceiverServes(before);
      RunInv(before);
      ServesStep(Run(before).value, a, LastFrame(before), LastOutcome(before));
    }
  }

  // ---- The bytes for a socket ----------------------------------------------------------------

  /** The map names tunnel `k` for its id. */
  predicate Registered(s: State, k: nat) {
    k < |s.table| && s.table[k].id in s.m && s.m[s.table[k].id] == k
  }

  /** Payloads of the data frames that came for the id of tunnel `k` while the map named it. */
  function Received(schedule: seq<Action>, k: nat): seq<Bytes> {
    if schedule == [] then []
    else
      var before, a := Run(schedule[..|schedule| - 1]), schedule[|schedule| - 1];
      Received(schedule[..|schedule| - 1], k) + if before.Some? then ReceivedNow(before.value, a, k) else []
  }
  function ReceivedNow(s: State, a: Action, k: nat): seq<Bytes> {
    if a.DataFrame? && Registered(s, k) && a.dataId == s.table[k].id then [a.payload] else []
  }

  /** Payloads written to the socket of tunnel `k`, those whose write succeeded or failed. */
  function Written(schedule: seq<Action>, k: nat, failed: bool): seq<Bytes> {
    if schedule == [] then []
    else
      var before, a := Run(schedule[..|schedule| - 1]), schedule[|schedule| - 1];
      Written(schedule[..|schedule| - 1], k, failed)
      + if before.Some? then WrittenNow(before.value, a, k, failed) else []
  }
  function WrittenNow(s: State, a: Action, k: nat, failed: bool): seq<Bytes> {
    if a.Written? && s.recv.Writing? && s.recv.tunnel == k && a.writeError.Some? == failed then [s.recv.payload] else []
  }

  function InFlight(s: State, k: nat): seq<Bytes> {
    if s.recv.Writing? && s.recv.tunnel == k then [s.recv.payload] else []
  }

  lemma DoneIsUnregistered(s: State, k: nat)
    requires Inv(s) && k < |s.table| && s.table[k].once.Done?
    ensures !Registered(s, k)
  {
    assert Registration(s, k);
  }

  /** The tunnel that the map names for an id has that id. */
  lemma NamedTunnel(s: State, id: string)
    requires Inv(s) && id in s.m
    ensures Registered(s, s.m[id]) && s.table[s.m[id]].id == id
  {}

  predicate Unnamed(s: State, k: nat) { k < |s.table| && !Registered(s, k) }

  lemma UnnamedStays(s: State, a: Action, k: nat)
    requires Inv(s) && Step(s, a).Some? && Unnamed(s, k)
    ensures Unnamed(Step(s, a).value, k)
  {
    if a.InOnce? { CloseStepSparesReceiver(s, a.thread, a.closeSent); }
    else if a.Read? || a.SendData? || a.OtherFrame? { PumpsSpareReceiver(s, a); }
  }

  /** How the three lists of a tunnel stand. */
  predicate Delivered(s: State, k: nat, received: seq<Bytes>, ok: seq<Bytes>, failed: seq<Bytes>) {
    && received == ok + failed + InFlight(s, k)
    && |failed| <= 1 && (failed != [] ==> InFlight(s, k) == [] && (Unnamed(s, k) || TearsDown(s, k)))
  }

  predicate TearsDown(s: State, k: nat) { s.recv.Closing? && s.recv.tunnel == k && k < |s.table| }

  lemma QuietStep(s: State, a: Action, k: nat)
    requires Inv(s) && Step(s, a).Some? && !a.DataFrame? && !a.Written?
    ensures InFlight(Step(s, a).value, k) == InFlight(s, k)
    ensures TearsDown(s, k) ==> TearsDown(Step(s, a).value, k) || Unnamed(Step(s, a).value, k)
  {
    if a.InOnce? {
      CloseStepSparesReceiver(s, a.thread, a.closeSent);
      if TearsDown(s, k) && s.table[k].once.Done? { DoneIsUnregistered(s, k); }
    } else if a.Read? || a.SendData? || a.OtherFrame? {
      PumpsSpareReceiver(s, a);
    }
  }

  /** A data frame is given to the tunnel that the map names for its id, and to no other. */
  lemma FrameStep(s: State, a: Action, k: nat)
    requires Inv(s) && a.DataFrame? && Step(s, a).Some?
    ensures InFlight(s, k) == [] && InFlight(Step(s, a).value, k) == ReceivedNow(s, a, k)
    ensures ReceivedNow(s, a, k) != [] ==> !Unnamed(s, k) && !TearsDown(s, k)
  {
    if a.dataId in s.m { NamedTunnel(s, a.dataId); }
  }

  lemma FrameDelivered(s: State, a: Action, k: nat, received: seq<Bytes>, ok: seq<Bytes>, failed: seq<Bytes>)
    requires Inv(s) && Step(s, a).Some? && Delivered(s, k, received, ok, failed) && a.DataFrame?
    ensures Delivered(Step(s, a).value, k, received + ReceivedNow(s, a, k), ok, failed)
  {
    FrameStep(s, a, k);
    if Unnamed(s, k) { UnnamedStays(s, a, k); }
    assert ok + failed + [] + ReceivedNow(s, a, k) == ok + failed + ReceivedNow(s, a, k);
    assert received + [] == received;
  }

  lemma WriteDelivered(s: State, a: Action, k: nat, received: seq<Bytes>, ok: seq<Bytes>, failed: seq<Bytes>)
    requires Inv(s) && Step(s, a).Some? && Delivered(s, k, received, ok, failed) && a.Written?
    ensures Delivered(Step(s, a).value, k, received, ok + WrittenNow(s, a, k, false),
                      failed + WrittenNow(s, a, k, true))
  {
    if Unnamed(s, k) { UnnamedStays(s, a, k); }
    AddEmpty(ok);
    AddEmpty(failed);
    if s.recv.tunnel == k { LastWrite(received, ok, failed, s.recv.payload); }
  }

  lemma AddEmpty(x: seq<Bytes>)
    ensures x + [] == x
  {}

  lemma LastWrite(received: seq<Bytes>, ok: seq<Bytes>, failed: seq<Bytes>, payload: Bytes)
    requires received == ok + failed + [payload] && failed == []
    ensures received == ok + [payload] + failed + [] == ok + (failed + [payload]) + []
  {}

  lemma OtherDelivered(s: State, a: Action, k: nat, received: seq<Bytes>, ok: seq<Bytes>, failed: seq<Bytes>)
    requires Inv(s) && Step(s, a).Some? && Delivered(s, k, received, ok, failed) && !a.DataFrame? && !a.Written?
    ensures Delivered(Step(s, a).value, k, received, ok, failed)
  {
    if Unnamed(s, k) { UnnamedStays(s, a, k); }
    QuietStep(s, a, k);
  }

  lemma DeliveredStep(s: State, a: Action, k: nat, received: seq<Bytes>, ok: seq<Bytes>, failed: seq<Bytes>)
    requires Inv(s) && Step(s, a).Some? && Delivered(s, k, received, ok, failed)
    ensures Delivered(Step(s, a).value, k, received + ReceivedNow(s, a, k), ok + WrittenNow(s, a, k, false),
                      failed + WrittenNow(s, a, k, true))
  {
    AddEmpty(received);
    AddEmpty(ok);
    AddEmpty(failed);
    if a.DataFrame? { FrameDelivered(s, a, k, received, ok, failed); }
    else if a.Written? { WriteDelivered(s, a, k, received, ok, failed); }
    else { OtherDelivered(s, a, k, received, ok, failed); }
  }

  lemma {:induction false} DeliveredInRun(schedule: seq<Action>, k: nat)
    requires Run(schedule).Some?
    ensures Delivered(Run(schedule).value, k, Received(schedule, k), Written(schedule, k, false),
                      Written(schedule, k, true))
  {
    if schedule != [] {
      var before, a := schedule[..|schedule| - 1], schedule[|schedule| - 1];
      DeliveredInRun(before, k);
      RunInv(before);
      DeliveredStep(Run(before).value, a, k, Received(before, k), Written(before, k, false), Written(before, k, true));
    }
  }

  /** In every interleaving, what was written to the socket of a tunnel is, in order, what the coordinator sent
      for its id while the map named it: all of it, but for one payload that is being written or whose write
      failed; after that failure nothing is sent to the socket again. */
  lemma DataReachesItsSocket(schedule: seq<Action>, k: nat)
    requires Run(schedule).Some?
    ensures Received(schedule, k) ==
            Written(schedule, k, false) + Written(schedule, k, true) + InFlight(Run(schedule).value, k)
    ensures |Written(schedule, k, true)| + |InFlight(Run(schedule).value, k)| <= 1
  {
    DeliveredInRun(schedule, k);
  }

  // ---- What a TunnelClose tells --------------------------------------------------------------

  /** The reason that a failed read is reported with; the end of the stream has none. */
  function ReadReason(e: ReadError): string {
    match e
    case EOF => ""
    case Failed(message) => "dest_read_failed: " + message
  }

  /** The error for which the pump of tunnel `k` stops: its last failed read, or a failed send after it. */
  function PumpError(schedule: seq<Action>, k: nat): Option<string> {
    if schedule == [] then None
    else
      var a := schedule[|schedule| - 1];
      if a.Read? && a.reader == k && a.readError.Some? then Some(ReadReason(a.readError.value))
      else if a.SendData? && a.sender == k && a.sendError.Some? then Some("send_failed: " + a.sendError.value)
      else PumpError(schedule[..|schedule| - 1], k)
  }

  predicate PumpHas(t: Tunnel, error: Option<string>) {
    match t.pump
    case Reading => error == None
    case Sending(_, readError) =>
      error == if readError.None? then None else Some(ReadReason(readError.value))
    case PumpClosing(reason) => error == Some(reason)
    case Exited => error.Some?
  }

  lemma OnceSparesPumps(s: State, j: nat, thread: Thread, notify: bool, reason: string, ok: bool, k: nat)
    requires j < |s.table| && k < |s.table| && OnceStep(s, j, thread, notify, reason, ok).Some?
    requires thread != Receiver ==> thread == Pump(j) && s.table[j].pump.PumpClosing?
    ensures var s' := OnceStep(s, j, thread, notify, reason, ok).value;
            && k < |s'.table|
            && (s'.table[k].pump == s.table[k].pump || (s.table[k].pump.PumpClosing? && s'.table[k].pump.Exited?))
  {}

  lemma CloseStepSparesPumps(s: State, thread: Thread, ok: bool, k: nat)
    requires k < |s.table| && CloseStep(s, thread, ok).Some?
    ensures var s' := CloseStep(s, thread, ok).value;
            && k < |s'.table|
            && (s'.table[k].pump == s.table[k].pump || (s.table[k].pump.PumpClosing? && s'.table[k].pump.Exited?))
  {
    match thread
    case Receiver => OnceSparesPumps(s, s.recv.tunnel, Receiver, s.recv.notify, s.recv.reason, ok, k);
    case Pump(j) => OnceSparesPumps(s, j, Pump(j), true, s.table[j].pump.reason, ok, k);
  }

  function PumpErrorNow(a: Action, k: nat, before: Option<string>): Option<string> {
    if a.Read? && a.reader == k && a.readError.Some? then Some(ReadReason(a.readError.value))
    else if a.SendData? && a.sender == k && a.sendError.Some? then Some("send_failed: " + a.sendError.value)
    else before
  }

  lemma PumpStep(s: State, a: Action, k: nat, error: Option<string>)
    requires Step(s, a).Some? && k < |s.table| && PumpHas(s.table[k], error)
    ensures k < |Step(s, a).value.table| && PumpHas(Step(s, a).value.table[k], PumpErrorNow(a, k, error))
  {
    if a.InOnce? { CloseStepSparesPumps(s, a.thread, a.closeSent, k); }
  }

  /** Nobody reads or sends for a tunnel that is not there, and a new one has met no error. */
  lemma NewPump(s: State, a: Action, k: nat)
    requires Step(s, a).Some? && k >= |s.table|
    ensures var s' := Step(s, a).value;
            PumpErrorNow(a, k, None) == None && (k < |s'.table| ==> s'.table[k].pump == Reading)
  {
    if a.InOnce? { CloseStepSparesReceiver(s, a.thread, a.closeSent); }
  }

  lemma {:induction false} PumpInRun(schedule: seq<Action>, k: nat)
    requires Run(schedule).Some?
    ensures var s := Run(schedule).value;
            if k < |s.table| then PumpHas(s.table[k], PumpError(schedule, k)) else PumpError(schedule, k) == None
  {
    if schedule != [] {
      var before, a := schedule[..|schedule| - 1], schedule[|schedule| - 1];
      PumpInRun(before, k);
      var s := Run(before).value;
      assert PumpError(schedule, k) == PumpErrorNow(a, k, PumpError(before, k));
      if k < |s.table| { PumpStep(s, a, k, PumpError(before, k)); } else { NewPump(s, a, k); }
    }
  }

  /** A TunnelClose of a tunnel names its id and tells why the thread that closes it does: the failed socket
      write of a data frame for that id, or the error of the tunnel's pump. */
  lemma CloseTellsWhy(schedule: seq<Action>, k: nat)
    requires Run(schedule).Some? && k < |Run(schedule).value.table|
    requires Run(schedule).value.table[k].once.Running? && Run(schedule).value.table[k].once.stage == Notify
    requires Run(schedule).value.table[k].once.notify
    ensures var s := Run(schedule).value;
            var o := s.table[k].once;
            && Step(s, InOnce(o.winner, true)).Some?
            && Step(s, InOnce(o.winner, true)).value.sent ==
               s.sent + [Sent(TunnelClose(s.table[k].id, o.reason), Some(k))]
            && if o.winner != Receiver then PumpError(schedule, k) == Some(o.reason)
               else
                 var frame, outcome := LastFrame(schedule), LastOutcome(schedule);
                 && frame.Some? && frame.value.DataFrame? && frame.value.dataId == s.table[k].id
                 && outcome.Some? && outcome.value.Written? && outcome.value.writeError.Some?
                 && o.reason == "dest_write_failed: " + outcome.value.writeError.value
  {
    RunInv(schedule);
    assert OnceOk(Run(schedule).value, k);
    ReceiverServes(schedule);
    PumpInRun(schedule, k);
  }

  /** A refusal names the id that the coordinator asked to open, and tells why. */
  lemma RefusalTellsWhy(schedule: seq<Action>)
    requires Run(schedule).Some? && Run(schedule).value.recv.Refusing?
    ensures var s, frame := Run(schedule).value, LastFrame(schedule);
            && frame.Some? && frame.value.OpenFrame? && frame.value.openId != ""
            && RefusedFor(frame.value, LastOutcome(schedule), s.recv.reason)
            && Step(s, SendRefusal(true)) ==
               Some(s.(recv := Idle, sent := s.sent + [Sent(TunnelClose(frame.value.openId, s.recv.reason), None)]))
  {
    ReceiverServes(schedule);
  }

  // ---- Refusals ------------------------------------------------------------------------------

  /** The refusal that an action makes due, given the last frame before it. */
  function DueNow(frame: Option<Action>, a: Action): seq<Frame> {
    if a.OpenFrame? && a.openId != "" && a.target == "" then [TunnelClose(a.openId, "empty target_host_port")]
    else if a.Dialed? && a.dialError.Some? && frame.Some? && frame.value.OpenFrame? then
      [TunnelClose(frame.value.openId, "dial " + frame.value.target + ": " + a.dialError.value)]
    else []
  }

  /** A refusal for every open frame that has an id and no target, and for every dial that failed. */
  function Due(schedule: seq<Action>): seq<Frame> {
    if schedule == [] then []
    else
      var before := schedule[..|schedule| - 1];
      Due(before) + DueNow(LastFrame(before), schedule[|schedule| - 1])
  }

  function Refusal(s: State): seq<Frame> {
    if s.recv.Refusing? then [TunnelClose(s.recv.id, s.recv.reason)] else []
  }

  function AnsweredNow(s: State, a: Action, lost: bool): seq<Frame> {
    if a.SendRefusal? && (a.refusalSent || lost) then Refusal(s) else []
  }

  /** Refusals that were sent, with or without those the stream did not take. */
  function Answered(schedule: seq<Action>, lost: bool): seq<Frame> {
    if schedule == [] then []
    else
      var before := Run(schedule[..|schedule| - 1]);
      Answered(schedule[..|schedule| - 1], lost)
      + if before.Some? then AnsweredNow(before.value, schedule[|schedule| - 1], lost) else []
  }

  /** The frames on the stream that close an id without speaking for a tunnel. */
  function RefusalsIn(sent: seq<Sent>): seq<Frame> {
    if sent == [] then []
    else
      var f := sent[|sent| - 1];
      RefusalsIn(sent[..|sent| - 1]) + if f.source.None? && f.frame.TunnelClose? then [f.frame] else []
  }

  lemma RefusalsAfter(sent: seq<Sent>, f: Sent)
    ensures RefusalsIn(sent + [f]) ==
            RefusalsIn(sent) + if f.source.None? && f.frame.TunnelClose? then [f.frame] else []
  {
    assert (sent + [f])[..|sent|] == sent;
  }

  lemma OnceSendsNoRefusal(s: State, k: nat, thread: Thread, notify: bool, reason: string, ok: bool)
    requires k < |s.table| && OnceStep(s, k, thread, notify, reason, ok).Some?
    ensures RefusalsIn(OnceStep(s, k, thread, notify, reason, ok).value.sent) == RefusalsIn(s.sent)
  {
    var o := s.table[k].once;
    if o.Running? { RefusalsAfter(s.sent, Sent(TunnelClose(s.table[k].id, o.reason), Some(k))); }
  }

  lemma StreamStep(s: State, a: Action)
    requires Step(s, a).Some?
    ensures RefusalsIn(Step(s, a).value.sent) == RefusalsIn(s.sent) + AnsweredNow(s, a, false)
  {
    match a
    case SendRefusal(_) => RefusalsAfter(s.sent, Sent(TunnelClose(s.recv.id, s.recv.reason), None));
    case SendData(k, _) => RefusalsAfter(s.sent, Sent(TunnelData(s.table[k].id, s.table[k].pump.data), Some(k)));
    case OtherFrame => RefusalsAfter(s.sent, Sent(Other, None));
    case InOnce(Receiver, ok) => OnceSendsNoRefusal(s, s.recv.tunnel, Receiver, s.recv.notify, s.recv.reason, ok);
    case InOnce(Pump(j), ok) => OnceSendsNoRefusal(s, j, Pump(j), true, s.table[j].pump.reason, ok);
    case _ =>
  }

  lemma DueStep(s: State, a: Action, frame: Option<Action>, outcome: Option<Action>)
    requires Serves(s, frame, outcome) && Step(s, a).Some?
    ensures Refusal(s) + DueNow(frame, a) == AnsweredNow(s, a, true) + Refusal(Step(s, a).value)
  {
    if a.InOnce? { CloseStepSparesReceiver(s, a.thread, a.closeSent); }
    else if a.Read? || a.SendData? || a.OtherFrame? { PumpsSpareReceiver(s, a); }
  }

  lemma Shift(due: seq<Frame>, more: seq<Frame>, done: seq<Frame>, hand: seq<Frame>, now: seq<Frame>, next: seq<Frame>)
    requires due == done + hand && hand + more == now + next
    ensures due + more == (done + now) + next
  {
    Associate(done, hand, more);
    Associate(done, now, next);
  }

  lemma Associate(a: seq<Frame>, b: seq<Frame>, c: seq<Frame>)
    ensures (a + b) + c == a + (b + c)
  {}

  /** In every interleaving every open frame without a target and every failed dial is answered, in order and
      under its own id and reason, but for the one being answered; and the stream has exactly these answers, less
      those it did not take. */
  lemma {:induction false} RefusalsAreAnswered(schedule: seq<Action>)
    requires Run(schedule).Some?
    ensures Due(schedule) == Answered(schedule, true) + Refusal(Run(schedule).value)
    ensures RefusalsIn(Run(schedule).value.sent) == Answered(schedule, false)
  {
    if schedule != [] {
      var before, a := schedule[..|schedule| - 1], schedule[|schedule| - 1];
      RefusalsAreAnswered(before);
      ReceiverServes(before);
      var s := Run(before).value;
      StreamStep(s, a);
      DueStep(s, a, LastFrame(before), LastOutcome(before));
      Shift(Due(before), DueNow(LastFrame(before), a), Answered(before, true), Refusal(s), AnsweredNow(s, a, true),
            Refusal(Run(schedule).value));
    }
  }

  // ---- What the frames of the stream name ----------------------------------------------------

  /** A frame that speaks for a tunnel names its id, and data comes in chunks of 1 to 32,768 bytes. */
  predicate NamesTunnel(s: State, f: Sent) {
    match f.source
    case None => f.frame.Other? || f.frame.TunnelClose?
    case Some(k) =>
      k < |s.table| &&
      match f.frame
      case TunnelData(id, payload) => id == s.table[k].id && 1 <= |payload| <= 32_768
      case TunnelClose(id, _) => id == s.table[k].id
      case Other => false
  }

  predicate ChunkFits(t: Tunnel) { t.pump.Sending? ==> 1 <= |t.pump.data| <= 32_768 }

  ghost predicate FramesFit(s: State) {
    && (forall i :: 0 <= i < |s.sent| ==> NamesTunnel(s, s.sent[i]))
    && forall k :: 0 <= k < |s.table| ==> ChunkFits(s.table[k])
  }

  /** Ids and places stay, so what was named stays named. */
  lemma NamedStays(s: State, s': State, f: Sent)
    requires NamesTunnel(s, f) && |s.table| <= |s'.table|
    requires forall k :: 0 <= k < |s.table| ==> s'.table[k].id == s.table[k].id
    ensures NamesTunnel(s', f)
  {}

  lemma OnceStepFits(s: State, j: nat, thread: Thread, notify: bool, reason: string, ok: bool)
    requires FramesFit(s) && j < |s.table| && OnceStep(s, j, thread, notify, reason, ok).Some?
    ensures FramesFit(OnceStep(s, j, thread, notify, reason, ok).value)
  {
    var s' := OnceStep(s, j, thread, notify, reason, ok).value;
    OnceSparesReceiver(s, j, thread, notify, reason, ok);
    forall i | 0 <= i < |s.sent| ensures NamesTunnel(s', s.sent[i]) { NamedStays(s, s', s.sent[i]); }
    forall k | 0 <= k < |s.table| ensures ChunkFits(s'.table[k]) { assert ChunkFits(s.table[k]); }
  }

  lemma SendFits(s: State, a: Action)
    requires FramesFit(s) && Step(s, a).Some? && a.SendData?
    ensures FramesFit(Step(s, a).value)
  {
    var s' := Step(s, a).value;
    assert ChunkFits(s.table[a.sender]);
    PumpsSpareReceiver(s, a);
    forall i | 0 <= i < |s.sent| ensures NamesTunnel(s', s.sent[i]) { NamedStays(s, s', s.sent[i]); }
    forall k | 0 <= k < |s.table| ensures ChunkFits(s'.table[k]) { assert ChunkFits(s.table[k]); }
  }

  lemma OtherStepFits(s: State, a: Action)
    requires FramesFit(s) && Step(s, a).Some? && !a.SendData? && !a.InOnce?
    ensures FramesFit(Step(s, a).value)
  {
    var s' := Step(s, a).value;
    forall i | 0 <= i < |s.sent| ensures NamesTunnel(s', s.sent[i]) { NamedStays(s, s', s.sent[i]); }
    forall k | 0 <= k < |s.table| ensures ChunkFits(s'.table[k]) { assert ChunkFits(s.table[k]); }
  }

  lemma StepFits(s: State, a: Action)
    requires FramesFit(s) && Step(s, a).Some?
    ensures FramesFit(Step(s, a).value)
  {
    match a
    case SendData(_, _) => SendFits(s, a);
    case InOnce(Receiver, ok) => OnceStepFits(s, s.recv.tunnel, Receiver, s.recv.notify, s.recv.reason, ok);
    case InOnce(Pump(j), ok) => OnceStepFits(s, j, Pump(j), true, s.table[j].pump.reason, ok);
    case _ => OtherStepFits(s, a);
  }

  /** In every interleaving, every frame for a tunnel carries the id it was opened under, and no data frame is
      empty or longer than a chunk. */
  lemma {:induction false} FramesNameTheirTunnel(schedule: seq<Action>)
    requires Run(schedule).Some?
    ensures FramesFit(Run(schedule).value)
  {
    if schedule != [] {
      FramesNameTheirTunnel(schedule[..|schedule| - 1]);
      StepFits(Run(schedule[..|schedule| - 1]).value, schedule[|schedule| - 1]);
    }
  }
}
