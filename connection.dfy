/**
 * The `Connection` base class: a connection object from a pool that is made
 * ready with `prepare`, counts its usages, defers a close request until the
 * last usage ends, schedules inactivity checks, and either runs transfers
 * inline or queues them on a transmitter queue.
 *
 * Dispatch queues, protocol objects and closures handed in by the user are
 * opaque references (`Queue`, `Handle`). Each closure that the source runs on
 * the serial usage queue is one atomic step of a method here. A closure put on
 * a transmitter queue becomes an entry of `jobs` that `RunTransmitterJob`
 * executes in FIFO order; an inactivity check put on the inactivity queue
 * becomes an entry of `scheduledChecks` that `FireInactivityCheck` runs, in any
 * order. What the connection does to the outside (closing a socket, calling
 * `connectionWasClosed`, running the inactivity action or the error handler,
 * starting a transfer or a receiver loop) is appended to `events`.
 */
module Connections {
  import opened Wrappers
  import opened Tip

  // ---------------------------------------------------------------------------
  // Options and settings
  // ---------------------------------------------------------------------------

  /** An object or closure handed in by the user (protocol object, progress monitor, handler). */
  datatype Handle = Handle(id: nat)

  /** Dispatch quality of service; `DefaultQoS` is `.default`. */
  datatype QoS = DefaultQoS | QoS(level: nat)

  /** A dispatch queue handed in by the user, or the `serial`-th queue this object created. */
  datatype Queue = GivenQueue(id: nat) | CreatedQueue(serial: nat, qos: QoS)

  /** `Connection.Option`. */
  datatype ConnOption =
    | TransmitterQueue(tq: Queue)
    | TransmitterQueueQoS(tqos: QoS)
    | TransmitterTimeout(tt: real)
    | TransmitterProtocol(tcb: Handle)
    | TransmitterProgressMonitor(tpm: Handle)
    | ReceiverQueue(rq: Queue)
    | ReceiverQueueQoS(rqos: QoS)
    | ReceiverLoopDuration(rld: real)
    | ReceiverBufferSize(rbs: int)
    | InactivityDetectionThreshold(delta: Option<real>)
    | InactivityAction(ia: Option<Handle>)
    | ErrorHandler(eh: Handle)

  /** The option-controlled fields of a connection as one value. */
  datatype Settings = Settings(
    transmitterQueue: Option<Queue>,
    transmitterQueueQoS: Option<QoS>,
    transmitterTimeoutValue: real,
    transmitterProtocol: Option<Handle>,
    transmitterProgressMonitor: Option<Handle>,
    receiverQueue: Option<Queue>,
    receiverQueueQoS: QoS,
    receiverLoopDuration: real,
    receiverBufferSize: int,
    inactivityDetectionThreshold: Option<real>,
    inactivityAction: Option<Handle>,
    errorHandler: Option<Handle>)

  /** The values `reset` restores: 10 s transmitter timeout, 5 s receiver loop, 20 KiB receive buffer, everything else unset. */
  const Defaults := Settings(None, None, 10.0, None, None, None, DefaultQoS, 5.0, 20 * 1024, None, None, None)

  /** The settings after one option has been applied. */
  function Apply(s: Settings, o: ConnOption): (r: Settings)
    ensures Holds(r, o)
  {
    match o
    case TransmitterQueue(tq) => s.(transmitterQueue := Some(tq))
    case TransmitterQueueQoS(tqos) => s.(transmitterQueueQoS := Some(tqos))
    case TransmitterTimeout(tt) => s.(transmitterTimeoutValue := tt)
    case TransmitterProtocol(tcb) => s.(transmitterProtocol := Some(tcb))
    case TransmitterProgressMonitor(tpm) => s.(transmitterProgressMonitor := Some(tpm))
    case ReceiverQueue(rq) => s.(receiverQueue := Some(rq))
    case ReceiverQueueQoS(rqos) => s.(receiverQueueQoS := rqos)
    case ReceiverLoopDuration(rld) => s.(receiverLoopDuration := rld)
    case ReceiverBufferSize(rbs) => s.(receiverBufferSize := rbs)
    case InactivityDetectionThreshold(delta) => s.(inactivityDetectionThreshold := delta)
    case InactivityAction(ia) => s.(inactivityAction := ia)
    case ErrorHandler(eh) => s.(errorHandler := Some(eh))
  }

  /** The settings after the options have been applied in order. */
  function ApplyAll(s: Settings, options: seq<ConnOption>): (r: Settings)
    ensures options == [] ==> r == s
    ensures options != [] ==> Holds(r, options[|options| - 1])
  {
    if options == [] then s else Apply(ApplyAll(s, options[..|options| - 1]), options[|options| - 1])
  }

  /** The field an option writes, numbered in declaration order. */
  function Kind(o: ConnOption): nat
  {
    match o
    case TransmitterQueue(_) => 0
    case TransmitterQueueQoS(_) => 1
    case TransmitterTimeout(_) => 2
    case TransmitterProtocol(_) => 3
    case TransmitterProgressMonitor(_) => 4
    case ReceiverQueue(_) => 5
    case ReceiverQueueQoS(_) => 6
    case ReceiverLoopDuration(_) => 7
    case ReceiverBufferSize(_) => 8
    case InactivityDetectionThreshold(_) => 9
    case InactivityAction(_) => 10
    case ErrorHandler(_) => 11
  }

  /** The field that `o` names holds the value `o` carries. */
  predicate Holds(s: Settings, o: ConnOption)
  {
    match o
    case TransmitterQueue(tq) => s.transmitterQueue == Some(tq)
    case TransmitterQueueQoS(tqos) => s.transmitterQueueQoS == Some(tqos)
    case TransmitterTimeout(tt) => s.transmitterTimeoutValue == tt
    case TransmitterProtocol(tcb) => s.transmitterProtocol == Some(tcb)
    case TransmitterProgressMonitor(tpm) => s.transmitterProgressMonitor == Some(tpm)
    case ReceiverQueue(rq) => s.receiverQueue == Some(rq)
    case ReceiverQueueQoS(rqos) => s.receiverQueueQoS == rqos
    case ReceiverLoopDuration(rld) => s.receiverLoopDuration == rld
    case ReceiverBufferSize(rbs) => s.receiverBufferSize == rbs
    case InactivityDetectionThreshold(delta) => s.inactivityDetectionThreshold == delta
    case InactivityAction(ia) => s.inactivityAction == ia
    case ErrorHandler(eh) => s.errorHandler == Some(eh)
  }

  /** An option writes its own field and leaves every field of another kind alone. */
  lemma ApplyWritesOneField(s: Settings, o: ConnOption, other: ConnOption)
    ensures Holds(Apply(s, o), o)
    ensures Kind(other) != Kind(o) ==> (Holds(Apply(s, o), other) <==> Holds(s, other))
  {
  }

  /** For a repeated option the last one wins: an option that no later option of its kind follows holds afterwards. */
  lemma {:induction false} LastOneWins(s: Settings, options: seq<ConnOption>, i: nat)
    requires i < |options|
    requires forall j :: i < j < |options| ==> Kind(options[j]) != Kind(options[i])
    ensures Holds(ApplyAll(s, options), options[i])
  {
    var n := |options| - 1;
    if i == n {
      ApplyWritesOneField(ApplyAll(s, options[..n]), options[n], options[n]);
    } else {
      var init := options[..n];
      assert forall j :: i < j < |init| ==> init[j] == options[j];
      LastOneWins(s, init, i);
      ApplyWritesOneField(ApplyAll(s, init), options[n], options[i]);
    }
  }

  /** A field that no option names keeps its value. */
  lemma {:induction false} UnnamedFieldKept(s: Settings, options: seq<ConnOption>, o: ConnOption)
    requires forall j :: 0 <= j < |options| ==> Kind(options[j]) != Kind(o)
    ensures Holds(ApplyAll(s, options), o) <==> Holds(s, o)
  {
    if options != [] {
      var n := |options| - 1;
      var init := options[..n];
      assert forall j :: 0 <= j < |init| ==> init[j] == options[j];
      UnnamedFieldKept(s, init, o);
      ApplyWritesOneField(ApplyAll(s, init), options[n], o);
    }
  }

  /** Inactivity checks are scheduled only when both an action and a threshold are set. */
  predicate InactivityArmed(s: Settings)
  {
    s.inactivityAction.Some? && s.inactivityDetectionThreshold.Some?
  }

  // ---------------------------------------------------------------------------
  // Usage counting and closing, as a state machine on values
  // ---------------------------------------------------------------------------

  /** Where transmitter callbacks go: a protocol object or the connection itself. */
  datatype Target = ToHandle(handle: Handle) | ToSelf

  /** What the connection does to its surroundings. */
  datatype Event =
    | SocketClosed(socket: Int32)
    | ConnectionWasClosed
    | InactivityActionRun(action: Handle)
    | ErrorReported(handler: Handle, message: string)
    | TransferStarted(call: TransferCall, callback: Target, progress: Option<Handle>)
    | ReceiverLoopScheduled(queue: Queue)
    | ReceiverLoopStarted(loop: ReceiverLoopCall)

  /** The usage-queue protected part of a connection. */
  datatype Lifecycle = Lifecycle(
    interface: Option<TipInterface>,
    usageCount: int,
    pendingClose: bool,
    inactivityRequestCount: int,
    scheduledChecks: seq<int>,
    events: seq<Event>)

  /**
   * What holds between operations: the count is never negative, a pending
   * close always has a usage to wait for (or has already happened), and the
   * scheduled checks carry strictly increasing request numbers no larger than
   * the current one.
   */
  predicate Inv(l: Lifecycle)
  {
    && l.usageCount >= 0
    && (l.pendingClose ==> l.usageCount > 0 || l.interface.None?)
    && (forall i :: 0 <= i < |l.scheduledChecks| ==> l.scheduledChecks[i] <= l.inactivityRequestCount)
    && (forall i, j :: 0 <= i < j < |l.scheduledChecks| ==> l.scheduledChecks[i] < l.scheduledChecks[j])
  }

  /** The events of `interface?.close()`: the socket is closed when the interface is valid. */
  function CloseEvents(interface: Option<TipInterface>): seq<Event>
  {
    if interface.Some? && interface.value.IsValid() then [SocketClosed(interface.value.socket.value)] else []
  }

  /** `_closeConnection()`: close the interface, forget it, and call `connectionWasClosed`. */
  function ClosedLife(l: Lifecycle): (r: Lifecycle)
    ensures r.interface.None?
    ensures |r.events| > 0 && r.events[|r.events| - 1] == ConnectionWasClosed
  {
    l.(interface := None, events := l.events + CloseEvents(l.interface) + [ConnectionWasClosed])
  }

  /** `incrementUsageCount()`: only counts while the interface is present. */
  function Incremented(l: Lifecycle): (r: Lifecycle)
    ensures l.interface.Some? ==> r.usageCount == l.usageCount + 1
    ensures l.interface.None? ==> r == l
    ensures r.interface == l.interface && r.pendingClose == l.pendingClose && r.events == l.events
  {
    if l.interface.Some? then l.(usageCount := l.usageCount + 1) else l
  }

  /**
   * `decrementUsageCount()`: nothing at zero; otherwise one less, and on
   * reaching zero either the pending close happens or, when armed, a new
   * inactivity check is scheduled with the next request number.
   */
  function Decremented(l: Lifecycle, armed: bool): (r: Lifecycle)
    ensures l.usageCount == 0 ==> r == l
    ensures l.usageCount != 0 ==> r.usageCount == l.usageCount - 1
    ensures r.interface != l.interface ==> l.usageCount == 1 && l.pendingClose && r.interface.None?
    ensures r.scheduledChecks != l.scheduledChecks ==> armed && l.usageCount == 1 && !l.pendingClose
  {
    if l.usageCount == 0 then l
    else
      var d := l.(usageCount := l.usageCount - 1);
      if d.usageCount != 0 then d
      else if d.pendingClose then ClosedLife(d)
      else if armed then
        d.(inactivityRequestCount := d.inactivityRequestCount + 1,
           scheduledChecks := d.scheduledChecks + [d.inactivityRequestCount + 1])
      else d
  }

  /** The closure of `closeConnection()`: close at once when idle, else leave it to the last decrement. */
  function CloseRequested(l: Lifecycle): (r: Lifecycle)
    ensures r.usageCount == l.usageCount && r.scheduledChecks == l.scheduledChecks
    ensures l.interface.Some? && l.usageCount == 0 ==> r.interface.None?
    ensures l.usageCount != 0 ==> r.interface == l.interface && (l.interface.Some? ==> r.pendingClose)
  {
    if l.interface.None? then l
    else if l.usageCount == 0 then ClosedLife(l)
    else l.(pendingClose := true)
  }

  /** A scheduled inactivity check fires: it runs the action only when idle and no newer request was made. */
  function CheckFired(l: Lifecycle, k: nat, action: Option<Handle>): (r: Lifecycle)
    requires k < |l.scheduledChecks|
    ensures |r.scheduledChecks| == |l.scheduledChecks| - 1
    ensures r.interface == l.interface && r.usageCount == l.usageCount
    ensures r.events != l.events ==> l.usageCount == 0 && l.inactivityRequestCount == l.scheduledChecks[k]
  {
    var rest := l.scheduledChecks[..k] + l.scheduledChecks[k + 1..];
    if l.usageCount == 0 && l.inactivityRequestCount == l.scheduledChecks[k] && action.Some? then
      l.(scheduledChecks := rest, events := l.events + [InactivityActionRun(action.value)])
    else l.(scheduledChecks := rest)
  }

  /** `transmitterClosed`: the interface is dropped without closing it, and `connectionWasClosed` is called. */
  function TransmitterClosedState(l: Lifecycle): (r: Lifecycle)
    ensures r.interface.None? && r.usageCount == l.usageCount
  {
    l.(interface := None, events := l.events + [ConnectionWasClosed])
  }

  /** Appends events without touching the counters. */
  function Logged(l: Lifecycle, evs: seq<Event>): Lifecycle
  {
    l.(events := l.events + evs)
  }

  /** The events of calling the error handler, if one is set. */
  function Report(handler: Option<Handle>, message: string): seq<Event>
  {
    if handler.Some? then [ErrorReported(handler.value, message)] else []
  }

  /** `incrementUsageCount` keeps the invariant. */
  lemma IncrementKeepsInv(l: Lifecycle)
    requires Inv(l)
    ensures Inv(Incremented(l))
  {
  }

  /** `decrementUsageCount` keeps the invariant; a newly scheduled check carries the new, largest request number. */
  lemma DecrementKeepsInv(l: Lifecycle, armed: bool)
    requires Inv(l)
    ensures Inv(Decremented(l, armed))
  {
    var r := Decremented(l, armed);
    if l.usageCount == 1 && !l.pendingClose && armed {
      var sc := r.scheduledChecks;
      assert sc == l.scheduledChecks + [l.inactivityRequestCount + 1];
      assert forall i :: 0 <= i < |sc| - 1 ==> sc[i] == l.scheduledChecks[i];
    }
  }

  /** A close request, a peer close and logging keep the invariant. */
  lemma CloseKeepsInv(l: Lifecycle, evs: seq<Event>)
    requires Inv(l)
    ensures Inv(CloseRequested(l))
    ensures Inv(TransmitterClosedState(l))
    ensures Inv(Logged(l, evs))
  {
  }

  /** Firing a check keeps the invariant: removing one request number keeps the rest increasing. */
  lemma CheckFiredKeepsInv(l: Lifecycle, k: nat, action: Option<Handle>)
    requires Inv(l) && k < |l.scheduledChecks|
    ensures Inv(CheckFired(l, k, action))
  {
    var sc := l.scheduledChecks;
    var rest := sc[..k] + sc[k + 1..];
    assert forall i :: 0 <= i < |rest| ==> rest[i] == if i < k then sc[i] else sc[i + 1];
  }

  /** At most one scheduled check can still run the action: the one carrying the current request number. */
  lemma AtMostOneLiveCheck(l: Lifecycle, i: nat, j: nat)
    requires Inv(l) && i < |l.scheduledChecks| && j < |l.scheduledChecks|
    requires l.scheduledChecks[i] == l.inactivityRequestCount == l.scheduledChecks[j]
    ensures i == j
  {
  }

  /** A check fires the action only if it is idle and the newest request. */
  lemma CheckFiresOnlyWhenIdleAndNewest(l: Lifecycle, k: nat, action: Option<Handle>)
    requires k < |l.scheduledChecks|
    ensures CheckFired(l, k, action).events != l.events <==>
              l.usageCount == 0 && l.scheduledChecks[k] == l.inactivityRequestCount && action.Some?
    ensures CheckFired(l, k, action).interface == l.interface
    ensures CheckFired(l, k, action).usageCount == l.usageCount
  {
  }

  /**
   * A usage bracket (increment, then decrement) on an open connection leaves
   * the count, the interface and the pending-close flag as they were, and
   * closes nothing.
   */
  lemma BracketNeutral(l: Lifecycle, armed: bool)
    requires Inv(l) && l.interface.Some?
    ensures Decremented(Incremented(l), armed).usageCount == l.usageCount
    ensures Decremented(Incremented(l), armed).interface == l.interface
    ensures Decremented(Incremented(l), armed).pendingClose == l.pendingClose
    ensures Decremented(Incremented(l), armed).events == l.events
    ensures l.usageCount > 0 ==> Decremented(Incremented(l), armed) == l
  {
  }

  /** `decrementUsageCount` never takes the count below zero. */
  lemma DecrementNeverNegative(l: Lifecycle, armed: bool)
    requires l.usageCount >= 0
    ensures Decremented(l, armed).usageCount == if l.usageCount > 0 then l.usageCount - 1 else 0
  {
  }

  /** A close request on an idle open connection closes it at once. */
  lemma CloseWhenIdle(l: Lifecycle)
    requires l.interface.Some? && l.usageCount == 0
    ensures CloseRequested(l) == ClosedLife(l)
    ensures CloseRequested(l).events == l.events + CloseEvents(l.interface) + [ConnectionWasClosed]
  {
  }

  /** The state after `n` decrements. */
  function DecrementedTimes(l: Lifecycle, armed: bool, n: nat): Lifecycle
  {
    if n == 0 then l else Decremented(DecrementedTimes(l, armed, n - 1), armed)
  }

  /**
   * A close requested while `n` usages are running is deferred: the first
   * `n - 1` decrements keep the interface, and the `n`-th closes it.
   */
  lemma {:induction false} DeferredClose(l: Lifecycle, armed: bool, n: nat)
    requires Inv(l) && l.interface.Some? && l.usageCount == n > 0
    ensures CloseRequested(l).pendingClose
    ensures DecrementedTimes(CloseRequested(l), armed, n - 1).interface == l.interface
    ensures DecrementedTimes(CloseRequested(l), armed, n).interface.None?
    ensures DecrementedTimes(CloseRequested(l), armed, n).events ==
              l.events + CloseEvents(l.interface) + [ConnectionWasClosed]
  {
    PendingCountdown(CloseRequested(l), armed, n - 1);
  }

  /** While a close is pending, decrements only count down until one usage is left. */
  lemma {:induction false} PendingCountdown(l: Lifecycle, armed: bool, k: nat)
    requires l.interface.Some? && l.pendingClose && l.usageCount > k
    ensures DecrementedTimes(l, armed, k) == l.(usageCount := l.usageCount - k)
  {
    if k > 0 {
      PendingCountdown(l, armed, k - 1);
    }
  }

  // ---------------------------------------------------------------------------
  // The connection object
  // ---------------------------------------------------------------------------

  /** A transfer closure waiting on the transmitter queue, with the arguments given to `transfer`. */
  datatype Job = Job(bufferId: int, timeout: Option<real>, callback: Option<Handle>, progress: Option<Handle>)

  /** `TransferResult`. */
  datatype TransferResult = Ready | Timeout | Closed | Error(message: string) | Queued(id: int)

  /** The receiver of the transmitter callbacks: `callback ?? transmitterProtocol ?? self`. */
  function TargetOf(s: Settings, callback: Option<Handle>): (t: Target)
    ensures t.ToSelf? <==> callback.None? && s.transmitterProtocol.None?
    ensures callback.Some? ==> t == ToHandle(callback.value)
    ensures callback.None? && s.transmitterProtocol.Some? ==> t == ToHandle(s.transmitterProtocol.value)
  {
    if callback.Some? then ToHandle(callback.value)
    else if s.transmitterProtocol.Some? then ToHandle(s.transmitterProtocol.value)
    else ToSelf
  }

  /** The transfer call made on the interface when a transfer starts, with its defaults resolved. */
  function StartEvents(s: Settings, interface: TipInterface, timeout: Option<real>, callback: Option<Handle>, progress: Option<Handle>): seq<Event>
  {
    var call := interface.Transfer(Some(timeout.UnwrapOr(s.transmitterTimeoutValue)));
    if call.None? then []
    else [TransferStarted(call.value, TargetOf(s, callback), if progress.Some? then progress else s.transmitterProgressMonitor)]
  }

  /**
   * The transmitter callback that `tipTransfer` makes on the connection itself
   * for its result `sent`: `transmitterReady` does nothing, `transmitterTimeout`
   * and `transmitterError` report and request a close, `transmitterClosed`
   * drops the interface. (`tipTransfer` never produces `.queued`.)
   */
  function SelfCallback(l: Lifecycle, s: Settings, sent: TransferResult): Lifecycle
  {
    match sent
    case Timeout => CloseRequested(Logged(l, Report(s.errorHandler, "Timeout on transmission")))
    case Error(message) => CloseRequested(Logged(l, Report(s.errorHandler, message)))
    case Closed => TransmitterClosedState(l)
    case _ => l
  }

  /**
   * The usage-queue state at the end of a transfer on `interface`, inside the
   * usage bracket: the transfer is started, and when the connection itself is
   * the callback receiver, the callback for the result `sent` has run.
   */
  function Transferred(l: Lifecycle, s: Settings, interface: TipInterface, timeout: Option<real>,
                       callback: Option<Handle>, progress: Option<Handle>, sent: TransferResult): (r: Lifecycle)
    ensures r.usageCount == l.usageCount
    ensures !interface.IsValid() ==> r == l
  {
    var started := Logged(l, StartEvents(s, interface, timeout, callback, progress));
    if interface.IsValid() && TargetOf(s, callback).ToSelf? then SelfCallback(started, s, sent) else started
  }

  /** The events of the closure `startReceiverLoop` queues: the interface's receiver loop, with the connection as receiver. */
  function ReceiverStartEvents(interface: Option<TipInterface>, s: Settings): (r: seq<Event>)
    ensures r != [] <==> interface.Some? && interface.value.IsValid()
    ensures r != [] ==> r == [ReceiverLoopStarted(ReceiverLoopCall(interface.value.socket.value, s.receiverBufferSize, s.receiverLoopDuration))]
  {
    if interface.None? then []
    else
      var call := interface.value.ReceiverLoop(s.receiverBufferSize, s.receiverLoopDuration);
      if call.Some? then [ReceiverLoopStarted(call.value)] else []
  }

  /** Whether `tqueue()` creates a queue and stores it: no queue is set but a QoS is. */
  predicate CreatesQueue(s: Settings)
  {
    s.transmitterQueue.None? && s.transmitterQueueQoS.Some?
  }

  /** The settings after `tqueue()` created and stored the `created`-th queue. */
  function WithCreatedQueue(s: Settings, created: nat): Settings
    requires CreatesQueue(s)
  {
    s.(transmitterQueue := Some(CreatedQueue(created, s.transmitterQueueQoS.value)))
  }

  /**
   * A transfer on an open connection keeps the invariant, whatever callback
   * the connection itself receives during it.
   */
  lemma TransferKeepsInv(l: Lifecycle, s: Settings, interface: TipInterface, timeout: Option<real>,
                         callback: Option<Handle>, progress: Option<Handle>, sent: TransferResult, armed: bool)
    requires Inv(l) && l.interface == Some(interface)
    ensures Inv(Decremented(Transferred(Incremented(l), s, interface, timeout, callback, progress, sent), armed))
    ensures Decremented(Transferred(Incremented(l), s, interface, timeout, callback, progress, sent), armed).usageCount == l.usageCount
  {
    var inc := Incremented(l);
    IncrementKeepsInv(l);
    var started := Logged(inc, StartEvents(s, interface, timeout, callback, progress));
    CloseKeepsInv(inc, StartEvents(s, interface, timeout, callback, progress));
    var mid := Transferred(inc, s, interface, timeout, callback, progress, sent);
    if interface.IsValid() && TargetOf(s, callback).ToSelf? {
      match sent
      case Timeout =>
        CloseKeepsInv(started, Report(s.errorHandler, "Timeout on transmission"));
        CloseKeepsInv(Logged(started, Report(s.errorHandler, "Timeout on transmission")), []);
      case Error(message) =>
        CloseKeepsInv(started, Report(s.errorHandler, message));
        CloseKeepsInv(Logged(started, Report(s.errorHandler, message)), []);
      case Closed =>
        CloseKeepsInv(started, []);
      case _ =>
    }
    DecrementKeepsInv(mid, armed);
  }

  /**
   * A timeout or error reported to the connection itself during a transfer is
   * handled inside the usage bracket: the close request only sets
   * `pendingClose`, and the transfer's own decrement closes the connection
   * when it was the only usage, without scheduling an inactivity check.
   */
  lemma SelfCloseDeferredToTransferEnd(l: Lifecycle, s: Settings, interface: TipInterface, timeout: Option<real>,
                                       callback: Option<Handle>, progress: Option<Handle>, sent: TransferResult, armed: bool)
    requires Inv(l) && l.interface == Some(interface) && interface.IsValid()
    requires TargetOf(s, callback).ToSelf? && (sent.Timeout? || sent.Error?)
    ensures Transferred(Incremented(l), s, interface, timeout, callback, progress, sent).pendingClose
    ensures Transferred(Incremented(l), s, interface, timeout, callback, progress, sent).interface == Some(interface)
    ensures l.usageCount == 0 ==>
              var r := Decremented(Transferred(Incremented(l), s, interface, timeout, callback, progress, sent), armed);
              && r.interface.None?
              && r.scheduledChecks == l.scheduledChecks
              && r.inactivityRequestCount == l.inactivityRequestCount
              && r.events == l.events + StartEvents(s, interface, timeout, callback, progress)
                             + Report(s.errorHandler, if sent.Timeout? then "Timeout on transmission" else sent.message)
                             + CloseEvents(Some(interface)) + [ConnectionWasClosed]
  {
  }

  class Connection {
    /** The option-controlled properties (`transmitterQueue` ... `errorHandler`), kept together as one value. */
    var settings: Settings
    var interface: Option<TipInterface>
    var remoteAddress: string
    var usageCount: int
    var pendingClose: bool
    var inactivityRequestCount: int
    /** Request numbers of the inactivity checks waiting on the inactivity queue. */
    var scheduledChecks: seq<int>
    /** Transfer closures waiting on the transmitter queue, oldest first. */
    var jobs: seq<Job>
    /** How many dispatch queues this object has created. */
    var createdQueues: nat
    var events: seq<Event>

    /** The usage-queue protected fields as one value. */
    function Life(): Lifecycle
      reads this
    {
      Lifecycle(interface, usageCount, pendingClose, inactivityRequestCount, scheduledChecks, events)
    }

    /** `init()`: the property defaults, no interface, nothing counted or pending. */
    constructor ()
      ensures settings == Defaults && remoteAddress == "-"
      ensures Life() == Lifecycle(None, 0, false, 0, [], [])
      ensures jobs == [] && createdQueues == 0
      ensures Inv(Life())
    {
      settings := Defaults;
      interface := None;
      remoteAddress := "-";
      usageCount := 0;
      pendingClose := false;
      inactivityRequestCount := 0;
      scheduledChecks := [];
      jobs := [];
      createdQueues := 0;
      events := [];
    }

    /** `reset()`: defaults again; the inactivity request number, waiting closures and past events are kept. */
    method Reset()
      modifies this
      ensures settings == Defaults && remoteAddress == "-"
      ensures Life() == old(Life()).(interface := None, usageCount := 0, pendingClose := false)
      ensures jobs == old(jobs) && createdQueues == old(createdQueues)
    {
      interface := None;
      remoteAddress := "-";
      settings := Defaults;
      pendingClose := false;
      usageCount := 0;
    }

    /** `setOptions(_:)`: each option in turn writes its field. */
    method SetOptions(options: seq<ConnOption>)
      modifies this
      ensures settings == ApplyAll(old(settings), options)
      ensures Life() == old(Life()) && remoteAddress == old(remoteAddress)
      ensures jobs == old(jobs) && createdQueues == old(createdQueues)
    {
      var i := 0;
      while i < |options|
        invariant 0 <= i <= |options|
        invariant settings == ApplyAll(old(settings), options[..i])
        invariant Life() == old(Life()) && remoteAddress == old(remoteAddress)
        invariant jobs == old(jobs) && createdQueues == old(createdQueues)
      {
        assert options[..i + 1][..i] == options[..i];
        settings := Apply(settings, options[i]);
        i := i + 1;
      }
      assert options[..i] == options;
    }

    /**
     * `prepare(for:remoteAddress:options:)`: fails without a change while an
     * interface is present; otherwise resets, stores the interface and the
     * address, applies the options and succeeds.
     */
    method Prepare(intf: TipInterface, address: string, options: seq<ConnOption>) returns (ok: bool)
      modifies this
      ensures ok <==> old(interface).None?
      ensures !ok ==> settings == old(settings) && Life() == old(Life()) && remoteAddress == old(remoteAddress)
      ensures ok ==> settings == ApplyAll(Defaults, options) && remoteAddress == address
      ensures ok ==> Life() == old(Life()).(interface := Some(intf), usageCount := 0, pendingClose := false)
      ensures jobs == old(jobs) && createdQueues == old(createdQueues)
    {
      if interface.Some? {
        return false;
      }
      Reset();
      interface := Some(intf);
      remoteAddress := address;
      SetOptions(options);
      ok := true;
    }

    /** `incrementUsageCount()`. */
    method IncrementUsageCount()
      modifies this
      ensures Life() == Incremented(old(Life()))
      ensures settings == old(settings) && remoteAddress == old(remoteAddress)
      ensures jobs == old(jobs) && createdQueues == old(createdQueues)
    {
      if interface.Some? {
        usageCount := usageCount + 1;
      }
    }

    /** `_closeConnection()`. */
    method CloseNow()
      modifies this
      ensures Life() == ClosedLife(old(Life()))
      ensures settings == old(settings) && remoteAddress == old(remoteAddress)
      ensures jobs == old(jobs) && createdQueues == old(createdQueues)
    {
      if interface.Some? {
        var next, closed := interface.value.Close();
        if closed.Some? {
          events := events + [SocketClosed(closed.value)];
        }
      }
      interface := None;
      events := events + [ConnectionWasClosed];
    }

    /** `decrementUsageCount()`. */
    method DecrementUsageCount()
      modifies this
      ensures Life() == Decremented(old(Life()), InactivityArmed(old(settings)))
      ensures settings == old(settings) && remoteAddress == old(remoteAddress)
      ensures jobs == old(jobs) && createdQueues == old(createdQueues)
    {
      if usageCount == 0 {
        return;
      }
      usageCount := usageCount - 1;
      if usageCount == 0 {
        if pendingClose {
          CloseNow();
        } else if settings.inactivityAction.Some? && settings.inactivityDetectionThreshold.Some? {
          inactivityRequestCount := inactivityRequestCount + 1;
          scheduledChecks := scheduledChecks + [inactivityRequestCount];
        }
      }
    }

    /** `closeConnection()`, with its usage-queue closure run at the call. */
    method CloseConnection()
      modifies this
      ensures Life() == CloseRequested(old(Life()))
      ensures settings == old(settings) && remoteAddress == old(remoteAddress)
      ensures jobs == old(jobs) && createdQueues == old(createdQueues)
    {
      if interface.None? {
        return;
      }
      if usageCount == 0 {
        CloseNow();
      } else {
        pendingClose := true;
      }
    }

    /** The inactivity check scheduled as `scheduledChecks[k]` runs. */
    method FireInactivityCheck(k: nat)
      requires k < |scheduledChecks|
      modifies this
      ensures Life() == CheckFired(old(Life()), k, old(settings).inactivityAction)
      ensures settings == old(settings) && remoteAddress == old(remoteAddress)
      ensures jobs == old(jobs) && createdQueues == old(createdQueues)
    {
      var myRequestCount := scheduledChecks[k];
      scheduledChecks := scheduledChecks[..k] + scheduledChecks[k + 1..];
      if usageCount == 0 && inactivityRequestCount == myRequestCount && settings.inactivityAction.Some? {
        events := events + [InactivityActionRun(settings.inactivityAction.value)];
      }
    }

    /**
     * `tqueue()`: the transmitter queue when set; else, with a QoS set, a new
     * queue that is stored so the next call returns it; else none.
     */
    method Tqueue() returns (q: Option<Queue>)
      modifies this
      ensures old(settings).transmitterQueue.Some? ==> q == old(settings).transmitterQueue && createdQueues == old(createdQueues)
      ensures old(settings).transmitterQueue.None? && old(settings).transmitterQueueQoS.Some? ==>
                q == Some(CreatedQueue(old(createdQueues), old(settings).transmitterQueueQoS.value)) &&
                createdQueues == old(createdQueues) + 1
      ensures old(settings).transmitterQueue.None? && old(settings).transmitterQueueQoS.None? ==>
                q.None? && createdQueues == old(createdQueues)
      ensures q.Some? <==> old(settings).transmitterQueue.Some? || old(settings).transmitterQueueQoS.Some?
      ensures settings == old(settings).(transmitterQueue := if q.Some? then q else old(settings).transmitterQueue)
      ensures Life() == old(Life()) && remoteAddress == old(remoteAddress) && jobs == old(jobs)
    {
      if settings.transmitterQueue.Some? {
        return settings.transmitterQueue;
      }
      if settings.transmitterQueueQoS.Some? {
        q := Some(CreatedQueue(createdQueues, settings.transmitterQueueQoS.value));
        settings := settings.(transmitterQueue := q);
        createdQueues := createdQueues + 1;
        return q;
      }
      return None;
    }

    /**
     * `transfer(_:timeout:...)` of the buffer `bufferId`. Closed when there
     * is no interface; queued as a job when a transmitter queue is set or can
     * be created; otherwise run inline, where `sent` stands for the result of
     * the socket transfer and an invalid interface gives an error. The usage
     * count is held across the call.
     */
    method Transfer(bufferId: int, timeout: Option<real>, callback: Option<Handle>, progress: Option<Handle>, sent: TransferResult)
      returns (r: TransferResult)
      modifies this
      ensures old(interface).None? ==> r == Closed && Life() == old(Life()) && jobs == old(jobs)
      ensures old(interface).Some? && (old(settings).transmitterQueue.Some? || old(settings).transmitterQueueQoS.Some?) ==>
                r == Queued(bufferId) &&
                jobs == old(jobs) + [Job(bufferId, timeout, callback, progress)] &&
                Life() == Decremented(Incremented(old(Life())), InactivityArmed(old(settings)))
      ensures old(interface).Some? && old(settings).transmitterQueue.None? && old(settings).transmitterQueueQoS.None? ==>
                r == (if old(interface).value.IsValid() then sent else TransferResult.Error("Interface no longer available")) &&
                jobs == old(jobs) &&
                Life() == Decremented(Transferred(Incremented(old(Life())), old(settings), old(interface).value,
                                                  timeout, callback, progress, sent),
                                      InactivityArmed(old(settings)))
      ensures old(interface).Some? && CreatesQueue(old(settings)) ==>
                settings == WithCreatedQueue(old(settings), old(createdQueues)) && createdQueues == old(createdQueues) + 1
      ensures old(interface).None? || !CreatesQueue(old(settings)) ==>
                settings == old(settings) && createdQueues == old(createdQueues)
      ensures Inv(old(Life())) ==> usageCount == old(usageCount)
      ensures remoteAddress == old(remoteAddress)
    {
      IncrementUsageCount();
      if interface.None? {
        return Closed;
      }
      var q := Tqueue();
      if q.Some? {
        jobs := jobs + [Job(bufferId, timeout, callback, progress)];
        r := Queued(bufferId);
      } else {
        r := TransferInline(timeout, callback, progress, sent);
      }
      DecrementUsageCount();
      if old(interface).Some? && old(Inv(Life())) {
        TransferKeepsInv(old(Life()), old(settings), old(interface).value, timeout, callback, progress, sent,
                         InactivityArmed(old(settings)));
        if q.Some? {
          BracketNeutral(old(Life()), InactivityArmed(old(settings)));
        }
      }
    }

    /**
     * The inline part of `transfer`, inside the usage bracket: the interface
     * transfers, and the connection receives the callback for `sent` when it
     * is its own callback receiver.
     */
    method TransferInline(timeout: Option<real>, callback: Option<Handle>, progress: Option<Handle>, sent: TransferResult)
      returns (r: TransferResult)
      requires interface.Some?
      modifies this
      ensures r == (if old(interface).value.IsValid() then sent else TransferResult.Error("Interface no longer available"))
      ensures Life() == Transferred(old(Life()), old(settings), old(interface).value, timeout, callback, progress, sent)
      ensures settings == old(settings) && remoteAddress == old(remoteAddress)
      ensures jobs == old(jobs) && createdQueues == old(createdQueues)
    {
      var intf := interface.value;
      events := events + StartEvents(settings, intf, timeout, callback, progress);
      r := if intf.IsValid() then sent else TransferResult.Error("Interface no longer available");
      if intf.IsValid() && TargetOf(settings, callback).ToSelf? {
        DeliverToSelf(sent);
      }
    }

    /** The transmitter callback `tipTransfer` makes for its result `sent` when the receiver is the connection itself. */
    method DeliverToSelf(sent: TransferResult)
      modifies this
      ensures Life() == SelfCallback(old(Life()), old(settings), sent)
      ensures settings == old(settings) && remoteAddress == old(remoteAddress)
      ensures jobs == old(jobs) && createdQueues == old(createdQueues)
    {
      match sent {
        case Timeout => TransmitterTimeout();
        case Error(message) => ReportErrorAndClose(message);
        case Closed => TransmitterClosed();
        case _ =>
      }
    }

    /**
     * The oldest transfer closure on the transmitter queue runs: it transfers
     * only if the interface is still there; `sent` stands for the result of
     * the socket transfer, which decides the callback the connection receives
     * when it is its own callback receiver.
     */
    method RunTransmitterJob(sent: TransferResult)
      requires |jobs| > 0
      modifies this
      ensures jobs == old(jobs[1..])
      ensures old(interface).None? ==> Life() == old(Life())
      ensures old(interface).Some? ==>
                Life() == Decremented(Transferred(Incremented(old(Life())), old(settings), old(interface).value,
                                                  old(jobs[0]).timeout, old(jobs[0]).callback, old(jobs[0]).progress, sent),
                                      InactivityArmed(old(settings)))
      ensures settings == old(settings) && remoteAddress == old(remoteAddress) && createdQueues == old(createdQueues)
    {
      var job := jobs[0];
      jobs := jobs[1..];
      IncrementUsageCount();
      if interface.None? {
        return;
      }
      var _ := TransferInline(job.timeout, job.callback, job.progress, sent);
      DecrementUsageCount();
    }

    /**
     * `startReceiverLoop()`: picks the receiver queue (or creates one, without
     * storing it), pulses the usage count so that inactivity detection starts,
     * and schedules the loop; `RunReceiverStart` is the scheduled closure.
     */
    method StartReceiverLoop() returns (q: Queue)
      modifies this
      ensures old(settings).receiverQueue.Some? ==> q == old(settings).receiverQueue.value && createdQueues == old(createdQueues)
      ensures old(settings).receiverQueue.None? ==>
                q == CreatedQueue(old(createdQueues), old(settings).receiverQueueQoS) && createdQueues == old(createdQueues) + 1
      ensures Life() == Logged(Decremented(Incremented(old(Life())), InactivityArmed(old(settings))), [ReceiverLoopScheduled(q)])
      ensures settings == old(settings) && remoteAddress == old(remoteAddress) && jobs == old(jobs)
    {
      if settings.receiverQueue.Some? {
        q := settings.receiverQueue.value;
      } else {
        q := CreatedQueue(createdQueues, settings.receiverQueueQoS);
        createdQueues := createdQueues + 1;
      }
      IncrementUsageCount();
      DecrementUsageCount();
      events := events + [ReceiverLoopScheduled(q)];
    }

    /**
     * The closure scheduled by `startReceiverLoop` runs: the interface, if still
     * there, starts its receiver loop with the connection as the receiver. The
     * loop itself is I/O; its calls back into the connection are the
     * `Receiver...` and `Report...` methods.
     */
    method RunReceiverStart()
      modifies this
      ensures Life() == Logged(old(Life()), ReceiverStartEvents(old(interface), old(settings)))
      ensures settings == old(settings) && remoteAddress == old(remoteAddress)
      ensures jobs == old(jobs) && createdQueues == old(createdQueues)
    {
      events := events + ReceiverStartEvents(interface, settings);
    }

    /** `transmitterClosed(_:)`: the peer closed; the interface is dropped and `connectionWasClosed` called. */
    method TransmitterClosed()
      modifies this
      ensures Life() == TransmitterClosedState(old(Life()))
      ensures settings == old(settings) && remoteAddress == old(remoteAddress)
      ensures jobs == old(jobs) && createdQueues == old(createdQueues)
    {
      interface := None;
      events := events + [ConnectionWasClosed];
    }

    /** `transmitterTimeout(_:)`: reports "Timeout on transmission" and requests a close. */
    method TransmitterTimeout()
      modifies this
      ensures Life() == CloseRequested(Logged(old(Life()), Report(old(settings).errorHandler, "Timeout on transmission")))
      ensures settings == old(settings) && remoteAddress == old(remoteAddress)
      ensures jobs == old(jobs) && createdQueues == old(createdQueues)
    {
      events := events + Report(settings.errorHandler, "Timeout on transmission");
      CloseConnection();
    }

    /** `transmitterError(_:_:)` and `receiverError(_:)`: report the message and request a close. */
    method ReportErrorAndClose(message: string)
      modifies this
      ensures Life() == CloseRequested(Logged(old(Life()), Report(old(settings).errorHandler, message)))
      ensures settings == old(settings) && remoteAddress == old(remoteAddress)
      ensures jobs == old(jobs) && createdQueues == old(createdQueues)
    {
      events := events + Report(settings.errorHandler, message);
      CloseConnection();
    }

    /**
     * `receiverData(_:)`: false when no usage could be taken; otherwise the
     * result of `processReceivedData` (given as `processed`), with the usage
     * held around it.
     */
    method ReceiverData(processed: bool) returns (r: bool)
      modifies this
      ensures old(interface).None? ==> !r && Life() == old(Life())
      ensures old(interface).Some? ==>
                r == processed && Life() == Decremented(Incremented(old(Life())), InactivityArmed(old(settings)))
      ensures settings == old(settings) && remoteAddress == old(remoteAddress)
      ensures jobs == old(jobs) && createdQueues == old(createdQueues)
    {
      IncrementUsageCount();
      if interface.None? {
        return false;
      }
      r := processed;
      DecrementUsageCount();
    }
  }
}
