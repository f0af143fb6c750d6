/**
 * The oldest connection class, where the connection is described by an
 * optional `ConnectionType` (a plain socket or an SSL session over a socket)
 * and `nil` means "not prepared or already closed". There is no usage count
 * and no deferred close here: closing happens at once, or as a closure behind
 * the transfers already waiting on the transmitter queue.
 *
 * Its `Option` enumeration is the newer one without the two inactivity
 * options (the newer `transmitterProtocol` is called `transmitterCallback`
 * here), so options and settings are shared with the `Connections` module;
 * the inactivity fields of a typed connection's settings are never written.
 */
module TypedConnections {
  import opened Wrappers
  import Conn = Connections

  /** `ConnectionType`. */
  datatype ConnectionType = Http(socket: Int32) | Https(ssl: Conn.Handle, socket: Int32)

  /** The options of the older `Option` enumeration. */
  type TypedOption = o: Conn.ConnOption | !o.InactivityDetectionThreshold? && !o.InactivityAction?
    witness Conn.TransmitterTimeout(1.0)

  /** The defaults of `reset`: like the newer class, except for a transmitter timeout of 1 s. */
  const TypedDefaults := Conn.Defaults.(transmitterTimeoutValue := 1.0)

  /** The `socket` computed property: the socket of either type, -2 when there is no type. */
  function SocketOf(t: Option<ConnectionType>): (s: Int32)
    ensures t.Some? ==> s == t.value.socket
    ensures t.None? ==> s == -2
  {
    match t
    case Some(Http(sock)) => sock
    case Some(Https(_, sock)) => sock
    case None => -2
  }

  /** The `ssl` computed property: present only for a secure connection. */
  function SslOf(t: Option<ConnectionType>): (r: Option<Conn.Handle>)
    ensures r.Some? <==> t.Some? && t.value.Https?
    ensures r.Some? ==> r.value == t.value.ssl
  {
    match t
    case Some(Http(_)) => None
    case Some(Https(ssl, _)) => Some(ssl)
    case None => None
  }

  /** What the connection does to the outside. */
  datatype TypedEvent =
    | SocketClosed(socket: Int32)
    | SslFreed(ssl: Conn.Handle)
    | ErrorReported(handler: Conn.Handle, message: string)
    | SocketTransfer(socket: Int32, timeout: real, callback: Conn.Target, progress: Option<Conn.Handle>)
    | SslTransfer(ssl: Conn.Handle, timeout: real, callback: Conn.Target, progress: Option<Conn.Handle>)
    | SocketReceiveLoop(socket: Int32, bufferSize: int, duration: real)
    | SslReceiveLoop(ssl: Conn.Handle, bufferSize: int, duration: real)
    | ReceiverLoopScheduled(queue: Conn.Queue)

  /** A closure waiting on the transmitter queue: a transfer of a buffer, or the close behind it. */
  datatype TypedJob = SendJob(bufferId: int) | CloseJob

  /**
   * The effects of `_closeConnection()`: nothing without a type; for a plain
   * socket the socket is closed unless it is negative; for SSL the session is
   * freed and then the socket is closed.
   */
  function CloseEffects(t: Option<ConnectionType>): (r: seq<TypedEvent>)
    ensures t.None? ==> r == []
    ensures SocketClosed(SocketOf(t)) in r <==> t.Some? && (t.value.Https? || t.value.socket >= 0)
    ensures forall h :: SslFreed(h) in r <==> SslOf(t) == Some(h)
    ensures forall e :: e in r ==> e.SocketClosed? || e.SslFreed?
  {
    match t
    case None => []
    case Some(Http(sock)) => if sock >= 0 then [SocketClosed(sock)] else []
    case Some(Https(ssl, sock)) => [SslFreed(ssl), SocketClosed(sock)]
  }

  /**
   * Where the transmitter callbacks of a buffer transfer go:
   * `transmitterCallback ?? self`. The `callback` argument of the buffer
   * `transfer` is not consulted, in the queued and the inline path alike.
   */
  function CallbackTarget(s: Conn.Settings): (t: Conn.Target)
    ensures t.ToSelf? <==> s.transmitterProtocol.None?
    ensures t.ToHandle? ==> t.handle == s.transmitterProtocol.value
  {
    if s.transmitterProtocol.Some? then Conn.ToHandle(s.transmitterProtocol.value) else Conn.ToSelf
  }

  /** The transfer an SSL connection starts, or a plain one on `sock`. */
  function TransferEvent(t: ConnectionType, s: Conn.Settings): TypedEvent
  {
    match t
    case Http(sock) => SocketTransfer(sock, s.transmitterTimeoutValue, CallbackTarget(s), s.transmitterProgressMonitor)
    case Https(ssl, _) => SslTransfer(ssl, s.transmitterTimeoutValue, CallbackTarget(s), s.transmitterProgressMonitor)
  }

  /**
   * The effects of a queued transfer closure when it runs: nothing once the
   * connection is closed (no type) or for a plain socket that is negative,
   * else the transfer.
   */
  function QueuedTransferEffects(t: Option<ConnectionType>, s: Conn.Settings): (r: seq<TypedEvent>)
    ensures r == [] <==> t.None? || (t.value.Http? && t.value.socket < 0)
    ensures r != [] ==> r == [TransferEvent(t.value, s)]
  {
    match t
    case None => []
    case Some(Http(sock)) => if sock >= 0 then [TransferEvent(t.value, s)] else []
    case Some(Https(_, _)) => [TransferEvent(t.value, s)]
  }

  /** The events of calling the error handler with `message`, if one is set. */
  function Reported(s: Conn.Settings, message: string): (r: seq<TypedEvent>)
    ensures |r| <= 1
    ensures r != [] <==> s.errorHandler.Some?
    ensures r != [] ==> r[0] == ErrorReported(s.errorHandler.value, message)
  {
    if s.errorHandler.Some? then [ErrorReported(s.errorHandler.value, message)] else []
  }

  /**
   * The results whose transmitter callback on the connection itself closes
   * it: `transmitterTimeout`, `transmitterError` and `transmitterClosed` all
   * end in `_closeConnection()`; `transmitterReady` does nothing.
   */
  predicate ClosesOnResult(sent: Conn.TransferResult)
  {
    sent.Timeout? || sent.Error? || sent.Closed?
  }

  /**
   * The events of the connection's own callback for the transfer result
   * `sent`: timeout and error are reported to the error handler, and the
   * connection is then closed; closed only closes it.
   */
  function SelfCallbackEvents(t: Option<ConnectionType>, s: Conn.Settings, sent: Conn.TransferResult): (r: seq<TypedEvent>)
    ensures !ClosesOnResult(sent) ==> r == []
    ensures sent.Closed? ==> r == CloseEffects(t)
    ensures forall e :: e in r ==> e.ErrorReported? || e in CloseEffects(t)
  {
    match sent
    case Timeout => Reported(s, "Timeout on transmission") + CloseEffects(t)
    case Error(message) => Reported(s, message) + CloseEffects(t)
    case Closed => CloseEffects(t)
    case _ => []
  }

  /** A closing callback ends with exactly the effects of `_closeConnection()`, after the report if there is one. */
  lemma SelfCallbackEndsWithClose(t: Option<ConnectionType>, s: Conn.Settings, sent: Conn.TransferResult)
    requires ClosesOnResult(sent)
    ensures var r := SelfCallbackEvents(t, s, sent);
      |CloseEffects(t)| <= |r| && r[|r| - |CloseEffects(t)|..] == CloseEffects(t) &&
      (forall e :: e in r[..|r| - |CloseEffects(t)|] ==> e.ErrorReported?)
  {
  }

  /**
   * A transfer on type `t` that ended with `sent`: the transfer is started
   * and, when its callbacks go to the connection itself, that callback runs.
   * The result is the type afterwards and the events.
   */
  function SentEffects(t: ConnectionType, s: Conn.Settings, sent: Conn.TransferResult): (r: (Option<ConnectionType>, seq<TypedEvent>))
    ensures |r.1| >= 1 && r.1[0] == TransferEvent(t, s)
    ensures CallbackTarget(s).ToHandle? || !ClosesOnResult(sent) ==> r == (Some(t), [TransferEvent(t, s)])
    ensures CallbackTarget(s).ToSelf? && ClosesOnResult(sent) ==>
              r.0.None? && r.1 == [TransferEvent(t, s)] + SelfCallbackEvents(Some(t), s, sent)
  {
    if CallbackTarget(s).ToSelf? && ClosesOnResult(sent) then (None, [TransferEvent(t, s)] + SelfCallbackEvents(Some(t), s, sent))
    else (Some(t), [TransferEvent(t, s)])
  }

  /**
   * A failed transfer whose callbacks go to the connection itself closes it
   * on the spot: the SSL session and the socket are released as by
   * `_closeConnection()`, the type is gone, and a close or transfer queued
   * behind it does nothing more.
   */
  lemma FailedSelfTransferCloses(t: ConnectionType, s: Conn.Settings, sent: Conn.TransferResult)
    requires CallbackTarget(s).ToSelf? && ClosesOnResult(sent)
    ensures var (after, evs) := SentEffects(t, s, sent);
      && after.None? && SocketOf(after) == -2
      && (SocketClosed(t.socket) in evs <==> t.Https? || t.socket >= 0)
      && (t.Https? ==> SslFreed(t.ssl) in evs)
      && CloseEffects(after) == [] && QueuedTransferEffects(after, s) == []
  {
    var (after, evs) := SentEffects(t, s, sent);
    var c := CloseEffects(Some(t));
    SelfCallbackEndsWithClose(Some(t), s, sent);
    assert evs[1..] == SelfCallbackEvents(Some(t), s, sent);
    assert evs[1..][|evs[1..]| - |c|..] == c;
    assert forall e :: e in c ==> e in evs[1..];
    assert evs[0].SocketTransfer? || evs[0].SslTransfer?;
    assert forall e :: e in evs[1..] ==> e.ErrorReported? || e in c;
    assert evs == [evs[0]] + evs[1..];
  }

  /**
   * The result of an inline transfer: an error without a type, else the
   * result of the socket or SSL transfer (given as `sent`). Unlike the queued
   * closure, an inline transfer does not check the sign of the socket.
   */
  function InlineResult(t: Option<ConnectionType>, sent: Conn.TransferResult): (r: Conn.TransferResult)
    ensures t.None? ==> r == Conn.TransferResult.Error("No type specified")
    ensures t.Some? ==> r == sent
  {
    if t.None? then Conn.TransferResult.Error("No type specified") else sent
  }

  /** The receiver loop the `startReceiverLoop` closure starts when it runs, if the connection still has a type. */
  function ReceiveLoopEffects(t: Option<ConnectionType>, s: Conn.Settings): (r: seq<TypedEvent>)
    ensures r == [] <==> t.None?
    ensures t.Some? && t.value.Http? ==> r == [SocketReceiveLoop(t.value.socket, s.receiverBufferSize, s.receiverLoopDuration)]
    ensures t.Some? && t.value.Https? ==> r == [SslReceiveLoop(t.value.ssl, s.receiverBufferSize, s.receiverLoopDuration)]
  {
    match t
    case None => []
    case Some(Http(sock)) => [SocketReceiveLoop(sock, s.receiverBufferSize, s.receiverLoopDuration)]
    case Some(Https(ssl, _)) => [SslReceiveLoop(ssl, s.receiverBufferSize, s.receiverLoopDuration)]
  }

  /**
   * Only the first close has an effect: afterwards `socket` reads -2, `ssl`
   * is nil, and a further close, queued transfer or receiver start does
   * nothing.
   */
  lemma CloseIsFinal(s: Conn.Settings)
    ensures SocketOf(None) == -2 && SslOf(None).None?
    ensures CloseEffects(None) == []
    ensures QueuedTransferEffects(None, s) == []
    ensures ReceiveLoopEffects(None, s) == []
  {
  }

  /** Every option of the older enumeration leaves the inactivity fields alone. */
  lemma {:induction false} TypedOptionsKeepInactivity(s: Conn.Settings, options: seq<TypedOption>)
    ensures Conn.ApplyAll(s, options).inactivityDetectionThreshold == s.inactivityDetectionThreshold
    ensures Conn.ApplyAll(s, options).inactivityAction == s.inactivityAction
  {
    if options != [] {
      TypedOptionsKeepInactivity(s, options[..|options| - 1]);
    }
  }

  class TypedConnection {
    /** The option-controlled properties, kept together as one value. */
    var settings: Conn.Settings
    /** `type`: nil before `prepare` and after a close. */
    var connType: Option<ConnectionType>
    var remoteAddress: string
    /** Closures waiting on the transmitter queue, oldest first. */
    var jobs: seq<TypedJob>
    /** How many dispatch queues this object has created. */
    var createdQueues: nat
    var events: seq<TypedEvent>

    /** `init()`: the declared property values and no type. */
    constructor ()
      ensures settings == TypedDefaults && connType.None? && remoteAddress == "-"
      ensures jobs == [] && createdQueues == 0 && events == []
    {
      settings := TypedDefaults;
      connType := None;
      remoteAddress := "-";
      jobs := [];
      createdQueues := 0;
      events := [];
    }

    /** `reset()`. */
    method Reset()
      modifies this
      ensures settings == TypedDefaults && connType.None? && remoteAddress == "-"
      ensures jobs == old(jobs) && createdQueues == old(createdQueues) && events == old(events)
    {
      connType := None;
      remoteAddress := "-";
      settings := TypedDefaults;
    }

    /** `setOptions(_:)`: each option in turn writes its field. */
    method SetOptions(options: seq<TypedOption>)
      modifies this
      ensures settings == Conn.ApplyAll(old(settings), options)
      ensures connType == old(connType) && remoteAddress == old(remoteAddress)
      ensures jobs == old(jobs) && createdQueues == old(createdQueues) && events == old(events)
    {
      var i := 0;
      while i < |options|
        invariant 0 <= i <= |options|
        invariant settings == Conn.ApplyAll(old(settings), options[..i])
        invariant connType == old(connType) && remoteAddress == old(remoteAddress)
        invariant jobs == old(jobs) && createdQueues == old(createdQueues) && events == old(events)
      {
        assert options[..i + 1][..i] == options[..i];
        settings := Conn.Apply(settings, options[i]);
        i := i + 1;
      }
      assert options[..i] == options;
    }

    /** `prepare(forType:remoteAddress:options:)`: fails without a change while a type is present. */
    method Prepare(t: ConnectionType, address: string, options: seq<TypedOption>) returns (ok: bool)
      modifies this
      ensures ok <==> old(connType).None?
      ensures !ok ==> settings == old(settings) && connType == old(connType) && remoteAddress == old(remoteAddress)
      ensures ok ==> settings == Conn.ApplyAll(TypedDefaults, options) && connType == Some(t) && remoteAddress == address
      ensures jobs == old(jobs) && createdQueues == old(createdQueues) && events == old(events)
    {
      if connType.Some? {
        return false;
      }
      Reset();
      connType := Some(t);
      remoteAddress := address;
      SetOptions(options);
      ok := true;
    }

    /** `tqueue()`: the transmitter queue, else a stored new one when a QoS is set, else none. */
    method Tqueue() returns (q: Option<Conn.Queue>)
      modifies this
      ensures old(settings).transmitterQueue.Some? ==> q == old(settings).transmitterQueue && createdQueues == old(createdQueues)
      ensures old(settings).transmitterQueue.None? && old(settings).transmitterQueueQoS.Some? ==>
                q == Some(Conn.CreatedQueue(old(createdQueues), old(settings).transmitterQueueQoS.value)) &&
                createdQueues == old(createdQueues) + 1
      ensures old(settings).transmitterQueue.None? && old(settings).transmitterQueueQoS.None? ==>
                q.None? && createdQueues == old(createdQueues)
      ensures settings == old(settings).(transmitterQueue := if q.Some? then q else old(settings).transmitterQueue)
      ensures connType == old(connType) && remoteAddress == old(remoteAddress)
      ensures jobs == old(jobs) && events == old(events)
    {
      if settings.transmitterQueue.Some? {
        return settings.transmitterQueue;
      }
      if settings.transmitterQueueQoS.Some? {
        q := Some(Conn.CreatedQueue(createdQueues, settings.transmitterQueueQoS.value));
        settings := settings.(transmitterQueue := q);
        createdQueues := createdQueues + 1;
        return q;
      }
      return None;
    }

    /**
     * `transfer(_:callback:)` of the buffer `bufferId`: queued (nil result)
     * when a transmitter queue is set or can be created, else inline with the
     * result of the socket or SSL transfer given as `sent`. The `callback`
     * argument is accepted and, as in the source, never used: no clause below
     * depends on it. The transfer functions called here make one callback for
     * their result; when it goes to the connection itself, a failure closes
     * the connection before the result is returned.
     */
    method Transfer(bufferId: int, callback: Option<Conn.Handle>, sent: Conn.TransferResult)
      returns (r: Option<Conn.TransferResult>)
      modifies this
      ensures old(settings).transmitterQueue.Some? || old(settings).transmitterQueueQoS.Some? ==>
                r.None? && jobs == old(jobs) + [SendJob(bufferId)] && connType == old(connType) && events == old(events)
      ensures old(settings).transmitterQueue.None? && old(settings).transmitterQueueQoS.None? ==>
                r == Some(InlineResult(old(connType), sent)) && jobs == old(jobs)
      ensures old(settings).transmitterQueue.None? && old(settings).transmitterQueueQoS.None? && old(connType).None? ==>
                connType.None? && events == old(events)
      ensures old(settings).transmitterQueue.None? && old(settings).transmitterQueueQoS.None? && old(connType).Some? ==>
                connType == SentEffects(old(connType).value, old(settings), sent).0 &&
                events == old(events) + SentEffects(old(connType).value, old(settings), sent).1
      ensures Conn.CreatesQueue(old(settings)) ==>
                settings == Conn.WithCreatedQueue(old(settings), old(createdQueues)) && createdQueues == old(createdQueues) + 1
      ensures !Conn.CreatesQueue(old(settings)) ==> settings == old(settings) && createdQueues == old(createdQueues)
      ensures remoteAddress == old(remoteAddress)
    {
      var q := Tqueue();
      if q.Some? {
        jobs := jobs + [SendJob(bufferId)];
        return None;
      }
      r := Some(InlineResult(connType, sent));
      if connType.Some? {
        SendOn(sent);
      }
    }

    /** A transfer on the current type that ends with `sent`, with the connection's own callback when it is the receiver. */
    method SendOn(sent: Conn.TransferResult)
      requires connType.Some?
      modifies this
      ensures connType == SentEffects(old(connType).value, old(settings), sent).0
      ensures events == old(events) + SentEffects(old(connType).value, old(settings), sent).1
      ensures settings == old(settings) && remoteAddress == old(remoteAddress)
      ensures jobs == old(jobs) && createdQueues == old(createdQueues)
    {
      events := events + [TransferEvent(connType.value, settings)];
      if CallbackTarget(settings).ToSelf? {
        DeliverToSelf(sent);
      }
    }

    /**
     * The connection's own transmitter callback for the result `sent`:
     * `transmitterTimeout`, `transmitterError`, `transmitterClosed`, or
     * `transmitterReady`, which does nothing.
     */
    method DeliverToSelf(sent: Conn.TransferResult)
      modifies this
      ensures connType == if ClosesOnResult(sent) then None else old(connType)
      ensures events == old(events) + SelfCallbackEvents(old(connType), old(settings), sent)
      ensures settings == old(settings) && remoteAddress == old(remoteAddress)
      ensures jobs == old(jobs) && createdQueues == old(createdQueues)
    {
      ghost var before := connType;
      if sent.Timeout? {
        ReportAndClose("Timeout on transmission");
      } else if sent.Error? {
        ReportAndClose(sent.message);
      } else if sent.Closed? {
        CloseNow();
      }
      assert SelfCallbackEvents(before, settings, sent) ==
        (if sent.Timeout? then Reported(settings, "Timeout on transmission") + CloseEffects(before)
         else if sent.Error? then Reported(settings, sent.message) + CloseEffects(before)
         else if sent.Closed? then CloseEffects(before) else []);
    }

    /** `_closeConnection()`: release the socket and the SSL session, and forget the type. */
    method CloseNow()
      modifies this
      ensures connType.None? && events == old(events) + CloseEffects(old(connType))
      ensures settings == old(settings) && remoteAddress == old(remoteAddress)
      ensures jobs == old(jobs) && createdQueues == old(createdQueues)
    {
      match connType {
        case None =>
        case Some(Http(sock)) =>
          if sock >= 0 {
            events := events + [SocketClosed(sock)];
          }
          connType := None;
        case Some(Https(ssl, sock)) =>
          events := events + [SslFreed(ssl), SocketClosed(sock)];
          connType := None;
      }
    }

    /** `closeConnection()`: behind the waiting transfers when there is a transmitter queue, else at once. */
    method CloseConnection()
      modifies this
      ensures old(settings).transmitterQueue.Some? || old(settings).transmitterQueueQoS.Some? ==>
                jobs == old(jobs) + [CloseJob] && connType == old(connType) && events == old(events)
      ensures old(settings).transmitterQueue.None? && old(settings).transmitterQueueQoS.None? ==>
                jobs == old(jobs) && connType.None? && events == old(events) + CloseEffects(old(connType))
      ensures Conn.CreatesQueue(old(settings)) ==>
                settings == Conn.WithCreatedQueue(old(settings), old(createdQueues)) && createdQueues == old(createdQueues) + 1
      ensures !Conn.CreatesQueue(old(settings)) ==> settings == old(settings) && createdQueues == old(createdQueues)
      ensures remoteAddress == old(remoteAddress)
    {
      var q := Tqueue();
      if q.Some? {
        jobs := jobs + [CloseJob];
      } else {
        CloseNow();
      }
    }

    /**
     * The oldest closure on the transmitter queue runs. A send that starts a
     * transfer ends with the result `sent`, and the connection's own callback
     * runs when it is the receiver.
     */
    method RunTransmitterJob(sent: Conn.TransferResult)
      requires |jobs| > 0
      modifies this
      ensures jobs == old(jobs[1..])
      ensures old(jobs[0]).SendJob? && QueuedTransferEffects(old(connType), old(settings)) == [] ==>
                connType == old(connType) && events == old(events)
      ensures old(jobs[0]).SendJob? && QueuedTransferEffects(old(connType), old(settings)) != [] ==>
                connType == SentEffects(old(connType).value, old(settings), sent).0 &&
                events == old(events) + SentEffects(old(connType).value, old(settings), sent).1
      ensures old(jobs[0]).CloseJob? ==> connType.None? && events == old(events) + CloseEffects(old(connType))
      ensures settings == old(settings) && remoteAddress == old(remoteAddress) && createdQueues == old(createdQueues)
    {
      var job := jobs[0];
      jobs := jobs[1..];
      match job {
        case SendJob(_) =>
          if QueuedTransferEffects(connType, settings) != [] {
            SendOn(sent);
          }
        case CloseJob =>
          CloseNow();
      }
    }

    /**
     * `startReceiverLoop()`: the receiver queue, or a new one for the
     * receiver QoS (not stored), on which the loop's start is scheduled;
     * `RunReceiverStart` is that closure.
     */
    method StartReceiverLoop() returns (q: Conn.Queue)
      modifies this
      ensures old(settings).receiverQueue.Some? ==> q == old(settings).receiverQueue.value && createdQueues == old(createdQueues)
      ensures old(settings).receiverQueue.None? ==>
                q == Conn.CreatedQueue(old(createdQueues), old(settings).receiverQueueQoS) && createdQueues == old(createdQueues) + 1
      ensures events == old(events) + [ReceiverLoopScheduled(q)]
      ensures settings == old(settings) && connType == old(connType) && remoteAddress == old(remoteAddress)
      ensures jobs == old(jobs)
    {
      if settings.receiverQueue.Some? {
        q := settings.receiverQueue.value;
      } else {
        q := Conn.CreatedQueue(createdQueues, settings.receiverQueueQoS);
        createdQueues := createdQueues + 1;
      }
      events := events + [ReceiverLoopScheduled(q)];
    }

    /** The closure scheduled by `startReceiverLoop` runs: it starts the loop that matches the type, if any. */
    method RunReceiverStart()
      modifies this
      ensures events == old(events) + ReceiveLoopEffects(old(connType), old(settings))
      ensures settings == old(settings) && connType == old(connType) && remoteAddress == old(remoteAddress)
      ensures jobs == old(jobs) && createdQueues == old(createdQueues)
    {
      events := events + ReceiveLoopEffects(connType, settings);
    }

    /**
     * `transmitterTimeout()`, `transmitterError(_:)` and `receiverError(_:)`:
     * the message goes to the error handler, if any, and the connection is
     * closed at once.
     */
    method ReportAndClose(message: string)
      modifies this
      ensures connType.None?
      ensures events == old(events) + Reported(old(settings), message) + CloseEffects(old(connType))
      ensures settings == old(settings) && remoteAddress == old(remoteAddress)
      ensures jobs == old(jobs) && createdQueues == old(createdQueues)
    {
      events := events + Reported(settings, message);
      CloseNow();
    }
  }
}
