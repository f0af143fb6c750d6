/**
 * `TipInterface`, the POSIX implementation of the interface a connection uses:
 * a value holding an optional socket. Validity, the log id, closing and the
 * guards in front of the transfer and the receiver loop are modelled; the
 * transfer and the loop themselves are I/O, so the guards return the call they
 * would make instead of making it.
 */
module Tip {
  import opened Wrappers

  /** The timeout a transfer uses when the caller gives none, in seconds. */
  const DefaultTransferTimeout: real := 10.0
  /** The default `bufferSize` of `receiverLoop`. */
  const DefaultReceiveBufferSize: int := 20 * 1024
  /** The default `duration` of `receiverLoop`, in seconds. */
  const DefaultReceiveDuration: real := 10.0

  /** The call `transfer` hands on to `tipTransfer`. */
  datatype TransferCall = TransferCall(socket: Int32, timeout: real)

  /** The call `receiverLoop` hands on to `tipReceiverLoop`. */
  datatype ReceiverLoopCall = ReceiverLoopCall(socket: Int32, bufferSize: int, duration: real)

  datatype TipInterface = TipInterface(socket: Option<Int32>)
  {
    /** `isValid`: there is a socket and it is not negative. */
    predicate IsValid()
      ensures IsValid() <==> socket.UnwrapOr(-1) >= 0
    {
      socket.Some? && socket.value >= 0
    }

    /** `logId`: the socket, or -1 when there is none. */
    function LogId(): (id: Int32)
      ensures socket.Some? ==> id == socket.value
      ensures socket.None? ==> id == -1
      ensures IsValid() ==> id >= 0
    {
      socket.UnwrapOr(-1)
    }

    /**
     * `close()`: a valid interface closes its socket and forgets it; an
     * invalid one is left as it is. `closed` is the socket passed to
     * `closeSocket`, if any.
     */
    method Close() returns (next: TipInterface, closed: Option<Int32>)
      ensures next == AfterClose()
      ensures closed.Some? <==> IsValid()
      ensures closed.Some? ==> closed == socket
    {
      if IsValid() {
        closed := socket;
        next := TipInterface(None);
      } else {
        closed := None;
        next := this;
      }
    }

    /** The value `close()` leaves behind. */
    function AfterClose(): (next: TipInterface)
      ensures !next.IsValid()
      ensures IsValid() ==> next.socket.None?
      ensures !IsValid() ==> next == this
    {
      if IsValid() then TipInterface(None) else this
    }

    /** `transfer`: nothing for an invalid interface, else a transfer on the socket with a timeout of 10 s when none is given. */
    function Transfer(timeout: Option<real>): (call: Option<TransferCall>)
      ensures call.Some? <==> IsValid()
      ensures call.Some? ==> call.value.socket == socket.value
      ensures call.Some? && timeout.Some? ==> call.value.timeout == timeout.value
      ensures call.Some? && timeout.None? ==> call.value.timeout == DefaultTransferTimeout
    {
      if IsValid() then Some(TransferCall(socket.value, timeout.UnwrapOr(DefaultTransferTimeout))) else None
    }

    /** `receiverLoop`: nothing for an invalid interface, else the loop on the socket with the given parameters. */
    function ReceiverLoop(bufferSize: int, duration: real): (call: Option<ReceiverLoopCall>)
      ensures call.Some? <==> IsValid()
      ensures call.Some? ==> call.value == ReceiverLoopCall(socket.value, bufferSize, duration)
    {
      if IsValid() then Some(ReceiverLoopCall(socket.value, bufferSize, duration)) else None
    }
  }

  /** `init(_ socket:)` stores the socket it is given. */
  function Init(socket: Int32): (t: TipInterface)
    ensures t.socket == Some(socket)
    ensures t.IsValid() <==> socket >= 0
    ensures t.LogId() == socket
  {
    TipInterface(Some(socket))
  }

  /** `close()` is idempotent, and a closed interface starts no transfer and no receiver loop. */
  lemma CloseIdempotent(t: TipInterface)
    ensures t.AfterClose().AfterClose() == t.AfterClose()
    ensures t.AfterClose().Transfer(None).None?
    ensures t.AfterClose().ReceiverLoop(DefaultReceiveBufferSize, DefaultReceiveDuration).None?
  {
  }

  /** After `close()` the log id is -1, or the negative socket that made the interface invalid. */
  lemma LogIdAfterClose(t: TipInterface)
    ensures t.AfterClose().LogId() < 0
  {
  }
}
