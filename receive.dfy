/**
 * End-of-data detection for chunked reception and the mapping of a receive
 * result onto a byte count or an exception.
 *
 * A `JsonEndDetector` is fed the received bytes block by block. It scans for
 * the `}` that balances the braces seen so far, ignoring braces inside JSON
 * strings (with their `\` escapes and `\uXXXX` sequences). Its phase and brace
 * counters live in fields, so the scan of one block continues where the
 * previous one stopped.
 */
module Receive {
  import opened Wrappers

  type byte = bv8

  const BraceOpen: byte := 0x7B
  const BraceClose: byte := 0x7D
  const DoubleQuote: byte := 0x22
  const Backslash: byte := 0x5C
  const LetterU: byte := 0x75

  // ---------------------------------------------------------------------------
  // The base detector
  // ---------------------------------------------------------------------------

  /** The base class: it never detects an end, so reception stops only on a full buffer, a timeout or a close. */
  class DataEndDetector {
    constructor () {}

    method EndReached(buffer: seq<byte>) returns (r: bool)
      ensures !r
    {
      r := false;
    }
  }

  // ---------------------------------------------------------------------------
  // Reference scan of the JSON detector
  // ---------------------------------------------------------------------------

  datatype ScanPhase = Normal | InString | Escaped | Hex1 | Hex2 | Hex3 | Hex4

  /** The detector's fields as one value: the phase and the two brace counters. */
  datatype ScanState = ScanState(phase: ScanPhase, opening: int, closing: int)

  /** The state of a freshly created detector. */
  const Initial := ScanState(Normal, 0, 0)

  /** The state after one byte has been scanned. */
  function Step(st: ScanState, b: byte): (r: ScanState)
    ensures r.opening == st.opening + (if st.phase == Normal && b == BraceOpen then 1 else 0)
    ensures r.closing == st.closing + (if st.phase == Normal && b == BraceClose then 1 else 0)
  {
    match st.phase
    case Normal =>
      if b == BraceOpen then st.(opening := st.opening + 1)
      else if b == BraceClose then st.(closing := st.closing + 1)
      else if b == DoubleQuote then st.(phase := InString)
      else st
    case InString =>
      if b == DoubleQuote then st.(phase := Normal)
      else if b == Backslash then st.(phase := Escaped)
      else st
    case Escaped =>
      if b == LetterU then st.(phase := Hex1) else st.(phase := InString)
    case Hex1 => st.(phase := Hex2)
    case Hex2 => st.(phase := Hex3)
    case Hex3 => st.(phase := Hex4)
    case Hex4 => st.(phase := InString)
  }

  /** Scanning byte `b` in state `st` ends the message: a `}` outside a string that balances the braces. */
  predicate EndsAt(st: ScanState, b: byte)
  {
    st.phase == Normal && b == BraceClose && st.opening == st.closing + 1
  }

  /** The state after every byte of `bytes` has been scanned, none of them treated as an end. */
  function Feed(st: ScanState, bytes: seq<byte>): ScanState
  {
    if bytes == [] then st else Step(Feed(st, bytes[..|bytes| - 1]), bytes[|bytes| - 1])
  }

  /** The index of the first byte of `bytes` that ends the message when scanning starts in `st`. */
  function FirstEnd(st: ScanState, bytes: seq<byte>): (r: Option<nat>)
    ensures r.Some? ==> r.value < |bytes|
  {
    if bytes == [] then None
    else
      var init := bytes[..|bytes| - 1];
      var p := FirstEnd(st, init);
      if p.Some? then p
      else if EndsAt(Feed(st, init), bytes[|bytes| - 1]) then Some(|bytes| - 1)
      else None
  }

  /** The state a detector is left in after one call on `bytes`: it stops right after an end. */
  function StateAfter(st: ScanState, bytes: seq<byte>): ScanState
  {
    match FirstEnd(st, bytes)
    case None => Feed(st, bytes)
    case Some(k) => Feed(st, bytes[..k + 1])
  }

  // ---------------------------------------------------------------------------
  // The detector object
  // ---------------------------------------------------------------------------

  class JsonEndDetector {
    var scanPhase: ScanPhase
    var countOpeningBraces: int
    var countClosingBraces: int

    function State(): ScanState
      reads this
    {
      ScanState(scanPhase, countOpeningBraces, countClosingBraces)
    }

    constructor ()
      ensures State() == Initial
    {
      scanPhase := Normal;
      countOpeningBraces := 0;
      countClosingBraces := 0;
    }

    /**
     * Scans `buffer` from the current state. Returns true at the first byte
     * that ends the message and leaves the rest of the buffer unscanned.
     */
    method EndReached(buffer: seq<byte>) returns (r: bool)
      modifies this
      ensures r <==> FirstEnd(old(State()), buffer).Some?
      ensures State() == StateAfter(old(State()), buffer)
    {
      ghost var start := State();
      var i := 0;
      while i < |buffer|
        invariant 0 <= i <= |buffer|
        invariant State() == Feed(start, buffer[..i])
        invariant FirstEnd(start, buffer[..i]) == None
      {
        var b := buffer[i];
        assert buffer[..i + 1][..i] == buffer[..i];
        match scanPhase {
        case Normal =>
          if b == BraceOpen {
            countOpeningBraces := countOpeningBraces + 1;
          } else if b == BraceClose {
            countClosingBraces := countClosingBraces + 1;
            if countOpeningBraces == countClosingBraces {
              assert FirstEnd(start, buffer[..i + 1]) == Some(i);
              FirstEndExtends(start, buffer[..i + 1], buffer[i + 1..]);
              assert buffer[..i + 1] + buffer[i + 1..] == buffer;
              return true;
            }
          } else if b == DoubleQuote {
            scanPhase := InString;
          }
        case InString =>
          if b == DoubleQuote {
            scanPhase := Normal;
          } else if b == Backslash {
            scanPhase := Escaped;
          }
        case Escaped =>
          if b == LetterU {
            scanPhase := Hex1;
          } else {
            scanPhase := InString;
          }
        case Hex1 =>
          scanPhase := Hex2;
        case Hex2 =>
          scanPhase := Hex3;
        case Hex3 =>
          scanPhase := Hex4;
        case Hex4 =>
          scanPhase := InString;
        }
        i := i + 1;
      }
      assert buffer[..i] == buffer;
      return false;
    }
  }

  // ---------------------------------------------------------------------------
  // Properties of the scan
  // ---------------------------------------------------------------------------

  /** Once an end has been found in a prefix, appending bytes does not move it. */
  lemma {:induction false} FirstEndExtends(st: ScanState, a: seq<byte>, b: seq<byte>)
    requires FirstEnd(st, a).Some?
    ensures FirstEnd(st, a + b) == FirstEnd(st, a)
  {
    if b == [] {
      assert a + b == a;
    } else {
      var ab := a + b;
      FirstEndExtends(st, a, b[..|b| - 1]);
      assert ab[..|ab| - 1] == a + b[..|b| - 1];
    }
  }

  /** The number of occurrences of `b` in `bytes`. */
  function Occurrences(bytes: seq<byte>, b: byte): nat
  {
    if bytes == [] then 0
    else Occurrences(bytes[..|bytes| - 1], b) + (if bytes[|bytes| - 1] == b then 1 else 0)
  }

  /**
   * Outside strings the detector only counts: without any `"` the phase stays
   * NORMAL, every `{` and `}` is counted and nothing else changes.
   */
  lemma {:induction false} CountsBracesOutsideStrings(st: ScanState, bytes: seq<byte>)
    requires st.phase == Normal
    requires forall i :: 0 <= i < |bytes| ==> bytes[i] != DoubleQuote
    ensures Feed(st, bytes) == ScanState(Normal, st.opening + Occurrences(bytes, BraceOpen),
                                         st.closing + Occurrences(bytes, BraceClose))
  {
    if bytes != [] {
      CountsBracesOutsideStrings(st, bytes[..|bytes| - 1]);
    }
  }

  /** Inside a string, bytes other than `"` and `\` change nothing and never end the message. */
  lemma {:induction false} StringContentIgnored(st: ScanState, bytes: seq<byte>)
    requires st.phase == InString
    requires forall i :: 0 <= i < |bytes| ==> bytes[i] != DoubleQuote && bytes[i] != Backslash
    ensures Feed(st, bytes) == st
    ensures FirstEnd(st, bytes) == None
  {
    if bytes != [] {
      StringContentIgnored(st, bytes[..|bytes| - 1]);
    }
  }

  /**
   * A quoted string in NORMAL, whose content holds no `"` and no `\`, is skipped
   * as a whole: braces inside it are not counted and cannot end the message.
   */
  lemma QuotedStringSkipped(st: ScanState, content: seq<byte>)
    requires st.phase == Normal
    requires forall i :: 0 <= i < |content| ==> content[i] != DoubleQuote && content[i] != Backslash
    ensures Feed(st, [DoubleQuote] + content + [DoubleQuote]) == st
    ensures FirstEnd(st, [DoubleQuote] + content + [DoubleQuote]) == None
  {
    var open := [DoubleQuote];
    FeedSnoc(st, [], DoubleQuote);
    FirstEndSnoc(st, [], DoubleQuote);
    assert [] + open == open;
    var inside := st.(phase := InString);
    assert Feed(st, open) == inside;
    StringContentIgnored(inside, content);
    FeedConcat(st, open, content);
    FirstEndConcat(st, open, content);
    FeedSnoc(st, open + content, DoubleQuote);
    FirstEndSnoc(st, open + content, DoubleQuote);
  }

  /** Scanning one more byte. */
  lemma FeedSnoc(st: ScanState, a: seq<byte>, b: byte)
    ensures Feed(st, a + [b]) == Step(Feed(st, a), b)
  {
    assert (a + [b])[..|a|] == a;
  }

  /** Searching one more byte: an earlier end stays, otherwise the new byte may end the message. */
  lemma FirstEndSnoc(st: ScanState, a: seq<byte>, b: byte)
    ensures FirstEnd(st, a + [b]) ==
              if FirstEnd(st, a).Some? then FirstEnd(st, a)
              else if EndsAt(Feed(st, a), b) then Some(|a|)
              else None
  {
    assert (a + [b])[..|a|] == a;
  }

  /** A `\` followed by any byte but `u` is an escape: the string goes on, even for `\"`. */
  lemma EscapeStaysInString(st: ScanState, c: byte)
    requires st.phase == InString && c != LetterU
    ensures Feed(st, [Backslash, c]) == st
    ensures FirstEnd(st, [Backslash, c]) == None
  {
    FeedSnoc(st, [], Backslash);
    FirstEndSnoc(st, [], Backslash);
    FeedSnoc(st, [Backslash], c);
    FirstEndSnoc(st, [Backslash], c);
    assert [] + [Backslash] == [Backslash];
    assert [Backslash] + [c] == [Backslash, c];
  }

  /** After `\u` exactly four bytes are skipped, whatever they are, and the string goes on. */
  lemma UnicodeEscapeSkipsFour(st: ScanState, hex: seq<byte>)
    requires st.phase == InString && |hex| == 4
    ensures Feed(st, [Backslash, LetterU] + hex) == st
    ensures FirstEnd(st, [Backslash, LetterU] + hex) == None
  {
    var s := [Backslash, LetterU] + hex;
    var phases := [InString, Escaped, Hex1, Hex2, Hex3, Hex4, InString];
    var i := 0;
    while i < |s|
      invariant 0 <= i <= |s|
      invariant Feed(st, s[..i]) == st.(phase := phases[i])
      invariant FirstEnd(st, s[..i]) == None
    {
      assert s[..i + 1] == s[..i] + [s[i]];
      FeedSnoc(st, s[..i], s[i]);
      FirstEndSnoc(st, s[..i], s[i]);
      i := i + 1;
    }
    assert s[..6] == s;
  }

  /** Scanning `a + b` is scanning `a` and then scanning `b` from where `a` left off. */
  lemma {:induction false} FeedConcat(st: ScanState, a: seq<byte>, b: seq<byte>)
    ensures Feed(st, a + b) == Feed(Feed(st, a), b)
  {
    if b == [] {
      assert a + b == a;
    } else {
      var bi, x := b[..|b| - 1], b[|b| - 1];
      assert a + b == (a + bi) + [x] && b == bi + [x];
      FeedConcat(st, a, bi);
      FeedSnoc(st, a + bi, x);
      FeedSnoc(Feed(st, a), bi, x);
    }
  }

  /** An index found in a later part of the input, moved past the `n` bytes before it. */
  function Shift(found: Option<nat>, n: nat): Option<nat>
  {
    match found
    case None => None
    case Some(k) => Some(n + k)
  }

  /** The end in `a + b`, when `a` holds none, is the end in `b` scanned from where `a` left off. */
  lemma {:induction false} FirstEndConcat(st: ScanState, a: seq<byte>, b: seq<byte>)
    requires FirstEnd(st, a) == None
    ensures FirstEnd(st, a + b) == Shift(FirstEnd(Feed(st, a), b), |a|)
  {
    if b == [] {
      assert a + b == a;
    } else {
      var bi, x := b[..|b| - 1], b[|b| - 1];
      var abi := a + bi;
      assert a + b == abi + [x];
      assert b == bi + [x];
      FirstEndConcat(st, a, bi);
      FirstEndSnoc(st, abi, x);
      FirstEndSnoc(Feed(st, a), bi, x);
      if FirstEnd(Feed(st, a), bi).None? {
        FeedConcat(st, a, bi);
        assert |abi| == |a| + |bi|;
      }
    }
  }

  /**
   * Chunking invariance: when a call on `a` finds no end, a second call on `b`
   * with the same object answers as one call on `a + b` would have, and
   * leaves the object in the same state.
   */
  lemma ChunkedScan(st: ScanState, a: seq<byte>, b: seq<byte>)
    requires FirstEnd(st, a) == None
    ensures StateAfter(st, a) == Feed(st, a)
    ensures FirstEnd(StateAfter(st, a), b).Some? <==> FirstEnd(st, a + b).Some?
    ensures StateAfter(StateAfter(st, a), b) == StateAfter(st, a + b)
  {
    FirstEndConcat(st, a, b);
    FeedConcat(st, a, b);
    match FirstEnd(Feed(st, a), b)
    case None =>
    case Some(k) =>
      assert (a + b)[..|a| + k + 1] == a + b[..k + 1];
      FeedConcat(st, a, b[..k + 1]);
  }

  /** No end in `bytes` means that no byte of it ends the message. */
  lemma {:induction false} NoEndBefore(st: ScanState, bytes: seq<byte>)
    ensures FirstEnd(st, bytes) == None <==>
              forall j :: 0 <= j < |bytes| ==> !EndsAt(Feed(st, bytes[..j]), bytes[j])
  {
    if bytes != [] {
      var init, x := bytes[..|bytes| - 1], bytes[|bytes| - 1];
      assert bytes == init + [x];
      NoEndBefore(st, init);
      FirstEndSnoc(st, init, x);
      forall j | 0 <= j < |init| ensures init[..j] == bytes[..j] && init[j] == bytes[j] {}
    }
  }

  /**
   * The recursive search agrees with its plain reading: `k` is the first index
   * whose byte ends the message, every earlier byte having been scanned.
   */
  lemma FirstEndIsFirst(st: ScanState, bytes: seq<byte>, k: nat)
    requires k < |bytes|
    ensures FirstEnd(st, bytes) == Some(k) <==>
              EndsAt(Feed(st, bytes[..k]), bytes[k]) &&
              forall j :: 0 <= j < k ==> !EndsAt(Feed(st, bytes[..j]), bytes[j])
  {
    var pre := bytes[..k];
    assert bytes[..k + 1] == pre + [bytes[k]];
    assert bytes == bytes[..k + 1] + bytes[k + 1..];
    NoEndBefore(st, pre);
    forall j | 0 <= j < k ensures pre[..j] == bytes[..j] && pre[j] == bytes[j] {}
    FirstEndSnoc(st, pre, bytes[k]);
    if FirstEnd(st, bytes[..k + 1]).Some? {
      FirstEndExtends(st, bytes[..k + 1], bytes[k + 1..]);
    } else {
      FirstEndConcat(st, bytes[..k + 1], bytes[k + 1..]);
    }
  }

  // ---------------------------------------------------------------------------
  // receiveBytesOrThrow
  // ---------------------------------------------------------------------------

  /** The untyped payload of READY and CLIENT_CLOSED; only an Int payload is a byte count. */
  datatype Payload = IntPayload(n: int) | StringPayload(s: string) | DataPayload(data: seq<byte>)

  datatype ReceiveResult =
    | BufferFull
    | Ready(data: Payload)
    | Timeout
    | ClientClosed(data: Payload)
    | ReceiveError(message: string)

  datatype ReceiveException = TimeoutException | MessageException(message: string)

  /** What the throwing receive does: return a byte count or throw. */
  datatype Outcome = Returns(count: int) | Throws(exception: ReceiveException)

  /**
   * Maps the result of a receive into a buffer of `bufferCount` bytes onto the
   * number of bytes read or an exception.
   */
  function ReceiveBytesOrThrow(result: ReceiveResult, bufferCount: nat): (r: Outcome)
    ensures r == Throws(TimeoutException) <==> result == Timeout
    ensures r.Returns? <==> result.BufferFull? || ((result.Ready? || result.ClientClosed?) && result.data.IntPayload?)
    ensures result.BufferFull? ==> r == Returns(bufferCount)
    ensures (result.Ready? || result.ClientClosed?) && result.data.IntPayload? ==> r == Returns(result.data.n)
    ensures result.ReceiveError? ==> r == Throws(MessageException(result.message))
  {
    match result
    case Timeout => Throws(TimeoutException)
    case ClientClosed(IntPayload(n)) => Returns(n)
    case BufferFull => Returns(bufferCount)
    case Ready(IntPayload(n)) => Returns(n)
    case ReceiveError(msg) => Throws(MessageException(msg))
    case Ready(_) => Throws(MessageException("A programming error occured SwifterSockets-009"))
    case ClientClosed(_) => Throws(MessageException("A programming error occured SwifterSockets-010"))
  }
}
