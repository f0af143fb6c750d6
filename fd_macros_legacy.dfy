/**
 * The older copies of the descriptor-set macros, for the macOS layout (32
 * words of 32 bits). They compute the mask as `1 << (fd % 32)` with the shift
 * of Swift 2 and 3, which traps on a negative shift amount instead of
 * shifting right: a negative descriptor that is not a multiple of 32, such as
 * the -1 of a closed socket, crashes `fdSet`, `fdClr` and `fdIsSet`. That is a
 * precondition here. Where the shift is defined it agrees with the smart
 * shift of `FdMacros`, so each operation is the macOS branch of `FdMacros`
 * applied to `Some(fd)`.
 */
module FdMacrosLegacy {
  import opened Wrappers
  import Fd = FdMacros

  /** `1 << (fd % 32)` does not trap: the truncating remainder is not negative. */
  predicate ShiftDefined(fd: Int32)
  {
    SwiftRem(fd, Fd.WordBits) >= 0
  }

  /** The shift is defined exactly for the non-negative descriptors and the negative multiples of 32; -1 traps. */
  lemma ShiftDefinedExactly(fd: Int32)
    ensures ShiftDefined(fd) <==> fd >= 0 || fd % Fd.WordBits == 0
    ensures !ShiftDefined(-1)
  {
    SwiftDivRem(fd, Fd.WordBits);
    if fd < 0 {
      var m: int := -(fd as int);
      assert m % Fd.WordBits == 0 <==> fd % Fd.WordBits == 0 by {
        assert fd == -m;
        assert fd == Fd.WordBits * (-(m / Fd.WordBits)) - m % Fd.WordBits;
      }
    }
  }

  /** `fdZero(set:)`: all 32 words become 0. */
  method FdZero(fds: array<Fd.Word>)
    requires fds.Length == Fd.WordCount
    modifies fds
    ensures fds[..] == Fd.Zeroed()
  {
    Fd.FdZero(fds);
  }

  /** `fdSet(fd:set:)`. */
  method FdSet(fd: Int32, fds: array<Fd.Word>)
    requires fds.Length == Fd.WordCount
    requires ShiftDefined(fd)
    modifies fds
    ensures fds[..] == Fd.WithBitSet(old(fds[..]), Some(fd))
  {
    Fd.FdSet(Some(fd), fds);
  }

  /** `fdClr(fd:set:)`. */
  method FdClr(fd: Int32, fds: array<Fd.Word>)
    requires fds.Length == Fd.WordCount
    requires ShiftDefined(fd)
    modifies fds
    ensures fds[..] == Fd.WithBitCleared(old(fds[..]), Some(fd))
  {
    Fd.FdClr(Some(fd), fds);
  }

  /** `fdIsSet(fd:set:)`: whether bit `fd % 32` of word `fd / 32` is set; false outside 0..1023. */
  function FdIsSet(fd: Int32, words: seq<Fd.Word>): (r: bool)
    requires |words| == Fd.WordCount
    requires ShiftDefined(fd)
    ensures r <==> Fd.IsMember(words, fd)
    ensures r ==> 0 <= fd < Fd.SetSize
  {
    Fd.FdIsSet(Some(fd), words)
  }

  /**
   * After `fdSet(f)` exactly the members before and `f` itself (when it lies
   * in 0..1023) are members; after `fdClr(f)` exactly the members before
   * except `f`.
   */
  lemma SetAndClearMembership(words: seq<Fd.Word>, f: Int32, g: Int32)
    requires |words| == Fd.WordCount
    requires ShiftDefined(f) && ShiftDefined(g)
    ensures FdIsSet(g, Fd.WithBitSet(words, Some(f))) <==> FdIsSet(g, words) || (g == f && 0 <= f < Fd.SetSize)
    ensures FdIsSet(g, Fd.WithBitCleared(words, Some(f))) <==> FdIsSet(g, words) && g != f
  {
    Fd.SetMembership(words, Some(f), g);
    Fd.ClearMembership(words, Some(f), g);
  }

  /**
   * A descriptor of 1024 or more, or a negative multiple of 32 (the negative
   * descriptors that do not trap), is ignored by `fdSet` and `fdClr`.
   */
  lemma OutOfRangeIgnored(words: seq<Fd.Word>, f: Int32)
    requires |words| == Fd.WordCount && ShiftDefined(f) && (f < 0 || f >= Fd.SetSize)
    ensures f < 0 ==> f % Fd.WordBits == 0
    ensures Fd.WithBitSet(words, Some(f)) == words
    ensures Fd.WithBitCleared(words, Some(f)) == words
    ensures !FdIsSet(f, words)
  {
    ShiftDefinedExactly(f);
    Fd.OutOfRangeIgnored(words, Some(f));
  }
}
