/**
 * Replacements for the FD_ZERO, FD_SET, FD_CLR and FD_ISSET macros on the
 * macOS layout of `fd_set`: 32 words of 32 bits, so descriptors 0 to 1023.
 *
 * The word index is `fd / 32` and the bit index `fd % 32`, both with Swift's
 * truncating operators, and the mask is `1 << bitOffset` with Swift's smart
 * shift, which shifts right for a negative amount. A negative descriptor
 * therefore either has a negative word index or a zero mask, and a descriptor
 * of 1024 or more has a word index past the last case of the switch: in both
 * situations nothing changes and the test answers false.
 */
module FdMacros {
  import opened Wrappers

  const WordCount: nat := 32
  const WordBits: nat := 32
  /** FD_SETSIZE */
  const SetSize: nat := 1024

  type Word = bv32
  type BitIndex = bv5

  /** The word with only bit `i` set. */
  function Bit(i: BitIndex): Word
  {
    1 << i
  }

  /** The shift amount `k` as a bit index, counted up from 0 (meaningful for `0 <= k < 32`). */
  function ToIndex(k: int): BitIndex
    decreases if k > 0 then k else 0
  {
    if k <= 0 then 0 else ToIndex(k - 1) + 1
  }

  /** Swift's `1 << k` on Int32 for `-32 < k < 32`: bit `k`, or 0 for a negative `k`. */
  function Mask(k: int): Word
  {
    if 0 <= k < WordBits then Bit(ToIndex(k)) else 0
  }

  /** A word with bit `k` set (`word | mask`). */
  function WordWithBit(w: Word, k: int): Word
  {
    w | Mask(k)
  }

  /** A word with bit `k` cleared (`word & ~mask`). */
  function WordWithoutBit(w: Word, k: int): Word
  {
    w & !Mask(k)
  }

  /** The descriptors whose bit is set: bit `fd % 32` of word `fd / 32`. */
  predicate IsMember(words: seq<Word>, fd: int)
    requires |words| == WordCount
  {
    0 <= fd < SetSize && words[fd / WordBits] & Mask(fd % WordBits) != 0
  }

  /** The words of a cleared set. */
  function Zeroed(): (z: seq<Word>)
    ensures |z| == WordCount
  {
    seq(WordCount, _ => 0)
  }

  /** The words after `fdSet(fd)`. */
  function WithBitSet(words: seq<Word>, fd: Option<Int32>): (r: seq<Word>)
    requires |words| == WordCount
    ensures |r| == WordCount
  {
    match fd
    case None => words
    case Some(f) =>
      var intOffset := SwiftDiv(f, WordBits);
      if 0 <= intOffset < WordCount then words[intOffset := WordWithBit(words[intOffset], SwiftRem(f, WordBits))]
      else words
  }

  /** The words after `fdClr(fd)`. */
  function WithBitCleared(words: seq<Word>, fd: Option<Int32>): (r: seq<Word>)
    requires |words| == WordCount
    ensures |r| == WordCount
  {
    match fd
    case None => words
    case Some(f) =>
      var intOffset := SwiftDiv(f, WordBits);
      if 0 <= intOffset < WordCount then words[intOffset := WordWithoutBit(words[intOffset], SwiftRem(f, WordBits))]
      else words
  }

  /** FD_ZERO: clears every word in place. */
  method FdZero(fds: array<Word>)
    requires fds.Length == WordCount
    modifies fds
    ensures fds[..] == Zeroed()
  {
    forall i | 0 <= i < fds.Length {
      fds[i] := 0;
    }
  }

  /** FD_SET: sets the bit of `fd` in place. */
  method FdSet(fd: Option<Int32>, fds: array<Word>)
    requires fds.Length == WordCount
    modifies fds
    ensures fds[..] == WithBitSet(old(fds[..]), fd)
  {
    if fd.Some? {
      var intOffset := SwiftDiv(fd.value, WordBits);
      var bitOffset := SwiftRem(fd.value, WordBits);
      if 0 <= intOffset < WordCount {
        fds[intOffset] := WordWithBit(fds[intOffset], bitOffset);
      }
    }
  }

  /** FD_CLR: clears the bit of `fd` in place. */
  method FdClr(fd: Option<Int32>, fds: array<Word>)
    requires fds.Length == WordCount
    modifies fds
    ensures fds[..] == WithBitCleared(old(fds[..]), fd)
  {
    if fd.Some? {
      var intOffset := SwiftDiv(fd.value, WordBits);
      var bitOffset := SwiftRem(fd.value, WordBits);
      if 0 <= intOffset < WordCount {
        fds[intOffset] := WordWithoutBit(fds[intOffset], bitOffset);
      }
    }
  }

  /** FD_ISSET: whether `fd` is a member; false for nil and for descriptors outside 0..1023. */
  function FdIsSet(fd: Option<Int32>, words: seq<Word>): (r: bool)
    requires |words| == WordCount
    ensures r <==> fd.Some? && IsMember(words, fd.value)
  {
    match fd
    case None => false
    case Some(f) =>
      var intOffset := SwiftDiv(f, WordBits);
      var mask := Mask(SwiftRem(f, WordBits));
      if 0 <= intOffset < WordCount then
        SwiftDivRem(f, WordBits);
        words[intOffset] & mask != 0
      else false
  }

  // ---------------------------------------------------------------------------
  // Bit-level facts
  // ---------------------------------------------------------------------------

  lemma OrBit(w: Word, i: BitIndex, j: BitIndex)
    ensures i == j ==> (w | Bit(i)) & Bit(j) == Bit(j) != 0
    ensures i != j ==> (w | Bit(i)) & Bit(j) == w & Bit(j)
  {
  }

  lemma AndNotBit(w: Word, i: BitIndex, j: BitIndex)
    ensures i == j ==> (w & !Bit(i)) & Bit(j) == 0
    ensures i != j ==> (w & !Bit(i)) & Bit(j) == w & Bit(j)
  {
  }

  lemma OrThenAndNotBit(w: Word, i: BitIndex)
    requires w & Bit(i) == 0
    ensures (w | Bit(i)) & !Bit(i) == w
  {
  }

  /** Distinct shift amounts in range are distinct bit indexes. */
  lemma IndexInjective(i: int, j: int)
    requires 0 <= i < WordBits && 0 <= j < WordBits
    ensures ToIndex(i) == ToIndex(j) <==> i == j
  {
    ToIndexValue(i);
    ToIndexValue(j);
  }

  lemma {:induction false} ToIndexValue(k: int)
    requires 0 <= k < WordBits
    ensures ToIndex(k) as int == k
  {
    if k > 0 {
      ToIndexValue(k - 1);
      var x := ToIndex(k - 1);
      assert (x + 1) as int == x as int + 1;
    }
  }

  /** Setting bit `i` sets it. */
  lemma SetSetsOwn(w: Word, i: int)
    requires 0 <= i < WordBits
    ensures WordWithBit(w, i) & Mask(i) != 0
  {
    OrBit(w, ToIndex(i), ToIndex(i));
  }

  /** Setting bit `i` keeps every other bit. */
  lemma SetKeepsOther(w: Word, i: int, j: int)
    requires 0 <= i < WordBits && 0 <= j < WordBits && i != j
    ensures WordWithBit(w, i) & Mask(j) == w & Mask(j)
  {
    IndexInjective(i, j);
    OrBit(w, ToIndex(i), ToIndex(j));
  }

  /** Clearing bit `i` clears it. */
  lemma ClearClearsOwn(w: Word, i: int)
    requires 0 <= i < WordBits
    ensures WordWithoutBit(w, i) & Mask(i) == 0
  {
    AndNotBit(w, ToIndex(i), ToIndex(i));
  }

  /** Clearing bit `i` keeps every other bit. */
  lemma ClearKeepsOther(w: Word, i: int, j: int)
    requires 0 <= i < WordBits && 0 <= j < WordBits && i != j
    ensures WordWithoutBit(w, i) & Mask(j) == w & Mask(j)
  {
    IndexInjective(i, j);
    AndNotBit(w, ToIndex(i), ToIndex(j));
  }

  lemma SetThenClearMask(w: Word, i: int)
    requires 0 <= i < WordBits && w & Mask(i) == 0
    ensures WordWithoutBit(WordWithBit(w, i), i) == w
  {
    OrThenAndNotBit(w, ToIndex(i));
  }

  /** A zero mask changes no word. */
  lemma ZeroMaskNoop(w: Word, k: int)
    requires Mask(k) == 0
    ensures WordWithBit(w, k) == w && WordWithoutBit(w, k) == w
  {
  }

  /** Two descriptors of one word are equal exactly when their bit indexes are. */
  lemma SameWord(f: int, g: int)
    requires 0 <= f < SetSize && 0 <= g < SetSize && f / WordBits == g / WordBits
    ensures f == g <==> f % WordBits == g % WordBits
  {
  }

  /** A descriptor outside 0..1023 selects no bit: the word index is out of range or the mask is zero. */
  lemma OutOfRangeSelectsNothing(f: int)
    requires f < 0 || f >= SetSize
    ensures !(0 <= SwiftDiv(f, WordBits) < WordCount) || Mask(SwiftRem(f, WordBits)) == 0
  {
    SwiftDivRem(f, WordBits);
    if f < 0 && f > -(WordBits as int) {
      assert SwiftDiv(f, WordBits) == 0 && SwiftRem(f, WordBits) == f;
    }
  }

  // ---------------------------------------------------------------------------
  // Properties of the macros
  // ---------------------------------------------------------------------------

  /** After FD_ZERO no descriptor is a member. */
  lemma ZeroedIsEmpty(fd: Option<Int32>)
    ensures !FdIsSet(fd, Zeroed())
  {
  }

  /** FD_SET adds exactly `fd` when it lies in 0..1023; every other membership is unchanged. */
  lemma SetMembership(words: seq<Word>, fd: Option<Int32>, g: int)
    requires |words| == WordCount
    ensures IsMember(WithBitSet(words, fd), g) <==>
              IsMember(words, g) || (fd == Some(g) && 0 <= g < SetSize)
  {
    if fd.Some? {
      var f := fd.value;
      if f < 0 || f >= SetSize {
        OutOfRangeIgnored(words, fd);
      } else if 0 <= g < SetSize && g / WordBits == f / WordBits {
        if f == g {
          SetOwnBit(words, f);
        } else {
          SetOtherBit(words, f, g);
        }
      } else {
        SwiftDivRem(f, WordBits);
        var index := f / WordBits;
        assert WithBitSet(words, fd) == words[index := WordWithBit(words[index], f % WordBits)];
      }
    }
  }

  /** FD_SET of a descriptor in 0..1023 sets its own bit. */
  lemma SetOwnBit(words: seq<Word>, f: Int32)
    requires |words| == WordCount && 0 <= f < SetSize
    ensures IsMember(WithBitSet(words, Some(f)), f)
  {
    SetSetsOwn(words[f / WordBits], f % WordBits);
  }

  /** FD_SET of a descriptor in 0..1023 keeps the other bits of its word. */
  lemma SetOtherBit(words: seq<Word>, f: Int32, g: int)
    requires |words| == WordCount && 0 <= f < SetSize && 0 <= g < SetSize
    requires f != g && g / WordBits == f / WordBits
    ensures IsMember(WithBitSet(words, Some(f)), g) == IsMember(words, g)
  {
    SameWord(f, g);
    SetKeepsOther(words[f / WordBits], f % WordBits, g % WordBits);
  }

  /** FD_CLR removes exactly `fd`; every other membership is unchanged. */
  lemma ClearMembership(words: seq<Word>, fd: Option<Int32>, g: int)
    requires |words| == WordCount
    ensures IsMember(WithBitCleared(words, fd), g) <==> IsMember(words, g) && fd != Some(g)
  {
    if fd.Some? {
      var f := fd.value;
      if f < 0 || f >= SetSize {
        OutOfRangeIgnored(words, fd);
      } else if 0 <= g < SetSize && g / WordBits == f / WordBits {
        if f == g {
          ClearOwnBit(words, f);
        } else {
          ClearOtherBit(words, f, g);
        }
      } else {
        SwiftDivRem(f, WordBits);
        var index := f / WordBits;
        assert WithBitCleared(words, fd) == words[index := WordWithoutBit(words[index], f % WordBits)];
      }
    }
  }

  /** FD_CLR of a descriptor in 0..1023 clears its own bit. */
  lemma ClearOwnBit(words: seq<Word>, f: Int32)
    requires |words| == WordCount && 0 <= f < SetSize
    ensures !IsMember(WithBitCleared(words, Some(f)), f)
  {
    ClearClearsOwn(words[f / WordBits], f % WordBits);
  }

  /** FD_CLR of a descriptor in 0..1023 keeps the other bits of its word. */
  lemma ClearOtherBit(words: seq<Word>, f: Int32, g: int)
    requires |words| == WordCount && 0 <= f < SetSize && 0 <= g < SetSize
    requires f != g && g / WordBits == f / WordBits
    ensures IsMember(WithBitCleared(words, Some(f)), g) == IsMember(words, g)
  {
    SameWord(f, g);
    ClearKeepsOther(words[f / WordBits], f % WordBits, g % WordBits);
  }

  /** FD_ISSET after FD_SET of the same descriptor in 0..1023 answers true. */
  lemma SetThenIsSet(words: seq<Word>, f: Int32)
    requires |words| == WordCount && 0 <= f < SetSize
    ensures FdIsSet(Some(f), WithBitSet(words, Some(f)))
  {
    SetMembership(words, Some(f), f);
  }

  /** FD_ISSET after FD_CLR of the same descriptor answers false. */
  lemma ClearThenIsSet(words: seq<Word>, fd: Option<Int32>)
    requires |words| == WordCount
    ensures !FdIsSet(fd, WithBitCleared(words, fd))
  {
    if fd.Some? {
      ClearMembership(words, fd, fd.value);
    }
  }

  /** FD_SET only touches word `fd / 32`, and a second FD_SET of the same descriptor changes nothing. */
  lemma SetIsLocalAndIdempotent(words: seq<Word>, fd: Option<Int32>, i: int)
    requires |words| == WordCount && 0 <= i < WordCount
    requires fd.None? || i != SwiftDiv(fd.value, WordBits)
    ensures WithBitSet(words, fd)[i] == words[i]
    ensures WithBitSet(WithBitSet(words, fd), fd) == WithBitSet(words, fd)
  {
  }

  /** FD_CLR only touches word `fd / 32`, and a second FD_CLR of the same descriptor changes nothing. */
  lemma ClearIsLocalAndIdempotent(words: seq<Word>, fd: Option<Int32>, i: int)
    requires |words| == WordCount && 0 <= i < WordCount
    requires fd.None? || i != SwiftDiv(fd.value, WordBits)
    ensures WithBitCleared(words, fd)[i] == words[i]
    ensures WithBitCleared(WithBitCleared(words, fd), fd) == WithBitCleared(words, fd)
  {
  }

  /** A nil descriptor and a descriptor outside 0..1023 leave the set alone and are never members. */
  lemma OutOfRangeIgnored(words: seq<Word>, fd: Option<Int32>)
    requires |words| == WordCount
    requires fd.None? || fd.value < 0 || fd.value >= SetSize
    ensures WithBitSet(words, fd) == words
    ensures WithBitCleared(words, fd) == words
    ensures !FdIsSet(fd, words)
  {
    if fd.Some? {
      var f := fd.value;
      OutOfRangeSelectsNothing(f);
      if 0 <= SwiftDiv(f, WordBits) < WordCount {
        ZeroMaskNoop(words[SwiftDiv(f, WordBits)], SwiftRem(f, WordBits));
      }
    }
  }

  /** FD_CLR undoes FD_SET of a descriptor that was not a member. */
  lemma SetThenClear(words: seq<Word>, f: Int32)
    requires |words| == WordCount && 0 <= f < SetSize && !IsMember(words, f)
    ensures WithBitCleared(WithBitSet(words, Some(f)), Some(f)) == words
  {
    SwiftDivRem(f, WordBits);
    SetThenClearMask(words[f / WordBits], f % WordBits);
  }
}
