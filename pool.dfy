/**
 * `ConnectionPool`: connection objects kept in two arrays, `available` and
 * `inUse`, and moved between them by `allocate` and `free`. Both the current
 * pool (which can sort `available` before taking its first object) and the
 * older pool (which takes the last object) are modelled.
 *
 * Objects are compared by identity in the source; here an object is its
 * identity, a natural number. The serial queue that guards the arrays makes
 * each `allocate`, `free` and `create` round one atomic step. The `sorter`
 * closure, which says whether one object goes before another, is modelled by
 * a ranking of the objects: `lhs` goes before `rhs` when its rank is smaller.
 */
module Pool {
  import opened Wrappers

  /** The identity of a connection object. */
  type ObjectId = nat

  /** The two arrays of a pool. */
  datatype PoolState = PoolState(available: seq<ObjectId>, inUse: seq<ObjectId>)

  predicate NoDuplicates(s: seq<ObjectId>)
  {
    forall i, j :: 0 <= i < j < |s| ==> s[i] != s[j]
  }

  /** No object is listed twice, within an array or across the two. */
  predicate Valid(p: PoolState)
  {
    NoDuplicates(p.available + p.inUse)
  }

  /** All objects the pool owns. */
  function Objects(p: PoolState): multiset<ObjectId>
  {
    multiset(p.available) + multiset(p.inUse)
  }

  // ---------------------------------------------------------------------------
  // Sorting `available`
  // ---------------------------------------------------------------------------

  predicate SortedByRank(s: seq<ObjectId>, rank: ObjectId -> int)
  {
    forall i, j :: 0 <= i < j < |s| ==> rank(s[i]) <= rank(s[j])
  }

  /** Inserts `x` before the first element that does not rank below it. */
  function InsertByRank(x: ObjectId, s: seq<ObjectId>, rank: ObjectId -> int): (r: seq<ObjectId>)
    ensures multiset(r) == multiset(s) + multiset{x}
    ensures |r| == |s| + 1
  {
    if s == [] || rank(x) <= rank(s[0]) then [x] + s
    else
      assert s == [s[0]] + s[1..];
      [s[0]] + InsertByRank(x, s[1..], rank)
  }

  /** `available.sort(by: sorter)`: the objects in ascending order of rank. */
  function SortByRank(s: seq<ObjectId>, rank: ObjectId -> int): (r: seq<ObjectId>)
    ensures multiset(r) == multiset(s)
    ensures |r| == |s|
  {
    if s == [] then []
    else
      assert s == [s[0]] + s[1..];
      InsertByRank(s[0], SortByRank(s[1..], rank), rank)
  }

  /** Inserting into a sorted sequence keeps it sorted. */
  lemma {:induction false} InsertKeepsSorted(x: ObjectId, s: seq<ObjectId>, rank: ObjectId -> int)
    requires SortedByRank(s, rank)
    ensures SortedByRank(InsertByRank(x, s, rank), rank)
  {
    if s != [] && rank(x) > rank(s[0]) {
      var tail := InsertByRank(x, s[1..], rank);
      InsertKeepsSorted(x, s[1..], rank);
      forall k | 0 <= k < |tail|
        ensures rank(s[0]) <= rank(tail[k])
      {
        assert tail[k] in multiset(tail);
        assert tail[k] == x || tail[k] in multiset(s[1..]);
        if tail[k] != x {
          var m :| 0 <= m < |s[1..]| && s[1..][m] == tail[k];
          assert s[m + 1] == tail[k];
        }
      }
      var r := [s[0]] + tail;
      assert forall i :: 1 <= i < |r| ==> r[i] == tail[i - 1];
    }
  }

  /** The sort really sorts. */
  lemma {:induction false} SortIsSorted(s: seq<ObjectId>, rank: ObjectId -> int)
    ensures SortedByRank(SortByRank(s, rank), rank)
  {
    if s != [] {
      SortIsSorted(s[1..], rank);
      InsertKeepsSorted(s[0], SortByRank(s[1..], rank), rank);
    }
  }

  /** The first object after sorting ranks no higher than any object of the array. */
  lemma SortedFirstIsMinimal(s: seq<ObjectId>, rank: ObjectId -> int)
    requires s != []
    ensures SortByRank(s, rank)[0] in s
    ensures forall x :: x in s ==> rank(SortByRank(s, rank)[0]) <= rank(x)
  {
    var r := SortByRank(s, rank);
    SortIsSorted(s, rank);
    assert r[0] in multiset(r);
    forall x | x in s
      ensures rank(r[0]) <= rank(x)
    {
      assert x in multiset(s);
      assert x in multiset(r);
      var m :| 0 <= m < |r| && r[m] == x;
    }
  }

  // ---------------------------------------------------------------------------
  // The pool operations on values
  // ---------------------------------------------------------------------------

  /** The first position of `x` in `s`. */
  function FirstIndex(s: seq<ObjectId>, x: ObjectId): (i: nat)
    requires x in s
    ensures i < |s| && s[i] == x && x !in s[..i]
  {
    if s[0] == x then 0
    else
      assert s == [s[0]] + s[1..];
      var k := FirstIndex(s[1..], x);
      assert s[..k + 1] == [s[0]] + s[1..][..k];
      k + 1
  }

  /** `s` without position `i`. */
  function RemoveAt(s: seq<ObjectId>, i: nat): seq<ObjectId>
    requires i < |s|
  {
    s[..i] + s[i + 1..]
  }

  /**
   * `allocate()` of the current pool: nothing from an empty `available`;
   * otherwise `available` is sorted when a sorter is set, its first object is
   * removed and inserted at the front of `inUse`.
   */
  function Allocated(p: PoolState, sorter: Option<ObjectId -> int>): (r: (Option<ObjectId>, PoolState))
    ensures r.0.None? <==> p.available == []
    ensures r.0.None? ==> r.1 == p
    ensures r.0.Some? ==> r.1.inUse == [r.0.value] + p.inUse && |r.1.available| == |p.available| - 1
  {
    if p.available == [] then (None, p)
    else
      var sorted := if sorter.Some? then SortByRank(p.available, sorter.value) else p.available;
      (Some(sorted[0]), PoolState(sorted[1..], [sorted[0]] + p.inUse))
  }

  /** `allocate()` of the older pool: the last available object moves to the front of `inUse`. */
  function AllocatedLast(p: PoolState): (r: (Option<ObjectId>, PoolState))
    ensures r.0.None? <==> p.available == []
    ensures r.0.None? ==> r.1 == p
    ensures r.0.Some? ==> p.available == r.1.available + [r.0.value] && r.1.inUse == [r.0.value] + p.inUse
  {
    if p.available == [] then (None, p)
    else
      var n := |p.available| - 1;
      (Some(p.available[n]), PoolState(p.available[..n], [p.available[n]] + p.inUse))
  }

  const NotFoundMessage := "Connection not found in 'used' or 'available' pool"
  const FreedTwiceMessage := "Connection not found in 'used' pool, tried to close twice?"

  /**
   * `free(connection:)`: an object in `inUse` moves to the front of
   * `available`; any other object gives an error, whose message says whether
   * the object is already available, and changes nothing.
   */
  function Freed(p: PoolState, c: ObjectId): (r: (Result<bool>, PoolState))
    ensures r.0.Success? <==> c in p.inUse
    ensures r.0.Success? ==> r.1.available == [c] + p.available && |r.1.inUse| == |p.inUse| - 1
    ensures r.0.Error? ==> r.1 == p
  {
    if c in p.inUse then (Success(true), PoolState([c] + p.available, RemoveAt(p.inUse, FirstIndex(p.inUse, c))))
    else if c in p.available then (Error(FreedTwiceMessage), p)
    else (Error(NotFoundMessage), p)
  }

  /** A sequence without duplicates is a set: its multiset counts each element once. */
  lemma NoDuplicatesCount(s: seq<ObjectId>, x: ObjectId)
    requires NoDuplicates(s)
    ensures multiset(s)[x] == if x in s then 1 else 0
  {
    if s != [] {
      assert s == [s[0]] + s[1..];
      NoDuplicatesCount(s[1..], x);
    }
  }

  /** A sequence whose multiset counts each element at most once has no duplicates. */
  lemma {:induction false} CountNoDuplicates(s: seq<ObjectId>)
    requires forall x :: multiset(s)[x] <= 1
    ensures NoDuplicates(s)
  {
    if s != [] {
      var t := s[1..];
      assert s == [s[0]] + t;
      assert multiset(s) == multiset{s[0]} + multiset(t);
      assert forall x :: multiset(t)[x] <= multiset(s)[x];
      CountNoDuplicates(t);
      assert multiset(t)[s[0]] == 0;
      assert forall j :: 1 <= j < |s| ==> s[j] == t[j - 1] && t[j - 1] in multiset(t);
    }
  }

  /** Validity depends only on which objects the pool owns. */
  lemma ValidByObjects(p: PoolState, q: PoolState)
    requires Valid(p) && Objects(q) == Objects(p)
    ensures Valid(q)
  {
    assert multiset(p.available + p.inUse) == Objects(p);
    assert multiset(q.available + q.inUse) == Objects(q);
    forall x
      ensures multiset(q.available + q.inUse)[x] <= 1
    {
      NoDuplicatesCount(p.available + p.inUse, x);
    }
    CountNoDuplicates(q.available + q.inUse);
  }

  /**
   * `allocate()` of the current pool: nil exactly when `available` is empty;
   * otherwise the object comes from `available` and now heads `inUse`, and no
   * object is gained or lost. Without a sorter it is the first available
   * object; with one, an object of least rank.
   */
  lemma AllocateKeepsPool(p: PoolState, sorter: Option<ObjectId -> int>)
    requires Valid(p)
    ensures var (c, q) := Allocated(p, sorter);
      && (c.None? <==> p.available == [])
      && (c.None? ==> q == p)
      && (c.Some? ==> c.value in p.available && q.inUse == [c.value] + p.inUse)
      && (c.Some? ==> multiset(q.available) == multiset(p.available) - multiset{c.value})
      && (c.Some? && sorter.None? ==> c.value == p.available[0] && q.available == p.available[1..])
      && (c.Some? && sorter.Some? ==> forall x :: x in p.available ==> sorter.value(c.value) <= sorter.value(x))
      && Objects(q) == Objects(p)
      && Valid(q)
  {
    var (c, q) := Allocated(p, sorter);
    if c.Some? {
      var sorted := if sorter.Some? then SortByRank(p.available, sorter.value) else p.available;
      assert sorted == [sorted[0]] + sorted[1..];
      assert multiset(sorted) == multiset(p.available);
      assert c.value in multiset(p.available);
      if sorter.Some? {
        SortedFirstIsMinimal(p.available, sorter.value);
      }
      assert Objects(q) == Objects(p);
      ValidByObjects(p, q);
    }
  }

  /** `allocate()` of the older pool: nil exactly when `available` is empty, else its last object moves to `inUse`. */
  lemma AllocateLastKeepsPool(p: PoolState)
    requires Valid(p)
    ensures var (c, q) := AllocatedLast(p);
      && (c.None? <==> p.available == [])
      && (c.None? ==> q == p)
      && (c.Some? ==> p.available == q.available + [c.value] && q.inUse == [c.value] + p.inUse)
      && Objects(q) == Objects(p)
      && Valid(q)
  {
    var (c, q) := AllocatedLast(p);
    if c.Some? {
      assert p.available == q.available + [c.value];
      assert Objects(q) == Objects(p);
      ValidByObjects(p, q);
    }
  }

  /**
   * `free(connection:)` succeeds exactly for an object in use, which then
   * heads `available` and is no longer in use; on failure nothing changes and
   * the message tells a second free from an unknown object. No object is
   * gained or lost.
   */
  lemma FreeKeepsPool(p: PoolState, c: ObjectId)
    requires Valid(p)
    ensures var (r, q) := Freed(p, c);
      && (r.Success? <==> c in p.inUse)
      && (r.Success? ==> q.available == [c] + p.available && c !in q.inUse)
      && (r.Error? ==> q == p)
      && (r.Error? ==> r.message == if c in p.available then FreedTwiceMessage else NotFoundMessage)
      && Objects(q) == Objects(p)
      && Valid(q)
  {
    var (r, q) := Freed(p, c);
    if r.Success? {
      var i := FirstIndex(p.inUse, c);
      assert p.inUse == p.inUse[..i] + [c] + p.inUse[i + 1..];
      assert Objects(q) == Objects(p);
      ValidByObjects(p, q);
      NoDuplicatesCount(p.available + p.inUse, c);
      NoDuplicatesCount(q.available + q.inUse, c);
      assert multiset(q.available + q.inUse) == Objects(q);
      assert multiset(q.available + q.inUse) == multiset(q.available) + multiset(q.inUse);
      assert multiset(q.available)[c] >= 1;
      assert multiset(q.inUse)[c] == 0;
    }
  }

  /** Without a sorter, freeing the object just allocated restores the pool exactly. */
  lemma FreeUndoesAllocate(p: PoolState)
    requires Valid(p) && p.available != []
    ensures var (c, q) := Allocated(p, None);
      c.Some? && Freed(q, c.value) == (Success(true), p)
  {
    var (c, q) := Allocated(p, None);
    assert q.inUse[0] == c.value;
    assert FirstIndex(q.inUse, c.value) == 0;
    assert RemoveAt(q.inUse, 0) == p.inUse;
    assert [p.available[0]] + p.available[1..] == p.available;
  }

  // ---------------------------------------------------------------------------
  // Searching by identity
  // ---------------------------------------------------------------------------

  /** The index loop of `free`: the first position of `x` in `s`, if any. */
  method FindIndex(s: seq<ObjectId>, x: ObjectId) returns (found: Option<nat>)
    ensures found.Some? <==> x in s
    ensures found.Some? ==> found.value == FirstIndex(s, x)
  {
    var i := 0;
    while i < |s|
      invariant 0 <= i <= |s|
      invariant x !in s[..i]
    {
      if s[i] == x {
        assert s[..i + 1] == s[..i] + [x];
        FirstIndexUnique(s, x, i);
        return Some(i);
      }
      assert s[..i + 1] == s[..i] + [s[i]];
      i := i + 1;
    }
    assert s[..i] == s;
    return None;
  }

  /** The only position of `x` with no `x` before it is the first one. */
  lemma FirstIndexUnique(s: seq<ObjectId>, x: ObjectId, i: nat)
    requires i < |s| && s[i] == x && x !in s[..i]
    ensures FirstIndex(s, x) == i
  {
    var k := FirstIndex(s, x);
    assert forall m :: 0 <= m < i ==> s[..i][m] == s[m] && s[m] != x;
    assert forall m :: 0 <= m < k ==> s[..k][m] == s[m] && s[m] != x;
  }

  /** The second loop of `free`: whether `x` is in `s`. */
  method Contains(s: seq<ObjectId>, x: ObjectId) returns (b: bool)
    ensures b <==> x in s
  {
    b := false;
    var i := 0;
    while i < |s|
      invariant 0 <= i <= |s|
      invariant x !in s[..i]
    {
      if s[i] == x {
        return true;
      }
      assert s[..i + 1] == s[..i] + [s[i]];
      i := i + 1;
    }
    assert s[..i] == s;
  }

  /** The objects made by the generator's calls `0` to `n - 1`, in order. */
  function Generated(n: nat, generator: nat -> ObjectId): (r: seq<ObjectId>)
    ensures |r| == n
    ensures forall k :: 0 <= k < n ==> r[k] == generator(k)
  {
    if n == 0 then [] else Generated(n - 1, generator) + [generator(n - 1)]
  }

  /** `max(timeout, 0)`. */
  function MaxWait(timeout: int): nat
  {
    if timeout > 0 then timeout else 0
  }

  // ---------------------------------------------------------------------------
  // The pools
  // ---------------------------------------------------------------------------

  class ConnectionPool {
    var available: seq<ObjectId>
    var inUse: seq<ObjectId>
    var sorter: Option<ObjectId -> int>

    function State(): PoolState
      reads this
    {
      PoolState(available, inUse)
    }

    /** An empty pool without a sorter. */
    constructor ()
      ensures State() == PoolState([], []) && sorter.None?
    {
      available := [];
      inUse := [];
      sorter := None;
    }

    /** `allocate()`. */
    method Allocate() returns (c: Option<ObjectId>)
      modifies this
      ensures (c, State()) == Allocated(old(State()), old(sorter))
      ensures sorter == old(sorter)
    {
      if available == [] {
        return None;
      }
      if sorter.Some? {
        available := SortByRank(available, sorter.value);
      }
      c := Some(available[0]);
      available := available[1..];
      inUse := [c.value] + inUse;
    }

    /**
     * `allocateOrTimeout(_:)`: one allocation attempt per second of the
     * timeout; the second result counts the waits. Objects that other threads
     * free during the waits are not modelled, so after a failed first attempt
     * every later attempt fails too.
     */
    method AllocateOrTimeout(timeout: int) returns (loopCount: int, c: Option<ObjectId>)
      modifies this
      ensures 0 <= loopCount <= MaxWait(timeout)
      ensures c.None? ==> loopCount == MaxWait(timeout) && State() == old(State())
      ensures c.Some? ==> (c, State()) == Allocated(old(State()), old(sorter))
      ensures sorter == old(sorter)
    {
      loopCount := 0;
      while true
        invariant 0 <= loopCount <= MaxWait(timeout)
        invariant sorter == old(sorter)
        invariant State() == old(State())
        invariant loopCount > 0 ==> old(State()).available == []
        decreases MaxWait(timeout) - loopCount
      {
        c := Allocate();
        if c.Some? {
          return;
        }
        if loopCount >= timeout {
          break;
        }
        loopCount := loopCount + 1;
      }
    }

    /** `free(connection:)`. */
    method Free(connection: ObjectId) returns (r: Result<bool>)
      modifies this
      ensures (r, State()) == Freed(old(State()), connection)
      ensures sorter == old(sorter)
    {
      var found := FindIndex(inUse, connection);
      if found.Some? {
        inUse := RemoveAt(inUse, found.value);
        available := [connection] + available;
        return Success(true);
      }
      var foundInAvailable := Contains(available, connection);
      if !foundInAvailable {
        return Error(NotFoundMessage);
      } else {
        return Error(FreedTwiceMessage);
      }
    }

    /**
     * One round of `create(num:generator:)`: `available` is emptied, and only
     * when nothing is in use are `num` new objects (the results of the
     * generator's calls `0` to `num - 1`) appended, which ends `create`.
     */
    method CreateRound(num: nat, generator: nat -> ObjectId) returns (success: bool)
      modifies this
      ensures success <==> old(inUse) == []
      ensures available == (if success then Generated(num, generator) else [])
      ensures inUse == old(inUse) && sorter == old(sorter)
    {
      available := [];
      success := false;
      if inUse == [] {
        var i := 0;
        while i < num
          invariant 0 <= i <= num
          invariant available == Generated(i, generator)
          invariant inUse == old(inUse) && sorter == old(sorter)
        {
          available := available + [generator(i)];
          i := i + 1;
        }
        success := true;
      }
    }
  }

  /** The older pool: `allocate` pops the last object and there is no sorter. */
  class LegacyConnectionPool {
    var available: seq<ObjectId>
    var inUse: seq<ObjectId>

    function State(): PoolState
      reads this
    {
      PoolState(available, inUse)
    }

    constructor ()
      ensures State() == PoolState([], [])
    {
      available := [];
      inUse := [];
    }

    /** `allocate()`. */
    method Allocate() returns (c: Option<ObjectId>)
      modifies this
      ensures (c, State()) == AllocatedLast(old(State()))
    {
      if |available| == 0 {
        return None;
      }
      c := Some(available[|available| - 1]);
      available := available[..|available| - 1];
      inUse := [c.value] + inUse;
    }

    /** `allocateOrTimeout(_:whenWaiting:)`: as in the current pool; `whenWaiting` is never called. */
    method AllocateOrTimeout(timeout: int) returns (loopCount: int, c: Option<ObjectId>)
      modifies this
      ensures 0 <= loopCount <= MaxWait(timeout)
      ensures c.None? ==> loopCount == MaxWait(timeout) && State() == old(State())
      ensures c.Some? ==> (c, State()) == AllocatedLast(old(State()))
    {
      loopCount := 0;
      while true
        invariant 0 <= loopCount <= MaxWait(timeout)
        invariant State() == old(State())
        invariant loopCount > 0 ==> old(State()).available == []
        decreases MaxWait(timeout) - loopCount
      {
        c := Allocate();
        if c.Some? {
          return;
        }
        if loopCount >= timeout {
          break;
        }
        loopCount := loopCount + 1;
      }
    }

    /** `free(connection:)`: the same as in the current pool. */
    method Free(connection: ObjectId) returns (r: Result<bool>)
      modifies this
      ensures (r, State()) == Freed(old(State()), connection)
    {
      var found := FindIndex(inUse, connection);
      if found.Some? {
        inUse := RemoveAt(inUse, found.value);
        available := [connection] + available;
        return Success(true);
      }
      var foundInAvailable := Contains(available, connection);
      if !foundInAvailable {
        return Error(NotFoundMessage);
      } else {
        return Error(FreedTwiceMessage);
      }
    }

    /** One round of `create(num:generator:)`: the same as in the current pool. */
    method CreateRound(num: nat, generator: nat -> ObjectId) returns (success: bool)
      modifies this
      ensures success <==> old(inUse) == []
      ensures available == (if success then Generated(num, generator) else [])
      ensures inUse == old(inUse)
    {
      available := [];
      success := false;
      if inUse == [] {
        var i := 0;
        while i < num
          invariant 0 <= i <= num
          invariant available == Generated(i, generator)
          invariant inUse == old(inUse)
        {
          available := available + [generator(i)];
          i := i + 1;
        }
        success := true;
      }
    }
  }
}
