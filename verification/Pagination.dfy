/** The two page-reading loops of the gateway, against a server that may cap its pages. */
module Pagination {
  import opened Wrappers

  const UNLOCKED_LIMIT := 1000

  function Min(a: int, b: int): int {
    if a < b then a else b
  }

  function FirstOf<T>(all: seq<T>, n: nat): (r: seq<T>)
    ensures r == all[..Min(n, |all|)]
  {
    all[..Min(n, |all|)]
  }

  /** One reply: a slice of the stable listing, never longer than asked for nor than the server's cap. */
  function Page<T>(all: seq<T>, offset: nat, limit: nat, cap: nat): (batch: seq<T>)
    ensures offset <= |all| ==> |batch| == Min(|all| - offset, Min(limit, cap)) && all[..offset] + batch == all[..offset + |batch|]
    ensures offset > |all| ==> batch == []
  {
    if offset >= |all| then [] else all[offset..Min(|all|, offset + Min(limit, cap))]
  }

  /** `scene_index`: read until the reported total, a short page of a server that reports none, or the maximum. */
  method ReadIndex<T>(all: seq<T>, cap: nat, reportsTotal: bool, pageSize: nat, maxObjects: nat)
      returns (objects: seq<T>, truncated: bool)
    requires cap >= 1 && 1 <= pageSize <= 2000 && maxObjects >= 1
    ensures reportsTotal ==> objects == FirstOf(all, maxObjects) && (truncated <==> |all| > maxObjects)
    ensures !reportsTotal && cap >= Min(pageSize, maxObjects) ==>
              objects == FirstOf(all, maxObjects) && (truncated <==> |all| >= maxObjects)
    ensures !reportsTotal && cap < Min(pageSize, maxObjects) ==> objects == FirstOf(all, cap) && !truncated
    ensures objects <= all && |objects| <= maxObjects
  {
    hide Page;
    objects, truncated := [], false;
    var offset := 0;
    while |objects| < maxObjects
      invariant offset == |objects| <= |all| && |objects| <= maxObjects
      invariant objects == all[..offset]
      invariant truncated ==> |objects| == maxObjects
      invariant reportsTotal ==> (truncated <==> |objects| == maxObjects) && (truncated ==> |all| > maxObjects)
      invariant !reportsTotal ==> (truncated <==> |objects| == maxObjects)
      invariant !reportsTotal && cap < Min(pageSize, maxObjects) ==> objects == []
      decreases maxObjects - |objects|
    {
      var limit := Min(pageSize, maxObjects - |objects|);
      var batch := Page(all, offset, limit, cap);
      objects, offset := objects + batch, offset + |batch|;
      if batch == [] { break; }
      if reportsTotal {
        if offset >= |all| { break; }
      } else if |batch| < limit { break; }
      if |objects| >= maxObjects { truncated := true; }
    }
  }

  /** `_scene_unlocked`: ask for pages of 1000 and stop at a shorter one, whatever total the server reports. */
  method ReadUnlocked<T>(all: seq<T>, cap: nat, reportsTotal: bool) returns (objects: seq<T>)
    requires cap >= 1
    ensures objects == Unlocked(all, cap)
  {
    hide Page;
    objects := [];
    var offset := 0;
    while true
      invariant offset == |objects| <= |all| && objects == all[..offset]
      invariant cap < UNLOCKED_LIMIT ==> offset == 0
      decreases |all| - offset
    {
      var batch := Page(all, offset, UNLOCKED_LIMIT, cap);
      objects, offset := objects + batch, offset + |batch|;
      if batch == [] || |batch| < UNLOCKED_LIMIT || (reportsTotal && offset >= |all|) { break; }
    }
  }

  /** What that loop reads: everything, unless the server caps its pages below 1000. */
  function Unlocked<T>(all: seq<T>, cap: nat): seq<T> {
    if cap >= UNLOCKED_LIMIT then all else FirstOf(all, cap)
  }

  /** The unlocked read is complete exactly when the server honours the limit or everything fits in one page. */
  lemma UnlockedComplete<T>(all: seq<T>, cap: nat)
    ensures Unlocked(all, cap) == all <==> cap >= UNLOCKED_LIMIT || |all| <= cap
  {
    if cap < UNLOCKED_LIMIT && |all| > cap {
      assert |Unlocked(all, cap)| == cap;
    }
  }
}
