/**
 The record of completed fibers that every scheduler keeps so that a completion is counted
 once (internal/scheduler/scheduler.go).  It is pruned when it grows beyond its bound, and
 what is pruned depends on the iteration order of Go's maps.
 */
module Completions {
  import opened Fibers

  const MAX_COMPLETED: nat := 4096
  const PRUNED: nat := 2048

  /** What the record may be once `id` is on it. */
  ghost predicate Recorded(before: set<FiberID>, id: FiberID, after: set<FiberID>) {
    var all := before + {id};
    if |all| <= MAX_COMPLETED then after == all else after <= all && |after| == |all| - PRUNED
  }

  /** Puts `id` on the record and prunes it if it has grown too large. */
  method Record(before: set<FiberID>, id: FiberID) returns (after: set<FiberID>)
    ensures Recorded(before, id, after)
  {
    after := before + {id};
    if |after| <= MAX_COMPLETED { return; }
    for i := 0 to PRUNED
      invariant after <= before + {id} && |after| == |before + {id}| - i
    {
      var x :| x in after;
      after := after - {x};
    }
  }
}
