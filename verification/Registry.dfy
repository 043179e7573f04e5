/**
 The part of the runtime guarded by fibersMu (internal/runtime/runtime.go): the fiber map,
 the set of committed admissions and the drain gate.  Each function below is one lock
 region.  RuntimeRegions.dfy proves that the steps of the transition system act on these
 three as the functions do; the class at the end carries the functions out in place.
 */
module Registries {
  import opened Fibers
  import opened Sequences

  datatype Registry = Registry(fibers: set<FiberID>, admitted: set<FiberID>, draining: bool)

  /** Spawn registers its fiber before scheduling it. */
  function Insert(r: Registry, id: FiberID): Registry { r.(fibers := r.fibers + {id}) }

  /** Spawn unregisters a fiber the scheduler refused. */
  function Unregister(r: Registry, id: FiberID): Registry { r.(fibers := r.fibers - {id}) }

  datatype Commit = Committed | Refused(present: bool)

  /** Spawn commits its admission, or rolls back when the run is stopping. */
  function CommitAdmission(r: Registry, id: FiberID, stopping: bool): (Registry, Commit) {
    if stopping || r.draining then
      (r.(fibers := r.fibers - {id}, admitted := r.admitted - {id}), Refused(id in r.fibers))
    else
      (r.(admitted := r.admitted + {id}), Committed)
  }

  /** Completion removes the fiber; the flag says whether it was still registered. */
  function Remove(r: Registry, id: FiberID): (Registry, bool) {
    (r.(fibers := r.fibers - {id}, admitted := r.admitted - {id}), id in r.fibers)
  }

  /** The committed, never dispatched fibers that a reap claims. */
  function Reapable(r: Registry, main: Option<FiberID>, ready: set<FiberID>): set<FiberID> {
    set id | id in r.fibers && Some(id) != main && id in r.admitted && id in ready
  }

  /** reapPending closes the drain gate and claims the pending fibers. */
  function Reap(r: Registry, main: Option<FiberID>, ready: set<FiberID>): (Registry, set<FiberID>) {
    var claimed := Reapable(r, main, ready);
    (Registry(r.fibers - claimed, r.admitted - claimed, true), claimed)
  }

  /** Start registers the main fiber and opens the drain gate. */
  function Open(r: Registry, main: FiberID): Registry { r.(fibers := r.fibers + {main}, draining := false) }

  function Cleared(): Registry { Registry({}, {}, false) }

  /**
   The registry object.  Every fiber that was ever registered is registered still, or was
   claimed by exactly one caller, who then owes the one decrement of the counter for it, or
   was abandoned by a Reset.  The transition system does not use the object; the two meet in
   the functions above.
   */
  class FiberRegistry {
    var fibers: set<FiberID>
    var admitted: set<FiberID>
    var draining: bool
    ghost var inserted: set<FiberID>
    ghost var claimed: set<FiberID>
    ghost var abandoned: set<FiberID>

    ghost function View(): Registry reads this { Registry(fibers, admitted, draining) }

    ghost predicate Valid() reads this {
      inserted == fibers + claimed + abandoned && fibers !! claimed !! abandoned
    }

    /** Registered once and neither claimed nor abandoned so far. */
    ghost predicate Unclaimed(id: FiberID) reads this { id in inserted && id !in claimed && id !in abandoned }

    constructor (main: FiberID)
      ensures Valid() && View() == Registry({main}, {}, false) && inserted == {main}
    {
      fibers, admitted, draining := {main}, {}, false;
      inserted, claimed, abandoned := {main}, {}, {};
    }

    method InsertFiber(id: FiberID)
      requires Valid() && id !in inserted
      modifies this
      ensures Valid() && View() == Insert(old(View()), id) && Unclaimed(id)
      ensures inserted == old(inserted) + {id} && claimed == old(claimed) && abandoned == old(abandoned)
    {
      fibers := fibers + {id};
      inserted := inserted + {id};
    }

    /** Commits only while the gate is open; a rollback owes the decrement exactly if nobody claimed before. */
    method CommitOrRollBack(id: FiberID, stopping: bool) returns (result: Commit)
      requires Valid() && id in inserted
      modifies this
      ensures Valid() && (View(), result) == CommitAdmission(old(View()), id, stopping)
      ensures inserted == old(inserted) && abandoned == old(abandoned)
      ensures result.Committed? ==> claimed == old(claimed)
      ensures result.Refused? ==>
        && (result.present <==> old(Unclaimed(id))) && !Unclaimed(id)
        && claimed == old(claimed) + (if result.present then {id} else {})
    {
      if stopping || draining {
        var present := id in fibers;
        fibers := fibers - {id};
        admitted := admitted - {id};
        if present { claimed := claimed + {id}; }
        return Refused(present);
      }
      admitted := admitted + {id};
      return Committed;
    }

    /** A completion owes the decrement exactly if nobody claimed the fiber before. */
    method RemoveCompleted(id: FiberID) returns (present: bool)
      requires Valid() && id in inserted
      modifies this
      ensures Valid() && (View(), present) == Remove(old(View()), id)
      ensures inserted == old(inserted) && abandoned == old(abandoned)
      ensures (present <==> old(Unclaimed(id))) && !Unclaimed(id)
      ensures claimed == old(claimed) + (if present then {id} else {})
    {
      present := id in fibers;
      fibers := fibers - {id};
      admitted := admitted - {id};
      if present { claimed := claimed + {id}; }
    }

    /** The scan loop of reapPending; entries are visited in any order. */
    method ReapPending(main: Option<FiberID>, ready: set<FiberID>) returns (reaped: set<FiberID>)
      requires Valid()
      modifies this
      ensures Valid() && (View(), reaped) == Reap(old(View()), main, ready)
      ensures inserted == old(inserted) && abandoned == old(abandoned)
      ensures reaped !! old(claimed) && claimed == old(claimed) + reaped
      ensures Reapable(View(), main, ready) == {}
    {
      ghost var start := View();
      draining := true;
      reaped := {};
      var unvisited := fibers;
      while unvisited != {}
        invariant unvisited <= start.fibers && draining
        invariant inserted == old(inserted) && abandoned == old(abandoned) && claimed == old(claimed)
        invariant reaped == Reapable(start, main, ready) - unvisited
        invariant fibers == start.fibers - reaped && admitted == start.admitted - reaped
        decreases unvisited
      {
        var id :| id in unvisited;
        unvisited := unvisited - {id};
        if Some(id) != main && id in admitted && id in ready {
          reaped := reaped + {id};
          fibers := fibers - {id};
          admitted := admitted - {id};
        }
      }
      assert reaped == Reapable(start, main, ready);
      claimed := claimed + reaped;
    }

    /** Registers the main fiber, which nobody claims, and lets commits through again. */
    method OpenForRun(main: FiberID)
      requires Valid() && main !in claimed && main !in abandoned
      modifies this
      ensures Valid() && View() == Open(old(View()), main) && Unclaimed(main)
      ensures inserted == old(inserted) + {main} && claimed == old(claimed) && abandoned == old(abandoned)
    {
      fibers := fibers + {main};
      draining := false;
      inserted := inserted + {main};
    }

    /** Nobody will claim what was registered: its decrement is lost. */
    method Reset()
      requires Valid()
      modifies this
      ensures Valid() && View() == Cleared() && claimed == old(claimed) && inserted == old(inserted)
      ensures forall id :: old(Unclaimed(id)) ==> id in abandoned && !Unclaimed(id)
    {
      abandoned := abandoned + fibers;
      fibers, admitted, draining := {}, {}, false;
    }
  }
}
