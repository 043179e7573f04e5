/**
 The protocol's steps under fibersMu are exactly the lock regions of Registry.dfy, which the
 registry object carries out in place; and what an unguarded Reset does to the counter.
 */
module RuntimeRegions {
  import opened Fibers
  import opened Registries
  import opened Sequences
  import opened Runtime
  import opened RuntimeInvariant
  import opened RuntimeTheorems

  /** The main fiber is not one that Spawn created. */
  predicate MainApart(s: State) { s.main.Some? ==> s.main.value !in s.fibers }

  lemma PutRegistry(s: State, id: FiberID, e: Effect)
    requires MainApart(s) && id in s.fibers
    ensures var registry, registry' := RegistryOf(s), RegistryOf(Put(s, id, e));
      && registry'.fibers == (if e.rec.registered then registry.fibers + {id} else registry.fibers - {id})
      && registry'.admitted == (if e.rec.committed then registry.admitted + {id} else registry.admitted - {id})
      && registry'.draining == registry.draining
      && (id in registry.fibers <==> s.fibers[id].registered)
      && (id in registry.admitted <==> s.fibers[id].committed)
  {
    var s' := Put(s, id, e);
    assert NonMain(s') == if e.rec.registered then NonMain(s) + {id} else NonMain(s) - {id};
    assert Committeds(s') == if e.rec.committed then Committeds(s) + {id} else Committeds(s) - {id};
  }

  /** The three lock regions of Spawn; its other steps leave the registry alone. */
  lemma SpawnRegions(s: State, id: FiberID)
    requires MainApart(s) && id in s.fibers
    ensures var s' := Do(s, SpawnStep(id));
      match s.fibers[id].pc
      case Counted => RegistryOf(s') == Insert(RegistryOf(s), id)
      case ScheduleRefused => RegistryOf(s') == Unregister(RegistryOf(s), id)
      case Rechecked(stopping) =>
        var (registry, result) := CommitAdmission(RegistryOf(s), id, stopping);
        && RegistryOf(s') == registry
        && s'.fibers[id].pc == (if result.Committed? then Returned(Admitted) else RolledBack(result.present))
      case _ => RegistryOf(s') == RegistryOf(s)
  {
    SpawnFlags(s, s.fibers[id]);
    PutRegistry(s, id, SpawnEffect(s, s.fibers[id]));
    hide SpawnEffect;
    hide RegistryOf;
  }

  /** What a Spawn step does to the registry flags of its fiber. */
  lemma SpawnFlags(s: State, r: Rec)
    ensures var r' := SpawnEffect(s, r).rec;
      match r.pc
      case Counted => r'.registered && r'.committed == r.committed
      case ScheduleRefused => !r'.registered && r'.committed == r.committed
      case Rechecked(stopping) =>
        if stopping || s.draining then !r'.registered && !r'.committed && r'.pc == RolledBack(r.registered)
        else r'.registered == r.registered && r'.committed && r'.pc == Returned(Admitted)
      case _ => r'.registered == r.registered && r'.committed == r.committed
  {
  }

  /** Completion's region, and the flag by which it decides whether to lower the counter. */
  lemma CompletionRegion(s: State, id: FiberID)
    requires MainApart(s) && id in s.fibers && s.fibers[id].task.Some? && s.fibers[id].task.value.pc.Marked?
    ensures var s' := Do(s, TaskStep(id));
      s'.fibers[id].task.Some? && s'.fibers[id].task.value.pc.Removed?
      && (RegistryOf(s'), s'.fibers[id].task.value.pc.present) == Remove(RegistryOf(s), id)
  {
    PutRegistry(s, id, TaskEffect(s.fibers[id]));
    hide RegistryOf;
  }

  function ReadyFibers(s: State): set<FiberID> { set id | id in s.fibers && s.fibers[id].fiber.state == Ready }

  function Claimed(s: State): set<FiberID> { set id | id in s.fibers && s.fibers[id].reaping }

  function PendingFibers(s: State): set<FiberID> { set id | id in s.fibers && Pending(s.fibers[id]) }

  lemma PendingAreReapable(s: State)
    requires MainApart(s)
    ensures Reapable(RegistryOf(s), s.main, ReadyFibers(s)) == PendingFibers(s)
  {
    var registry := RegistryOf(s);
    forall id: FiberID
      ensures id in Reapable(registry, s.main, ReadyFibers(s)) <==> id in PendingFibers(s)
    {
      assert id in s.fibers ==> Some(id) != s.main;
    }
  }

  /** Stop's region claims exactly what the reap scan claims. */
  lemma ReapRegion(s: State)
    requires MainApart(s) && s.life.StopCleared? && Claimed(s) == {}
    ensures (RegistryOf(StopNext(s)), Claimed(StopNext(s))) == Reap(RegistryOf(s), s.main, ReadyFibers(s))
  {
    var s' := StopNext(s);
    PendingAreReapable(s);
    forall id | id in s.fibers ensures s'.fibers[id] == Claim(s.fibers[id]) && !s.fibers[id].reaping {
      assert id !in Claimed(s);
    }
    assert Claimed(s') == PendingFibers(s);
    assert NonMain(s') == NonMain(s) - PendingFibers(s);
    assert Committeds(s') == Committeds(s) - PendingFibers(s);
    assert s.main.Some? ==> s.main.value !in PendingFibers(s);
    var registry := RegistryOf(s);
    assert RegistryOf(s').fibers == registry.fibers - PendingFibers(s);
    assert Reap(registry, s.main, ReadyFibers(s)) ==
      (Registry(registry.fibers - PendingFibers(s), registry.admitted - PendingFibers(s), true), PendingFibers(s));
  }

  // ---------------------------------------------------------------- Reset

  /**
   Reset replaces the fiber map without looking at the counter.  On a stopped runtime it
   keeps the counter exact if and only if no fiber but the main one is registered, which
   the caller can see from the fiber map; by `StoppedAndQuietIsEmpty` that is the case once
   all Spawn calls have returned and all dispatched fibers have finished.
   */
  lemma ResetExactIffNothingRegistered(s: State)
    requires Inv(s) && s.life.Idle? && !IsRunning(s)
    ensures ResetRegistry(s).count == |OnCounterSet(ResetRegistry(s))| <==> NonMain(s) == {}
  {
    var s' := ResetRegistry(s);
    hide RecOk;
    assert OnCounterSet(s') <= OnCounterSet(s);
    forall id | id in NonMain(s) ensures id in OnCounterSet(s) && id !in OnCounterSet(s') {
      RegisteredOnly(s, id);
    }
    if NonMain(s) == {} {
      forall id | id in OnCounterSet(s) ensures id in OnCounterSet(s') { assert id !in NonMain(s); }
      assert OnCounterSet(s') == OnCounterSet(s);
    } else {
      var id :| id in NonMain(s);
      assert OnCounterSet(s') <= OnCounterSet(s) - {id};
      SubsetSize(OnCounterSet(s'), OnCounterSet(s) - {id});
    }
  }

  /** A registered fiber is on the counter for no other reason. */
  lemma RegisteredOnly(s: State, id: FiberID)
    requires Inv(s) && id in s.fibers && s.fibers[id].registered
    ensures OnCounter(s.fibers[id]) && !OnCounter(s.fibers[id].(registered := false, committed := false))
  {
    assert RecOk(s.fibers[id], HoldOf(s.loop, id), PhaseOf(s));
  }
}
