// The critical sections of the bundle analyzer factory as methods on its fields, each proved
// equal to the step function that the invariants of `Residency` are about.
module ResidencyFactory {
  import opened Options
  import opened Residency

  class BundleAnalyzerFactory {
    var maximum: nat
    var active: Bundle
    var residents: map<Bundle, Resident>
    var loads: map<Bundle, LoadId>
    var pending: map<LoadId, Load>
    var changed: nat
    var sequence: nat
    var capacityWaiters: int

    function View(): Factory
      reads this
    {
      Factory(maximum, active, residents, loads, pending, changed, sequence, capacityWaiters)
    }

    constructor (maximum: nat, active: Bundle, analyzer: int)
      ensures View() == Initial(maximum, active, analyzer).f
    {
      this.maximum, this.active := maximum, active;
      residents := if active == "" then map[] else map[active := Resident(analyzer, 0, 0)];
      loads, pending, changed, sequence, capacityWaiters := map[], map[], 0, 0, 0;
    }

    // The inner scan of reserveCapacityLocked: the least recently used evictable resident,
    // found in whatever order the map is ranged over; "" when there is none.
    method LeastRecentlyUsed() returns (candidate: Bundle)
      requires "" !in residents
      ensures candidate == "" ==> forall b :: b in residents ==> !Evictable(View(), b)
      ensures candidate != "" ==> IsVictim(View(), candidate)
    {
      candidate := "";
      var oldest := 0;
      var todo := residents.Keys;
      while todo != {}
        invariant todo <= residents.Keys
        invariant candidate == "" ==> forall b :: b in residents && b !in todo ==> !Evictable(View(), b)
        invariant candidate != "" ==> candidate !in todo && Evictable(View(), candidate) && oldest == residents[candidate].lastUsed
        invariant candidate != "" ==>
          forall b :: b in residents && b !in todo && Evictable(View(), b) ==> oldest <= residents[b].lastUsed
      {
        var b :| b in todo;
        todo := todo - {b};
        if b == active || residents[b].references != 0 {
          continue;
        }
        if candidate == "" || residents[b].lastUsed < oldest {
          candidate, oldest := b, residents[b].lastUsed;
        }
      }
    }

    // Evict in LRU order until there is room for one more load or nothing is evictable.
    method ReserveCapacity() returns (ok: bool)
      requires "" !in residents
      modifies this`residents
      ensures ok <==> |residents| + |loads| < maximum
      ensures !ok ==> forall b :: b in residents ==> !Evictable(View(), b)
      ensures forall b :: b in residents ==> b in old(residents) && residents[b] == old(residents)[b]
      ensures forall b :: b in old(residents) && b !in residents ==> Evictable(old(View()), b)
      ensures forall b, c :: b in old(residents) && b !in residents && c in residents && Evictable(View(), c) ==>
                old(residents)[b].lastUsed <= residents[c].lastUsed
      ensures residents == old(residents) || |residents| + |loads| + 1 >= maximum
    {
      while |residents| + |loads| >= maximum
        invariant "" !in residents
        invariant forall b :: b in residents ==> b in old(residents) && residents[b] == old(residents)[b]
        invariant forall b :: b in old(residents) && b !in residents ==> Evictable(old(View()), b)
        invariant forall b, c :: b in old(residents) && b !in residents && c in residents && Evictable(View(), c) ==>
                    old(residents)[b].lastUsed <= residents[c].lastUsed
        invariant residents == old(residents) || |residents| + |loads| + 1 >= maximum
        decreases |residents|
      {
        var candidate := LeastRecentlyUsed();
        if candidate == "" {
          return false;
        }
        ghost var before := residents;
        residents := residents - {candidate};
        assert before.Keys == residents.Keys + {candidate};
        assert |before| == |before.Keys| && |residents| == |residents.Keys|;
      }
      ok := true;
    }

    // Under the capacity invariant the loop evicts at most one resident.
    method ReserveOne() returns (ok: bool, ghost victim: Option<Bundle>)
      requires Bounded(View())
      modifies this`residents
      ensures VictimAllowed(old(View()), victim)
      ensures ok <==> !Full(old(View())) || victim.Some?
      ensures residents == if victim.Some? then old(residents) - {victim.value} else old(residents)
    {
      ghost var before := residents;
      ok := ReserveCapacity();
      victim := Evicted(before, residents);
    }

    // A submap that lost at most one key.
    static lemma Evicted(before: map<Bundle, Resident>, after: map<Bundle, Resident>) returns (victim: Option<Bundle>)
      requires forall b :: b in after ==> b in before && after[b] == before[b]
      requires |after| + 1 >= |before|
      ensures victim.None? ==> after == before
      ensures victim.Some? ==> victim.value in before && victim.value !in after && after == before - {victim.value}
      ensures |after| == |before| - if victim.Some? then 1 else 0
    {
      assert |after| == |after.Keys| && |before| == |before.Keys|;
      if b :| b in before && b !in after {
        OneLeft(after.Keys, before.Keys, b);
        assert before.Keys == after.Keys + {b};
        victim := Some(b);
      } else {
        assert after.Keys == before.Keys;
        victim := None;
      }
    }

    static lemma OneLeft(a: set<Bundle>, b: set<Bundle>, x: Bundle)
      requires a <= b && x in b - a && |a| + 1 >= |b|
      ensures a == b - {x}
    {
      assert b == (b - {x}) + {x};
      assert b - {x} == a + (b - {x} - a);
      assert |b - {x} - a| == 0;
    }

    // One pass through the critical section of capture.
    method CaptureAttempt(requested: Bundle, load: LoadId) returns (reply: Reply, ghost victim: Option<Bundle>)
      requires Bounded(View()) && SingleFlight(View())
      modifies this
      ensures reply.Started? || reply.NoCapacity? ==> VictimAllowed(old(View()), victim)
      ensures (reply, View()) == TryCapture(old(View()), requested, victim, load)
    {
      victim := None;
      var bundle := if requested == "" then active else requested;
      assert FlightOf(View(), bundle);
      if bundle in residents {
        reply := AcquireResident(bundle);
        return;
      }
      if bundle in loads {
        var p := loads[bundle];
        if pending[p].waiters == 0 {
          return Abandoned(p), victim;
        }
        pending := pending[p := pending[p].(waiters := pending[p].waiters + 1)];
        return Joined(p), victim;
      }
      reply, victim := BeginLoad(bundle, load);
    }

    method AcquireResident(bundle: Bundle) returns (reply: Reply)
      requires bundle in residents
      modifies this`sequence, this`residents
      ensures View() == Acquire(old(View()), bundle) && reply == Captured(Capture(bundle, old(residents)[bundle].analyzer))
    {
      var resident := residents[bundle];
      sequence := sequence + 1;
      residents := residents[bundle := resident.(references := resident.references + 1, lastUsed := sequence)];
      reply := Captured(Capture(bundle, resident.analyzer));
    }

    method BeginLoad(bundle: Bundle, load: LoadId) returns (reply: Reply, ghost victim: Option<Bundle>)
      requires Bounded(View()) && bundle !in loads
      modifies this
      ensures VictimAllowed(old(View()), victim)
      ensures (reply, View()) == if Full(old(View())) && victim.None? then (NoCapacity(changed), EnterCapacityQueue(old(View())))
                                 else (Started(load), StartLoad(old(View()), bundle, victim, load))
    {
      var ok;
      ok, victim := ReserveOne();
      if !ok {
        capacityWaiters := capacityWaiters + 1;
        return NoCapacity(changed), victim;
      }
      pending := pending[load := Load(bundle, 1, false, Loading)];
      loads := loads[bundle := load];
      reply := Started(load);
    }

    method NotifyAll()
      modifies this`changed
      ensures View() == Notify(old(View()))
    {
      changed := changed + 1;
    }

    // The critical section after a load wait, for a caller that was cancelled or woken.
    method LeaveLoad(load: LoadId, cancelledByCaller: bool)
      requires load in pending
      modifies this`pending
      ensures View() == StopWaiting(old(View()), load, cancelledByCaller)
    {
      pending := pending[load := pending[load].(waiters := pending[load].waiters - 1)];
      if cancelledByCaller && pending[load].waiters == 0 {
        pending := pending[load := pending[load].(cancelled := true)];
      }
    }

    // The critical section that ends a load.
    method CompleteLoad(load: LoadId, result: LoadResult, analyzer: int)
      requires load in pending
      modifies this
      ensures View() == FinishLoad(old(View()), load, result, analyzer)
    {
      var bundle := pending[load].bundle;
      if bundle in loads && loads[bundle] == load {
        loads := loads - {bundle};
      }
      pending := pending[load := pending[load].(result := result)];
      if result == Loaded {
        sequence := sequence + 1;
        residents := residents[bundle := Resident(analyzer, 0, sequence)];
      }
      NotifyAll();
    }

    method ReleaseBundle(bundle: Bundle)
      modifies this
      ensures View() == Release(old(View()), bundle)
    {
      if bundle !in residents || residents[bundle].references == 0 {
        return;
      }
      sequence := sequence + 1;
      residents := residents[bundle := residents[bundle].(references := residents[bundle].references - 1, lastUsed := sequence)];
      NotifyAll();
    }

    // The critical section of reloadDesired, entered while holding a capture of the bundle.
    method ActivateBundle(bundle: Bundle)
      modifies this
      ensures View() == SwapActive(old(View()), bundle)
    {
      active := bundle;
      NotifyAll();
    }
  }
}
