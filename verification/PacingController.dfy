// The lock bodies of acquireDestination, as methods over the controller's maps.
module PacingController {
  import opened Options
  import opened Pacing

  class Controller {
    const interval: nat
    var destinations: map<string, GateId>
    var gates: map<GateId, Gate>

    // What the steps of `Pacing` see, beside the callers, the clock and the record of starts.
    ghost function View(clock: Time, visits: map<Caller, Visit>, starts: map<string, seq<Time>>): System
      reads this
    {
      System(interval, clock, destinations, gates, visits, starts)
    }

    constructor (interval: nat)
      ensures this.interval == interval && destinations == map[] && gates == map[]
    {
      this.interval := interval;
      destinations, gates := map[], map[];
    }

    // Deletes every idle gate from the map.
    method Collect(now: Time)
      requires forall d :: d in destinations ==> destinations[d] in gates
      modifies this`destinations
      ensures destinations == Collected(old(View(now, map[], map[])))
    {
      var kept, rest := destinations, destinations.Keys;
      while rest != {}
        invariant rest <= destinations.Keys && destinations == old(destinations)
        invariant forall d :: d in kept <==> d in destinations && (d in rest || !Idle(gates[destinations[d]], interval, now))
        invariant forall d :: d in kept ==> kept[d] == destinations[d]
        decreases |rest|
      {
        var d :| d in rest;
        if gates[destinations[d]].references == 0
           && (gates[destinations[d]].lastStart.None? || gates[destinations[d]].lastStart.value + interval <= now) {
          kept := kept - {d};
        }
        rest := rest - {d};
      }
      destinations := kept;
    }

    // Collects, then finds or makes the destination's gate and takes a reference.
    method EnterGate(ghost c: Caller, d: string, made: GateId, now: Time, ghost visits: map<Caller, Visit>, ghost starts: map<string, seq<Time>>)
      returns (g: GateId)
      requires forall e :: e in destinations ==> destinations[e] in gates
      requires made !in gates
      modifies this`destinations, this`gates
      ensures View(now, visits[c := Visit(g, Queued)], starts) == Enter(old(View(now, visits, starts)), c, d, made)
    {
      ghost var before := View(now, visits, starts);
      Collect(now);
      assert destinations == Collected(before);
      if d in destinations {
        g := destinations[d];
      } else {
        g := made;
        gates := gates[g := Gate(d, None, 0, None)];
        destinations := destinations[d := g];
      }
      gates := gates[g := gates[g].(references := gates[g].references + 1)];
    }

    // The reference is dropped: by a caller that gives up in the queue, or by one that is done
    // and still holds the permit.
    method ReleaseReference(g: GateId, ghost c: Caller, ghost now: Time, ghost visits: map<Caller, Visit>, ghost starts: map<string, seq<Time>>)
      requires g in gates && c in visits && visits[c].gate == g
      modifies this`gates
      ensures visits[c].phase.Queued? ==> View(now, visits - {c}, starts) == Next(old(View(now, visits, starts)), Leave(c))
      ensures visits[c].phase.Finishing? ==>
                View(now, visits[c := Visit(g, Releasing)], starts) == Next(old(View(now, visits, starts)), Unreference(c))
    {
      gates := gates[g := gates[g].(references := gates[g].references - 1)];
    }

    // How long to wait before the next start; none when the interval has passed.
    method UntilStart(g: GateId, now: Time) returns (wait: nat)
      requires g in gates
      ensures wait == 0 <==> gates[g].lastStart.None? || gates[g].lastStart.value + interval <= now
      ensures gates[g].lastStart.Some? ==> gates[g].lastStart.value + interval <= now + wait
    {
      wait := 0;
      if gates[g].lastStart.Some? && gates[g].lastStart.value + interval > now {
        wait := gates[g].lastStart.value + interval - now;
      }
    }

    // The start of a caller that has waited and has its network permits.
    method RecordStart(g: GateId, now: Time, ghost c: Caller, ghost visits: map<Caller, Visit>, ghost starts: map<string, seq<Time>>)
      requires g in gates && c in visits && visits[c] == Visit(g, Paced)
      modifies this`gates
      ensures View(now, visits[c := Visit(g, Finishing)], Record(starts, old(gates)[g].destination, now))
              == Next(old(View(now, visits, starts)), Grant(c))
    {
      gates := gates[g := gates[g].(lastStart := Some(now))];
    }
  }
}
