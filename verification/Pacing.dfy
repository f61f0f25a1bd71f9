// acquireDestination: callers of one destination queue at a gate, and idle gates are
// collected and recreated. Each lock body and each channel operation is one step, so
// callers interleave freely and may give up anywhere.
module Pacing {
  import opened Options

  type Time = nat
  type Caller = nat
  type GateId = nat

  // The gate's one permit is in the channel when nobody holds it.
  datatype Gate = Gate(destination: string, lastStart: Option<Time>, references: int, holder: Option<Caller>)

  datatype Phase =
    | Queued                          // referenced, waiting for the permit
    | Holding                         // holds the permit
    | Timing(seen: Option<Time>)      // has read lastStart, waiting for the interval to pass
    | Paced                           // waited, and asking for network permits
    | Finishing                       // done or failed, about to drop the reference
    | Releasing                       // about to return the permit
  datatype Visit = Visit(gate: GateId, phase: Phase)

  // starts is auxiliary: the recorded starts per destination.
  datatype System = System(interval: nat, clock: Time, destinations: map<string, GateId>, gates: map<GateId, Gate>,
                           visits: map<Caller, Visit>, starts: map<string, seq<Time>>)

  function Start(interval: nat, clock: Time): System { System(interval, clock, map[], map[], map[], map[]) }

  // ----------------------------------------------------------------------- steps

  predicate Idle(gate: Gate, interval: nat, now: Time) {
    gate.references == 0 && (gate.lastStart.None? || gate.lastStart.value + interval <= now)
  }

  function Collected(s: System): map<string, GateId> {
    map d | d in s.destinations && s.destinations[d] in s.gates && !Idle(s.gates[s.destinations[d]], s.interval, s.clock) :: s.destinations[d]
  }

  // The first lock body: collect idle gates, find or create one, take a reference.
  function Enter(s: System, c: Caller, d: string, made: GateId): System
    requires made !in s.gates
  {
    var kept := Collected(s);
    var g := if d in kept then kept[d] else made;
    var gate := if d in kept && g in s.gates then s.gates[g] else Gate(d, None, 0, None);
    s.(destinations := kept[d := g], gates := s.gates[g := gate.(references := gate.references + 1)],
       visits := s.visits[c := Visit(g, Queued)])
  }

  predicate At(s: System, c: Caller, phase: Phase) { c in s.visits && s.visits[c].phase == phase && s.visits[c].gate in s.gates }

  function GateOf(s: System, c: Caller): Gate
    requires c in s.visits && s.visits[c].gate in s.gates
  {
    s.gates[s.visits[c].gate]
  }

  function Move(s: System, c: Caller, gate: Gate, phase: Phase): System
    requires c in s.visits
  {
    s.(gates := s.gates[s.visits[c].gate := gate], visits := s.visits[c := Visit(s.visits[c].gate, phase)])
  }

  function Record(starts: map<string, seq<Time>>, d: string, at: Time): map<string, seq<Time>> {
    starts[d := (if d in starts then starts[d] else []) + [at]]
  }

  function Granted(s: System, c: Caller): System
    requires At(s, c, Paced)
  {
    var gate := GateOf(s, c);
    Move(s, c, gate.(lastStart := Some(s.clock)), Finishing).(starts := Record(s.starts, gate.destination, s.clock))
  }

  datatype Step =
    | Arrive(c: Caller, d: string, made: GateId)
    | TakePermit(c: Caller)
    | ReturnEarly(c: Caller)   // cancelled just as the permit arrived
    | Leave(c: Caller)         // cancelled while queued
    | ReadStart(c: Caller)
    | Wake(c: Caller)          // the interval has passed
    | Grant(c: Caller)         // network permits acquired, start recorded
    | Quit(c: Caller)          // cancelled or refused a network permit
    | Unreference(c: Caller)
    | ReturnPermit(c: Caller)
    | Tick(amount: nat)

  predicate HoldsPermit(phase: Phase) { !phase.Queued? }
  predicate Refers(phase: Phase) { !phase.Releasing? }

  predicate Enabled(s: System, step: Step) {
    match step
    case Arrive(c, d, made) => c !in s.visits && d != "" && made !in s.gates
    case TakePermit(c) => At(s, c, Queued) && GateOf(s, c).holder.None?
    case ReturnEarly(c) => At(s, c, Holding)
    case Leave(c) => At(s, c, Queued)
    case ReadStart(c) => At(s, c, Holding)
    case Wake(c) =>
      c in s.visits && s.visits[c].phase.Timing?
      && (s.visits[c].phase.seen.None? || s.visits[c].phase.seen.value + s.interval <= s.clock)
    case Grant(c) => At(s, c, Paced)
    case Quit(c) => c in s.visits && (s.visits[c].phase.Holding? || s.visits[c].phase.Timing? || s.visits[c].phase.Paced?)
    case Unreference(c) => At(s, c, Finishing)
    case ReturnPermit(c) => At(s, c, Releasing)
    case Tick(_) => true
  }

  function Next(s: System, step: Step): System
    requires Enabled(s, step)
  {
    match step
    case Arrive(c, d, made) => Enter(s, c, d, made)
    case TakePermit(c) => Move(s, c, GateOf(s, c).(holder := Some(c)), Holding)
    case ReturnEarly(c) => Move(s, c, GateOf(s, c).(holder := None), Queued)
    case Leave(c) =>
      s.(gates := s.gates[s.visits[c].gate := GateOf(s, c).(references := GateOf(s, c).references - 1)], visits := s.visits - {c})
    case ReadStart(c) => Move(s, c, GateOf(s, c), Timing(GateOf(s, c).lastStart))
    case Wake(c) => s.(visits := s.visits[c := s.visits[c].(phase := Paced)])
    case Grant(c) => Granted(s, c)
    case Quit(c) => s.(visits := s.visits[c := s.visits[c].(phase := Finishing)])
    case Unreference(c) => Move(s, c, GateOf(s, c).(references := GateOf(s, c).references - 1), Releasing)
    case ReturnPermit(c) => s.(gates := s.gates[s.visits[c].gate := GateOf(s, c).(holder := None)], visits := s.visits - {c})
    case Tick(amount) => s.(clock := s.clock + amount)
  }

  predicate Reaches(s: System, steps: seq<Step>, n: System)
    decreases |steps|
  {
    if steps == [] then n == s else Enabled(s, steps[0]) && Reaches(Next(s, steps[0]), steps[1..], n)
  }

  // ------------------------------------------------------------------- invariant

  predicate RefersTo(visits: map<Caller, Visit>, c: Caller, g: GateId) { c in visits && visits[c].gate == g && Refers(visits[c].phase) }

  function Referers(s: System, g: GateId): set<Caller> { set c | c in s.visits && RefersTo(s.visits, c, g) }

  predicate CountedAt(s: System, g: GateId) { g in s.gates ==> s.gates[g].references == |Referers(s, g)| }

  // A caller's gate exists; while referenced it is the destination's gate; a caller past the
  // queue is the holder of its permit; and what it read is still what the gate says.
  predicate VisitRight(s: System, c: Caller) {
    c in s.visits ==>
      var v := s.visits[c];
      && v.gate in s.gates
      && (Refers(v.phase) ==> s.gates[v.gate].destination in s.destinations && s.destinations[s.gates[v.gate].destination] == v.gate)
      && (HoldsPermit(v.phase) ==> s.gates[v.gate].holder == Some(c))
      && (v.phase.Timing? ==> v.phase.seen == s.gates[v.gate].lastStart)
      && (v.phase.Paced? ==> Elapsed(s, s.gates[v.gate].lastStart))
  }

  predicate Elapsed(s: System, at: Option<Time>) { at.None? || at.value + s.interval <= s.clock }

  predicate DestinationRight(s: System, d: string) {
    d in s.destinations ==> s.destinations[d] in s.gates && s.gates[s.destinations[d]].destination == d
  }

  predicate Spaced(interval: nat, ts: seq<Time>) { forall i, j :: 0 <= i < j < |ts| ==> ts[i] + interval <= ts[j] }

  // The last start of a destination is either remembered by its gate or an interval ago.
  predicate StartsRight(s: System, d: string) {
    d in s.starts ==>
      var ts := s.starts[d];
      && ts != [] && Spaced(s.interval, ts)
      && (Elapsed(s, Some(ts[|ts| - 1])) || (d in s.destinations && s.destinations[d] in s.gates
                                             && s.gates[s.destinations[d]].lastStart == Some(ts[|ts| - 1])))
  }

  ghost predicate Counted(s: System) { forall g :: CountedAt(s, g) }
  ghost predicate VisitsRight(s: System) { forall c :: VisitRight(s, c) }
  ghost predicate DestinationsRight(s: System) { forall d :: DestinationRight(s, d) }
  ghost predicate AllStartsRight(s: System) { forall d :: StartsRight(s, d) }

  ghost predicate Inv(s: System) { Counted(s) && VisitsRight(s) && DestinationsRight(s) && AllStartsRight(s) }

  // -------------------------------------------------------------- what a step keeps

  // c alone moves at gate g: its visit becomes v (or ends) and the gate becomes gate.
  function After(s: System, c: Caller, v: Option<Visit>): map<Caller, Visit> {
    if v.Some? then s.visits[c := v.value] else s.visits - {c}
  }

  function Count(v: Option<Visit>): int { if v.Some? && Refers(v.value.phase) then 1 else 0 }

  lemma RefererMoves(s: System, n: System, c: Caller, v: Option<Visit>, g: GateId)
    requires n.visits == After(s, c, v)
    ensures |Referers(n, g)| - (if RefersTo(n.visits, c, g) then 1 else 0) == |Referers(s, g)| - (if RefersTo(s.visits, c, g) then 1 else 0)
  {
    OthersStay(s, n, c, v, g);
    Without(Referers(n, g), c);
    Without(Referers(s, g), c);
  }

  lemma OthersStay(s: System, n: System, c: Caller, v: Option<Visit>, g: GateId)
    requires n.visits == After(s, c, v)
    ensures Referers(n, g) - {c} == Referers(s, g) - {c}
  {
    forall b | b != c ensures b in Referers(n, g) <==> b in Referers(s, g) {
      assert RefersTo(n.visits, b, g) <==> RefersTo(s.visits, b, g);
    }
  }

  lemma Without(a: set<Caller>, c: Caller)
    ensures |a| == |a - {c}| + if c in a then 1 else 0
  {
    if c in a {
      assert a == (a - {c}) + {c};
    } else {
      assert a == a - {c};
    }
  }

  // The steps of one caller at its gate, all but the first.
  predicate Local(s: System, n: System, c: Caller, gate: Gate, v: Option<Visit>) {
    && c in s.visits && s.visits[c].gate in s.gates
    && n.visits == After(s, c, v) && (v.Some? ==> v.value.gate == s.visits[c].gate)
    && n.gates == s.gates[s.visits[c].gate := gate] && gate.destination == GateOf(s, c).destination
    && gate.references == GateOf(s, c).references - (if Refers(s.visits[c].phase) then 1 else 0) + Count(v)
    && n.destinations == s.destinations && n.interval == s.interval && n.clock == s.clock
  }

  lemma LocalCounted(s: System, n: System, c: Caller, gate: Gate, v: Option<Visit>)
    requires Counted(s) && Local(s, n, c, gate, v)
    ensures Counted(n)
  {
    forall g ensures CountedAt(n, g) {
      assert CountedAt(s, g);
      RefererMoves(s, n, c, v, g);
    }
  }

  // The permit is c's, or free and staying free or becoming c's.
  predicate PermitRight(s: System, c: Caller, gate: Gate, v: Option<Visit>)
    requires c in s.visits && s.visits[c].gate in s.gates
  {
    && (gate.holder == GateOf(s, c).holder || GateOf(s, c).holder in {None, Some(c)})
    && (gate.lastStart == GateOf(s, c).lastStart || GateOf(s, c).holder == Some(c))
    && (v.Some? && HoldsPermit(v.value.phase) ==> gate.holder == Some(c))
    && (v.Some? && Refers(v.value.phase) ==> Refers(s.visits[c].phase))
    && (v.Some? && v.value.phase.Timing? ==> v.value.phase.seen == gate.lastStart)
    && (v.Some? && v.value.phase.Paced? ==> Elapsed(s, gate.lastStart))
  }

  lemma LocalVisits(s: System, n: System, c: Caller, gate: Gate, v: Option<Visit>)
    requires VisitsRight(s) && Local(s, n, c, gate, v) && PermitRight(s, c, gate, v)
    ensures VisitsRight(n)
  {
    forall b ensures VisitRight(n, b) {
      assert VisitRight(s, b) && VisitRight(s, c);
    }
  }

  lemma LocalDestinations(s: System, n: System, c: Caller, gate: Gate, v: Option<Visit>)
    requires DestinationsRight(s) && Local(s, n, c, gate, v)
    ensures DestinationsRight(n)
  {
    forall d ensures DestinationRight(n, d) { assert DestinationRight(s, d); }
  }

  lemma LocalStarts(s: System, n: System, c: Caller, gate: Gate, v: Option<Visit>)
    requires AllStartsRight(s) && Local(s, n, c, gate, v) && gate.lastStart == GateOf(s, c).lastStart && n.starts == s.starts
    ensures AllStartsRight(n)
  {
    forall d ensures StartsRight(n, d) { assert StartsRight(s, d); }
  }

  lemma LocalKeeps(s: System, n: System, c: Caller, gate: Gate, v: Option<Visit>)
    requires Inv(s) && Local(s, n, c, gate, v) && PermitRight(s, c, gate, v)
    requires gate.lastStart == GateOf(s, c).lastStart && n.starts == s.starts
    ensures Inv(n)
  {
    LocalCounted(s, n, c, gate, v);
    LocalVisits(s, n, c, gate, v);
    LocalDestinations(s, n, c, gate, v);
    LocalStarts(s, n, c, gate, v);
  }

  // --------------------------------------------------------------------- arriving

  lemma ReferencedIsKept(s: System, c: Caller)
    requires Inv(s) && c in s.visits && Refers(s.visits[c].phase)
    ensures var g := s.visits[c].gate;
            g in s.gates && s.gates[g].destination in Collected(s) && Collected(s)[s.gates[g].destination] == g
  {
    var g := s.visits[c].gate;
    assert VisitRight(s, c) && CountedAt(s, g);
    assert c in Referers(s, g);
  }

  lemma UnseenGate(s: System, made: GateId)
    requires VisitsRight(s) && made !in s.gates
    ensures Referers(s, made) == {}
  {
    forall c ensures c !in Referers(s, made) { assert VisitRight(s, c); }
  }

  // The gate the caller enters by.
  function Door(s: System, d: string, made: GateId): (GateId, Gate) {
    var kept := Collected(s);
    if d in kept && kept[d] in s.gates then (kept[d], s.gates[kept[d]]) else (made, Gate(d, None, 0, None))
  }

  lemma EnterShape(s: System, c: Caller, d: string, made: GateId)
    requires Inv(s) && made !in s.gates
    ensures var n := Enter(s, c, d, made); var (g, gate) := Door(s, d, made);
            && n.destinations == Collected(s)[d := g] && n.gates == s.gates[g := gate.(references := gate.references + 1)]
            && n.visits == s.visits[c := Visit(g, Queued)] && n.starts == s.starts && n.clock == s.clock && n.interval == s.interval
            && gate.destination == d && (g in s.gates ==> s.gates[g] == gate && d in Collected(s) && Collected(s)[d] == g)
            && (g !in s.gates ==> g == made && d !in Collected(s))
  {
    assert DestinationRight(s, d);
  }

  lemma EnterCounted(s: System, c: Caller, d: string, made: GateId)
    requires Inv(s) && made !in s.gates && c !in s.visits
    ensures Counted(Enter(s, c, d, made))
  {
    EnterShape(s, c, d, made);
    var n, door := Enter(s, c, d, made), Door(s, d, made);
    UnseenGate(s, made);
    forall g ensures CountedAt(n, g) {
      assert CountedAt(s, g);
      RefererMoves(s, n, c, Some(Visit(door.0, Queued)), g);
    }
  }

  lemma EnterVisits(s: System, c: Caller, d: string, made: GateId)
    requires Inv(s) && made !in s.gates && c !in s.visits
    ensures VisitsRight(Enter(s, c, d, made))
  {
    EnterShape(s, c, d, made);
    var n := Enter(s, c, d, made);
    forall b ensures VisitRight(n, b) {
      assert VisitRight(s, b);
      if b in s.visits && Refers(s.visits[b].phase) {
        ReferencedIsKept(s, b);
      }
    }
  }

  lemma EnterDestinations(s: System, c: Caller, d: string, made: GateId)
    requires Inv(s) && made !in s.gates
    ensures DestinationsRight(Enter(s, c, d, made))
  {
    EnterShape(s, c, d, made);
    var n := Enter(s, c, d, made);
    forall e ensures DestinationRight(n, e) { assert DestinationRight(s, e); }
  }

  // Collecting a gate forgets its last start only after the interval.
  lemma EnterStarts(s: System, c: Caller, d: string, made: GateId)
    requires Inv(s) && made !in s.gates
    ensures AllStartsRight(Enter(s, c, d, made))
  {
    EnterShape(s, c, d, made);
    var n := Enter(s, c, d, made);
    forall e ensures StartsRight(n, e) { assert StartsRight(s, e) && DestinationRight(s, e); }
  }

  // --------------------------------------------------------------------- granting

  lemma GrantIsSpaced(s: System, c: Caller)
    requires Inv(s) && At(s, c, Paced)
    ensures var d := GateOf(s, c).destination;
            d in s.starts ==> s.starts[d] != [] && s.starts[d][|s.starts[d]| - 1] + s.interval <= s.clock
  {
    var d := GateOf(s, c).destination;
    assert VisitRight(s, c) && StartsRight(s, d);
  }

  lemma SpacedAppend(interval: nat, ts: seq<Time>, at: Time)
    requires Spaced(interval, ts) && (ts != [] ==> ts[|ts| - 1] + interval <= at)
    ensures Spaced(interval, ts + [at])
  {
    var us := ts + [at];
    forall i, j | 0 <= i < j < |us| ensures us[i] + interval <= us[j] {
      if j == |ts| && i < |ts| - 1 {
        assert ts[i] + interval <= ts[|ts| - 1];
      }
    }
  }

  lemma GrantStarts(s: System, c: Caller)
    requires Inv(s) && At(s, c, Paced)
    ensures AllStartsRight(Granted(s, c))
  {
    var n, d := Granted(s, c), GateOf(s, c).destination;
    GrantIsSpaced(s, c);
    assert StartsRight(s, d) && VisitRight(s, c);
    SpacedAppend(s.interval, if d in s.starts then s.starts[d] else [], s.clock);
    forall e ensures StartsRight(n, e) { assert StartsRight(s, e) && DestinationRight(s, e); }
  }

  lemma GrantKeeps(s: System, c: Caller)
    requires Inv(s) && At(s, c, Paced)
    ensures Inv(Granted(s, c))
  {
    var gate, v := GateOf(s, c).(lastStart := Some(s.clock)), Some(Visit(s.visits[c].gate, Finishing));
    assert VisitRight(s, c);
    LocalCounted(s, Granted(s, c), c, gate, v);
    LocalVisits(s, Granted(s, c), c, gate, v);
    LocalDestinations(s, Granted(s, c), c, gate, v);
    GrantStarts(s, c);
  }

  lemma TickKeeps(s: System, amount: nat)
    requires Inv(s)
    ensures Inv(s.(clock := s.clock + amount))
  {
    var n := s.(clock := s.clock + amount);
    forall g ensures CountedAt(n, g) {
      assert CountedAt(s, g) && Referers(n, g) == Referers(s, g);
    }
    forall c ensures VisitRight(n, c) { assert VisitRight(s, c); }
    forall d ensures DestinationRight(n, d) { assert DestinationRight(s, d); }
    forall d ensures StartsRight(n, d) { assert StartsRight(s, d); }
  }

  // ------------------------------------------------------------------- whole runs

  lemma NextKeeps(s: System, step: Step)
    requires Inv(s) && Enabled(s, step)
    ensures Inv(Next(s, step))
  {
    if step.Tick? {
      TickKeeps(s, step.amount);
    } else if step.Arrive? {
      EnterCounted(s, step.c, step.d, step.made);
      EnterVisits(s, step.c, step.d, step.made);
      EnterDestinations(s, step.c, step.d, step.made);
      EnterStarts(s, step.c, step.d, step.made);
    } else if step.Grant? {
      GrantKeeps(s, step.c);
    } else {
      CallerKeeps(s, step);
    }
  }

  lemma CallerKeeps(s: System, step: Step)
    requires Inv(s) && Enabled(s, step) && !step.Tick? && !step.Arrive? && !step.Grant?
    ensures Inv(Next(s, step))
  {
    var c, n := step.c, Next(s, step);
    assert VisitRight(s, c);
    var gate := n.gates[s.visits[c].gate];
    var v := if c in n.visits then Some(n.visits[c]) else None;
    LocalStep(s, step);
    LocalKeeps(s, n, c, gate, v);
  }

  lemma LocalStep(s: System, step: Step)
    requires VisitsRight(s) && Enabled(s, step) && !step.Tick? && !step.Arrive? && !step.Grant?
    ensures var c, n := step.c, Next(s, step);
            && c in s.visits && s.visits[c].gate in s.gates && s.visits[c].gate in n.gates
            && var gate, v := n.gates[s.visits[c].gate], if c in n.visits then Some(n.visits[c]) else None;
            && Local(s, n, c, gate, v) && PermitRight(s, c, gate, v)
            && gate.lastStart == GateOf(s, c).lastStart && n.starts == s.starts
  {
    assert VisitRight(s, step.c);
  }

  lemma {:induction false} RunKeeps(s: System, steps: seq<Step>, n: System)
    requires Inv(s) && Reaches(s, steps, n)
    ensures Inv(n) && n.interval == s.interval
    decreases |steps|
  {
    if steps != [] {
      NextKeeps(s, steps[0]);
      RunKeeps(Next(s, steps[0]), steps[1..], n);
    }
  }

  // Any two recorded starts for one destination are at least the interval apart, however
  // callers interleave, give up, and gates come and go.
  lemma StartsAreSpaced(interval: nat, clock: Time, steps: seq<Step>, s: System, d: string, i: nat, j: nat)
    requires Reaches(Start(interval, clock), steps, s) && d in s.starts && i < j < |s.starts[d]|
    ensures s.starts[d][i] + interval <= s.starts[d][j]
  {
    RunKeeps(Start(interval, clock), steps, s);
    assert StartsRight(s, d);
  }

  // A destination never has two callers past its gate: whoever paces or starts holds the
  // permit of the gate the map names.
  lemma OnePacer(interval: nat, clock: Time, steps: seq<Step>, s: System, a: Caller, b: Caller)
    requires Reaches(Start(interval, clock), steps, s) && a in s.visits && b in s.visits
    requires s.visits[a].gate in s.gates && s.visits[b].gate in s.gates && GateOf(s, a).destination == GateOf(s, b).destination
    requires HoldsPermit(s.visits[a].phase) && Refers(s.visits[a].phase) && HoldsPermit(s.visits[b].phase) && Refers(s.visits[b].phase)
    ensures a == b
  {
    RunKeeps(Start(interval, clock), steps, s);
    assert VisitRight(s, a) && VisitRight(s, b);
  }

  // A gate's count is exactly the callers that still refer to it, so it never goes negative
  // and only unreferenced gates are collected.
  lemma ReferencesExact(interval: nat, clock: Time, steps: seq<Step>, s: System, g: GateId)
    requires Reaches(Start(interval, clock), steps, s) && g in s.gates
    ensures s.gates[g].references == |Referers(s, g)|
  {
    RunKeeps(Start(interval, clock), steps, s);
    assert CountedAt(s, g);
  }
}
