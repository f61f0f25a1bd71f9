// What pacing lets happen: idle gates go, and a caller at a free gate starts as soon as the
// interval since the destination's last start has passed.
module PacingEffects {
  import opened Options
  import opened Pacing

  // An arrival keeps exactly the gates of other destinations that are in use or were used
  // less than an interval ago, and queues the caller at the gate of its destination: the one
  // kept, or a new one that no start is known of.
  lemma ArrivalCollects(interval: nat, clock: Time, steps: seq<Step>, s: System, c: Caller, d: string, made: GateId, e: string)
    requires Reaches(Start(interval, clock), steps, s) && Enabled(s, Arrive(c, d, made)) && e != d
    ensures var n := Next(s, Arrive(c, d, made));
            && (e in n.destinations <==> e in s.destinations && InUse(s, s.destinations[e]))
            && (e in n.destinations ==> n.destinations[e] == s.destinations[e])
            && At(n, c, Queued) && d in n.destinations && n.destinations[d] == n.visits[c].gate && GateOf(n, c).destination == d
            && (d in s.destinations && InUse(s, s.destinations[d]) ==>
                  n.destinations[d] == s.destinations[d] && GateOf(n, c) == Referenced(s.gates[s.destinations[d]]))
            && (!(d in s.destinations && InUse(s, s.destinations[d])) ==> GateOf(n, c) == Gate(d, None, 1, None))
            && n.starts == s.starts
  {
    RunKeeps(Start(interval, clock), steps, s);
    assert DestinationRight(s, e) && DestinationRight(s, d);
  }

  function Referenced(gate: Gate): Gate { gate.(references := gate.references + 1) }

  // Some caller refers to the gate, or its last start is less than an interval ago.
  predicate InUse(s: System, g: GateId) {
    g in s.gates && (s.gates[g].references != 0 || (s.gates[g].lastStart.Some? && s.clock < s.gates[g].lastStart.value + s.interval))
  }

  function StartsOf(s: System, d: string): seq<Time> { if d in s.starts then s.starts[d] else [] }

  // When the interval since the gate's last start is over.
  function Due(s: System, gate: Gate): Time {
    if gate.lastStart.Some? && gate.lastStart.value + s.interval > s.clock then gate.lastStart.value + s.interval else s.clock
  }

  function Approach(c: Caller, wait: nat): seq<Step> { [TakePermit(c), ReadStart(c), Tick(wait), Wake(c)] }
  function Depart(c: Caller): seq<Step> { [Grant(c), Unreference(c), ReturnPermit(c)] }

  // A caller queued at a free gate takes the permit and waits until the interval is over.
  lemma CallerPaces(s: System, c: Caller) returns (n: System)
    requires At(s, c, Queued) && GateOf(s, c).holder.None?
    ensures var gate := GateOf(s, c); var at := Due(s, gate); var g := s.visits[c].gate;
            && Reaches(s, Approach(c, at - s.clock), n)
            && n == s.(clock := at, gates := s.gates[g := gate.(holder := Some(c))], visits := s.visits[c := Visit(g, Paced)])
  {
    var steps := Approach(c, Due(s, GateOf(s, c)) - s.clock);
    var s1 := Next(s, steps[0]);
    var s2 := Next(s1, steps[1]);
    var s3 := Next(s2, steps[2]);
    n := Next(s3, steps[3]);
    assert steps[4..] == [] && Reaches(n, steps[4..], n);
    Onward(s3, steps, 3, n);
    Onward(s2, steps, 2, n);
    Onward(s1, steps, 1, n);
    Onward(s, steps, 0, n);
    assert steps[0..] == steps;
  }

  // A caller that has waited starts, drops its reference and returns the permit.
  lemma CallerFinishes(s: System, c: Caller) returns (n: System)
    requires At(s, c, Paced)
    ensures var gate := GateOf(s, c); var g := s.visits[c].gate; var d := gate.destination;
            && Reaches(s, Depart(c), n)
            && n == s.(gates := s.gates[g := Gate(d, Some(s.clock), gate.references - 1, None)], visits := s.visits - {c},
                       starts := s.starts[d := StartsOf(s, d) + [s.clock]])
  {
    var steps := Depart(c);
    var s1 := Next(s, steps[0]);
    var s2 := Next(s1, steps[1]);
    n := Next(s2, steps[2]);
    assert steps[3..] == [] && Reaches(n, steps[3..], n);
    Onward(s2, steps, 2, n);
    Onward(s1, steps, 1, n);
    Onward(s, steps, 0, n);
    assert steps[0..] == steps;
  }

  // From any state a caller queued at a free gate can go on alone: it starts at the earliest
  // time the interval allows, not later, and leaves the gate free with one reference fewer.
  lemma QueuedCallerStarts(s: System, c: Caller) returns (n: System)
    requires At(s, c, Queued) && GateOf(s, c).holder.None?
    ensures var gate := GateOf(s, c); var at := Due(s, gate); var g := s.visits[c].gate; var d := gate.destination;
            && Reaches(s, Approach(c, at - s.clock) + Depart(c), n)
            && n == s.(clock := at, gates := s.gates[g := Gate(d, Some(at), gate.references - 1, None)], visits := s.visits - {c},
                       starts := s.starts[d := StartsOf(s, d) + [at]])
  {
    var m := CallerPaces(s, c);
    n := CallerFinishes(m, c);
    Compose(s, Approach(c, m.clock - s.clock), m, Depart(c), n);
  }

  // A caller that gives up while it holds the permit records no start and leaves the gate free.
  lemma QuitterLeaves(s: System, c: Caller) returns (n: System)
    requires Enabled(s, Quit(c)) && s.visits[c].gate in s.gates
    ensures var gate := GateOf(s, c);
            && Reaches(s, [Quit(c), Unreference(c), ReturnPermit(c)], n)
            && n == s.(gates := s.gates[s.visits[c].gate := gate.(references := gate.references - 1, holder := None)], visits := s.visits - {c})
  {
    var steps := [Quit(c), Unreference(c), ReturnPermit(c)];
    var s1 := Next(s, steps[0]);
    var s2 := Next(s1, steps[1]);
    n := Next(s2, steps[2]);
    assert steps[3..] == [] && Reaches(n, steps[3..], n);
    Onward(s2, steps, 2, n);
    Onward(s1, steps, 1, n);
    Onward(s, steps, 0, n);
    assert steps[0..] == steps;
  }

  lemma Onward(s: System, steps: seq<Step>, i: nat, n: System)
    requires i < |steps| && Enabled(s, steps[i]) && Reaches(Next(s, steps[i]), steps[i + 1..], n)
    ensures Reaches(s, steps[i..], n)
  {
    assert steps[i..][0] == steps[i] && steps[i..][1..] == steps[i + 1..];
  }

  // Runs compose.
  lemma {:induction false} Compose(s: System, first: seq<Step>, m: System, second: seq<Step>, n: System)
    requires Reaches(s, first, m) && Reaches(m, second, n)
    ensures Reaches(s, first + second, n)
    decreases |first|
  {
    if first == [] {
      assert first + second == second;
    } else {
      Compose(Next(s, first[0]), first[1..], m, second, n);
      assert (first + second)[1..] == first[1..] + second;
    }
  }
}
