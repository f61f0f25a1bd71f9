// Begin, acquireNetwork, reserveCount and ReserveHTTPBody: nested permits, counted attempts
// and body-byte reservations, over the two networks of an execution.
module Admission {
  import opened Options

  datatype Net = Dns | Http
  datatype Each<+T> = Each(dns: T, http: T)

  function On<T>(p: Each<T>, net: Net): T { if net == Dns then p.dns else p.http }
  function Put<T>(p: Each<T>, net: Net, x: T): Each<T> { if net == Dns then p.(dns := x) else p.(http := x) }

  // targets, process and perTarget are channel capacities; a target's own channel holds at
  // most min(per-target constant, process capacity).
  datatype Limits = Limits(targets: nat, process: Each<nat>, perTarget: Each<nat>, attempts: Each<nat>, bodyBytes: nat)

  datatype Execution = Execution(released: bool, left: Each<nat>, permits: Each<int>, bodyLeft: int)

  // One network attempt: counted, then holding its target's permit, then both, then over.
  datatype Stage = Counted | AtTarget | Held | Over
  datatype Call = Call(exec: nat, net: Net, stage: Stage)

  // One document: the bytes reserved for it and, once committed, the bytes retained.
  datatype Document = Document(exec: nat, reserved: int, retained: Option<int>)

  datatype System = System(limits: Limits, admitted: int, process: Each<int>, execs: seq<Execution>, calls: seq<Call>, docs: seq<Document>)

  function Start(limits: Limits): System { System(limits, 0, Each(0, 0), [], [], []) }

  function TargetPermits(limits: Limits, net: Net): nat {
    if On(limits.perTarget, net) < On(limits.process, net) then On(limits.perTarget, net) else On(limits.process, net)
  }

  // ----------------------------------------------------------------------- steps

  datatype Step =
    | Begin
    | Release(e: nat)                  // idempotent
    | Reserve(e: nat, net: Net)        // refused when the count is used up
    | TakeTarget(i: nat)
    | TakeProcess(i: nat)
    | Cancel(i: nat)
    | Done(i: nat)                     // idempotent
    | OpenBody(e: nat, limit: int)
    | CommitBody(i: nat, retained: int) // idempotent, clamped

  predicate Known(s: System, i: nat) { i < |s.calls| && s.calls[i].exec < |s.execs| }

  predicate Enabled(s: System, step: Step) {
    match step
    case Begin => s.admitted < s.limits.targets
    case Release(e) => e < |s.execs|
    case Reserve(e, _) => e < |s.execs|
    case TakeTarget(i) => Known(s, i) && s.calls[i].stage == Counted
                          && On(s.execs[s.calls[i].exec].permits, s.calls[i].net) < TargetPermits(s.limits, s.calls[i].net)
    case TakeProcess(i) => Known(s, i) && s.calls[i].stage == AtTarget && On(s.process, s.calls[i].net) < On(s.limits.process, s.calls[i].net)
    case Cancel(i) => Known(s, i) && s.calls[i].stage in {Counted, AtTarget}
    case Done(i) => Known(s, i) && s.calls[i].stage in {Held, Over}
    case OpenBody(e, _) => e < |s.execs|
    case CommitBody(i, _) => i < |s.docs| && s.docs[i].exec < |s.execs|
  }

  function Min(a: int, b: int): int { if a < b then a else b }

  // The two clamps of a commit, in order.
  function Clamp(x: int, top: int): int { Min(if x < 0 then 0 else x, top) }

  // A call moves to a stage; its target's and the process's permits follow.
  function Stagger(s: System, i: nat, stage: Stage): System
    requires Known(s, i)
  {
    var e, net := s.calls[i].exec, s.calls[i].net;
    var x := s.execs[e];
    s.(calls := s.calls[i := s.calls[i].(stage := stage)],
       process := Put(s.process, net, On(s.process, net) + HoldsProcess(stage) - HoldsProcess(s.calls[i].stage)),
       execs := s.execs[e := x.(permits := Put(x.permits, net, On(x.permits, net) + HoldsTarget(stage) - HoldsTarget(s.calls[i].stage)))])
  }

  function HoldsTarget(stage: Stage): int { if stage in {AtTarget, Held} then 1 else 0 }
  function HoldsProcess(stage: Stage): int { if stage == Held then 1 else 0 }

  function Reserved(s: System, e: nat, net: Net): System
    requires e < |s.execs|
  {
    if On(s.execs[e].left, net) == 0 then s
    else s.(execs := s.execs[e := s.execs[e].(left := Put(s.execs[e].left, net, On(s.execs[e].left, net) - 1))],
            calls := s.calls + [Call(e, net, Counted)])
  }

  function Opened(s: System, e: nat, limit: int): System
    requires e < |s.execs|
  {
    var reserved := Min(limit, s.execs[e].bodyLeft);
    s.(execs := s.execs[e := s.execs[e].(bodyLeft := s.execs[e].bodyLeft - reserved)], docs := s.docs + [Document(e, reserved, None)])
  }

  function Committed(s: System, i: nat, retained: int): System
    requires i < |s.docs| && s.docs[i].exec < |s.execs|
  {
    if s.docs[i].retained.Some? then s
    else
      var kept, e := Clamp(retained, s.docs[i].reserved), s.docs[i].exec;
      s.(execs := s.execs[e := s.execs[e].(bodyLeft := s.execs[e].bodyLeft + (s.docs[i].reserved - kept))],
         docs := s.docs[i := s.docs[i].(retained := Some(kept))])
  }

  function Next(s: System, step: Step): System
    requires Enabled(s, step)
  {
    match step
    case Begin => s.(admitted := s.admitted + 1, execs := s.execs + [Execution(false, s.limits.attempts, Each(0, 0), s.limits.bodyBytes)])
    case Release(e) =>
      if s.execs[e].released then s else s.(admitted := s.admitted - 1, execs := s.execs[e := s.execs[e].(released := true)])
    case Reserve(e, net) => Reserved(s, e, net)
    case TakeTarget(i) => Stagger(s, i, AtTarget)
    case TakeProcess(i) => Stagger(s, i, Held)
    case Cancel(i) => Stagger(s, i, Over)
    case Done(i) => Stagger(s, i, Over)
    case OpenBody(e, limit) => Opened(s, e, limit)
    case CommitBody(i, retained) => Committed(s, i, retained)
  }

  predicate Reaches(s: System, steps: seq<Step>, n: System)
    decreases |steps|
  {
    if steps == [] then n == s else Enabled(s, steps[0]) && Reaches(Next(s, steps[0]), steps[1..], n)
  }

  // ------------------------------------------------------------------- invariant

  function Total<T>(s: seq<T>, weight: T -> int): int {
    if s == [] then 0 else Total(s[..|s| - 1], weight) + weight(s[|s| - 1])
  }

  lemma TotalAppend<T>(s: seq<T>, x: T, weight: T -> int)
    ensures Total(s + [x], weight) == Total(s, weight) + weight(x)
  {
  }

  lemma {:induction false} TotalUpdate<T>(s: seq<T>, i: nat, x: T, weight: T -> int)
    requires i < |s|
    ensures Total(s[i := x], weight) == Total(s, weight) - weight(s[i]) + weight(x)
  {
    var last := |s| - 1;
    if i == last {
      assert s[i := x][..last] == s[..last];
    } else {
      assert s[i := x][..last] == s[..last][i := x];
      TotalUpdate(s[..last], i, x, weight);
    }
  }

  lemma {:induction false} TotalZero<T>(s: seq<T>, weight: T -> int)
    requires forall i :: 0 <= i < |s| ==> weight(s[i]) == 0
    ensures Total(s, weight) == 0
  {
    if s != [] {
      TotalZero(s[..|s| - 1], weight);
    }
  }

  function Live(x: Execution): int { if x.released then 0 else 1 }
  function UsesProcess(net: Net): Call -> int { (c: Call) => if c.net == net then HoldsProcess(c.stage) else 0 }
  function UsesTarget(e: nat, net: Net): Call -> int { (c: Call) => if c.exec == e && c.net == net then HoldsTarget(c.stage) else 0 }
  function Made(e: nat, net: Net): Call -> int { (c: Call) => if c.exec == e && c.net == net then 1 else 0 }
  function Bytes(e: nat): Document -> int {
    (d: Document) => if d.exec != e then 0 else if d.retained.Some? then d.retained.value else d.reserved
  }

  predicate NetRight(s: System, e: nat, net: Net) {
    e < |s.execs| ==>
      && On(s.execs[e].permits, net) == Total(s.calls, UsesTarget(e, net)) && On(s.execs[e].permits, net) <= TargetPermits(s.limits, net)
      && On(s.execs[e].left, net) + Total(s.calls, Made(e, net)) == On(s.limits.attempts, net)
  }

  predicate BodyRight(s: System, e: nat) {
    e < |s.execs| ==> s.execs[e].bodyLeft + Total(s.docs, Bytes(e)) == s.limits.bodyBytes && 0 <= s.execs[e].bodyLeft
  }

  predicate DocumentRight(s: System, i: nat) {
    i < |s.docs| ==>
      && s.docs[i].exec < |s.execs|
      && (s.docs[i].retained.Some? ==> s.docs[i].retained.value <= s.docs[i].reserved)
      && (s.docs[i].retained.Some? && s.docs[i].reserved >= 0 ==> 0 <= s.docs[i].retained.value)
  }

  predicate CallRight(s: System, i: nat) { i < |s.calls| ==> s.calls[i].exec < |s.execs| }

  predicate ProcessRight(s: System, net: Net) {
    On(s.process, net) == Total(s.calls, UsesProcess(net)) && On(s.process, net) <= On(s.limits.process, net)
  }

  predicate TargetsRight(s: System) { s.admitted == Total(s.execs, Live) && s.admitted <= s.limits.targets }

  ghost predicate Inv(s: System) {
    && TargetsRight(s) && (forall net :: ProcessRight(s, net)) && (forall e, net :: NetRight(s, e, net))
    && (forall e :: BodyRight(s, e)) && (forall i :: DocumentRight(s, i)) && (forall i :: CallRight(s, i))
  }

  // ------------------------------------------------------------- what a step keeps

  lemma TargetsKept(s: System, step: Step)
    requires Inv(s) && Enabled(s, step)
    ensures TargetsRight(Next(s, step))
  {
    var n := Next(s, step);
    match step
    case Begin => TotalAppend(s.execs, n.execs[|s.execs|], Live);
    case Release(e) => TotalUpdate(s.execs, e, s.execs[e].(released := true), Live);
    case Reserve(e, _) => TotalUpdate(s.execs, e, n.execs[e], Live);
    case OpenBody(e, _) => TotalUpdate(s.execs, e, n.execs[e], Live);
    case CommitBody(i, _) => TotalUpdate(s.execs, s.docs[i].exec, n.execs[s.docs[i].exec], Live);
    case _ => TotalUpdate(s.execs, s.calls[step.i].exec, n.execs[s.calls[step.i].exec], Live);
  }

  lemma ProcessKept(s: System, step: Step, net: Net)
    requires Inv(s) && Enabled(s, step)
    ensures ProcessRight(Next(s, step), net)
  {
    assert ProcessRight(s, net);
    match step
    case Reserve(e, m) => TotalAppend(s.calls, Call(e, m, Counted), UsesProcess(net));
    case TakeTarget(i) => StaggerProcess(s, i, AtTarget, net);
    case TakeProcess(i) => StaggerProcess(s, i, Held, net);
    case Cancel(i) => StaggerProcess(s, i, Over, net);
    case Done(i) => StaggerProcess(s, i, Over, net);
    case _ =>
  }

  lemma StaggerProcess(s: System, i: nat, stage: Stage, net: Net)
    requires Known(s, i) && ProcessRight(s, net)
    requires stage == Held ==> On(s.process, s.calls[i].net) < On(s.limits.process, s.calls[i].net)
    ensures ProcessRight(Stagger(s, i, stage), net)
  {
    TotalUpdate(s.calls, i, s.calls[i].(stage := stage), UsesProcess(net));
  }

  lemma {:induction false} Positive<T>(s: seq<T>, weight: T -> int)
    requires forall x :: weight(x) >= 0
    ensures Total(s, weight) >= 0
  {
    if s != [] {
      Positive(s[..|s| - 1], weight);
    }
  }

  lemma NewExecution(s: System, net: Net)
    requires Inv(s)
    ensures Total(s.calls, UsesTarget(|s.execs|, net)) == 0 && Total(s.calls, Made(|s.execs|, net)) == 0 && Total(s.docs, Bytes(|s.execs|)) == 0
  {
    forall i: nat | i < |s.calls| ensures s.calls[i].exec != |s.execs| { assert CallRight(s, i); }
    forall i: nat | i < |s.docs| ensures s.docs[i].exec != |s.execs| { assert DocumentRight(s, i); }
    TotalZero(s.calls, UsesTarget(|s.execs|, net));
    TotalZero(s.calls, Made(|s.execs|, net));
    TotalZero(s.docs, Bytes(|s.execs|));
  }

  lemma StaggerNet(s: System, i: nat, stage: Stage, e: nat, net: Net)
    requires NetRight(s, e, net) && Known(s, i)
    requires HoldsTarget(stage) > HoldsTarget(s.calls[i].stage) ==>
               On(s.execs[s.calls[i].exec].permits, s.calls[i].net) < TargetPermits(s.limits, s.calls[i].net)
    ensures NetRight(Stagger(s, i, stage), e, net)
  {
    TotalUpdate(s.calls, i, s.calls[i].(stage := stage), UsesTarget(e, net));
    TotalUpdate(s.calls, i, s.calls[i].(stage := stage), Made(e, net));
  }

  lemma ReserveNet(s: System, x: nat, m: Net, e: nat, net: Net)
    requires NetRight(s, e, net) && x < |s.execs|
    ensures NetRight(Reserved(s, x, m), e, net)
  {
    TotalAppend(s.calls, Call(x, m, Counted), UsesTarget(e, net));
    TotalAppend(s.calls, Call(x, m, Counted), Made(e, net));
  }

  lemma NetKept(s: System, step: Step, e: nat, net: Net)
    requires Inv(s) && Enabled(s, step)
    ensures NetRight(Next(s, step), e, net)
  {
    assert NetRight(s, e, net);
    match step
    case Begin => NewExecution(s, net);
    case Reserve(x, m) => ReserveNet(s, x, m, e, net);
    case TakeTarget(i) => StaggerNet(s, i, AtTarget, e, net);
    case TakeProcess(i) => StaggerNet(s, i, Held, e, net);
    case Cancel(i) => StaggerNet(s, i, Over, e, net);
    case Done(i) => StaggerNet(s, i, Over, e, net);
    case _ =>
  }

  lemma BodyKept(s: System, step: Step, e: nat)
    requires Inv(s) && Enabled(s, step)
    ensures BodyRight(Next(s, step), e)
  {
    assert BodyRight(s, e);
    match step
    case Begin => NewExecution(s, Dns);
    case OpenBody(x, limit) => TotalAppend(s.docs, Document(x, Min(limit, s.execs[x].bodyLeft), None), Bytes(e));
    case CommitBody(i, retained) =>
      assert DocumentRight(s, i);
      TotalUpdate(s.docs, i, s.docs[i].(retained := Some(Clamp(retained, s.docs[i].reserved))), Bytes(e));
    case _ =>
  }

  lemma DocumentKept(s: System, step: Step, i: nat)
    requires Inv(s) && Enabled(s, step)
    ensures DocumentRight(Next(s, step), i)
  {
    assert DocumentRight(s, i);
  }

  lemma CallKept(s: System, step: Step, i: nat)
    requires Inv(s) && Enabled(s, step)
    ensures CallRight(Next(s, step), i)
  {
    assert CallRight(s, i);
  }

  lemma NextKeeps(s: System, step: Step)
    requires Inv(s) && Enabled(s, step)
    ensures Inv(Next(s, step)) && Next(s, step).limits == s.limits
  {
    var n := Next(s, step);
    TargetsKept(s, step);
    forall net ensures ProcessRight(n, net) { ProcessKept(s, step, net); }
    forall e, net ensures NetRight(n, e, net) { NetKept(s, step, e, net); }
    forall e ensures BodyRight(n, e) { BodyKept(s, step, e); }
    forall i ensures DocumentRight(n, i) { DocumentKept(s, step, i); }
    forall i ensures CallRight(n, i) { CallKept(s, step, i); }
  }

  lemma {:induction false} RunKeeps(s: System, steps: seq<Step>, n: System)
    requires Inv(s) && Reaches(s, steps, n)
    ensures Inv(n) && n.limits == s.limits
    decreases |steps|
  {
    if steps != [] {
      NextKeeps(s, steps[0]);
      RunKeeps(Next(s, steps[0]), steps[1..], n);
    }
  }

  // -------------------------------------------------------------------- theorems

  // In every reachable state each channel of each network holds exactly the permits of the
  // work that is between its acquire and its release, within capacity.
  lemma PermitsExact(limits: Limits, steps: seq<Step>, s: System, e: nat, net: Net)
    requires Reaches(Start(limits), steps, s) && e < |s.execs|
    ensures 0 <= On(s.process, net) == Total(s.calls, UsesProcess(net)) <= On(limits.process, net)
    ensures 0 <= On(s.execs[e].permits, net) == Total(s.calls, UsesTarget(e, net)) <= TargetPermits(limits, net)
    ensures On(s.execs[e].permits, net) <= On(limits.perTarget, net)
    ensures 0 <= s.admitted == Total(s.execs, Live) <= limits.targets
  {
    RunKeeps(Start(limits), steps, s);
    assert NetRight(s, e, net) && ProcessRight(s, net);
    Positive(s.calls, UsesProcess(net));
    Positive(s.calls, UsesTarget(e, net));
    Positive(s.execs, Live);
  }

  // When every attempt is over, every network permit is back.
  lemma PermitsReturn(limits: Limits, steps: seq<Step>, s: System, e: nat, net: Net)
    requires Reaches(Start(limits), steps, s) && e < |s.execs| && forall i :: 0 <= i < |s.calls| ==> s.calls[i].stage in {Counted, Over}
    ensures On(s.process, net) == 0 && On(s.execs[e].permits, net) == 0
  {
    RunKeeps(Start(limits), steps, s);
    assert NetRight(s, e, net) && ProcessRight(s, net);
    TotalZero(s.calls, UsesProcess(net));
    TotalZero(s.calls, UsesTarget(e, net));
  }

  // An execution makes at most its limit of attempts on each network.
  lemma AttemptsBounded(limits: Limits, steps: seq<Step>, s: System, e: nat, net: Net)
    requires Reaches(Start(limits), steps, s) && e < |s.execs|
    ensures Total(s.calls, Made(e, net)) + On(s.execs[e].left, net) == On(limits.attempts, net)
  {
    RunKeeps(Start(limits), steps, s);
    assert NetRight(s, e, net);
  }

  // Bytes are conserved: what is left, what is reserved and what was retained make the limit,
  // and nothing left is negative. No document retains more than it reserved.
  lemma BytesConserved(limits: Limits, steps: seq<Step>, s: System, e: nat)
    requires Reaches(Start(limits), steps, s) && e < |s.execs|
    ensures s.execs[e].bodyLeft + Total(s.docs, Bytes(e)) == limits.bodyBytes && 0 <= s.execs[e].bodyLeft
    ensures forall i :: 0 <= i < |s.docs| && s.docs[i].retained.Some? ==> s.docs[i].retained.value <= s.docs[i].reserved
  {
    RunKeeps(Start(limits), steps, s);
    assert BodyRight(s, e);
    forall i | 0 <= i < |s.docs| && s.docs[i].retained.Some? ensures s.docs[i].retained.value <= s.docs[i].reserved {
      assert DocumentRight(s, i);
    }
  }

  // No reservation of execution e is for a negative document limit.
  predicate LimitsNatural(steps: seq<Step>, e: nat) {
    forall j :: 0 <= j < |steps| && steps[j].OpenBody? && steps[j].e == e ==> steps[j].limit >= 0
  }

  predicate ReservedNatural(s: System, e: nat, i: nat) { i < |s.docs| && s.docs[i].exec == e ==> s.docs[i].reserved >= 0 }

  lemma {:induction false} RunReserves(s: System, steps: seq<Step>, n: System, e: nat)
    requires Inv(s) && Reaches(s, steps, n) && LimitsNatural(steps, e) && forall i :: ReservedNatural(s, e, i)
    ensures forall i :: ReservedNatural(n, e, i)
    decreases |steps|
  {
    if steps != [] {
      var m := Next(s, steps[0]);
      NextKeeps(s, steps[0]);
      forall i ensures ReservedNatural(m, e, i) {
        assert ReservedNatural(s, e, i);
        if steps[0].OpenBody? {
          assert BodyRight(s, steps[0].e);
        }
      }
      RunReserves(m, steps[1..], n, e);
    }
  }

  // So while the document limits an execution is called with are not negative, each of its
  // documents holds between none and all of its byte limit, and so does what is left.
  lemma DocumentsWithinLimit(limits: Limits, steps: seq<Step>, s: System, e: nat, i: nat)
    requires Reaches(Start(limits), steps, s) && LimitsNatural(steps, e) && e < |s.execs| && i < |s.docs| && s.docs[i].exec == e
    ensures 0 <= Bytes(e)(s.docs[i]) <= limits.bodyBytes && 0 <= s.execs[e].bodyLeft <= limits.bodyBytes
  {
    BytesConserved(limits, steps, s, e);
    RunKeeps(Start(limits), steps, s);
    RunReserves(Start(limits), steps, s, e);
    forall j: nat | j < |s.docs| ensures Bytes(e)(s.docs[j]) >= 0 { assert DocumentRight(s, j) && ReservedNatural(s, e, j); }
    PartOfTotal(s.docs, Bytes(e), i);
  }

  lemma {:induction false} PartOfTotal<T>(s: seq<T>, weight: T -> int, i: nat)
    requires i < |s| && forall j :: 0 <= j < |s| ==> weight(s[j]) >= 0
    ensures 0 <= weight(s[i]) <= Total(s, weight)
  {
    var last := |s| - 1;
    if i < last {
      PartOfTotal(s[..last], weight, i);
    } else if last > 0 {
      PartOfTotal(s[..last], weight, 0);
    }
  }

  // A reservation never raises what is left exactly when the document limit is not negative.
  lemma NegativeLimitRaises(s: System, e: nat, limit: int)
    requires e < |s.execs| && s.execs[e].bodyLeft >= 0
    ensures Opened(s, e, limit).execs[e].bodyLeft <= s.execs[e].bodyLeft <==> limit >= 0
  {
  }

  // Without that an execution can be left with more bytes than its limit.
  lemma NegativeLimitOverflows(limits: Limits, limit: int) returns (steps: seq<Step>, s: System)
    requires limits.targets > 0 && limit < 0
    ensures Reaches(Start(limits), steps, s) && |s.execs| == 1 && s.execs[0].bodyLeft == limits.bodyBytes - limit > limits.bodyBytes
  {
    var first := Next(Start(limits), Begin);
    s := Next(first, OpenBody(0, limit));
    steps := [Begin, OpenBody(0, limit)];
    assert steps[1..] == [OpenBody(0, limit)] && steps[1..][1..] == [];
    assert Reaches(s, [], s);
    assert Reaches(first, steps[1..], s);
  }

  // ----------------------------------------------------- the execution's own methods

  // The counters of one execution; each method is one step of the machine above.
  class ExecutionState {
    var dnsLeft: nat
    var httpLeft: nat
    var bodyLeft: int

    constructor (limits: Limits)
      ensures dnsLeft == limits.attempts.dns && httpLeft == limits.attempts.http && bodyLeft == limits.bodyBytes
    {
      dnsLeft, httpLeft, bodyLeft := limits.attempts.dns, limits.attempts.http, limits.bodyBytes;
    }

    method ReserveCount(ghost s: System, ghost e: nat, net: Net) returns (granted: bool)
      requires e < |s.execs| && s.execs[e].left == Each(dnsLeft, httpLeft)
      modifies this`dnsLeft, this`httpLeft
      ensures Each(dnsLeft, httpLeft) == Reserved(s, e, net).execs[e].left
      ensures granted <==> Reserved(s, e, net).calls == s.calls + [Call(e, net, Counted)]
    {
      granted := false;
      if net == Dns && dnsLeft > 0 {
        dnsLeft, granted := dnsLeft - 1, true;
      } else if net == Http && httpLeft > 0 {
        httpLeft, granted := httpLeft - 1, true;
      }
      assert !granted ==> |Reserved(s, e, net).calls| == |s.calls|;
    }

    method ReserveBody(ghost s: System, ghost e: nat, limit: int) returns (reserved: int)
      requires e < |s.execs| && s.execs[e].bodyLeft == bodyLeft
      modifies this`bodyLeft
      ensures var n := Opened(s, e, limit);
              bodyLeft == n.execs[e].bodyLeft && n.docs == s.docs + [Document(e, reserved, None)]
    {
      reserved := limit;
      if bodyLeft < reserved {
        reserved := bodyLeft;
      }
      bodyLeft := bodyLeft - reserved;
    }

    // committed: whether this reservation's commit already happened.
    method CommitReserved(ghost s: System, ghost i: nat, reserved: int, retained: int, committed: bool)
      requires Enabled(s, CommitBody(i, retained)) && s.execs[s.docs[i].exec].bodyLeft == bodyLeft
      requires s.docs[i].reserved == reserved && (committed <==> s.docs[i].retained.Some?)
      modifies this`bodyLeft
      ensures bodyLeft == Committed(s, i, retained).execs[s.docs[i].exec].bodyLeft
    {
      if committed {
        return;
      }
      var kept := retained;
      if kept < 0 {
        kept := 0;
      }
      if kept > reserved {
        kept := reserved;
      }
      bodyLeft := bodyLeft + (reserved - kept);
    }
  }
}
