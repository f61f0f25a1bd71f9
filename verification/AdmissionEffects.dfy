// What admission grants: attempts until the limit is used up, the smaller of what is asked
// and what is left of the bytes, and permits that come back.
module AdmissionEffects {
  import opened Options
  import opened Admission

  // In every reachable state another attempt is granted exactly while fewer than the limit
  // were made; a refusal changes nothing.
  lemma AttemptsAreGranted(limits: Limits, steps: seq<Step>, s: System, e: nat, net: Net)
    requires Reaches(Start(limits), steps, s) && e < |s.execs|
    ensures var n := Next(s, Reserve(e, net)); var made := Total(s.calls, Made(e, net));
            && (made < On(limits.attempts, net) ==> n.calls == s.calls + [Call(e, net, Counted)] && Total(n.calls, Made(e, net)) == made + 1)
            && (made >= On(limits.attempts, net) ==> n == s)
  {
    AttemptsBounded(limits, steps, s, e, net);
    TotalAppend(s.calls, Call(e, net, Counted), Made(e, net));
  }

  // A document reserves the smaller of its limit and the bytes that other documents of the
  // execution leave of the byte limit.
  lemma BytesAreReserved(limits: Limits, steps: seq<Step>, s: System, e: nat, limit: int)
    requires Reaches(Start(limits), steps, s) && e < |s.execs|
    ensures var n := Next(s, OpenBody(e, limit)); var left := limits.bodyBytes - Total(s.docs, Bytes(e)); var k := |s.docs|;
            && |n.docs| == k + 1 && n.docs[..k] == s.docs && n.docs[k].exec == e && n.docs[k].retained.None?
            && (limit <= left ==> n.docs[k].reserved == limit)
            && (limit > left ==> n.docs[k].reserved == left)
  {
    BytesConserved(limits, steps, s, e);
  }

  // The first commit of a document retains what it is given, but no less than nothing and no
  // more than was reserved, and returns the rest; any other commit changes nothing.
  lemma CommitRetains(s: System, i: nat, retained: int)
    requires Enabled(s, CommitBody(i, retained)) && s.docs[i].reserved >= 0
    ensures var n := Next(s, CommitBody(i, retained)); var d := s.docs[i];
            && (d.retained.Some? ==> n == s)
            && (d.retained.None? ==>
                  && |n.docs| == |s.docs| && n.docs[i].retained.Some? && (forall j :: 0 <= j < |s.docs| && j != i ==> n.docs[j] == s.docs[j])
                  && (retained < 0 ==> n.docs[i].retained.value == 0)
                  && (retained > d.reserved ==> n.docs[i].retained.value == d.reserved)
                  && (0 <= retained <= d.reserved ==> n.docs[i].retained.value == retained)
                  && n.execs[d.exec].bodyLeft == s.execs[d.exec].bodyLeft + d.reserved - n.docs[i].retained.value)
  {
  }

  // An admission and its release: the place comes back once, however often it is released.
  lemma ReleaseReturns(s: System)
    requires Enabled(s, Begin)
    ensures var n := Next(s, Begin); var e := |s.execs|;
            && |n.execs| == e + 1 && n.execs[..e] == s.execs && n.admitted == s.admitted + 1
            && n.execs[e] == Execution(false, s.limits.attempts, Each(0, 0), s.limits.bodyBytes)
            && Enabled(n, Release(e)) && Next(n, Release(e)).admitted == s.admitted
            && Next(Next(n, Release(e)), Release(e)) == Next(n, Release(e))
  {
  }

  function Attempt(e: nat, net: Net, i: nat): seq<Step> { [Reserve(e, net), TakeTarget(i), TakeProcess(i), Done(i)] }

  // A whole attempt: with an attempt left and a permit free at the target and in the process
  // it goes through, is counted once and gives both permits back.
  lemma AttemptGoesThrough(s: System, e: nat, net: Net) returns (n: System)
    requires e < |s.execs| && On(s.execs[e].left, net) > 0
    requires On(s.execs[e].permits, net) < TargetPermits(s.limits, net) && On(s.process, net) < On(s.limits.process, net)
    ensures Reaches(s, Attempt(e, net, |s.calls|), n)
    ensures n.calls == s.calls + [Call(e, net, Over)] && n.process == s.process && n.docs == s.docs && n.admitted == s.admitted
    ensures n.execs == s.execs[e := s.execs[e].(left := Put(s.execs[e].left, net, On(s.execs[e].left, net) - 1))]
  {
    var i := |s.calls|;
    var steps := Attempt(e, net, i);
    var s1 := Next(s, steps[0]);
    n := CountedGoesThrough(s1, i);
    Onward(s, steps, 0, n);
    assert steps[0..] == steps && steps[1..] == [TakeTarget(i), TakeProcess(i), Done(i)];
    var x := s.execs[e].(left := Put(s.execs[e].left, net, On(s.execs[e].left, net) - 1));
    assert s1.execs == s.execs[e := x] && n.execs == s1.execs;
  }

  // A counted attempt takes its target's permit, the process's, and gives both back.
  lemma CountedGoesThrough(s: System, i: nat) returns (n: System)
    requires Known(s, i) && s.calls[i].stage == Counted
    requires var c := s.calls[i]; On(s.execs[c.exec].permits, c.net) < TargetPermits(s.limits, c.net) && On(s.process, c.net) < On(s.limits.process, c.net)
    ensures Reaches(s, [TakeTarget(i), TakeProcess(i), Done(i)], n)
    ensures n == s.(calls := s.calls[i := s.calls[i].(stage := Over)])
  {
    var steps := [TakeTarget(i), TakeProcess(i), Done(i)];
    var s1 := Next(s, steps[0]);
    var s2 := Next(s1, steps[1]);
    n := Next(s2, steps[2]);
    assert s1.execs[s.calls[i].exec := s.execs[s.calls[i].exec]] == s.execs;
    assert steps[3..] == [] && Reaches(n, steps[3..], n);
    Onward(s2, steps, 2, n);
    Onward(s1, steps, 1, n);
    Onward(s, steps, 0, n);
    assert steps[0..] == steps;
  }

  lemma Onward(s: System, steps: seq<Step>, i: nat, n: System)
    requires i < |steps| && Enabled(s, steps[i]) && Reaches(Next(s, steps[i]), steps[i + 1..], n)
    ensures Reaches(s, steps[i..], n)
  {
    assert steps[i..][0] == steps[i] && steps[i..][1..] == steps[i + 1..];
  }
}
