// Least recently used, by use: a history of uses kept beside a run, against the stamps the
// factory keeps. Also what each critical section gives its caller.
module ResidencyUse {
  import opened Options
  import opened Residency

  // A bundle is used when its load ends well, when it is captured, and when a capture of it ends.
  ghost function Uses(s: System, step: Step): seq<Bundle> {
    match step
    case Attempt(c, victim, load, capture) =>
      if c in s.callers && s.callers[c].AtTop? && load !in s.f.pending && capture !in s.captures && VictimAllowed(s.f, victim)
         && Target(s.f, s.callers[c].requested) in s.f.residents
      then [Target(s.f, s.callers[c].requested)] else []
    case EndLoad(l, result, _) =>
      if l in s.f.pending && ResultAllowed(s.f.pending[l], result) && result == Loaded then [s.f.pending[l].bundle] else []
    case EndCapture(k) => if k in s.captures then [s.captures[k].bundle] else []
    case _ => []
  }

  ghost function History(s: System, steps: seq<Step>): seq<Bundle>
    decreases |steps|
  {
    if steps == [] then [] else Uses(s, steps[0]) + History(Next(s, steps[0]), steps[1..])
  }

  // When a bundle was last used: its last place in the history, counted from one; zero if never.
  function LastUse(history: seq<Bundle>, b: Bundle): nat {
    if history == [] then 0
    else if history[|history| - 1] == b then |history|
    else LastUse(history[..|history| - 1], b)
  }

  lemma {:induction false} LastUseMeaning(history: seq<Bundle>, b: Bundle)
    ensures LastUse(history, b) <= |history|
    ensures LastUse(history, b) > 0 ==> history[LastUse(history, b) - 1] == b
    ensures forall i :: LastUse(history, b) <= i < |history| ==> history[i] != b
  {
    if history != [] && history[|history| - 1] != b {
      LastUseMeaning(history[..|history| - 1], b);
    }
  }

  lemma LastUseNext(history: seq<Bundle>, use: Bundle, b: Bundle)
    ensures LastUse(history + [use], b) == if use == b then |history| + 1 else LastUse(history, b)
  {
    assert (history + [use])[..|history|] == history;
  }

  // ----------------------------------------------------------------- stamps follow use

  predicate StampRight(f: Factory, history: seq<Bundle>, b: Bundle) { b in f.residents ==> f.residents[b].lastUsed == LastUse(history, b) }

  // Only the first active bundle is resident without a use.
  predicate UsedOrFirst(f: Factory, history: seq<Bundle>, first: Bundle, b: Bundle) { b in f.residents && LastUse(history, b) == 0 ==> b == first }

  ghost predicate Stamped(s: System, history: seq<Bundle>, first: Bundle) {
    && s.f.sequence == |history|
    && (forall b :: StampRight(s.f, history, b)) && (forall b :: UsedOrFirst(s.f, history, first, b))
  }

  // One use of b that gives it the next stamp; other residents keep theirs or leave.
  lemma UseStamps(f: Factory, n: Factory, history: seq<Bundle>, first: Bundle, b: Bundle)
    requires f.sequence == |history| && (forall c :: StampRight(f, history, c)) && (forall c :: UsedOrFirst(f, history, first, c))
    requires n.sequence == f.sequence + 1 && b in n.residents && n.residents[b].lastUsed == n.sequence
    requires forall c :: c in n.residents && c != b ==> c in f.residents && n.residents[c].lastUsed == f.residents[c].lastUsed
    ensures forall c :: StampRight(n, history + [b], c)
    ensures forall c :: UsedOrFirst(n, history + [b], first, c)
  {
    forall c ensures StampRight(n, history + [b], c) && UsedOrFirst(n, history + [b], first, c) {
      assert StampRight(f, history, c) && UsedOrFirst(f, history, first, c);
      LastUseNext(history, b, c);
    }
  }

  // Residents that stay keep their stamps.
  lemma NoUse(f: Factory, n: Factory, history: seq<Bundle>, first: Bundle)
    requires f.sequence == |history| && (forall c :: StampRight(f, history, c)) && (forall c :: UsedOrFirst(f, history, first, c))
    requires n.sequence == f.sequence && forall c :: c in n.residents ==> c in f.residents && n.residents[c].lastUsed == f.residents[c].lastUsed
    ensures forall c :: StampRight(n, history, c)
    ensures forall c :: UsedOrFirst(n, history, first, c)
  {
    forall c ensures StampRight(n, history, c) && UsedOrFirst(n, history, first, c) {
      assert StampRight(f, history, c) && UsedOrFirst(f, history, first, c);
    }
  }

  lemma AttemptStamps(s: System, step: Step, history: seq<Bundle>, first: Bundle)
    requires Stamped(s, history, first) && step.Attempt?
    ensures Stamped(Next(s, step), history + Uses(s, step), first)
  {
    var n := Next(s, step);
    if Uses(s, step) != [] {
      UseStamps(s.f, n.f, history, first, Uses(s, step)[0]);
    } else {
      assert history + [] == history;
      NoUse(s.f, n.f, history, first);
    }
  }

  lemma EndStamps(s: System, step: Step, history: seq<Bundle>, first: Bundle)
    requires Inv(s) && Stamped(s, history, first) && (step.EndLoad? || step.EndCapture?)
    ensures Stamped(Next(s, step), history + Uses(s, step), first)
  {
    var n := Next(s, step);
    if Uses(s, step) != [] {
      if step.EndCapture? {
        var b := s.captures[step.capture].bundle;
        assert CaptureHeld(s, step.capture) && CountedRight(s, b) && step.capture in Holders(s.captures, b);
      }
      UseStamps(s.f, n.f, history, first, Uses(s, step)[0]);
    } else {
      assert history + [] == history;
      NoUse(s.f, n.f, history, first);
    }
  }

  lemma StepStamps(s: System, step: Step, history: seq<Bundle>, first: Bundle)
    requires Inv(s) && Stamped(s, history, first)
    ensures Stamped(Next(s, step), history + Uses(s, step), first)
  {
    if step.Attempt? {
      AttemptStamps(s, step, history, first);
    } else if step.EndLoad? || step.EndCapture? {
      EndStamps(s, step, history, first);
    } else {
      assert history + [] == history;
      NoUse(s.f, Next(s, step).f, history, first);
    }
  }

  lemma {:induction false} RunStamps(s: System, steps: seq<Step>, history: seq<Bundle>, first: Bundle)
    requires Inv(s) && Stamped(s, history, first)
    ensures Stamped(Run(s, steps), history + History(s, steps), first)
    decreases |steps|
  {
    if steps == [] {
      assert history + [] == history;
    } else {
      NextKeeps(s, steps[0]);
      StepStamps(s, steps[0], history, first);
      RunStamps(Next(s, steps[0]), steps[1..], history + Uses(s, steps[0]), first);
      Regroup(history, Uses(s, steps[0]), History(Next(s, steps[0]), steps[1..]));
    }
  }

  lemma Regroup(a: seq<Bundle>, b: seq<Bundle>, c: seq<Bundle>)
    ensures (a + b) + c == a + (b + c)
  {
  }

  // In every reachable state the stamps order residents exactly as their last use does.
  lemma StampsFollowUse(maximum: nat, active: Bundle, analyzer: int, steps: seq<Step>, b: Bundle, c: Bundle)
    requires maximum >= 2
    ensures var start := Initial(maximum, active, analyzer); var s := Run(start, steps); var h := History(start, steps);
            b in s.f.residents && c in s.f.residents ==>
              && (s.f.residents[b].lastUsed < s.f.residents[c].lastUsed <==> LastUse(h, b) < LastUse(h, c))
              && (LastUse(h, b) == LastUse(h, c) ==> b == c)
  {
    ReachableStamped(maximum, active, analyzer, steps);
    var start := Initial(maximum, active, analyzer);
    var s := Run(start, steps);
    if b in s.f.residents && c in s.f.residents {
      StampsOrder(s, History(start, steps), active, b, c);
    }
  }

  lemma StampsOrder(s: System, h: seq<Bundle>, first: Bundle, b: Bundle, c: Bundle)
    requires Stamped(s, h, first) && b in s.f.residents && c in s.f.residents
    ensures s.f.residents[b].lastUsed == LastUse(h, b) && s.f.residents[c].lastUsed == LastUse(h, c)
    ensures LastUse(h, b) == LastUse(h, c) ==> b == c
  {
    assert StampRight(s.f, h, b) && StampRight(s.f, h, c) && UsedOrFirst(s.f, h, first, b) && UsedOrFirst(s.f, h, first, c);
    LastUseMeaning(h, b);
    LastUseMeaning(h, c);
  }

  lemma ReachableStamped(maximum: nat, active: Bundle, analyzer: int, steps: seq<Step>)
    requires maximum >= 2
    ensures Stamped(Run(Initial(maximum, active, analyzer), steps), History(Initial(maximum, active, analyzer), steps), active)
  {
    StartStamped(maximum, active, analyzer);
    RunStamps(Initial(maximum, active, analyzer), steps, [], active);
    assert [] + History(Initial(maximum, active, analyzer), steps) == History(Initial(maximum, active, analyzer), steps);
  }

  lemma StartStamped(maximum: nat, active: Bundle, analyzer: int)
    requires maximum >= 2
    ensures Inv(Initial(maximum, active, analyzer)) && Stamped(Initial(maximum, active, analyzer), [], active)
  {
    ReachableInv(maximum, active, analyzer, []);
    assert Run(Initial(maximum, active, analyzer), []) == Initial(maximum, active, analyzer);
    var s := Initial(maximum, active, analyzer);
    forall b ensures StampRight(s.f, [], b) && UsedOrFirst(s.f, [], active, b) { }
  }

  // Whatever an attempt evicts is unreferenced, not active, and of all such residents the one
  // whose last use is earliest; no other step evicts anything.
  lemma EvictsLeastRecentlyUsed(maximum: nat, active: Bundle, analyzer: int, steps: seq<Step>, step: Step, b: Bundle, c: Bundle)
    requires maximum >= 2
    ensures var start := Initial(maximum, active, analyzer); var s := Run(start, steps); var h := History(start, steps);
            b in s.f.residents && b !in Next(s, step).f.residents ==>
              && step.Attempt? && b != s.f.active && Holders(s.captures, b) == {}
              && (c in s.f.residents && c != b && c != s.f.active && Holders(s.captures, c) == {} ==> LastUse(h, b) < LastUse(h, c))
  {
    var s, h := Run(Initial(maximum, active, analyzer), steps), History(Initial(maximum, active, analyzer), steps);
    ReachableInv(maximum, active, analyzer, steps);
    ReachableStamped(maximum, active, analyzer, steps);
    if b in s.f.residents && b !in Next(s, step).f.residents {
      OnlyVictimsLeave(s, step, b);
      VictimIsEarliest(s, h, active, b, c);
    }
  }

  lemma VictimIsEarliest(s: System, h: seq<Bundle>, first: Bundle, b: Bundle, c: Bundle)
    requires Referenced(s) && Stamped(s, h, first) && IsVictim(s.f, b)
    ensures b != s.f.active && Holders(s.captures, b) == {}
    ensures c in s.f.residents && c != b && c != s.f.active && Holders(s.captures, c) == {} ==> LastUse(h, b) < LastUse(h, c)
  {
    assert CountedRight(s, b) && CountedRight(s, c);
    if c in s.f.residents {
      StampsOrder(s, h, first, b, c);
    }
  }

  lemma OnlyVictimsLeave(s: System, step: Step, b: Bundle)
    requires b in s.f.residents && b !in Next(s, step).f.residents
    ensures step.Attempt? && IsVictim(s.f, b)
  {
    if !step.Attempt? {
      OthersEvictNothing(s, step, b);
    } else if step.caller in s.callers && s.callers[step.caller].AtTop? && VictimAllowed(s.f, step.victim) {
      AttemptEvicts(s.f, s.callers[step.caller].requested, step.victim, step.load, b);
    }
  }

  lemma OthersEvictNothing(s: System, step: Step, b: Bundle)
    requires !step.Attempt? && b in s.f.residents
    ensures b in Next(s, step).f.residents
  {
  }

  lemma AttemptEvicts(f: Factory, requested: Bundle, victim: Option<Bundle>, load: LoadId, b: Bundle)
    requires VictimAllowed(f, victim) && b in f.residents
    ensures b !in TryCapture(f, requested, victim, load).1.residents ==> victim == Some(b) && IsVictim(f, b)
  {
  }

  // --------------------------------------------------------------- what callers are given

  // A capture is of the bundle asked for, or of the active one when none is named, with the
  // analyzer resident under that ID and one more reference; the other residents are untouched.
  lemma CaptureIsOfTheRequest(f: Factory, requested: Bundle, victim: Option<Bundle>, load: LoadId, c: Bundle)
    ensures var (reply, n) := TryCapture(f, requested, victim, load); var b := if requested == "" then f.active else requested;
            && (reply.Captured? <==> b in f.residents)
            && (reply.Captured? ==> reply.capture.bundle == b && reply.capture.analyzer == f.residents[b].analyzer
                                    && b in n.residents && n.residents[b].references == f.residents[b].references + 1
                                    && n.residents[b].analyzer == f.residents[b].analyzer
                                    && n.residents.Keys == f.residents.Keys && n.loads == f.loads && n.pending == f.pending && n.active == f.active
                                    && (c in f.residents && c != b ==> n.residents[c] == f.residents[c]))
  {
  }

  // A load that is started or joined is of that bundle, and counts its caller.
  ghost predicate LoadRight(f: Factory, requested: Bundle, load: LoadId, reply: Reply, n: Factory) {
    var b := if requested == "" then f.active else requested;
    match reply
    case Captured(_) => true
    case Started(l) => l == load && n.pending == f.pending[load := Load(b, 1, false, Loading)] && n.loads == f.loads[b := load]
    case Joined(l) =>
      && l in f.pending && f.pending[l].bundle == b && f.pending[l].result == Loading
      && n == f.(pending := f.pending[l := f.pending[l].(waiters := f.pending[l].waiters + 1)])
    case Abandoned(l) => l in f.pending && f.pending[l].bundle == b && n == f
    case NoCapacity(channel) => channel == f.changed && n == f.(capacityWaiters := f.capacityWaiters + 1)
  }

  lemma LoadIsOfTheRequest(maximum: nat, active: Bundle, analyzer: int, steps: seq<Step>, requested: Bundle, victim: Option<Bundle>, load: LoadId)
    requires maximum >= 2
    ensures var f := Run(Initial(maximum, active, analyzer), steps).f; var (reply, n) := TryCapture(f, requested, victim, load);
            LoadRight(f, requested, load, reply, n)
  {
    ReachableInv(maximum, active, analyzer, steps);
    LoadOf(Run(Initial(maximum, active, analyzer), steps).f, requested, victim, load);
  }

  lemma LoadOf(f: Factory, requested: Bundle, victim: Option<Bundle>, load: LoadId)
    requires SingleFlight(f)
    ensures var (reply, n) := TryCapture(f, requested, victim, load); LoadRight(f, requested, load, reply, n)
  {
    var b := if requested == "" then f.active else requested;
    assert FlightOf(f, b);
  }

  // A load that ends well makes its bundle resident with its analyzer and no references; any
  // end takes it out of the loads and wakes the parked.
  lemma LoadInstalls(f: Factory, l: LoadId, result: LoadResult, analyzer: int, c: Bundle)
    requires l in f.pending
    ensures var n := FinishLoad(f, l, result, analyzer); var b := f.pending[l].bundle;
            && (b in n.loads ==> b in f.loads && f.loads[b] != l) && n.pending == f.pending[l := f.pending[l].(result := result)]
            && n.changed > f.changed && n.active == f.active
            && (result == Loaded ==> b in n.residents && n.residents[b].analyzer == analyzer && n.residents[b].references == 0)
            && (c != b || result != Loaded ==> (c in n.residents <==> c in f.residents) && (c in f.residents ==> n.residents[c] == f.residents[c]))
  {
  }

  // A release drops one reference and wakes the parked; a swap makes the captured bundle active.
  lemma ReleaseDrops(maximum: nat, active: Bundle, analyzer: int, steps: seq<Step>, k: CaptureId, c: Bundle)
    requires maximum >= 2
    ensures var s := Run(Initial(maximum, active, analyzer), steps);
            k in s.captures ==>
              var b := s.captures[k].bundle; var n := Next(s, EndCapture(k)); var m := Next(s, Swap(k));
              && b in s.f.residents && b in n.f.residents && n.f.residents[b].references == s.f.residents[b].references - 1
              && n.f.residents[b].analyzer == s.captures[k].analyzer && n.f.changed > s.f.changed && n.captures == s.captures - {k}
              && n.f.residents.Keys == s.f.residents.Keys && (c in s.f.residents && c != b ==> n.f.residents[c] == s.f.residents[c])
              && m.f == s.f.(active := b, changed := m.f.changed) && m.f.changed > s.f.changed && m.captures == s.captures
  {
    ReachableInv(maximum, active, analyzer, steps);
    var s := Run(Initial(maximum, active, analyzer), steps);
    if k in s.captures {
      var b := s.captures[k].bundle;
      assert CaptureHeld(s, k) && CountedRight(s, b) && k in Holders(s.captures, b);
    }
  }

  // A bundle that is neither resident nor loading starts to load unless every slot is taken by
  // something that cannot be evicted; eviction frees one slot and no more.
  lemma CapacityIsUsed(f: Factory, requested: Bundle, victim: Option<Bundle>, load: LoadId)
    requires VictimAllowed(f, victim) && Target(f, requested) !in f.residents && Target(f, requested) !in f.loads
    ensures var (reply, n) := TryCapture(f, requested, victim, load);
            && (reply.NoCapacity? <==> Full(f) && forall b :: b in f.residents ==> !Evictable(f, b))
            && (reply.Started? <==> !reply.NoCapacity?)
            && (reply.Started? ==> n.residents == if Full(f) then f.residents - {victim.value} else f.residents)
  {
  }

  // A caller that stops waiting is no longer counted, and cancels the load exactly when it gave
  // up and was the last.
  lemma LastWaiterCancels(f: Factory, l: LoadId, gaveUp: bool)
    requires l in f.pending
    ensures var n := StopWaiting(f, l, gaveUp); var p := f.pending[l];
            && l in n.pending && n.pending[l].waiters == p.waiters - 1 && n.pending[l].bundle == p.bundle && n.pending[l].result == p.result
            && (n.pending[l].cancelled <==> p.cancelled || (gaveUp && p.waiters == 1))
            && n == f.(pending := f.pending[l := n.pending[l]])
  {
  }
}
