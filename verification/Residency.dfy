// The bundle residency cache: single-flight loading, reference counts, LRU eviction under
// a hard capacity, and a broadcast channel for callers that wait for capacity.
//
// Every critical section under the factory's mutex is one step. A caller of `capture`
// moves between critical sections and blocked states; cancellation can strike in any of them.
module Residency {
  import opened Options

  type Bundle = string
  type LoadId = nat
  type CallerId = nat
  type CaptureId = nat

  datatype Resident = Resident(analyzer: int, references: nat, lastUsed: nat)
  datatype LoadResult = Loading | Loaded | LoaderFailed | LoadCancelled
  datatype Load = Load(bundle: Bundle, waiters: int, cancelled: bool, result: LoadResult)

  // The factory's fields. Channel number e is closed exactly when e < changed.
  datatype Factory = Factory(
    maximum: nat,
    active: Bundle,                    // "" when there is no active analyzer
    residents: map<Bundle, Resident>,
    loads: map<Bundle, LoadId>,
    pending: map<LoadId, Load>,        // every load record, also after it left `loads`
    changed: nat,
    sequence: nat,
    capacityWaiters: int)

  datatype Caller =
    | AtTop(requested: Bundle)                       // about to take the mutex
    | Parked(requested: Bundle, bundle: Bundle, channel: nat)
    | Waiting(requested: Bundle, load: LoadId)       // counted in the load's waiters
    | Shadowing(requested: Bundle, load: LoadId)     // waits for an abandoned load to end

  datatype Capture = Capture(bundle: Bundle, analyzer: int)

  datatype System = System(f: Factory, callers: map<CallerId, Caller>, captures: map<CaptureId, Capture>)

  // --------------------------------------------------------- critical sections

  predicate Full(f: Factory) { |f.residents| + |f.loads| >= f.maximum }

  predicate Evictable(f: Factory, b: Bundle) {
    b in f.residents && b != f.active && f.residents[b].references == 0
  }

  // A least recently used evictable resident.
  predicate IsVictim(f: Factory, b: Bundle) {
    Evictable(f, b) && forall c :: c in f.residents && Evictable(f, c) ==> f.residents[b].lastUsed <= f.residents[c].lastUsed
  }

  ghost predicate CanReserve(f: Factory) {
    !Full(f) || exists b :: Evictable(f, b)
  }

  function Notify(f: Factory): Factory { f.(changed := f.changed + 1) }

  datatype Reply =
    | Captured(capture: Capture)
    | Joined(load: LoadId)
    | Abandoned(load: LoadId)
    | NoCapacity(channel: nat)
    | Started(load: LoadId)

  function Target(f: Factory, requested: Bundle): Bundle {
    if requested == "" then f.active else requested
  }

  // One pass through the critical section of `capture`. `victim` is what eviction removes
  // when it has to remove something; `load` is the identity of a load record to create.
  function TryCapture(f: Factory, requested: Bundle, victim: Option<Bundle>, load: LoadId): (Reply, Factory) {
    var b := Target(f, requested);
    if b in f.residents then (Captured(Capture(b, f.residents[b].analyzer)), Acquire(f, b))
    else if b in f.loads && f.loads[b] in f.pending then
      if f.pending[f.loads[b]].waiters == 0 then (Abandoned(f.loads[b]), f) else (Joined(f.loads[b]), Join(f, f.loads[b]))
    else if Full(f) && victim.None? then (NoCapacity(f.changed), EnterCapacityQueue(f))
    else (Started(load), StartLoad(f, b, victim, load))
  }

  function Acquire(f: Factory, b: Bundle): Factory
    requires b in f.residents
  {
    var r := f.residents[b];
    f.(sequence := f.sequence + 1, residents := f.residents[b := r.(references := r.references + 1, lastUsed := f.sequence + 1)])
  }

  function Join(f: Factory, l: LoadId): Factory
    requires l in f.pending
  {
    f.(pending := f.pending[l := f.pending[l].(waiters := f.pending[l].waiters + 1)])
  }

  function StartLoad(f: Factory, b: Bundle, victim: Option<Bundle>, load: LoadId): Factory
    requires Full(f) ==> victim.Some?
  {
    f.(residents := if Full(f) then f.residents - {victim.value} else f.residents,
       loads := f.loads[b := load],
       pending := f.pending[load := Load(b, 1, false, Loading)])
  }

  function EnterCapacityQueue(f: Factory): Factory { f.(capacityWaiters := f.capacityWaiters + 1) }

  function LeaveCapacityQueue(f: Factory): Factory { f.(capacityWaiters := f.capacityWaiters - 1) }

  // The tail of waitForBundleLoad: stop waiting, and cancel a load nobody waits for any more.
  function StopWaiting(f: Factory, l: LoadId, cancelledByCaller: bool): Factory
    requires l in f.pending
  {
    var p := f.pending[l].(waiters := f.pending[l].waiters - 1);
    f.(pending := f.pending[l := if cancelledByCaller && p.waiters == 0 then p.(cancelled := true) else p])
  }

  function FinishLoad(f: Factory, l: LoadId, result: LoadResult, analyzer: int): Factory
    requires l in f.pending
  {
    var b := f.pending[l].bundle;
    var unloaded := f.(loads := if b in f.loads && f.loads[b] == l then f.loads - {b} else f.loads,
                       pending := f.pending[l := f.pending[l].(result := result)]);
    Notify(if result == Loaded
           then unloaded.(sequence := f.sequence + 1, residents := f.residents[b := Resident(analyzer, 0, f.sequence + 1)])
           else unloaded)
  }

  function Release(f: Factory, b: Bundle): Factory {
    if b !in f.residents || f.residents[b].references == 0 then f
    else
      var r := f.residents[b];
      Notify(f.(sequence := f.sequence + 1, residents := f.residents[b := r.(references := r.references - 1, lastUsed := f.sequence + 1)]))
  }

  function SwapActive(f: Factory, b: Bundle): Factory { Notify(f.(active := b)) }

  function Initial(maximum: nat, active: Bundle, analyzer: int): System {
    System(Factory(maximum, active, if active == "" then map[] else map[active := Resident(analyzer, 0, 0)],
                   map[], map[], 0, 0, 0),
           map[], map[])
  }

  // ------------------------------------------------------------------- steps

  datatype Step =
    | Arrive(caller: CallerId, requested: Bundle)
    | Attempt(caller: CallerId, victim: Option<Bundle>, load: LoadId, capture: CaptureId)
    | CapacityWake(caller: CallerId)
    | LoadWake(caller: CallerId)
    | Cancel(caller: CallerId)
    | EndLoad(load: LoadId, result: LoadResult, analyzer: int)
    | EndCapture(capture: CaptureId)
    | Swap(capture: CaptureId)

  // What eviction may pick: nothing when there is room or nothing to evict, else an LRU resident.
  ghost predicate VictimAllowed(f: Factory, victim: Option<Bundle>) {
    if victim.Some? then Full(f) && IsVictim(f, victim.value)
    else !Full(f) || forall b :: b in f.residents ==> !Evictable(f, b)
  }

  // Loader outcomes: an error of its own at any time, the cancellation error only after a
  // cancellation, and success only under a non-empty bundle ID (loadBundle compares IDs).
  predicate ResultAllowed(p: Load, result: LoadResult) {
    && p.result == Loading
    && match result {
         case Loading => false
         case Loaded => p.bundle != ""
         case LoaderFailed => true
         case LoadCancelled => p.cancelled
       }
  }

  ghost function Next(s: System, step: Step): System {
    match step
    case Arrive(c, requested) =>
      if c in s.callers then s else s.(callers := s.callers[c := AtTop(requested)])
    case Attempt(c, victim, load, capture) =>
      if c !in s.callers || !s.callers[c].AtTop? || load in s.f.pending || capture in s.captures || !VictimAllowed(s.f, victim) then s
      else
        var (reply, f) := TryCapture(s.f, s.callers[c].requested, victim, load);
        AfterAttempt(s, c, capture, reply, f)
    case CapacityWake(c) =>
      if c in s.callers && s.callers[c].Parked? && s.callers[c].channel < s.f.changed
      then System(LeaveCapacityQueue(s.f), s.callers[c := AtTop(s.callers[c].requested)], s.captures) else s
    case LoadWake(c) =>
      if c !in s.callers || s.callers[c].AtTop? || s.callers[c].Parked? || s.callers[c].load !in s.f.pending
         || s.f.pending[s.callers[c].load].result == Loading then s
      else if s.callers[c].Shadowing? then s.(callers := s.callers[c := AtTop(s.callers[c].requested)])
      else
        var l := s.callers[c].load;
        System(StopWaiting(s.f, l, false),
               if s.f.pending[l].result == Loaded then s.callers[c := AtTop(s.callers[c].requested)] else s.callers - {c},
               s.captures)
    case Cancel(c) =>
      if c !in s.callers then s
      else match s.callers[c] {
        case AtTop(_) => s.(callers := s.callers - {c})
        case Parked(_, _, _) => System(LeaveCapacityQueue(s.f), s.callers - {c}, s.captures)
        case Shadowing(_, _) => s.(callers := s.callers - {c})
        case Waiting(_, l) =>
          if l in s.f.pending then System(StopWaiting(s.f, l, true), s.callers - {c}, s.captures) else s
      }
    case EndLoad(l, result, analyzer) =>
      if l in s.f.pending && ResultAllowed(s.f.pending[l], result) then s.(f := FinishLoad(s.f, l, result, analyzer)) else s
    case EndCapture(k) =>
      if k in s.captures then System(Release(s.f, s.captures[k].bundle), s.callers, s.captures - {k}) else s
    case Swap(k) =>
      if k in s.captures then s.(f := SwapActive(s.f, s.captures[k].bundle)) else s
  }

  function AfterAttempt(s: System, c: CallerId, capture: CaptureId, reply: Reply, f: Factory): System
    requires c in s.callers
  {
    var requested := s.callers[c].requested;
    match reply
    case Captured(k) => System(f, s.callers - {c}, s.captures[capture := k])
    case Joined(l) => System(f, s.callers[c := Waiting(requested, l)], s.captures)
    case Abandoned(l) => System(f, s.callers[c := Shadowing(requested, l)], s.captures)
    case NoCapacity(channel) => System(f, s.callers[c := Parked(requested, Target(s.f, requested), channel)], s.captures)
    case Started(l) => System(f, s.callers[c := Waiting(requested, l)], s.captures)
  }

  ghost function Run(s: System, steps: seq<Step>): System
    decreases |steps|
  {
    if steps == [] then s else Run(Next(s, steps[0]), steps[1..])
  }

  // --------------------------------------------------------------- invariant

  function Waiters(callers: map<CallerId, Caller>, l: LoadId): set<CallerId> {
    set c | c in callers && callers[c].Waiting? && callers[c].load == l
  }

  function ParkedCallers(callers: map<CallerId, Caller>): set<CallerId> {
    set c | c in callers && callers[c].Parked?
  }

  function Holders(captures: map<CaptureId, Capture>, b: Bundle): set<CaptureId> {
    set k | k in captures && captures[k].bundle == b
  }

  ghost predicate Bounded(f: Factory) {
    && f.maximum >= 2
    && |f.residents| + |f.loads| <= f.maximum
    && (f.active != "" ==> f.active in f.residents)
    && "" !in f.residents
    && f.residents.Keys !! f.loads.Keys
  }

  // A bundle is in `loads` exactly while its one load record is unfinished.
  ghost predicate SingleFlight(f: Factory) {
    && (forall b :: FlightOf(f, b))
    && (forall l :: RecordOf(f, l))
  }

  predicate FlightOf(f: Factory, b: Bundle) {
    b in f.loads ==> f.loads[b] in f.pending && f.pending[f.loads[b]].bundle == b && f.pending[f.loads[b]].result == Loading
  }

  predicate RecordOf(f: Factory, l: LoadId) {
    l in f.pending && f.pending[l].result == Loading ==> f.pending[l].bundle in f.loads && f.loads[f.pending[l].bundle] == l
  }

  // A reference count is the number of unreleased captures, each of the resident's own analyzer.
  ghost predicate Referenced(s: System) {
    && (forall k :: CaptureHeld(s, k))
    && (forall b :: CountedRight(s, b))
  }

  predicate CaptureHeld(s: System, k: CaptureId) {
    k in s.captures ==>
      s.captures[k].bundle in s.f.residents && s.f.residents[s.captures[k].bundle].analyzer == s.captures[k].analyzer
  }

  predicate CountedRight(s: System, b: Bundle) {
    b in s.f.residents ==> s.f.residents[b].references == |Holders(s.captures, b)|
  }

  ghost predicate Awaited(s: System) {
    && (forall c :: c in s.callers && s.callers[c].Waiting? ==> s.callers[c].load in s.f.pending)
    && (forall l :: l in s.f.pending ==> LoadAwaited(s, l))
  }

  ghost predicate LoadAwaited(s: System, l: LoadId)
    requires l in s.f.pending
  {
    var p := s.f.pending[l];
    && p.waiters == |Waiters(s.callers, l)|
    && (p.cancelled ==> p.waiters == 0)
    && (p.result == LoadCancelled ==> p.cancelled)
  }

  // A caller parked on the channel that is still open would park again.
  ghost predicate NoLostWakeup(s: System) {
    && s.f.capacityWaiters == |ParkedCallers(s.callers)|
    && (forall c :: c in s.callers && s.callers[c].Parked? ==> ParkedRight(s, c))
  }

  ghost predicate ParkedRight(s: System, c: CallerId)
    requires c in s.callers && s.callers[c].Parked?
  {
    var p := s.callers[c];
    && p.channel <= s.f.changed
    && (p.channel == s.f.changed ==>
          p.bundle == Target(s.f, p.requested) && p.bundle !in s.f.residents && p.bundle !in s.f.loads && !CanReserve(s.f))
  }

  ghost predicate Inv(s: System) {
    Bounded(s.f) && SingleFlight(s.f) && Referenced(s) && Awaited(s) && NoLostWakeup(s)
  }

  // ------------------------------------------------------------------ proofs

  // Two caller maps that agree except at c.
  ghost predicate SameElsewhere<T>(a: map<nat, T>, b: map<nat, T>, c: nat) {
    forall d :: d != c ==> (d in a <==> d in b) && (d in a ==> a[d] == b[d])
  }

  function One(b: bool): nat { if b then 1 else 0 }

  predicate WaitsOn(callers: map<CallerId, Caller>, c: CallerId, l: LoadId) {
    c in callers && callers[c].Waiting? && callers[c].load == l
  }

  predicate IsParked(callers: map<CallerId, Caller>, c: CallerId) { c in callers && callers[c].Parked? }

  lemma SetMove(a: set<nat>, b: set<nat>, c: nat)
    requires a - {c} == b - {c}
    ensures |b| == |a| - One(c in a) + One(c in b)
  {
    assert a == if c in a then (a - {c}) + {c} else a - {c};
    assert b == if c in b then (b - {c}) + {c} else b - {c};
  }

  // How one caller's move changes the waiter count of a load and the number of parked callers.
  lemma CallerMove(a: map<CallerId, Caller>, b: map<CallerId, Caller>, c: CallerId, l: LoadId)
    requires SameElsewhere(a, b, c)
    ensures |Waiters(b, l)| == |Waiters(a, l)| - One(WaitsOn(a, c, l)) + One(WaitsOn(b, c, l))
    ensures |ParkedCallers(b)| == |ParkedCallers(a)| - One(IsParked(a, c)) + One(IsParked(b, c))
  {
    assert Waiters(a, l) - {c} == Waiters(b, l) - {c};
    SetMove(Waiters(a, l), Waiters(b, l), c);
    assert ParkedCallers(a) - {c} == ParkedCallers(b) - {c};
    SetMove(ParkedCallers(a), ParkedCallers(b), c);
  }

  lemma CaptureMove(a: map<CaptureId, Capture>, b: map<CaptureId, Capture>, k: CaptureId, bundle: Bundle)
    requires SameElsewhere(a, b, k)
    ensures |Holders(b, bundle)| == |Holders(a, bundle)| - One(k in a && a[k].bundle == bundle) + One(k in b && b[k].bundle == bundle)
  {
    assert Holders(a, bundle) - {k} == Holders(b, bundle) - {k};
    SetMove(Holders(a, bundle), Holders(b, bundle), k);
  }

  // Evictability and room only shrink, so open parked callers stay right, when nothing
  // leaves and no reference count falls to zero.
  lemma ParkedStay(s: System, n: System, c: CallerId)
    requires NoLostWakeup(s) && SameElsewhere(s.callers, n.callers, c)
    requires n.f.changed == s.f.changed && n.f.active == s.f.active && n.f.maximum == s.f.maximum
    requires n.f.loads == s.f.loads && n.f.residents.Keys == s.f.residents.Keys
    requires forall b :: b in n.f.residents && n.f.residents[b].references == 0 ==> s.f.residents[b].references == 0
    requires IsParked(n.callers, c) ==> ParkedRight(n, c)
    ensures forall d :: d in n.callers && n.callers[d].Parked? ==> ParkedRight(n, d)
  {
    assert |n.f.residents| == |n.f.residents.Keys| == |s.f.residents.Keys| == |s.f.residents|;
    forall d | d in n.callers && n.callers[d].Parked? && d != c
      ensures ParkedRight(n, d)
    {
      assert ParkedRight(s, d);
      if n.callers[d].channel == n.f.changed && CanReserve(n.f) {
        var b :| Evictable(n.f, b);
        assert Evictable(s.f, b);
      }
    }
  }

  // One caller moves and every load's waiter count follows it.
  lemma AwaitedMove(s: System, n: System, c: CallerId)
    requires Awaited(s) && SameElsewhere(s.callers, n.callers, c)
    requires n.f.pending.Keys == s.f.pending.Keys
    requires forall l :: l in n.f.pending ==> PendingFollows(s, n, c, l)
    requires c in n.callers && n.callers[c].Waiting? ==> n.callers[c].load in n.f.pending
    ensures Awaited(n)
    ensures |ParkedCallers(n.callers)| == |ParkedCallers(s.callers)| - One(IsParked(s.callers, c)) + One(IsParked(n.callers, c))
  {
    forall l | l in n.f.pending ensures LoadAwaited(n, l) {
      assert LoadAwaited(s, l) && PendingFollows(s, n, c, l);
      CallerMove(s.callers, n.callers, c, l);
    }
    CallerMove(s.callers, n.callers, c, 0);
  }

  ghost predicate PendingFollows(s: System, n: System, c: CallerId, l: LoadId)
    requires l in n.f.pending && n.f.pending.Keys == s.f.pending.Keys
  {
    var p, q := s.f.pending[l], n.f.pending[l];
    && q.waiters == p.waiters - One(WaitsOn(s.callers, c, l)) + One(WaitsOn(n.callers, c, l))
    && q.bundle == p.bundle && q.result == p.result
    && (p.cancelled ==> q.cancelled) && (q.cancelled ==> q.waiters == 0)
  }

  lemma LookupKeeps(f: Factory, b: Bundle, r: Resident)
    requires Bounded(f) && SingleFlight(f) && b in f.residents
    ensures var g := f.(sequence := f.sequence + 1, residents := f.residents[b := r]);
            Bounded(g) && SingleFlight(g) && g.residents.Keys == f.residents.Keys
  {
    var g := f.(sequence := f.sequence + 1, residents := f.residents[b := r]);
    assert g.residents.Keys == f.residents.Keys;
    assert |g.residents| == |g.residents.Keys| == |f.residents|;
    SameFlights(f, g);
  }

  lemma SameFlights(f: Factory, g: Factory)
    requires SingleFlight(f) && g.loads == f.loads && g.pending.Keys == f.pending.Keys
    requires forall l :: l in g.pending ==> g.pending[l].bundle == f.pending[l].bundle && g.pending[l].result == f.pending[l].result
    ensures SingleFlight(g)
  {
    forall b ensures FlightOf(g, b) { assert FlightOf(f, b); }
    forall l ensures RecordOf(g, l) { assert RecordOf(f, l); }
  }

  lemma CapturedKeeps(s: System, c: CallerId, capture: CaptureId, b: Bundle)
    requires Inv(s) && c in s.callers && s.callers[c].AtTop? && capture !in s.captures && b in s.f.residents
    ensures var r := s.f.residents[b];
            Inv(System(Acquire(s.f, b), s.callers - {c}, s.captures[capture := Capture(b, r.analyzer)]))
  {
    var r := s.f.residents[b];
    var r' := r.(references := r.references + 1, lastUsed := s.f.sequence + 1);
    var n := System(Acquire(s.f, b), s.callers - {c}, s.captures[capture := Capture(b, r.analyzer)]);
    LookupKeeps(s.f, b, r');
    CapturedReferenced(s, n, capture, b);
    CapturedCallers(s, n, c, b);
  }

  lemma CapturedReferenced(s: System, n: System, capture: CaptureId, b: Bundle)
    requires Referenced(s) && b in s.f.residents && capture !in s.captures
    requires n.f == Acquire(s.f, b) && n.captures == s.captures[capture := Capture(b, s.f.residents[b].analyzer)]
    ensures Referenced(n)
  {
    TakeReference(s, n, capture, b);
  }

  lemma CapturedCallers(s: System, n: System, c: CallerId, b: Bundle)
    requires Awaited(s) && NoLostWakeup(s) && b in s.f.residents && c in s.callers && s.callers[c].AtTop?
    requires n.f == Acquire(s.f, b) && n.callers == s.callers - {c}
    ensures Awaited(n) && NoLostWakeup(n)
  {
    AwaitedUnchanged(s, n, c);
    ParkedStay(s, n, c);
  }

  lemma TakeReference(s: System, n: System, k: CaptureId, b: Bundle)
    requires Referenced(s) && b in s.f.residents && k !in s.captures
    requires n.captures == s.captures[k := Capture(b, s.f.residents[b].analyzer)]
    requires n.f.residents.Keys == s.f.residents.Keys
    requires forall d :: d in s.f.residents ==>
               && n.f.residents[d].analyzer == s.f.residents[d].analyzer
               && n.f.residents[d].references == s.f.residents[d].references + One(d == b)
    ensures Referenced(n)
  {
    forall d ensures CountedRight(n, d) {
      assert CountedRight(s, d);
      CaptureMove(s.captures, n.captures, k, d);
    }
    forall j ensures CaptureHeld(n, j) { assert CaptureHeld(s, j); }
  }

  // A caller's move that no load counts.
  lemma AwaitedUnchanged(s: System, n: System, c: CallerId)
    requires Awaited(s) && SameElsewhere(s.callers, n.callers, c) && n.f.pending == s.f.pending
    requires c in s.callers ==> !s.callers[c].Waiting?
    requires c in n.callers ==> !n.callers[c].Waiting?
    ensures Awaited(n)
    ensures |ParkedCallers(n.callers)| == |ParkedCallers(s.callers)| - One(IsParked(s.callers, c)) + One(IsParked(n.callers, c))
  {
    forall l | l in n.f.pending ensures PendingFollows(s, n, c, l) { assert LoadAwaited(s, l); }
    AwaitedMove(s, n, c);
  }

  lemma JoinedKeeps(s: System, c: CallerId, l: LoadId)
    requires Inv(s) && c in s.callers && s.callers[c].AtTop? && l in s.f.pending && s.f.pending[l].waiters != 0
    ensures Inv(System(Join(s.f, l), s.callers[c := Waiting(s.callers[c].requested, l)], s.captures))
  {
    var n := System(Join(s.f, l), s.callers[c := Waiting(s.callers[c].requested, l)], s.captures);
    forall m | m in n.f.pending ensures PendingFollows(s, n, c, m) { assert LoadAwaited(s, m); }
    AwaitedMove(s, n, c);
    ParkedStay(s, n, c);
    SameFlights(s.f, n.f);
    SameReferences(s, n);
  }

  // A caller that only changes its own uncounted state.
  lemma CallerOnlyKeeps(s: System, callers: map<CallerId, Caller>, c: CallerId)
    requires Inv(s) && SameElsewhere(s.callers, callers, c)
    requires c in s.callers ==> s.callers[c].AtTop? || s.callers[c].Shadowing?
    requires c in callers ==> callers[c].AtTop? || callers[c].Shadowing?
    ensures Inv(s.(callers := callers))
  {
    var n := s.(callers := callers);
    AwaitedUnchanged(s, n, c);
    ParkedStay(s, n, c);
    SameReferences(s, n);
  }

  lemma ParkKeeps(s: System, c: CallerId)
    requires Inv(s) && c in s.callers && s.callers[c].AtTop? && !CanReserve(s.f)
    requires Target(s.f, s.callers[c].requested) !in s.f.residents && Target(s.f, s.callers[c].requested) !in s.f.loads
    ensures Inv(System(EnterCapacityQueue(s.f),
                       s.callers[c := Parked(s.callers[c].requested, Target(s.f, s.callers[c].requested), s.f.changed)], s.captures))
  {
    var n := System(EnterCapacityQueue(s.f),
                    s.callers[c := Parked(s.callers[c].requested, Target(s.f, s.callers[c].requested), s.f.changed)], s.captures);
    AwaitedUnchanged(s, n, c);
    assert forall b :: Evictable(n.f, b) ==> Evictable(s.f, b);
    ParkedStay(s, n, c);
    CountersOnly(s, n);
  }

  // Capacity waiters and the caller map do not matter to the residency part.
  lemma CountersOnly(s: System, n: System)
    requires Bounded(s.f) && SingleFlight(s.f) && Referenced(s)
    requires n.f == s.f.(capacityWaiters := n.f.capacityWaiters) && n.captures == s.captures
    ensures Bounded(n.f) && SingleFlight(n.f) && Referenced(n)
  {
    SameFlights(s.f, n.f);
    SameReferences(s, n);
  }

  lemma SameReferences(s: System, n: System)
    requires Referenced(s) && n.f.residents == s.f.residents && n.captures == s.captures
    ensures Referenced(n)
  {
    forall k ensures CaptureHeld(n, k) { assert CaptureHeld(s, k); }
    forall b ensures CountedRight(n, b) { assert CountedRight(s, b); }
  }

  lemma UnparkKeeps(s: System, callers: map<CallerId, Caller>, c: CallerId)
    requires Inv(s) && c in s.callers && s.callers[c].Parked? && SameElsewhere(s.callers, callers, c)
    requires c in callers ==> callers[c].AtTop?
    ensures Inv(System(LeaveCapacityQueue(s.f), callers, s.captures))
  {
    var n := System(LeaveCapacityQueue(s.f), callers, s.captures);
    AwaitedUnchanged(s, n, c);
    ParkedStay(s, n, c);
    CountersOnly(s, n);
  }

  // A waiter leaves: the count falls, and a cancellation happens only at zero.
  lemma StopWaitingKeeps(s: System, callers: map<CallerId, Caller>, c: CallerId, l: LoadId, cancelledByCaller: bool)
    requires Inv(s) && WaitsOn(s.callers, c, l) && SameElsewhere(s.callers, callers, c) && l in s.f.pending
    requires c in callers ==> callers[c].AtTop?
    ensures Inv(System(StopWaiting(s.f, l, cancelledByCaller), callers, s.captures))
  {
    var n := System(StopWaiting(s.f, l, cancelledByCaller), callers, s.captures);
    assert c in Waiters(s.callers, l);
    forall m | m in n.f.pending ensures PendingFollows(s, n, c, m) { assert LoadAwaited(s, m); }
    AwaitedMove(s, n, c);
    ParkedStay(s, n, c);
    SameFlights(s.f, n.f);
    SameReferences(s, n);
  }

  lemma StartKeeps(s: System, c: CallerId, b: Bundle, victim: Option<Bundle>, load: LoadId)
    requires Inv(s) && c in s.callers && s.callers[c].AtTop? && load !in s.f.pending
    requires b == Target(s.f, s.callers[c].requested) && b !in s.f.residents && b !in s.f.loads
    requires VictimAllowed(s.f, victim) && (Full(s.f) ==> victim.Some?)
    ensures Inv(System(StartLoad(s.f, b, victim, load), s.callers[c := Waiting(s.callers[c].requested, load)], s.captures))
  {
    var n := System(StartLoad(s.f, b, victim, load), s.callers[c := Waiting(s.callers[c].requested, load)], s.captures);
    StartBounded(s.f, b, victim, load);
    StartReferenced(s, n, victim);
    StartAwaited(s, n, c, load);
    // Room could be made, so nobody is parked on the open channel.
    assert CanReserve(s.f);
    forall d | d in n.callers && n.callers[d].Parked? ensures ParkedRight(n, d) {
      assert d in s.callers && ParkedRight(s, d);
    }
  }

  lemma RemoveCounts<V>(m: map<Bundle, V>, b: Bundle)
    requires b in m
    ensures |m - {b}| == |m| - 1
  {
    assert m.Keys == (m - {b}).Keys + {b};
    assert |m| == |m.Keys| && |m - {b}| == |(m - {b}).Keys|;
  }

  lemma InsertCounts<V>(m: map<Bundle, V>, b: Bundle, v: V)
    requires b !in m
    ensures |m[b := v]| == |m| + 1
  {
    assert m[b := v].Keys == m.Keys + {b};
    assert |m| == |m.Keys| && |m[b := v]| == |m[b := v].Keys|;
  }

  lemma StartFlight(f: Factory, b: Bundle, victim: Option<Bundle>, load: LoadId)
    requires SingleFlight(f) && load !in f.pending && b !in f.residents && b !in f.loads && (Full(f) ==> victim.Some?)
    ensures SingleFlight(StartLoad(f, b, victim, load))
  {
    var g := StartLoad(f, b, victim, load);
    forall d ensures FlightOf(g, d) { assert FlightOf(f, d); }
    forall l ensures RecordOf(g, l) { assert RecordOf(f, l); }
  }

  lemma StartBounded(f: Factory, b: Bundle, victim: Option<Bundle>, load: LoadId)
    requires Bounded(f) && SingleFlight(f) && load !in f.pending && b !in f.residents && b !in f.loads
    requires VictimAllowed(f, victim) && (Full(f) ==> victim.Some?)
    ensures Bounded(StartLoad(f, b, victim, load)) && SingleFlight(StartLoad(f, b, victim, load))
  {
    InsertCounts(f.loads, b, load);
    if Full(f) {
      RemoveCounts(f.residents, victim.value);
    }
    StartFlight(f, b, victim, load);
  }

  // What is evicted is held by nobody.
  lemma StartReferenced(s: System, n: System, victim: Option<Bundle>)
    requires Referenced(s) && n.captures == s.captures && VictimAllowed(s.f, victim) && (Full(s.f) ==> victim.Some?)
    requires n.f.residents == if Full(s.f) then s.f.residents - {victim.value} else s.f.residents
    ensures Referenced(n)
  {
    if Full(s.f) {
      assert CountedRight(s, victim.value);
      assert Holders(s.captures, victim.value) == {};
      assert forall k :: k in s.captures && s.captures[k].bundle == victim.value ==> k in Holders(s.captures, victim.value);
    }
    forall k ensures CaptureHeld(n, k) { assert CaptureHeld(s, k); }
    forall b ensures CountedRight(n, b) { assert CountedRight(s, b); }
  }

  lemma StartAwaited(s: System, n: System, c: CallerId, load: LoadId)
    requires Awaited(s) && c in s.callers && s.callers[c].AtTop? && load !in s.f.pending
    requires n.callers == s.callers[c := Waiting(s.callers[c].requested, load)]
    requires exists b :: n.f.pending == s.f.pending[load := Load(b, 1, false, Loading)]
    ensures Awaited(n)
    ensures |ParkedCallers(n.callers)| == |ParkedCallers(s.callers)|
  {
    forall l | l in n.f.pending ensures LoadAwaited(n, l) {
      CallerMove(s.callers, n.callers, c, l);
      if l == load {
        assert Waiters(s.callers, load) == {};
      } else {
        assert LoadAwaited(s, l);
      }
    }
    CallerMove(s.callers, n.callers, c, load);
  }

  // Once the channel is closed nobody is parked on an open one.
  lemma Notified(s: System, n: System)
    requires NoLostWakeup(s) && n.callers == s.callers && n.f.changed == s.f.changed + 1 && n.f.capacityWaiters == s.f.capacityWaiters
    ensures NoLostWakeup(n)
  {
    forall d | d in n.callers && n.callers[d].Parked? ensures ParkedRight(n, d) {
      assert ParkedRight(s, d);
    }
  }

  lemma FinishKeeps(s: System, l: LoadId, result: LoadResult, analyzer: int)
    requires Inv(s) && l in s.f.pending && ResultAllowed(s.f.pending[l], result)
    ensures Inv(s.(f := FinishLoad(s.f, l, result, analyzer)))
  {
    var n := s.(f := FinishLoad(s.f, l, result, analyzer));
    Notified(s, n);
    FinishBounded(s.f, l, result, analyzer);
    forall m | m in n.f.pending ensures LoadAwaited(n, m) { assert LoadAwaited(s, m); }
    FinishReferenced(s, l, result, analyzer);
  }

  lemma FinishBounded(f: Factory, l: LoadId, result: LoadResult, analyzer: int)
    requires Bounded(f) && SingleFlight(f) && l in f.pending && ResultAllowed(f.pending[l], result)
    ensures Bounded(FinishLoad(f, l, result, analyzer)) && SingleFlight(FinishLoad(f, l, result, analyzer))
  {
    var b := f.pending[l].bundle;
    var g := FinishLoad(f, l, result, analyzer);
    assert RecordOf(f, l);
    assert g.loads == f.loads - {b};
    FinishSize(f.residents, g.residents, f.loads, g.loads, b);
    forall d ensures FlightOf(g, d) { assert FlightOf(f, d); }
    forall m ensures RecordOf(g, m) { assert RecordOf(f, m); }
  }

  lemma FinishSize(r: map<Bundle, Resident>, r': map<Bundle, Resident>, l: map<Bundle, LoadId>, l': map<Bundle, LoadId>, b: Bundle)
    requires b in l && b !in r && l' == l - {b} && (r' == r || r'.Keys == r.Keys + {b})
    ensures |r'| + |l'| <= |r| + |l|
  {
    assert l.Keys == l'.Keys + {b};
    assert |l| == |l.Keys| && |l'| == |l'.Keys| && |r| == |r.Keys| && |r'| == |r'.Keys|;
  }

  lemma FinishReferenced(s: System, l: LoadId, result: LoadResult, analyzer: int)
    requires Inv(s) && l in s.f.pending && ResultAllowed(s.f.pending[l], result)
    ensures Referenced(s.(f := FinishLoad(s.f, l, result, analyzer)))
  {
    var b := s.f.pending[l].bundle;
    var n := s.(f := FinishLoad(s.f, l, result, analyzer));
    assert RecordOf(s.f, l);
    assert Holders(s.captures, b) == {} by {
      assert forall k :: k in Holders(s.captures, b) ==> CaptureHeld(s, k);
    }
    forall k ensures CaptureHeld(n, k) { assert CaptureHeld(s, k); }
    forall d ensures CountedRight(n, d) { assert CountedRight(s, d); }
  }

  lemma ReleaseKeeps(s: System, k: CaptureId)
    requires Inv(s) && k in s.captures
    ensures Inv(System(Release(s.f, s.captures[k].bundle), s.callers, s.captures - {k}))
  {
    var b := s.captures[k].bundle;
    assert k in Holders(s.captures, b) && CaptureHeld(s, k) && CountedRight(s, b);
    var r := s.f.residents[b].(references := s.f.residents[b].references - 1, lastUsed := s.f.sequence + 1);
    LookupKeeps(s.f, b, r);
    var n := System(Release(s.f, b), s.callers, s.captures - {k});
    assert n.f == Notify(s.f.(sequence := s.f.sequence + 1, residents := s.f.residents[b := r]));
    Notified(s, n);
    SameFlights(s.f, n.f);
    forall d ensures CountedRight(n, d) {
      assert CountedRight(s, d);
      CaptureMove(s.captures, n.captures, k, d);
    }
    forall j ensures CaptureHeld(n, j) { assert CaptureHeld(s, j); }
    forall m | m in n.f.pending ensures LoadAwaited(n, m) { assert LoadAwaited(s, m); }
  }

  lemma SwapKeeps(s: System, k: CaptureId)
    requires Inv(s) && k in s.captures
    ensures Inv(s.(f := SwapActive(s.f, s.captures[k].bundle)))
  {
    var n := s.(f := SwapActive(s.f, s.captures[k].bundle));
    assert CaptureHeld(s, k);
    Notified(s, n);
    SameFlights(s.f, n.f);
    SameReferences(s, n);
    forall m | m in n.f.pending ensures LoadAwaited(n, m) { assert LoadAwaited(s, m); }
  }

  lemma AttemptKeeps(s: System, c: CallerId, victim: Option<Bundle>, load: LoadId, capture: CaptureId)
    requires Inv(s) && c in s.callers && s.callers[c].AtTop? && load !in s.f.pending && capture !in s.captures && VictimAllowed(s.f, victim)
    ensures var (reply, f) := TryCapture(s.f, s.callers[c].requested, victim, load); Inv(AfterAttempt(s, c, capture, reply, f))
  {
    var requested := s.callers[c].requested;
    var b := Target(s.f, requested);
    assert FlightOf(s.f, b);
    if b in s.f.residents {
      CapturedKeeps(s, c, capture, b);
    } else if b in s.f.loads {
      var l := s.f.loads[b];
      if s.f.pending[l].waiters == 0 {
        CallerOnlyKeeps(s, s.callers[c := Shadowing(requested, l)], c);
        assert s.(callers := s.callers[c := Shadowing(requested, l)]) == System(s.f, s.callers[c := Shadowing(requested, l)], s.captures);
      } else {
        JoinedKeeps(s, c, l);
      }
    } else {
      MissKeeps(s, c, b, victim, load, capture);
    }
  }

  lemma MissKeeps(s: System, c: CallerId, b: Bundle, victim: Option<Bundle>, load: LoadId, capture: CaptureId)
    requires Inv(s) && c in s.callers && s.callers[c].AtTop? && load !in s.f.pending && VictimAllowed(s.f, victim)
    requires b == Target(s.f, s.callers[c].requested) && b !in s.f.residents && b !in s.f.loads
    ensures var (reply, f) := TryCapture(s.f, s.callers[c].requested, victim, load); Inv(AfterAttempt(s, c, capture, reply, f))
  {
    if Full(s.f) && victim.None? {
      ParkKeeps(s, c);
    } else {
      StartKeeps(s, c, b, victim, load);
    }
  }

  lemma NextKeeps(s: System, step: Step)
    requires Inv(s)
    ensures Inv(Next(s, step))
  {
    var n := Next(s, step);
    if n != s {
      match step
      case Arrive(c, requested) => CallerOnlyKeeps(s, s.callers[c := AtTop(requested)], c);
      case Attempt(c, victim, load, capture) => AttemptKeeps(s, c, victim, load, capture);
      case CapacityWake(c) => UnparkKeeps(s, n.callers, c);
      case LoadWake(c) =>
        if s.callers[c].Shadowing? {
          CallerOnlyKeeps(s, n.callers, c);
        } else {
          StopWaitingKeeps(s, n.callers, c, s.callers[c].load, false);
        }
      case Cancel(c) =>
        match s.callers[c] {
          case AtTop(_) => CallerOnlyKeeps(s, n.callers, c);
          case Shadowing(_, _) => CallerOnlyKeeps(s, n.callers, c);
          case Parked(_, _, _) => UnparkKeeps(s, n.callers, c);
          case Waiting(_, l) => StopWaitingKeeps(s, n.callers, c, l, true);
        }
      case EndLoad(l, result, analyzer) => FinishKeeps(s, l, result, analyzer);
      case EndCapture(k) => ReleaseKeeps(s, k);
      case Swap(k) => SwapKeeps(s, k);
    }
  }

  lemma {:induction false} RunKeeps(s: System, steps: seq<Step>)
    requires Inv(s)
    ensures Inv(Run(s, steps))
    decreases |steps|
  {
    if steps != [] {
      NextKeeps(s, steps[0]);
      RunKeeps(Next(s, steps[0]), steps[1..]);
    }
  }

  // ---------------------------------------------------------------- theorems

  lemma ReachableInv(maximum: nat, active: Bundle, analyzer: int, steps: seq<Step>)
    requires maximum >= 2
    ensures Inv(Run(Initial(maximum, active, analyzer), steps))
  {
    var s := Initial(maximum, active, analyzer);
    assert Holders(s.captures, active) == {};
    assert ParkedCallers(s.callers) == {};
    assert |s.f.residents| <= 1;
    RunKeeps(s, steps);
  }

  // Residency safety in every reachable state.
  lemma ReachableSafe(maximum: nat, active: Bundle, analyzer: int, steps: seq<Step>, b: Bundle, k: CaptureId)
    requires maximum >= 2
    ensures var s := Run(Initial(maximum, active, analyzer), steps);
            && |s.f.residents| + |s.f.loads| <= s.f.maximum
            && (s.f.active != "" ==> s.f.active in s.f.residents)
            && !(b in s.f.residents && b in s.f.loads)
            && (b in s.f.residents ==> s.f.residents[b].references == |Holders(s.captures, b)|)
            && (k in s.captures ==> s.captures[k].bundle in s.f.residents
                                    && s.f.residents[s.captures[k].bundle].analyzer == s.captures[k].analyzer)
  {
    ReachableInv(maximum, active, analyzer, steps);
    var s := Run(Initial(maximum, active, analyzer), steps);
    assert CountedRight(s, b) && CaptureHeld(s, k);
  }

  // No bundle is loaded twice at once: two unfinished load records have different bundles.
  lemma ReachableSingleFlight(maximum: nat, active: Bundle, analyzer: int, steps: seq<Step>, l: LoadId, m: LoadId)
    requires maximum >= 2
    ensures var p := Run(Initial(maximum, active, analyzer), steps).f.pending;
            l in p && m in p && p[l].result == Loading && p[m].result == Loading && p[l].bundle == p[m].bundle ==> l == m
  {
    ReachableInv(maximum, active, analyzer, steps);
    var f := Run(Initial(maximum, active, analyzer), steps).f;
    assert RecordOf(f, l) && RecordOf(f, m);
  }

  // Whatever step comes next, a bundle with an unreleased capture stays resident with the same analyzer.
  lemma HeldIsNeverEvicted(maximum: nat, active: Bundle, analyzer: int, steps: seq<Step>, step: Step, k: CaptureId)
    requires maximum >= 2
    ensures var s := Run(Initial(maximum, active, analyzer), steps); var n := Next(s, step);
            k in s.captures && k in n.captures ==>
              && n.captures[k] == s.captures[k]
              && n.captures[k].bundle in n.f.residents && n.f.residents[n.captures[k].bundle].analyzer == s.captures[k].analyzer
  {
    ReachableInv(maximum, active, analyzer, steps);
    var s := Run(Initial(maximum, active, analyzer), steps);
    NextKeeps(s, step);
    assert CaptureHeld(Next(s, step), k);
    CaptureUnmoved(s, step, k);
  }

  lemma CaptureUnmoved(s: System, step: Step, k: CaptureId)
    ensures k in s.captures && k in Next(s, step).captures ==> Next(s, step).captures[k] == s.captures[k]
  {
    if step.Attempt? && step.caller in s.callers && s.callers[step.caller].AtTop? && VictimAllowed(s.f, step.victim)
       && step.load !in s.f.pending && step.capture !in s.captures {
      var (reply, f) := TryCapture(s.f, s.callers[step.caller].requested, step.victim, step.load);
      AttemptAdds(s, step.caller, step.capture, reply, f, k);
    }
  }

  lemma AttemptAdds(s: System, c: CallerId, capture: CaptureId, reply: Reply, f: Factory, k: CaptureId)
    requires c in s.callers && capture !in s.captures
    ensures k in s.captures ==> k in AfterAttempt(s, c, capture, reply, f).captures && AfterAttempt(s, c, capture, reply, f).captures[k] == s.captures[k]
  {
  }

  // A caller counted in a load's waiters never sees another caller's cancellation.
  lemma JoinerIsNeverCancelled(maximum: nat, active: Bundle, analyzer: int, steps: seq<Step>, c: CallerId)
    requires maximum >= 2
    ensures var s := Run(Initial(maximum, active, analyzer), steps);
            c in s.callers && s.callers[c].Waiting? ==>
              && s.callers[c].load in s.f.pending
              && !s.f.pending[s.callers[c].load].cancelled
              && s.f.pending[s.callers[c].load].result != LoadCancelled
  {
    ReachableInv(maximum, active, analyzer, steps);
    var s := Run(Initial(maximum, active, analyzer), steps);
    if c in s.callers && s.callers[c].Waiting? {
      assert LoadAwaited(s, s.callers[c].load);
      assert c in Waiters(s.callers, s.callers[c].load);
    }
  }

  // Something whose end closes the open channel: a capture of a non-active bundle, or a load.
  ghost predicate Waker(s: System) {
    || (exists k :: k in s.captures && s.captures[k].bundle != s.f.active)
    || (exists l :: l in s.f.pending && s.f.pending[l].result == Loading)
  }

  // No lost wakeup: a caller parked on the open channel would only park again, and something
  // whose end closes that channel exists.
  lemma ReachableNoLostWakeup(maximum: nat, active: Bundle, analyzer: int, steps: seq<Step>, c: CallerId, victim: Option<Bundle>, load: LoadId)
    requires maximum >= 2
    ensures var s := Run(Initial(maximum, active, analyzer), steps);
            c in s.callers && s.callers[c].Parked? && s.callers[c].channel >= s.f.changed && VictimAllowed(s.f, victim) ==>
              TryCapture(s.f, s.callers[c].requested, victim, load).0 == NoCapacity(s.callers[c].channel) && Waker(s)
  {
    ReachableInv(maximum, active, analyzer, steps);
    var s := Run(Initial(maximum, active, analyzer), steps);
    if c in s.callers && s.callers[c].Parked? && s.callers[c].channel >= s.f.changed {
      assert ParkedRight(s, c);
      FullHasWaker(s);
    }
  }

  lemma FullHasWaker(s: System)
    requires Inv(s) && !CanReserve(s.f)
    ensures Waker(s)
  {
    if s.f.loads != map[] {
      var b :| b in s.f.loads;
      assert FlightOf(s.f, b);
    } else {
      assert |s.f.loads| == 0;
      assert |s.f.residents.Keys| == |s.f.residents|;
      assert !(s.f.residents.Keys <= {s.f.active}) by {
        if s.f.residents.Keys <= {s.f.active} {
          SubsetSize(s.f.residents.Keys, {s.f.active});
        }
      }
      var b :| b in s.f.residents && b != s.f.active;
      assert !Evictable(s.f, b) && CountedRight(s, b);
      var k :| k in Holders(s.captures, b);
    }
  }

  lemma SubsetSize(a: set<Bundle>, b: set<Bundle>)
    requires a <= b
    ensures |a| <= |b|
  {
    assert b == a + (b - a);
  }

  // The end of any unfinished load and the release of any capture close the open channel.
  lemma EndingsNotify(maximum: nat, active: Bundle, analyzer: int, steps: seq<Step>, k: CaptureId, l: LoadId, result: LoadResult, a: int)
    requires maximum >= 2
    ensures var s := Run(Initial(maximum, active, analyzer), steps);
            && (k in s.captures ==> Next(s, EndCapture(k)).f.changed > s.f.changed)
            && (l in s.f.pending && ResultAllowed(s.f.pending[l], result) ==> Next(s, EndLoad(l, result, a)).f.changed > s.f.changed)
  {
    ReachableInv(maximum, active, analyzer, steps);
    var s := Run(Initial(maximum, active, analyzer), steps);
    if k in s.captures {
      ReleaseNotifies(s, k);
    }
  }

  lemma ReleaseNotifies(s: System, k: CaptureId)
    requires Referenced(s) && k in s.captures
    ensures Next(s, EndCapture(k)).f.changed > s.f.changed
  {
    var b := s.captures[k].bundle;
    assert CaptureHeld(s, k) && CountedRight(s, b) && k in Holders(s.captures, b);
  }
}
