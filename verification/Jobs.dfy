// The job lifecycle store: admission capacity, idempotency, leases, attempt tokens,
// cancellation, recovery and bundle pins. Each method body runs under one mutex, so each is
// one function from stores to stores.
module Jobs {
  import opened Options

  type JobId = string
  type Token = string

  datatype TargetStatus = Queued | Running | Completed | Partial | Failed | Cancelled
  datatype JobStatus = JobQueued | JobRunning | JobCompleted | JobPartial | JobFailed | JobCancelled
  datatype Report = Report(id: string, content: string)
  datatype Target = Target(id: string, status: TargetStatus, attempts: nat, token: Token, leaseOwner: string,
                           leaseExpires: int, nextAttempt: int, reason: string, report: Option<Report>)
  datatype Identity = Identity(operator: string, key: string)
  datatype Job = Job(identity: Identity, payloadHash: string, bundle: string, status: JobStatus,
                     cancelRequested: bool, cancelRequestedBy: string, targets: seq<Target>, pinReleased: bool)

  datatype Store = Store(maximum: int, reservations: int, jobs: map<JobId, Job>, order: seq<JobId>,
                         idempotency: map<Identity, JobId>, pins: map<string, int>)

  // A row of a batch: admitted, or rejected with its validation reason.
  datatype Row = Row(targetId: string, rejection: Option<string>)
  datatype Replay = Replay(targetId: string, reportId: string, bundle: string)
  datatype Request = Request(identity: Identity, payloadHash: string, bundle: string, rows: seq<Row>, replays: seq<Replay>)

  datatype Error = InvalidOptions | IdempotencyConflict | QueueCapacityExceeded | CapabilityUnavailable | JobCancelRequested | InvalidTarget
  datatype Outcome<+T> = Ok(value: T) | Err(error: Error)

  // The zero time, before every clock reading used with `After`.
  const ZERO_TIME: int := 0

  // ------------------------------------------------------------- definitions

  predicate Terminal(s: TargetStatus) { s == Completed || s == Partial || s == Failed || s == Cancelled }

  predicate TerminalJob(s: JobStatus) { s != JobQueued && s != JobRunning }

  function Count(targets: seq<Target>, s: TargetStatus): nat {
    if targets == [] then 0 else Count(targets[..|targets| - 1], s) + if targets[|targets| - 1].status == s then 1 else 0
  }

  function Live(targets: seq<Target>): nat { Count(targets, Queued) + Count(targets, Running) }

  predicate AllTerminal(targets: seq<Target>) { forall i :: 0 <= i < |targets| ==> Terminal(targets[i].status) }

  function Verdict(targets: seq<Target>): JobStatus {
    if Count(targets, Failed) > 0 && Count(targets, Completed) == 0 && Count(targets, Partial) == 0 then JobFailed
    else if Count(targets, Cancelled) == |targets| then JobCancelled
    else if Count(targets, Partial) > 0 || Count(targets, Failed) > 0 || Count(targets, Cancelled) > 0 then JobPartial
    else JobCompleted
  }

  function Pins(s: Store, b: string): int { if b in s.pins then s.pins[b] else 0 }

  // ------------------------------------------------------------- operations

  // finishJob: recompute the verdict of job id and release its pin once.
  function Finish(s: Store, id: JobId): Store
    requires id in s.jobs
  {
    var job := s.jobs[id];
    if !AllTerminal(job.targets) then s.(jobs := s.jobs[id := job.(status := JobRunning)])
    else
      var done := job.(status := Verdict(job.targets));
      if !job.pinReleased && job.bundle != ""
      then s.(jobs := s.jobs[id := done.(pinReleased := true)], pins := s.pins[job.bundle := Pins(s, job.bundle) - 1])
      else s.(jobs := s.jobs[id := done])
  }

  function Admitted(request: Request): nat { |request.replays| + AdmittedRows(request.rows) }

  function AdmittedRows(rows: seq<Row>): nat {
    if rows == [] then 0 else AdmittedRows(rows[..|rows| - 1]) + if rows[|rows| - 1].rejection.None? then 1 else 0
  }

  function RowTarget(row: Row): Target {
    Target(row.targetId, if row.rejection.None? then Queued else Failed, 0, "", "", ZERO_TIME, ZERO_TIME,
           if row.rejection.None? then "" else row.rejection.value, None)
  }

  function NewTargets(request: Request): seq<Target> {
    seq(|request.rows|, i requires 0 <= i < |request.rows| => RowTarget(request.rows[i]))
    + seq(|request.replays|, i requires 0 <= i < |request.replays| => RowTarget(Row(request.replays[i].targetId, None)))
  }

  predicate ReplaysPinned(request: Request) {
    forall i :: 0 <= i < |request.replays| ==>
      request.replays[i].reportId != "" && request.replays[i].bundle != "" && request.replays[i].bundle == request.bundle
  }

  function NewJob(request: Request): Job {
    Job(request.identity, request.payloadHash, request.bundle, if Admitted(request) == 0 then JobFailed else JobQueued,
        false, "", NewTargets(request), false)
  }

  // `id` is a fresh random job ID.
  function Submit(s: Store, request: Request, id: JobId): (Outcome<JobId>, Store) {
    if request.identity.operator == "" || request.identity.key == "" || |request.rows| + |request.replays| == 0 then (Err(InvalidOptions), s)
    else if !ReplaysPinned(request) then (Err(InvalidOptions), s)
    else if request.identity in s.idempotency then
      var existing := s.idempotency[request.identity];
      if existing !in s.jobs || s.jobs[existing].payloadHash != request.payloadHash then (Err(IdempotencyConflict), s)
      else (Ok(existing), s)
    else if s.maximum <= 0 || Admitted(request) > s.maximum - s.reservations then (Err(QueueCapacityExceeded), s)
    else
      (Ok(id), s.(jobs := s.jobs[id := NewJob(request)],
                  order := s.order + [id],
                  idempotency := s.idempotency[request.identity := id],
                  reservations := s.reservations + Admitted(request),
                  pins := if request.bundle != "" && Admitted(request) > 0
                          then s.pins[request.bundle := Pins(s, request.bundle) + 1] else s.pins))
  }

  datatype Place = Place(job: JobId, index: nat)

  predicate At(s: Store, p: Place) { p.job in s.jobs && p.index < |s.jobs[p.job].targets| }

  function TargetAt(s: Store, p: Place): Target
    requires At(s, p)
  {
    s.jobs[p.job].targets[p.index]
  }

  function SetTarget(s: Store, p: Place, t: Target): Store
    requires At(s, p)
  {
    s.(jobs := s.jobs[p.job := s.jobs[p.job].(targets := s.jobs[p.job].targets[p.index := t])])
  }

  predicate Claimable(s: Store, p: Place, now: nat) {
    At(s, p) && !s.jobs[p.job].cancelRequested && TargetAt(s, p).status == Queued && TargetAt(s, p).nextAttempt <= now
  }

  // Claim order: jobs in submission order, targets in input order.
  predicate Before(s: Store, p: Place, q: Place) {
    exists i, j :: 0 <= i <= j < |s.order| && s.order[i] == p.job && s.order[j] == q.job && (i < j || p.index < q.index)
  }

  ghost predicate FirstClaimable(s: Store, p: Place, now: nat) {
    Claimable(s, p, now) && forall q :: Claimable(s, q, now) && q != p ==> !Before(s, q, p)
  }

  function Claim(s: Store, p: Place, token: Token, worker: string, now: nat, lease: int): Store
    requires Claimable(s, p, now)
  {
    var t := TargetAt(s, p);
    var n := SetTarget(s, p, t.(status := Running, attempts := t.attempts + 1, token := token,
                                leaseOwner := worker, leaseExpires := now + lease));
    n.(jobs := n.jobs[p.job := n.jobs[p.job].(status := JobRunning)])
  }

  // findTarget: the first target with that ID.
  ghost predicate Locates(s: Store, id: string, p: Option<Place>) {
    if p.Some? then At(s, p.value) && TargetAt(s, p.value).id == id
    else forall q :: At(s, q) ==> TargetAt(s, q).id != id
  }

  function Renew(s: Store, p: Option<Place>, token: Token, now: nat, lease: int): (Outcome<()>, Store)
    requires p.Some? ==> At(s, p.value)
  {
    if p.None? || TargetAt(s, p.value).status != Running || TargetAt(s, p.value).token != token then (Err(IdempotencyConflict), s)
    else if s.jobs[p.value.job].cancelRequested then (Err(JobCancelRequested), s)
    else (Ok(()), SetTarget(s, p.value, TargetAt(s, p.value).(leaseExpires := now + lease)))
  }

  function Complete(s: Store, p: Option<Place>, token: Token, report: Option<Report>, status: TargetStatus, reason: string): (Outcome<()>, Store)
    requires p.Some? ==> At(s, p.value)
  {
    if !Terminal(status) then (Err(InvalidOptions), s)
    else if p.None? || TargetAt(s, p.value).token != token then (Err(IdempotencyConflict), s)
    else
      var t := TargetAt(s, p.value);
      if t.status != Running then
        if t.status == status && t.reason == reason && t.report == report then (Ok(()), s) else (Err(IdempotencyConflict), s)
      else
        (Ok(()), Finish(SetTarget(s, p.value, CompletedTarget(t, report, status, reason)).(reservations := s.reservations - 1), p.value.job))
  }

  function CompletedTarget(t: Target, report: Option<Report>, status: TargetStatus, reason: string): Target {
    t.(status := status, reason := reason, leaseOwner := "", leaseExpires := ZERO_TIME, report := if report.Some? then report else t.report)
  }

  function CancelTarget(t: Target): Target {
    if t.status == Queued then t.(status := Cancelled, reason := "cancelled before claim") else t
  }

  function CancelTargets(targets: seq<Target>): seq<Target> {
    seq(|targets|, i requires 0 <= i < |targets| => CancelTarget(targets[i]))
  }

  function RequestCancel(s: Store, id: JobId, operator: string): (Outcome<()>, Store) {
    if operator == "" then (Err(InvalidOptions), s)
    else if id !in s.jobs then (Err(InvalidTarget), s)
    else
      var job := s.jobs[id];
      (Ok(()), Finish(s.(jobs := s.jobs[id := job.(cancelRequested := true, cancelRequestedBy := operator, targets := CancelTargets(job.targets))],
                         reservations := s.reservations - Count(job.targets, Queued)), id))
  }

  function RecoverTarget(t: Target, cancelRequested: bool, limit: int, now: nat): Target {
    if t.status != Running || t.leaseExpires > now then t
    else
      var freed := t.(token := "", leaseOwner := "", leaseExpires := ZERO_TIME);
      if cancelRequested then freed.(status := Cancelled, reason := "cancelled after lease expiry")
      else if t.attempts >= limit then freed.(status := Failed, reason := "attempt limit exhausted")
      else freed.(status := Queued, nextAttempt := now)
  }

  function RecoverTargets(job: Job, limit: int, now: nat): seq<Target> {
    seq(|job.targets|, i requires 0 <= i < |job.targets| => RecoverTarget(job.targets[i], job.cancelRequested, limit, now))
  }

  // One iteration of RecoverExpired's outer loop.
  function RecoverJob(s: Store, id: JobId, limit: int, now: nat): Store {
    if id !in s.jobs then s
    else
      var job := s.jobs[id];
      var targets := RecoverTargets(job, limit, now);
      Finish(s.(jobs := s.jobs[id := job.(targets := targets)], reservations := s.reservations - (Live(job.targets) - Live(targets))), id)
  }

  type JobStep = (Store, JobId) -> Store

  function RecoverStep(limit: int, now: nat): JobStep { (s: Store, id: JobId) => RecoverJob(s, id, limit, now) }

  // One step for each listed job, in order.
  function Sweep(s: Store, ids: seq<JobId>, step: JobStep): Store {
    if ids == [] then s else step(Sweep(s, ids[..|ids| - 1], step), ids[|ids| - 1])
  }

  function RecoverAll(s: Store, limit: int, now: nat): Store { Sweep(s, s.order, RecoverStep(limit, now)) }

  // --------------------------------------------------------------- the system

  // A store with the lease tokens issued so far, and the jobs that were submitted under a
  // bundle without a single admitted row and so took no pin.
  datatype System = System(store: Store, issued: set<Token>, unpinned: set<JobId>)

  datatype Step =
    | DoSubmit(request: Request, id: JobId)
    | DoClaim(place: Place, token: Token, worker: string, now: nat, lease: int)
    | DoRenew(located: Option<Place>, targetId: string, token: Token, now: nat, lease: int)
    | DoComplete(located: Option<Place>, targetId: string, token: Token, report: Option<Report>, status: TargetStatus, reason: string)
    | DoCancel(id: JobId, operator: string)
    | DoRecover(now: nat)

  // Random job IDs and tokens never repeat; a recovery uses the one configured attempt limit.
  ghost predicate Enabled(s: System, step: Step) {
    match step
    case DoSubmit(_, id) => id !in s.store.jobs
    case DoClaim(p, token, _, now, lease) => FirstClaimable(s.store, p, now) && token !in s.issued && token != "" && lease > 0
    case DoRenew(p, id, _, _, _) => Locates(s.store, id, p)
    case DoComplete(p, id, _, _, _, _) => Locates(s.store, id, p)
    case DoCancel(_, _) => true
    case DoRecover(_) => true
  }

  ghost function Next(s: System, step: Step, limit: int): System {
    if !Enabled(s, step) then s
    else match step {
      case DoSubmit(request, id) =>
        var (outcome, store) := Submit(s.store, request, id);
        System(store, s.issued, if store != s.store && request.bundle != "" && Admitted(request) == 0 then s.unpinned + {id} else s.unpinned)
      case DoClaim(p, token, worker, now, lease) => System(Claim(s.store, p, token, worker, now, lease), s.issued + {token}, s.unpinned)
      case DoRenew(p, _, token, now, lease) => s.(store := Renew(s.store, p, token, now, lease).1)
      case DoComplete(p, _, token, report, status, reason) => s.(store := Complete(s.store, p, token, report, status, reason).1)
      case DoCancel(id, operator) => s.(store := RequestCancel(s.store, id, operator).1)
      case DoRecover(now) => s.(store := RecoverAll(s.store, limit, now))
    }
  }

  ghost function Run(s: System, steps: seq<Step>, limit: int): System
    decreases |steps|
  {
    if steps == [] then s else Run(Next(s, steps[0], limit), steps[1..], limit)
  }

  function Initial(maximum: int): System {
    System(Store(maximum, 0, map[], [], map[], map[]), {}, {})
  }

  // --------------------------------------------------------------- invariant

  type Weight = (JobId, Job) -> int

  // The total weight of the jobs in submission order.
  function Sum(jobs: map<JobId, Job>, order: seq<JobId>, w: Weight): int {
    if order == [] then 0
    else
      var id := order[|order| - 1];
      Sum(jobs, order[..|order| - 1], w) + if id in jobs then w(id, jobs[id]) else 0
  }

  function LiveWeight(): Weight { (id: JobId, job: Job) => Live(job.targets) }

  // Non-terminal jobs of a bundle.
  function OpenOf(b: string, job: Job): int { if job.bundle == b && !AllTerminal(job.targets) then 1 else 0 }

  function OpenWeight(b: string): Weight { (id: JobId, job: Job) => OpenOf(b, job) }

  // The pin a job accounts for: one while open, and minus one once a job that never took a
  // pin has released one.
  function PinOf(b: string, unpinned: set<JobId>, id: JobId, job: Job): int {
    OpenOf(b, job) - if job.bundle == b && id in unpinned && job.pinReleased then 1 else 0
  }

  function PinWeight(b: string, unpinned: set<JobId>): Weight { (id: JobId, job: Job) => PinOf(b, unpinned, id, job) }

  ghost predicate Distinct(order: seq<JobId>) { forall id :: multiset(order)[id] <= 1 }

  predicate TargetOk(t: Target, issued: set<Token>, limit: int) {
    && (t.status == Running ==> t.token in issued && t.token != "")
    && (t.status == Queued ==> t.attempts < limit)
    && (t.report.Some? ==> Terminal(t.status))
    && t.attempts <= limit
  }

  predicate TargetsOk(targets: seq<Target>, issued: set<Token>, limit: int) {
    forall i :: 0 <= i < |targets| ==> TargetOk(targets[i], issued, limit)
  }

  // A job is terminal exactly when its targets are, with their verdict, and it has released
  // its pin exactly when it is terminal, unless it never took one.
  predicate JobOk(s: System, id: JobId, limit: int) {
    id in s.store.jobs ==>
      var job := s.store.jobs[id];
      && |job.targets| > 0
      && TargetsOk(job.targets, s.issued, limit)
      && (TerminalJob(job.status) <==> AllTerminal(job.targets))
      && (AllTerminal(job.targets) ==> job.status == Verdict(job.targets))
      && (job.pinReleased ==> AllTerminal(job.targets) && job.bundle != "")
      && (AllTerminal(job.targets) && job.bundle != "" && id !in s.unpinned ==> job.pinReleased)
      && (id in s.unpinned ==> AllTerminal(job.targets))
      && job.identity in s.store.idempotency && s.store.idempotency[job.identity] == id
  }

  ghost predicate Ordered(s: Store) {
    && Distinct(s.order)
    && (forall id :: Listed(s, id))
    && (forall k :: Keyed(s, k))
  }

  predicate Listed(s: Store, id: JobId) { id in s.jobs <==> id in s.order }

  predicate Keyed(s: Store, k: Identity) {
    k in s.idempotency ==> s.idempotency[k] in s.jobs && s.jobs[s.idempotency[k]].identity == k
  }

  ghost predicate Counted(s: Store) {
    && s.reservations == Sum(s.jobs, s.order, LiveWeight())
    && (s.reservations <= s.maximum || s.reservations == 0)
  }

  ghost predicate PinsRight(s: System) {
    forall b :: PinRight(s, b)
  }

  predicate PinRight(s: System, b: string) {
    b != "" ==> Pins(s.store, b) == Sum(s.store.jobs, s.store.order, PinWeight(b, s.unpinned))
  }

  ghost predicate Inv(s: System, limit: int) {
    && Ordered(s.store) && Counted(s.store) && PinsRight(s)
    && s.unpinned <= s.store.jobs.Keys
    && forall id :: JobOk(s, id, limit)
  }

  // ------------------------------------------------------------------- sums

  lemma {:induction false} SumFrame(jobs: map<JobId, Job>, order: seq<JobId>, w: Weight, id: JobId, job: Job)
    requires id !in order
    ensures Sum(jobs[id := job], order, w) == Sum(jobs, order, w)
  {
    if order != [] {
      SumFrame(jobs, order[..|order| - 1], w, id, job);
    }
  }

  lemma {:induction false} SumUpdate(jobs: map<JobId, Job>, order: seq<JobId>, w: Weight, id: JobId, job: Job)
    requires Distinct(order) && id in order && id in jobs
    ensures Sum(jobs[id := job], order, w) == Sum(jobs, order, w) - w(id, jobs[id]) + w(id, job)
  {
    var front := order[..|order| - 1];
    assert order == front + [order[|order| - 1]];
    assert multiset(front) <= multiset(order);
    if order[|order| - 1] == id {
      assert multiset(order)[id] <= 1;
      SumFrame(jobs, front, w, id, job);
    } else {
      assert id in front;
      SumUpdate(jobs, front, w, id, job);
    }
  }

  // Two weights compared job by job.
  lemma {:induction false} SumCompare(jobs: map<JobId, Job>, order: seq<JobId>, w: Weight, v: Weight)
    requires forall id :: id in jobs ==> w(id, jobs[id]) <= v(id, jobs[id])
    ensures Sum(jobs, order, w) <= Sum(jobs, order, v)
    ensures Sum(jobs, order, w) == Sum(jobs, order, v) <==>
              forall i :: 0 <= i < |order| && order[i] in jobs ==> w(order[i], jobs[order[i]]) == v(order[i], jobs[order[i]])
  {
    if order != [] {
      var front := order[..|order| - 1];
      SumCompare(jobs, front, w, v);
      assert forall i :: 0 <= i < |front| ==> front[i] == order[i];
    }
  }

  lemma {:induction false} SumNonNegative(jobs: map<JobId, Job>, order: seq<JobId>, w: Weight)
    requires forall id :: id in jobs ==> w(id, jobs[id]) >= 0
    ensures Sum(jobs, order, w) >= 0
  {
    if order != [] {
      SumNonNegative(jobs, order[..|order| - 1], w);
    }
  }

  // ----------------------------------------------------------------- counting

  lemma {:induction false} CountUpdate(targets: seq<Target>, i: nat, t: Target, s: TargetStatus)
    requires i < |targets|
    ensures Count(targets[i := t], s) == Count(targets, s) - (if targets[i].status == s then 1 else 0) + (if t.status == s then 1 else 0)
  {
    var last := |targets| - 1;
    if i == last {
      assert targets[i := t][..last] == targets[..last];
    } else {
      assert targets[i := t][..last] == targets[..last][i := t];
      CountUpdate(targets[..last], i, t, s);
    }
  }

  lemma {:induction false} CountMeaning(targets: seq<Target>, s: TargetStatus)
    ensures Count(targets, s) <= |targets|
    ensures Count(targets, s) == 0 <==> forall i :: 0 <= i < |targets| ==> targets[i].status != s
    ensures Count(targets, s) == |targets| <==> forall i :: 0 <= i < |targets| ==> targets[i].status == s
  {
    if targets != [] {
      var front := targets[..|targets| - 1];
      CountMeaning(front, s);
      assert forall i :: 0 <= i < |front| ==> front[i] == targets[i];
    }
  }

  lemma LiveZero(targets: seq<Target>)
    ensures Live(targets) == 0 <==> AllTerminal(targets)
  {
    CountMeaning(targets, Queued);
    CountMeaning(targets, Running);
  }

  // What the verdict of a terminal job says, without counting.
  lemma VerdictMeaning(targets: seq<Target>)
    requires |targets| > 0 && AllTerminal(targets)
    ensures Verdict(targets) == JobCompleted <==> forall i :: 0 <= i < |targets| ==> targets[i].status == Completed
    ensures Verdict(targets) == JobCancelled <==> forall i :: 0 <= i < |targets| ==> targets[i].status == Cancelled
    ensures Verdict(targets) == JobFailed <==>
              (exists i :: 0 <= i < |targets| && targets[i].status == Failed)
              && (forall i :: 0 <= i < |targets| ==> targets[i].status != Completed && targets[i].status != Partial)
    ensures TerminalJob(Verdict(targets))
  {
    CountMeaning(targets, Completed);
    CountMeaning(targets, Partial);
    CountMeaning(targets, Failed);
    CountMeaning(targets, Cancelled);
  }

  // -------------------------------------------------------------- preservation

  // The job that Finish stores in place of `job`, and whether it releases a pin.
  function Finished(job: Job): Job {
    if !AllTerminal(job.targets) then job.(status := JobRunning)
    else job.(status := Verdict(job.targets), pinReleased := job.pinReleased || job.bundle != "")
  }

  predicate Releases(job: Job) { AllTerminal(job.targets) && !job.pinReleased && job.bundle != "" }

  lemma FinishShape(s: Store, id: JobId)
    requires id in s.jobs
    ensures var n := Finish(s, id);
            && n == s.(jobs := s.jobs[id := Finished(s.jobs[id])], pins := n.pins)
            && forall b :: Pins(n, b) == Pins(s, b) - if Releases(s.jobs[id]) && s.jobs[id].bundle == b then 1 else 0
  {
  }

  // A job replacement that may move targets on but keeps what identifies the job.
  predicate Advances(old_: Job, job: Job) {
    && job.identity == old_.identity && job.bundle == old_.bundle && job.pinReleased == old_.pinReleased
    && job.payloadHash == old_.payloadHash && |job.targets| == |old_.targets|
    && (AllTerminal(old_.targets) ==> AllTerminal(job.targets))
    && Live(job.targets) <= Live(old_.targets)
  }

  // The store with job id replaced and the reservations its targets gave up returned.
  function Replaced(s: Store, id: JobId, job: Job): Store
    requires id in s.jobs
  {
    s.(jobs := s.jobs[id := job], reservations := s.reservations - (Live(s.jobs[id].targets) - Live(job.targets)))
  }

  lemma FinishKeeps(s: System, id: JobId, job: Job, limit: int)
    requires Inv(s, limit) && id in s.store.jobs && Advances(s.store.jobs[id], job) && TargetsOk(job.targets, s.issued, limit)
    ensures Inv(s.(store := Finish(Replaced(s.store, id, job), id)), limit)
  {
    var mid := Replaced(s.store, id, job);
    FinishShape(mid, id);
    var n := s.(store := Finish(mid, id));
    assert mid.jobs[id := Finished(job)] == s.store.jobs[id := Finished(job)];
    ReplaceCounted(s, id, Finished(job), limit);
    FinishPins(s, n, id, job, limit);
    FinishJobs(s, n, id, job, limit);
    OrderedFrom(Replaced(s.store, id, Finished(job)), n.store);
  }

  lemma OrderedFrom(s: Store, n: Store)
    requires Ordered(s) && n.jobs == s.jobs && n.order == s.order && n.idempotency == s.idempotency
    ensures Ordered(n)
  {
    forall j ensures Listed(n, j) { assert Listed(s, j); }
    forall k ensures Keyed(n, k) { assert Keyed(s, k); }
  }

  lemma FinishJobs(s: System, n: System, id: JobId, job: Job, limit: int)
    requires id in s.store.jobs && Advances(s.store.jobs[id], job) && TargetsOk(job.targets, s.issued, limit)
    requires forall j :: JobOk(s, j, limit)
    requires n.issued == s.issued && n.unpinned == s.unpinned && n.store.idempotency == s.store.idempotency
    requires n.store.jobs == s.store.jobs[id := Finished(job)]
    ensures forall j :: JobOk(n, j, limit)
  {
    assert JobOk(s, id, limit);
    forall j ensures JobOk(n, j, limit) {
      assert JobOk(s, j, limit);
    }
  }

  lemma ReplaceCounted(s: System, id: JobId, job: Job, limit: int)
    requires Inv(s, limit) && id in s.store.jobs && Live(job.targets) <= Live(s.store.jobs[id].targets) && job.identity == s.store.jobs[id].identity
    ensures Counted(Replaced(s.store, id, job)) && Ordered(Replaced(s.store, id, job))
  {
    assert Listed(s.store, id);
    SumUpdate(s.store.jobs, s.store.order, LiveWeight(), id, job);
    SumNonNegative(s.store.jobs[id := job], s.store.order, LiveWeight());
    var n := Replaced(s.store, id, job);
    forall j ensures Listed(n, j) { assert Listed(s.store, j); }
    forall k ensures Keyed(n, k) { assert Keyed(s.store, k); }
  }

  lemma FinishPins(s: System, n: System, id: JobId, job: Job, limit: int)
    requires Inv(s, limit) && id in s.store.jobs && Advances(s.store.jobs[id], job)
    requires n.unpinned == s.unpinned && n.store.order == s.store.order && n.store.jobs == s.store.jobs[id := Finished(job)]
    requires forall b :: Pins(n.store, b) == Pins(s.store, b) - if Releases(job) && job.bundle == b then 1 else 0
    ensures PinsRight(n)
  {
    forall b ensures PinRight(n, b) {
      assert PinRight(s, b) && JobOk(s, id, limit) && Listed(s.store, id);
      SumUpdate(s.store.jobs, s.store.order, PinWeight(b, s.unpinned), id, Finished(job));
    }
  }

  // A replacement that touches only leases and the running marks of an open job.
  lemma ReplaceKeeps(s: System, issued: set<Token>, id: JobId, job: Job, limit: int)
    requires Inv(s, limit) && id in s.store.jobs && s.issued <= issued
    requires var o := s.store.jobs[id];
             && Advances(o, job) && Live(job.targets) == Live(o.targets) && !AllTerminal(job.targets) && !AllTerminal(o.targets)
             && !TerminalJob(job.status) && TargetsOk(job.targets, issued, limit)
    ensures Inv(System(s.store.(jobs := s.store.jobs[id := job]), issued, s.unpinned), limit)
  {
    var n := System(s.store.(jobs := s.store.jobs[id := job]), issued, s.unpinned);
    assert n.store == s.store.(jobs := s.store.jobs[id := job], reservations := s.store.reservations);
    ReplaceCounted(s, id, job, limit);
    forall b ensures PinRight(n, b) {
      assert PinRight(s, b) && JobOk(s, id, limit) && Listed(s.store, id);
      SumUpdate(s.store.jobs, s.store.order, PinWeight(b, s.unpinned), id, job);
    }
    forall j ensures JobOk(n, j, limit) {
      assert JobOk(s, j, limit);
    }
  }

  lemma ClaimKeeps(s: System, p: Place, token: Token, worker: string, now: nat, lease: int, limit: int)
    requires Inv(s, limit) && Claimable(s.store, p, now) && token != ""
    ensures Inv(System(Claim(s.store, p, token, worker, now, lease), s.issued + {token}, s.unpinned), limit)
  {
    assert JobOk(s, p.job, limit);
    var job := Claimed(s.store.jobs[p.job], p.index, token, worker, now + lease);
    ClaimedOk(s.store.jobs[p.job], p.index, token, worker, now + lease, s.issued, limit);
    ReplaceKeeps(s, s.issued + {token}, p.job, job, limit);
    assert Claim(s.store, p, token, worker, now, lease) == s.store.(jobs := s.store.jobs[p.job := job]);
  }

  // The job with one target claimed.
  function Claimed(job: Job, i: nat, token: Token, worker: string, expires: int): Job
    requires i < |job.targets|
  {
    var t := job.targets[i];
    job.(targets := job.targets[i := t.(status := Running, attempts := t.attempts + 1, token := token, leaseOwner := worker, leaseExpires := expires)],
         status := JobRunning)
  }

  lemma ClaimedOk(job: Job, i: nat, token: Token, worker: string, expires: int, issued: set<Token>, limit: int)
    requires i < |job.targets| && job.targets[i].status == Queued && TargetsOk(job.targets, issued, limit) && token != ""
    ensures var n := Claimed(job, i, token, worker, expires);
            && TargetsOk(n.targets, issued + {token}, limit) && Live(n.targets) == Live(job.targets)
            && !AllTerminal(job.targets) && !AllTerminal(n.targets)
  {
    var n := Claimed(job, i, token, worker, expires);
    CountUpdate(job.targets, i, n.targets[i], Queued);
    CountUpdate(job.targets, i, n.targets[i], Running);
    assert !Terminal(job.targets[i].status) && !Terminal(n.targets[i].status);
  }

  lemma RenewKeeps(s: System, p: Option<Place>, token: Token, now: nat, lease: int, limit: int)
    requires Inv(s, limit) && (p.Some? ==> At(s.store, p.value))
    ensures Inv(s.(store := Renew(s.store, p, token, now, lease).1), limit)
  {
    if Renew(s.store, p, token, now, lease).0.Ok? {
      var job := s.store.jobs[p.value.job];
      var t' := TargetAt(s.store, p.value).(leaseExpires := now + lease);
      var job' := job.(targets := job.targets[p.value.index := t']);
      assert JobOk(s, p.value.job, limit);
      CountUpdate(job.targets, p.value.index, t', Queued);
      CountUpdate(job.targets, p.value.index, t', Running);
      assert !Terminal(job.targets[p.value.index].status) && !Terminal(job'.targets[p.value.index].status);
      ReplaceKeeps(s, s.issued, p.value.job, job', limit);
    }
  }

  lemma CompleteKeeps(s: System, p: Option<Place>, token: Token, report: Option<Report>, status: TargetStatus, reason: string, limit: int)
    requires Inv(s, limit) && (p.Some? ==> At(s.store, p.value))
    ensures Inv(s.(store := Complete(s.store, p, token, report, status, reason).1), limit)
  {
    if Terminal(status) && p.Some? && TargetAt(s.store, p.value).token == token && TargetAt(s.store, p.value).status == Running {
      CompleteRunningKeeps(s, p.value, CompletedTarget(TargetAt(s.store, p.value), report, status, reason), limit);
    }
  }

  lemma CompleteRunningKeeps(s: System, p: Place, done: Target, limit: int)
    requires Inv(s, limit) && At(s.store, p) && TargetAt(s.store, p).status == Running
    requires Terminal(done.status) && done.attempts == TargetAt(s.store, p).attempts
    ensures Inv(s.(store := Finish(SetTarget(s.store, p, done).(reservations := s.store.reservations - 1), p.job)), limit)
  {
    var job := s.store.jobs[p.job];
    assert JobOk(s, p.job, limit);
    CompleteAdvances(job, p.index, done, s.issued, limit);
    FinishKeeps(s, p.job, job.(targets := job.targets[p.index := done]), limit);
    CompleteShape(s.store, p, done);
  }

  lemma CompleteShape(s: Store, p: Place, done: Target)
    requires At(s, p) && Live(s.jobs[p.job].targets[p.index := done]) == Live(s.jobs[p.job].targets) - 1
    ensures SetTarget(s, p, done).(reservations := s.reservations - 1)
         == Replaced(s, p.job, s.jobs[p.job].(targets := s.jobs[p.job].targets[p.index := done]))
  {
  }

  lemma CompleteAdvances(job: Job, i: nat, done: Target, issued: set<Token>, limit: int)
    requires i < |job.targets| && job.targets[i].status == Running && Terminal(done.status) && done.attempts == job.targets[i].attempts
    requires TargetsOk(job.targets, issued, limit)
    ensures var n := job.(targets := job.targets[i := done]);
            Advances(job, n) && TargetsOk(n.targets, issued, limit) && Live(n.targets) == Live(job.targets) - 1
  {
    CountUpdate(job.targets, i, done, Queued);
    CountUpdate(job.targets, i, done, Running);
    assert !Terminal(job.targets[i].status);
  }

  lemma {:induction false} CancelCounts(targets: seq<Target>)
    ensures Live(CancelTargets(targets)) == Live(targets) - Count(targets, Queued)
  {
    if targets != [] {
      var last := |targets| - 1;
      assert CancelTargets(targets)[..last] == CancelTargets(targets[..last]);
      CancelCounts(targets[..last]);
    }
  }

  lemma CancelAdvances(job: Job, operator: string, issued: set<Token>, limit: int)
    requires TargetsOk(job.targets, issued, limit)
    ensures var n := job.(cancelRequested := true, cancelRequestedBy := operator, targets := CancelTargets(job.targets));
            Advances(job, n) && TargetsOk(n.targets, issued, limit) && Live(n.targets) == Live(job.targets) - Count(job.targets, Queued)
  {
    CancelCounts(job.targets);
  }

  lemma CancelShape(s: Store, id: JobId, operator: string)
    requires operator != "" && id in s.jobs
    ensures var job := s.jobs[id];
            RequestCancel(s, id, operator).1
            == Finish(Replaced(s, id, job.(cancelRequested := true, cancelRequestedBy := operator, targets := CancelTargets(job.targets))), id)
  {
    CancelCounts(s.jobs[id].targets);
  }

  lemma CancelKeeps(s: System, id: JobId, operator: string, limit: int)
    requires Inv(s, limit)
    ensures Inv(s.(store := RequestCancel(s.store, id, operator).1), limit)
  {
    if operator != "" && id in s.store.jobs {
      var job := s.store.jobs[id];
      assert JobOk(s, id, limit);
      CancelAdvances(job, operator, s.issued, limit);
      CancelShape(s.store, id, operator);
      FinishKeeps(s, id, job.(cancelRequested := true, cancelRequestedBy := operator, targets := CancelTargets(job.targets)), limit);
    }
  }

  lemma {:induction false} RecoverCounts(targets: seq<Target>, recovered: seq<Target>, cancelRequested: bool, limit: int, now: nat)
    requires |recovered| == |targets|
    requires forall i :: 0 <= i < |targets| ==> recovered[i] == RecoverTarget(targets[i], cancelRequested, limit, now)
    ensures Live(recovered) <= Live(targets)
  {
    if targets != [] {
      var last := |targets| - 1;
      RecoverCounts(targets[..last], recovered[..last], cancelRequested, limit, now);
    }
  }

  lemma RecoverAdvances(job: Job, limit: int, now: nat, issued: set<Token>)
    requires TargetsOk(job.targets, issued, limit)
    ensures var n := job.(targets := RecoverTargets(job, limit, now)); Advances(job, n) && TargetsOk(n.targets, issued, limit)
  {
    RecoverCounts(job.targets, RecoverTargets(job, limit, now), job.cancelRequested, limit, now);
  }

  lemma RecoverJobKeeps(s: System, id: JobId, limit: int, now: nat)
    requires Inv(s, limit)
    ensures Inv(s.(store := RecoverJob(s.store, id, limit, now)), limit)
  {
    if id in s.store.jobs {
      RecoverKnownKeeps(s, id, limit, now);
    } else {
      assert s.(store := s.store) == s;
    }
  }

  lemma RecoverKnownKeeps(s: System, id: JobId, limit: int, now: nat)
    requires Inv(s, limit) && id in s.store.jobs
    ensures Inv(s.(store := RecoverJob(s.store, id, limit, now)), limit)
  {
    var job := s.store.jobs[id];
    assert JobOk(s, id, limit);
    RecoverAdvances(job, limit, now, s.issued);
    FinishKeeps(s, id, job.(targets := RecoverTargets(job, limit, now)), limit);
    RecoverShape(s.store, id, limit, now);
  }

  lemma RecoverShape(s: Store, id: JobId, limit: int, now: nat)
    requires id in s.jobs
    ensures RecoverJob(s, id, limit, now) == Finish(Replaced(s, id, s.jobs[id].(targets := RecoverTargets(s.jobs[id], limit, now))), id)
  {
  }

  lemma {:induction false} SweepKeeps(s: System, ids: seq<JobId>, step: JobStep, limit: int)
    requires Inv(s, limit)
    requires forall st, id :: Inv(s.(store := st), limit) ==> Inv(s.(store := step(st, id)), limit)
    ensures Inv(s.(store := Sweep(s.store, ids, step)), limit)
  {
    if ids == [] {
      assert s.(store := s.store) == s;
    } else {
      SweepKeeps(s, ids[..|ids| - 1], step, limit);
    }
  }

  lemma RecoverKeeps(s: System, limit: int, now: nat)
    requires Inv(s, limit)
    ensures Inv(s.(store := RecoverAll(s.store, limit, now)), limit)
  {
    forall st, id | Inv(s.(store := st), limit) ensures Inv(s.(store := RecoverStep(limit, now)(st, id)), limit) {
      RecoverJobKeeps(s.(store := st), id, limit, now);
    }
    SweepKeeps(s, s.store.order, RecoverStep(limit, now), limit);
  }

  lemma {:induction false} RowsCount(targets: seq<Target>, rows: seq<Row>)
    requires |targets| == |rows| && forall i :: 0 <= i < |rows| ==> targets[i] == RowTarget(rows[i])
    ensures Count(targets, Queued) == AdmittedRows(rows) && Count(targets, Running) == 0
  {
    if rows != [] {
      RowsCount(targets[..|rows| - 1], rows[..|rows| - 1]);
    }
  }

  lemma {:induction false} CountAppend(a: seq<Target>, b: seq<Target>, s: TargetStatus)
    ensures Count(a + b, s) == Count(a, s) + Count(b, s)
  {
    if b == [] {
      assert a + b == a;
    } else {
      assert (a + b)[..|a + b| - 1] == a + b[..|b| - 1];
      CountAppend(a, b[..|b| - 1], s);
    }
  }

  lemma {:induction false} AllAdmitted(rows: seq<Row>)
    requires forall i :: 0 <= i < |rows| ==> rows[i].rejection.None?
    ensures AdmittedRows(rows) == |rows|
  {
    if rows != [] {
      AllAdmitted(rows[..|rows| - 1]);
    }
  }

  // A new job has one live target per admitted row and per replay.
  lemma NewTargetsLive(request: Request)
    ensures Live(NewTargets(request)) == Admitted(request)
  {
    var a := seq(|request.rows|, i requires 0 <= i < |request.rows| => RowTarget(request.rows[i]));
    var replayRows := seq(|request.replays|, i requires 0 <= i < |request.replays| => Row(request.replays[i].targetId, None));
    var b := seq(|request.replays|, i requires 0 <= i < |request.replays| => RowTarget(Row(request.replays[i].targetId, None)));
    RowsCount(a, request.rows);
    RowsCount(b, replayRows);
    AllAdmitted(replayRows);
    CountAppend(a, b, Queued);
    CountAppend(a, b, Running);
  }

  lemma SumAppend(jobs: map<JobId, Job>, order: seq<JobId>, w: Weight, id: JobId, job: Job)
    requires id !in order
    ensures Sum(jobs[id := job], order + [id], w) == Sum(jobs, order, w) + w(id, job)
  {
    SumFrame(jobs, order, w, id, job);
    assert (order + [id])[..|order|] == order;
  }

  lemma SubmitPins(s: System, n: System, request: Request, id: JobId, limit: int)
    requires Inv(s, limit) && id !in s.store.jobs
    requires n.store.jobs == s.store.jobs[id := NewJob(request)] && n.store.order == s.store.order + [id]
    requires n.unpinned == if request.bundle != "" && Admitted(request) == 0 then s.unpinned + {id} else s.unpinned
    requires forall b :: b != "" ==> Pins(n.store, b) == Pins(s.store, b) + if b == request.bundle && Admitted(request) > 0 then 1 else 0
    ensures PinsRight(n)
  {
    NewTargetsLive(request);
    LiveZero(NewTargets(request));
    assert Listed(s.store, id);
    forall b ensures PinRight(n, b) {
      assert PinRight(s, b);
      SumAppend(s.store.jobs, s.store.order, PinWeight(b, n.unpinned), id, NewJob(request));
      forall j | j in s.store.jobs ensures PinWeight(b, n.unpinned)(j, s.store.jobs[j]) == PinWeight(b, s.unpinned)(j, s.store.jobs[j]) {
        assert j != id;
      }
      SumCompare(s.store.jobs, s.store.order, PinWeight(b, n.unpinned), PinWeight(b, s.unpinned));
    }
  }

  lemma SubmitOrdered(s: System, n: System, request: Request, id: JobId, limit: int)
    requires Inv(s, limit) && id !in s.store.jobs && request.identity !in s.store.idempotency
    requires n.store.jobs == s.store.jobs[id := NewJob(request)] && n.store.order == s.store.order + [id]
    requires n.store.idempotency == s.store.idempotency[request.identity := id]
    ensures Ordered(n.store)
  {
    forall j ensures Listed(n.store, j) { assert Listed(s.store, j); }
    forall k ensures Keyed(n.store, k) { assert Keyed(s.store, k); }
    assert Listed(s.store, id);
    forall j ensures multiset(n.store.order)[j] <= 1 { assert multiset(s.store.order)[j] <= 1; }
  }

  lemma SubmitJobs(s: System, n: System, request: Request, id: JobId, limit: int)
    requires Inv(s, limit) && limit >= 1 && id !in s.store.jobs && request.identity !in s.store.idempotency
    requires |request.rows| + |request.replays| > 0
    requires n.store.jobs == s.store.jobs[id := NewJob(request)] && n.issued == s.issued
    requires n.store.idempotency == s.store.idempotency[request.identity := id]
    requires n.unpinned == if request.bundle != "" && Admitted(request) == 0 then s.unpinned + {id} else s.unpinned
    ensures forall j :: JobOk(n, j, limit)
  {
    var targets := NewTargets(request);
    NewTargetsLive(request);
    LiveZero(targets);
    if Admitted(request) == 0 {
      NewVerdict(request);
    }
    forall j ensures JobOk(n, j, limit) {
      assert JobOk(s, j, limit);
    }
  }

  // A batch without an admitted row is all failed, which is its verdict.
  lemma NewVerdict(request: Request)
    requires Admitted(request) == 0 && |request.rows| + |request.replays| > 0
    ensures Verdict(NewTargets(request)) == JobFailed
  {
    var targets := NewTargets(request);
    NewTargetsLive(request);
    LiveZero(targets);
    assert forall i :: 0 <= i < |targets| ==> targets[i].status == Failed;
    CountMeaning(targets, Failed);
    CountMeaning(targets, Completed);
    CountMeaning(targets, Partial);
  }

  lemma SubmitKeeps(s: System, request: Request, id: JobId, limit: int)
    requires Inv(s, limit) && limit >= 1 && id !in s.store.jobs
    ensures Inv(Next(s, DoSubmit(request, id), limit), limit)
  {
    var n := Next(s, DoSubmit(request, id), limit);
    if n.store != s.store {
      SubmitPins(s, n, request, id, limit);
      SubmitOrdered(s, n, request, id, limit);
      SubmitJobs(s, n, request, id, limit);
      NewTargetsLive(request);
      assert Listed(s.store, id);
      SumAppend(s.store.jobs, s.store.order, LiveWeight(), id, NewJob(request));
    } else {
      assert n == s;
    }
  }

  lemma NextKeeps(s: System, step: Step, limit: int)
    requires Inv(s, limit) && limit >= 1
    ensures Inv(Next(s, step, limit), limit)
  {
    if Enabled(s, step) {
      match step
      case DoSubmit(request, id) => SubmitKeeps(s, request, id, limit);
      case DoClaim(p, token, worker, now, lease) => ClaimKeeps(s, p, token, worker, now, lease, limit);
      case DoRenew(p, _, token, now, lease) => RenewKeeps(s, p, token, now, lease, limit);
      case DoComplete(p, _, token, report, status, reason) => CompleteKeeps(s, p, token, report, status, reason, limit);
      case DoCancel(id, operator) => CancelKeeps(s, id, operator, limit);
      case DoRecover(now) => RecoverKeeps(s, limit, now);
    }
  }

  lemma {:induction false} RunKeeps(s: System, steps: seq<Step>, limit: int)
    requires Inv(s, limit) && limit >= 1
    ensures Inv(Run(s, steps, limit), limit)
    decreases |steps|
  {
    if steps != [] {
      NextKeeps(s, steps[0], limit);
      RunKeeps(Next(s, steps[0], limit), steps[1..], limit);
    }
  }

  // ------------------------------------------------------- how targets evolve

  // What a step may do to the target at one place: a terminal target is frozen, and a lease
  // is either carried over or brand new.
  ghost predicate Evolves(s: System, n: System, p: Place) {
    && (At(s.store, p) ==>
          && At(n.store, p)
          && TargetAt(n.store, p).id == TargetAt(s.store, p).id
          && (Terminal(TargetAt(s.store, p).status) ==> TargetAt(n.store, p) == TargetAt(s.store, p)))
    && (At(n.store, p) && TargetAt(n.store, p).status == Running ==>
          || TargetAt(n.store, p).token !in s.issued
          || Holds(s, p, TargetAt(n.store, p).token))
    && s.issued <= n.issued
    && (At(s.store, p) ==>
          && |n.store.jobs[p.job].targets| == |s.store.jobs[p.job].targets|
          && n.store.jobs[p.job].identity == s.store.jobs[p.job].identity
          && n.store.jobs[p.job].payloadHash == s.store.jobs[p.job].payloadHash)
  }

  // The target at p is running under this token.
  predicate Holds(s: System, p: Place, token: Token) {
    At(s.store, p) && TargetAt(s.store, p).status == Running && TargetAt(s.store, p).token == token
  }

  // A store change confined to one job's targets.
  lemma JobEvolves(s: System, n: System, id: JobId, job: Job, p: Place)
    requires id in s.store.jobs && n.store.jobs == s.store.jobs[id := job] && |job.targets| == |s.store.jobs[id].targets|
    requires job.identity == s.store.jobs[id].identity && job.payloadHash == s.store.jobs[id].payloadHash
    requires s.issued <= n.issued
    requires p.job == id && p.index < |job.targets| ==>
               var t, u := s.store.jobs[id].targets[p.index], job.targets[p.index];
               && u.id == t.id
               && (Terminal(t.status) ==> u == t)
               && (u.status == Running ==> u.token !in s.issued || (t.status == Running && t.token == u.token))
    ensures Evolves(s, n, p)
  {
  }

  lemma {:induction false} SweepEvolves(s: System, ids: seq<JobId>, step: JobStep, p: Place)
    requires forall st, id :: Evolves(s.(store := st), s.(store := step(st, id)), p)
    ensures Evolves(s, s.(store := Sweep(s.store, ids, step)), p)
  {
    if ids != [] {
      SweepEvolves(s, ids[..|ids| - 1], step, p);
      var m := Sweep(s.store, ids[..|ids| - 1], step);
      assert Evolves(s.(store := m), s.(store := step(m, ids[|ids| - 1])), p);
    }
  }

  lemma RecoverEvolves(s: System, limit: int, now: nat, p: Place)
    ensures Evolves(s, s.(store := RecoverAll(s.store, limit, now)), p)
  {
    forall st, id ensures Evolves(s.(store := st), s.(store := RecoverStep(limit, now)(st, id)), p) {
      RecoverJobEvolves(s.(store := st), id, limit, now, p);
    }
    SweepEvolves(s, s.store.order, RecoverStep(limit, now), p);
  }

  lemma RecoverJobEvolves(s: System, id: JobId, limit: int, now: nat, p: Place)
    ensures Evolves(s, s.(store := RecoverJob(s.store, id, limit, now)), p)
  {
    if id in s.store.jobs {
      RecoverKnownEvolves(s, id, limit, now, p);
    }
  }

  lemma RecoverKnownEvolves(s: System, id: JobId, limit: int, now: nat, p: Place)
    requires id in s.store.jobs
    ensures Evolves(s, s.(store := RecoverJob(s.store, id, limit, now)), p)
  {
    var job := s.store.jobs[id].(targets := RecoverTargets(s.store.jobs[id], limit, now));
    FinishShape(Replaced(s.store, id, job), id);
    JobEvolves(s, s.(store := RecoverJob(s.store, id, limit, now)), id, Finished(job), p);
  }

  lemma NextEvolves(s: System, step: Step, limit: int, p: Place)
    ensures Evolves(s, Next(s, step, limit), p)
  {
    if Enabled(s, step) {
      match step
      case DoSubmit(request, id) =>
      case DoClaim(q, token, worker, now, lease) =>
      case DoRenew(q, _, token, now, lease) =>
      case DoComplete(q, _, token, report, status, reason) => CompleteEvolves(s, q, token, report, status, reason, p);
      case DoCancel(id, operator) => CancelEvolves(s, id, operator, p);
      case DoRecover(now) => RecoverEvolves(s, limit, now, p);
    }
  }

  lemma CompleteEvolves(s: System, q: Option<Place>, token: Token, report: Option<Report>, status: TargetStatus, reason: string, p: Place)
    requires q.Some? ==> At(s.store, q.value)
    ensures Evolves(s, s.(store := Complete(s.store, q, token, report, status, reason).1), p)
  {
    var n := s.(store := Complete(s.store, q, token, report, status, reason).1);
    if Terminal(status) && q.Some? && TargetAt(s.store, q.value).token == token && TargetAt(s.store, q.value).status == Running {
      var done := CompletedTarget(TargetAt(s.store, q.value), report, status, reason);
      var mid := SetTarget(s.store, q.value, done).(reservations := s.store.reservations - 1);
      FinishShape(mid, q.value.job);
      JobEvolves(s, n, q.value.job, Finished(mid.jobs[q.value.job]), p);
    }
  }

  lemma CancelEvolves(s: System, id: JobId, operator: string, p: Place)
    ensures Evolves(s, s.(store := RequestCancel(s.store, id, operator).1), p)
  {
    if operator != "" && id in s.store.jobs {
      var job := s.store.jobs[id];
      var mid := s.store.(jobs := s.store.jobs[id := job.(cancelRequested := true, cancelRequestedBy := operator, targets := CancelTargets(job.targets))],
                          reservations := s.store.reservations - Count(job.targets, Queued));
      FinishShape(mid, id);
      JobEvolves(s, s.(store := Finish(mid, id)), id, Finished(mid.jobs[id]), p);
    }
  }

  lemma {:induction false} RunEvolves(s: System, steps: seq<Step>, limit: int, p: Place)
    ensures Evolves(s, Run(s, steps, limit), p)
    decreases |steps|
  {
    if steps != [] {
      NextEvolves(s, steps[0], limit, p);
      RunEvolves(Next(s, steps[0], limit), steps[1..], limit, p);
    }
  }

  // A token that was issued and that no target runs under.
  ghost predicate Stale(s: System, token: Token) {
    token in s.issued && forall p :: !Holds(s, p, token)
  }

  lemma StaleForever(s: System, steps: seq<Step>, limit: int, token: Token)
    requires Stale(s, token)
    ensures Stale(Run(s, steps, limit), token)
  {
    forall p ensures !Holds(Run(s, steps, limit), p, token) {
      RunEvolves(s, steps, limit, p);
    }
    RunEvolves(s, steps, limit, Place("", 0));
  }

  // Distinct places never run under one token.
  ghost predicate TokensUnique(s: System) {
    forall p, q, k :: Holds(s, p, k) && Holds(s, q, k) ==> p == q
  }

  lemma UniqueKeeps(s: System, step: Step, limit: int)
    requires Inv(s, limit) && TokensUnique(s) && limit >= 1
    ensures TokensUnique(Next(s, step, limit))
  {
    var n := Next(s, step, limit);
    NextKeeps(s, step, limit);
    forall p, q, k | Holds(n, p, k) && Holds(n, q, k) ensures p == q {
      NextEvolves(s, step, limit, p);
      NextEvolves(s, step, limit, q);
      HolderIssued(n, p, k, limit);
      if Holds(s, p, k) {
        HolderIssued(s, p, k, limit);
      } else if Holds(s, q, k) {
        HolderIssued(s, q, k, limit);
      }
    }
  }

  lemma HolderIssued(s: System, p: Place, k: Token, limit: int)
    requires Inv(s, limit) && Holds(s, p, k)
    ensures k in s.issued && k != ""
  {
    assert JobOk(s, p.job, limit);
  }

  lemma {:induction false} RunUnique(s: System, steps: seq<Step>, limit: int)
    requires Inv(s, limit) && TokensUnique(s) && limit >= 1
    ensures TokensUnique(Run(s, steps, limit)) && Inv(Run(s, steps, limit), limit)
    decreases |steps|
  {
    if steps != [] {
      NextKeeps(s, steps[0], limit);
      UniqueKeeps(s, steps[0], limit);
      RunUnique(Next(s, steps[0], limit), steps[1..], limit);
    }
  }

  // ---------------------------------------------------------------- theorems

  lemma ReachableInv(maximum: int, steps: seq<Step>, limit: int)
    requires limit >= 1
    ensures Inv(Run(Initial(maximum), steps, limit), limit) && TokensUnique(Run(Initial(maximum), steps, limit))
  {
    RunUnique(Initial(maximum), steps, limit);
  }

  // Once terminal, a target never changes again: not its status, reason, report, token or lease.
  lemma TerminalIsPermanent(maximum: int, before: seq<Step>, after: seq<Step>, limit: int, p: Place)
    ensures var s := Run(Initial(maximum), before, limit); var n := Run(s, after, limit);
            At(s.store, p) && Terminal(TargetAt(s.store, p).status) ==> At(n.store, p) && TargetAt(n.store, p) == TargetAt(s.store, p)
  {
    RunEvolves(Run(Initial(maximum), before, limit), after, limit, p);
  }

  // At most one Complete ever takes effect on a target: after one has, every later Complete
  // that reaches the same target leaves the store alone.
  lemma CompletesOnce(maximum: int, before: seq<Step>, after: seq<Step>, limit: int, first: Step, second: Step)
    requires first.DoComplete? && second.DoComplete? && first.located.Some? && second.located == first.located
    ensures var s := Run(Initial(maximum), before, limit); var m := Next(s, first, limit); var n := Run(m, after, limit);
            m.store != s.store ==> Next(n, second, limit).store == n.store
  {
    var s := Run(Initial(maximum), before, limit);
    var m := Next(s, first, limit);
    var p := first.located.value;
    if m.store != s.store {
      CompleteTerminates(s, first, limit);
      RunEvolves(m, after, limit, p);
    }
  }

  lemma CompleteTerminates(s: System, step: Step, limit: int)
    requires step.DoComplete? && step.located.Some? && Next(s, step, limit).store != s.store
    ensures At(Next(s, step, limit).store, step.located.value) && Terminal(TargetAt(Next(s, step, limit).store, step.located.value).status)
  {
    var p := step.located.value;
    var done := CompletedTarget(TargetAt(s.store, p), step.report, step.status, step.reason);
    FinishShape(SetTarget(s.store, p, done).(reservations := s.store.reservations - 1), p.job);
  }

  // After a target stops running under a token, for whatever reason, no call that carries
  // that token changes anything, ever.
  lemma EarlierTokenIsInert(maximum: int, before: seq<Step>, step: Step, after: seq<Step>, limit: int, p: Place, token: Token, late: Step)
    requires limit >= 1
    requires late.DoComplete? || late.DoRenew?
    requires late.token == token
    ensures var s := Run(Initial(maximum), before, limit); var m := Next(s, step, limit); var n := Run(m, after, limit);
            Holds(s, p, token) && !Holds(m, p, token) ==> Next(n, late, limit).store == n.store
  {
    var s := Run(Initial(maximum), before, limit);
    var m := Next(s, step, limit);
    if Holds(s, p, token) && !Holds(m, p, token) {
      ReachableInv(maximum, before, limit);
      HolderIssued(s, p, token, limit);
      NextEvolves(s, step, limit, p);
      forall q ensures !Holds(m, q, token) {
        NextEvolves(s, step, limit, q);
      }
      StaleForever(m, after, limit, token);
      StaleIsInert(Run(m, after, limit), late, limit);
    }
  }

  lemma StaleIsInert(s: System, late: Step, limit: int)
    requires late.DoComplete? || late.DoRenew?
    requires Stale(s, late.token)
    ensures Next(s, late, limit).store == s.store
  {
    if late.located.Some? {
      assert !Holds(s, late.located.value, late.token);
    }
  }

  lemma {:induction false} CountSame(a: seq<Target>, b: seq<Target>, s: TargetStatus)
    requires |a| == |b| && forall i :: 0 <= i < |a| ==> a[i].status == b[i].status
    ensures Count(a, s) == Count(b, s)
  {
    if a != [] {
      CountSame(a[..|a| - 1], b[..|b| - 1], s);
    }
  }

  // A job is terminal exactly when all its targets are, and its verdict is then permanent.
  lemma VerdictIsPermanent(maximum: int, before: seq<Step>, after: seq<Step>, limit: int, id: JobId)
    requires limit >= 1
    ensures var s := Run(Initial(maximum), before, limit); var n := Run(s, after, limit);
            id in s.store.jobs ==>
              && (TerminalJob(s.store.jobs[id].status) <==> AllTerminal(s.store.jobs[id].targets))
              && (TerminalJob(s.store.jobs[id].status) ==> id in n.store.jobs && n.store.jobs[id].status == s.store.jobs[id].status)
  {
    var s := Run(Initial(maximum), before, limit);
    var n := Run(s, after, limit);
    if id in s.store.jobs {
      ReachableInv(maximum, before, limit);
      assert JobOk(s, id, limit);
      if TerminalJob(s.store.jobs[id].status) {
        RunKeeps(s, after, limit);
        var a := s.store.jobs[id].targets;
        RunEvolves(s, after, limit, Place(id, 0));
        assert JobOk(n, id, limit);
        var b := n.store.jobs[id].targets;
        forall i | 0 <= i < |a| ensures |a| == |b| && a[i].status == b[i].status {
          RunEvolves(s, after, limit, Place(id, i));
        }
        CountSame(a, b, Failed);
        CountSame(a, b, Completed);
        CountSame(a, b, Partial);
        CountSame(a, b, Cancelled);
      }
    }
  }

  // An accepted batch submitted again, after anything else has happened, is the same job and
  // changes nothing.
  lemma ResubmitIsIdempotent(maximum: int, before: seq<Step>, after: seq<Step>, limit: int, request: Request, id: JobId, again: JobId)
    requires limit >= 1
    ensures var s := Run(Initial(maximum), before, limit);
            var outcome := Submit(s.store, request, id).0;
            var n := Run(Next(s, DoSubmit(request, id), limit), after, limit).store;
            id !in s.store.jobs && outcome.Ok? ==> Submit(n, request, again) == (outcome, n)
  {
    var s := Run(Initial(maximum), before, limit);
    var outcome := Submit(s.store, request, id).0;
    if id !in s.store.jobs && outcome.Ok? {
      ReachableInv(maximum, before, limit);
      var m := Next(s, DoSubmit(request, id), limit);
      NextKeeps(s, DoSubmit(request, id), limit);
      RunKeeps(m, after, limit);
      var j := outcome.value;
      assert Keyed(s.store, request.identity) && JobOk(m, j, limit);
      RunEvolves(m, after, limit, Place(j, 0));
      assert JobOk(Run(m, after, limit), j, limit);
    }
  }

  // The reservation counter is the number of live targets and never exceeds capacity; no
  // target is attempted more often than the limit.
  lemma Conservation(maximum: int, steps: seq<Step>, limit: int, p: Place)
    requires limit >= 1
    ensures var s := Run(Initial(maximum), steps, limit).store;
            && s.reservations == Sum(s.jobs, s.order, LiveWeight())
            && 0 <= s.reservations && (s.reservations <= s.maximum || s.reservations == 0)
            && (At(s, p) ==> TargetAt(s, p).attempts <= limit)
  {
    ReachableInv(maximum, steps, limit);
    var s := Run(Initial(maximum), steps, limit);
    SumNonNegative(s.store.jobs, s.store.order, LiveWeight());
    assert JobOk(s, p.job, limit);
  }

  // A job submitted under a bundle with no admitted row that has since been swept.
  ghost predicate PhantomRelease(s: System, b: string) {
    exists id :: id in s.unpinned && id in s.store.jobs && s.store.jobs[id].bundle == b && s.store.jobs[id].pinReleased
  }

  // The pins of a bundle never exceed its open jobs, and equal them exactly while no batch of
  // that bundle without an admitted row has been swept.
  lemma PinsExact(maximum: int, steps: seq<Step>, limit: int, b: string)
    requires limit >= 1 && b != ""
    ensures var s := Run(Initial(maximum), steps, limit);
            && Pins(s.store, b) <= Sum(s.store.jobs, s.store.order, OpenWeight(b))
            && (Pins(s.store, b) == Sum(s.store.jobs, s.store.order, OpenWeight(b)) <==> !PhantomRelease(s, b))
  {
    ReachableInv(maximum, steps, limit);
    var s := Run(Initial(maximum), steps, limit);
    assert PinRight(s, b);
    SumCompare(s.store.jobs, s.store.order, PinWeight(b, s.unpinned), OpenWeight(b));
    if PhantomRelease(s, b) {
      var id :| id in s.unpinned && id in s.store.jobs && s.store.jobs[id].bundle == b && s.store.jobs[id].pinReleased;
      assert Listed(s.store, id);
      var i :| 0 <= i < |s.store.order| && s.store.order[i] == id;
      assert PinWeight(b, s.unpinned)(id, s.store.jobs[id]) != OpenWeight(b)(id, s.store.jobs[id]);
    }
  }

  // No batch without an admitted row, no phantom release.
  lemma {:induction false} PinsWithoutEmptyBatches(maximum: int, steps: seq<Step>, limit: int, b: string)
    requires limit >= 1 && b != ""
    requires forall i :: 0 <= i < |steps| && steps[i].DoSubmit? && steps[i].request.bundle != "" ==> Admitted(steps[i].request) > 0
    ensures var s := Run(Initial(maximum), steps, limit).store; Pins(s, b) == Sum(s.jobs, s.order, OpenWeight(b))
  {
    NothingUnpinned(Initial(maximum), steps, limit);
    PinsExact(maximum, steps, limit, b);
  }

  lemma {:induction false} NothingUnpinned(s: System, steps: seq<Step>, limit: int)
    requires s.unpinned == {}
    requires forall i :: 0 <= i < |steps| && steps[i].DoSubmit? && steps[i].request.bundle != "" ==> Admitted(steps[i].request) > 0
    ensures Run(s, steps, limit).unpinned == {}
    decreases |steps|
  {
    if steps != [] {
      NothingUnpinned(Next(s, steps[0], limit), steps[1..], limit);
    }
  }

  // The trap: a batch naming a bundle whose only row is invalid takes no pin, and the next
  // recovery sweep releases one all the same.
  lemma PinTrap(b: string, limit: int)
    requires b != ""
    ensures var request := Request(Identity("operator", "key"), "hash", b, [Row("t", Some("invalid"))], []);
            var s := Run(Initial(10), [DoSubmit(request, "job"), DoRecover(0)], limit).store;
            Pins(s, b) == -1 && Sum(s.jobs, s.order, OpenWeight(b)) == 0
  {
    var request := Request(Identity("operator", "key"), "hash", b, [Row("t", Some("invalid"))], []);
    var steps := [DoSubmit(request, "job"), DoRecover(0)];
    assert request.rows[..0] == [];
    assert NewTargets(request) == [RowTarget(request.rows[0])];
    var s1 := Next(Initial(10), steps[0], limit);
    assert s1.store == Store(10, 0, map["job" := NewJob(request)], ["job"], map[request.identity := "job"], map[]);
    SweepReleases(s1.store, b, limit);
    var s2 := Next(s1, steps[1], limit);
    assert steps[1..][1..] == [];
    assert Run(Initial(10), steps, limit) == Run(s1, steps[1..], limit) == Run(s2, [], limit);
  }

  // Sweeping a lone terminal job that still owes a release takes a pin nobody took.
  lemma SweepReleases(s: Store, b: string, limit: int)
    requires b != "" && b !in s.pins && s.order == ["job"] && s.jobs.Keys == {"job"}
    requires var job := s.jobs["job"]; job.bundle == b && !job.pinReleased && AllTerminal(job.targets)
    ensures var n := RecoverAll(s, limit, 0); Pins(n, b) == -1 && Sum(n.jobs, n.order, OpenWeight(b)) == 0
  {
    var job := s.jobs["job"];
    assert RecoverTargets(job, limit, 0) == job.targets;
    var n := RecoverJob(s, "job", limit, 0);
    assert n.order == ["job"] && n.jobs["job"].targets == job.targets && Pins(n, b) == -1;
    assert s.order[..0] == [] && n.order[..0] == [];
    assert RecoverAll(s, limit, 0) == RecoverStep(limit, 0)(Sweep(s, [], RecoverStep(limit, 0)), "job") == n;
  }
}
