// What the calls on the job store leave behind, target by target, in every reachable state.
module JobsEffects {
  import opened Options
  import opened Jobs

  // Every place but p holds the target it held.
  predicate StaysAt(s: Store, n: Store, q: Place) {
    && (At(s, q) <==> At(n, q))
    && (At(s, q) ==> TargetAt(n, q) == TargetAt(s, q))
  }

  ghost predicate OthersStay(s: Store, n: Store, p: Place) { forall q :: q != p ==> StaysAt(s, n, q) }

  ghost predicate OtherJobsStay(s: Store, n: Store, id: JobId) { forall q: Place :: q.job != id ==> StaysAt(s, n, q) }

  // --------------------------------------------------------------------- submission

  // A request the store looks at: an operator, a key, some work, and replays that name a report
  // and the bundle of the batch.
  predicate Proper(request: Request) {
    && request.identity.operator != "" && request.identity.key != "" && (request.rows != [] || request.replays != [])
    && forall i :: 0 <= i < |request.replays| ==>
         request.replays[i].reportId != "" && request.replays[i].bundle != "" && request.replays[i].bundle == request.bundle
  }

  // What Submit answers, in every reachable state: a key used before gives its job for the same
  // payload and a conflict for another; a new one is accepted exactly while its queued targets
  // fit into what the live targets leave of the capacity. Only an accepted new batch changes
  // anything.
  lemma SubmissionDecides(maximum: int, steps: seq<Step>, limit: int, request: Request, id: JobId)
    requires limit >= 1
    ensures var s := Run(Initial(maximum), steps, limit).store; var (r, n) := Submit(s, request, id); var live := Sum(s.jobs, s.order, LiveWeight());
            && (!Proper(request) ==> r == Err(InvalidOptions))
            && (Proper(request) && request.identity in s.idempotency ==>
                  var known := s.idempotency[request.identity];
                  known in s.jobs && r == if s.jobs[known].payloadHash == request.payloadHash then Ok(known) else Err(IdempotencyConflict))
            && (Proper(request) && request.identity !in s.idempotency ==>
                  r == if 0 < s.maximum && live + Live(NewTargets(request)) <= s.maximum then Ok(id) else Err(QueueCapacityExceeded))
            && (!r.Ok? || request.identity in s.idempotency ==> n == s)
  {
    Conservation(maximum, steps, limit, Place("", 0));
    ReachableInv(maximum, steps, limit);
    NewTargetsLive(request);
    var s := Run(Initial(maximum), steps, limit).store;
    assert Keyed(s, request.identity);
  }

  // An accepted batch becomes one queued target for each admitted row and each replay and one
  // failed target for each rejected row, in input order, and reserves the queued ones within
  // the capacity; no other job changes.
  lemma SubmissionQueues(s: Store, request: Request, id: JobId)
    requires id !in s.jobs && request.identity !in s.idempotency && Submit(s, request, id).0.Ok?
    ensures Submit(s, request, id).0 == Ok(id)
    ensures var n := Submit(s, request, id).1; var k := |request.rows|;
            && id in n.jobs && n.jobs[id].identity == request.identity && n.jobs[id].payloadHash == request.payloadHash && n.jobs[id].bundle == request.bundle
            && !n.jobs[id].cancelRequested && !n.jobs[id].pinReleased
            && |n.jobs[id].targets| == k + |request.replays|
            && (forall i :: 0 <= i < k ==> Rows(request.rows[i], n.jobs[id].targets[i]))
            && (forall i :: k <= i < k + |request.replays| ==> Rows(Row(request.replays[i - k].targetId, None), n.jobs[id].targets[i]))
            && OtherJobsStay(s, n, id) && n.order == s.order + [id]
            && n.idempotency == s.idempotency[request.identity := id]
            && n.reservations == s.reservations + Live(n.jobs[id].targets) <= n.maximum
  {
    NewTargetsLive(request);
  }

  predicate Rows(row: Row, t: Target) {
    && t.id == row.targetId && t.attempts == 0 && t.token == "" && t.leaseOwner == "" && t.leaseExpires == ZERO_TIME
    && t.nextAttempt == ZERO_TIME && t.report.None?
    && (row.rejection.None? ==> t.status == Queued && t.reason == "")
    && (row.rejection.Some? ==> t.status == Failed && t.reason == row.rejection.value)
  }

  // -------------------------------------------------------------------------- claims

  // A claim starts one more attempt of a queued target under the new token and touches no
  // other target.
  lemma ClaimStarts(s: Store, p: Place, token: Token, worker: string, now: nat, lease: int)
    requires Claimable(s, p, now)
    ensures var n := Claim(s, p, token, worker, now, lease); var t := TargetAt(s, p);
            && At(n, p) && TargetAt(n, p) == Target(t.id, Running, t.attempts + 1, token, worker, now + lease, t.nextAttempt, t.reason, t.report)
            && n.jobs[p.job].status == JobRunning && OthersStay(s, n, p) && n.reservations == s.reservations
  {
  }

  // A renewal moves the lease of the running target under its own token, unless the job is
  // cancelled; any other call changes nothing.
  lemma RenewalExtends(s: Store, p: Place, token: Token, now: nat, lease: int)
    requires At(s, p)
    ensures var (r, n) := Renew(s, Some(p), token, now, lease); var t := TargetAt(s, p);
            && (r.Ok? <==> t.status == Running && t.token == token && !s.jobs[p.job].cancelRequested)
            && (!r.Ok? ==> n == s)
            && (r.Ok? ==> At(n, p) && TargetAt(n, p) == Target(t.id, Running, t.attempts, token, t.leaseOwner, now + lease, t.nextAttempt, t.reason, t.report)
                          && OthersStay(s, n, p))
  {
  }

  // ---------------------------------------------------------------------- completion

  predicate Committed(t: Target, status: TargetStatus, reason: string, report: Option<Report>) {
    t.status == status && t.reason == reason && t.report == report
  }

  // A completion of the running attempt replaces one target of one job.
  lemma CompletionReplaces(s: Store, p: Place, token: Token, report: Option<Report>, status: TargetStatus, reason: string)
    requires At(s, p) && Terminal(status) && TargetAt(s, p).status == Running && TargetAt(s, p).token == token
    ensures var (r, n) := Complete(s, Some(p), token, report, status, reason); var t := TargetAt(s, p);
            && r == Ok(()) && n.reservations == s.reservations - 1 && n.jobs.Keys == s.jobs.Keys
            && n.jobs[p.job].targets == s.jobs[p.job].targets[p.index := Target(t.id, status, t.attempts, token, "", ZERO_TIME, t.nextAttempt, reason, if report.Some? then report else t.report)]
            && n.jobs[p.job].cancelRequested == s.jobs[p.job].cancelRequested
            && forall id :: id in s.jobs && id != p.job ==> n.jobs[id] == s.jobs[id]
  {
    FinishShape(SetTarget(s, p, CompletedTarget(TargetAt(s, p), report, status, reason)).(reservations := s.reservations - 1), p.job);
  }

  // Exactly when a completion is accepted, and what it stores: for the running attempt the
  // given status, reason and report under the same token; anything else changes nothing.
  lemma CompletionDecides(s: Store, p: Place, token: Token, report: Option<Report>, status: TargetStatus, reason: string)
    requires At(s, p)
    ensures var (r, n) := Complete(s, Some(p), token, report, status, reason); var t := TargetAt(s, p);
            && (r.Ok? <==> status !in {Queued, Running} && t.token == token && (t.status == Running || Committed(t, status, reason, report)))
            && (!r.Ok? || t.status != Running ==> n == s)
            && (r.Ok? && t.status == Running ==>
                  && At(n, p)
                  && TargetAt(n, p) == Target(t.id, status, t.attempts, token, "", ZERO_TIME, t.nextAttempt, reason, if report.Some? then report else t.report)
                  && OthersStay(s, n, p) && n.reservations == s.reservations - 1)
  {
    var t := TargetAt(s, p);
    if Terminal(status) && t.token == token && t.status == Running {
      CompletionReplaces(s, p, token, report, status, reason);
    }
  }

  // Over every run: a completion that takes effect stores exactly what it was given, and the
  // same call made again after any further steps succeeds and changes nothing.
  lemma CompletionIsRepeatable(maximum: int, before: seq<Step>, after: seq<Step>, limit: int, step: Step)
    requires limit >= 1 && step.DoComplete? && step.located.Some?
    ensures var s := Run(Initial(maximum), before, limit); var m := Next(s, step, limit); var n := Run(m, after, limit); var p := step.located.value;
            Enabled(s, step) && Holds(s, p, step.token) && Terminal(step.status) ==>
              && At(m.store, p) && Committed(TargetAt(m.store, p), step.status, step.reason, step.report) && TargetAt(m.store, p).token == step.token
              && OthersStay(s.store, m.store, p)
              && At(n.store, p) && TargetAt(n.store, p) == TargetAt(m.store, p)
              && Complete(n.store, step.located, step.token, step.report, step.status, step.reason) == (Ok(()), n.store)
  {
    var s := Run(Initial(maximum), before, limit);
    var p := step.located.value;
    if Enabled(s, step) && Holds(s, p, step.token) && Terminal(step.status) {
      ReachableInv(maximum, before, limit);
      assert JobOk(s, p.job, limit);
      CompletionDecides(s.store, p, step.token, step.report, step.status, step.reason);
      var m := Next(s, step, limit);
      RunEvolves(m, after, limit, p);
      CompletionDecides(Run(m, after, limit).store, p, step.token, step.report, step.status, step.reason);
    }
  }

  // ------------------------------------------------------------- cancellation, recovery

  // A cancellation ends every queued target of the job, leaves its other targets and all
  // other jobs alone, and marks the job.
  lemma CancellationEnds(s: Store, id: JobId, operator: string)
    requires id in s.jobs && operator != ""
    ensures var (r, n) := RequestCancel(s, id, operator);
            && r.Ok? && id in n.jobs && n.jobs[id].cancelRequested && n.jobs[id].cancelRequestedBy == operator
            && OtherJobsStay(s, n, id) && |n.jobs[id].targets| == |s.jobs[id].targets|
            && forall i :: 0 <= i < |s.jobs[id].targets| ==> var t, u := s.jobs[id].targets[i], n.jobs[id].targets[i];
                 && (t.status == Queued ==> u == t.(status := Cancelled, reason := "cancelled before claim"))
                 && (t.status != Queued ==> u == t)
  {
    var job := s.jobs[id];
    FinishShape(s.(jobs := s.jobs[id := job.(cancelRequested := true, cancelRequestedBy := operator, targets := CancelTargets(job.targets))],
                   reservations := s.reservations - Count(job.targets, Queued)), id);
  }

  // What a sweep at time now does to one target.
  predicate Recovered(t: Target, u: Target, cancelled: bool, limit: int, now: nat) {
    if t.status != Running || t.leaseExpires > now then u == t
    else
      && u.id == t.id && u.attempts == t.attempts && u.report == t.report && u.token == "" && u.leaseOwner == "" && u.leaseExpires == ZERO_TIME
      && (cancelled ==> u.status == Cancelled && u.reason == "cancelled after lease expiry" && u.nextAttempt == t.nextAttempt)
      && (!cancelled && t.attempts >= limit ==> u.status == Failed && u.reason == "attempt limit exhausted" && u.nextAttempt == t.nextAttempt)
      && (!cancelled && t.attempts < limit ==> u.status == Queued && u.reason == t.reason && u.nextAttempt == now)
  }

  predicate JobRecovered(job: Job, n: Job, limit: int, now: nat) {
    && |n.targets| == |job.targets| && n.cancelRequested == job.cancelRequested
    && forall i :: 0 <= i < |job.targets| ==> Recovered(job.targets[i], n.targets[i], job.cancelRequested, limit, now)
  }

  predicate JobSwept(s: Store, n: Store, id: JobId, limit: int, now: nat) {
    id in s.jobs && id in n.jobs && JobRecovered(s.jobs[id], n.jobs[id], limit, now)
  }

  lemma TargetRecovers(t: Target, cancelled: bool, limit: int, now: nat)
    ensures Recovered(t, RecoverTarget(t, cancelled, limit, now), cancelled, limit, now)
  {
  }

  lemma JobRecovers(job: Job, limit: int, now: nat)
    ensures JobRecovered(job, Finished(job.(targets := RecoverTargets(job, limit, now))), limit, now)
  {
    forall i | 0 <= i < |job.targets| ensures Recovered(job.targets[i], RecoverTargets(job, limit, now)[i], job.cancelRequested, limit, now) {
      TargetRecovers(job.targets[i], job.cancelRequested, limit, now);
    }
  }

  // One job's turn leaves the other jobs alone.
  lemma RecoverOne(s: Store, id: JobId, limit: int, now: nat)
    ensures var n := RecoverJob(s, id, limit, now);
            && n.jobs.Keys == s.jobs.Keys && (id in s.jobs ==> JobSwept(s, n, id, limit, now))
            && forall j :: j in s.jobs && j != id ==> n.jobs[j] == s.jobs[j]
  {
    if id in s.jobs {
      FinishShape(Replaced(s, id, s.jobs[id].(targets := RecoverTargets(s.jobs[id], limit, now))), id);
      JobRecovers(s.jobs[id], limit, now);
    }
  }

  lemma {:induction false} SweepReaches(s: Store, ids: seq<JobId>, limit: int, now: nat, id: JobId)
    requires Distinct(ids) && id in s.jobs
    ensures var n := Sweep(s, ids, RecoverStep(limit, now));
            && n.jobs.Keys == s.jobs.Keys && (id in ids ==> JobSwept(s, n, id, limit, now)) && (id !in ids ==> n.jobs[id] == s.jobs[id])
  {
    if ids != [] {
      var front, last := ids[..|ids| - 1], ids[|ids| - 1];
      assert ids == front + [last];
      forall j ensures multiset(front)[j] <= 1 { assert multiset(ids)[j] <= 1; }
      assert multiset(ids)[last] <= 1;
      assert last !in front;
      SweepReaches(s, front, limit, now, id);
      RecoverOne(Sweep(s, front, RecoverStep(limit, now)), last, limit, now);
    }
  }

  // In every reachable state a sweep treats each target of each job exactly once: an expired
  // attempt is cancelled, failed or queued again at once, and nothing else changes.
  lemma RecoveryReachesAll(maximum: int, steps: seq<Step>, limit: int, now: nat, p: Place)
    requires limit >= 1
    ensures var s := Run(Initial(maximum), steps, limit).store; var n := RecoverAll(s, limit, now);
            && (At(s, p) <==> At(n, p))
            && (At(s, p) ==> Recovered(TargetAt(s, p), TargetAt(n, p), s.jobs[p.job].cancelRequested, limit, now))
  {
    ReachableInv(maximum, steps, limit);
    var s := Run(Initial(maximum), steps, limit).store;
    if p.job in s.jobs {
      assert Listed(s, p.job);
      SweepReaches(s, s.order, limit, now, p.job);
    } else {
      SweepKeys(s, s.order, limit, now);
    }
  }

  lemma {:induction false} SweepKeys(s: Store, ids: seq<JobId>, limit: int, now: nat)
    ensures Sweep(s, ids, RecoverStep(limit, now)).jobs.Keys == s.jobs.Keys
  {
    if ids != [] {
      SweepKeys(s, ids[..|ids| - 1], limit, now);
      RecoverOne(Sweep(s, ids[..|ids| - 1], RecoverStep(limit, now)), ids[|ids| - 1], limit, now);
    }
  }

  // -------------------------------------------------------------------- over whole runs

  // No target of a cancelled job starts an attempt.
  ghost predicate NoNewAttempt(s: Store, n: Store, p: Place) {
    At(s, p) && s.jobs[p.job].cancelRequested ==>
      && At(n, p) && n.jobs[p.job].cancelRequested && TargetAt(n, p).attempts == TargetAt(s, p).attempts
      && (TargetAt(n, p).status == Running ==> TargetAt(s, p).status == Running && TargetAt(n, p).token == TargetAt(s, p).token)
      && (TargetAt(s, p).status != Queued ==> TargetAt(n, p).status != Queued)
  }

  lemma StepStartsNone(s: System, step: Step, limit: int, p: Place)
    requires Inv(s, limit)
    ensures NoNewAttempt(s.store, Next(s, step, limit).store, p)
  {
    if Enabled(s, step) && At(s.store, p) {
      match step
      case DoSubmit(request, id) =>
      case DoClaim(q, token, worker, now, lease) => ClaimStarts(s.store, q, token, worker, now, lease);
      case DoRenew(q, _, token, now, lease) =>
      case DoComplete(q, _, token, report, status, reason) => CompletionStartsNone(s.store, q, token, report, status, reason, p);
      case DoCancel(id, operator) =>
        if id in s.store.jobs && operator != "" {
          CancellationEnds(s.store, id, operator);
          assert p.job != id ==> StaysAt(s.store, Next(s, step, limit).store, p);
        }
      case DoRecover(now) =>
        assert Listed(s.store, p.job);
        SweepReaches(s.store, s.store.order, limit, now, p.job);
    }
  }

  lemma CompletionStartsNone(s: Store, q: Option<Place>, token: Token, report: Option<Report>, status: TargetStatus, reason: string, p: Place)
    requires q.Some? ==> At(s, q.value)
    ensures NoNewAttempt(s, Complete(s, q, token, report, status, reason).1, p)
  {
    if q.Some? && Terminal(status) && TargetAt(s, q.value).token == token && TargetAt(s, q.value).status == Running {
      CompletionReplaces(s, q.value, token, report, status, reason);
    }
  }

  lemma {:induction false} RunStartsNone(s: System, steps: seq<Step>, limit: int, p: Place)
    requires Inv(s, limit) && limit >= 1
    ensures NoNewAttempt(s.store, Run(s, steps, limit).store, p)
    decreases |steps|
  {
    if steps != [] {
      StepStartsNone(s, steps[0], limit, p);
      NextKeeps(s, steps[0], limit);
      RunStartsNone(Next(s, steps[0], limit), steps[1..], limit, p);
    }
  }

  // After a cancellation no target of the job is ever claimed again: only the attempts that
  // were running then can still be running, under their own tokens.
  lemma CancellationIsFinal(maximum: int, before: seq<Step>, after: seq<Step>, limit: int, id: JobId, operator: string, i: nat)
    requires limit >= 1 && operator != ""
    ensures var s := Run(Initial(maximum), before, limit); var n := Run(Next(s, DoCancel(id, operator), limit), after, limit).store; var p := Place(id, i);
            At(s.store, p) ==>
              && At(n, p) && TargetAt(n, p).attempts == TargetAt(s.store, p).attempts && TargetAt(n, p).status != Queued
              && (TargetAt(n, p).status == Running ==> Holds(s, p, TargetAt(n, p).token))
              && (TargetAt(s.store, p).status == Queued ==> TargetAt(n, p).status == Cancelled && TargetAt(n, p).reason == "cancelled before claim")
  {
    var s := Run(Initial(maximum), before, limit);
    var p := Place(id, i);
    if At(s.store, p) {
      ReachableInv(maximum, before, limit);
      var m := Next(s, DoCancel(id, operator), limit);
      NextKeeps(s, DoCancel(id, operator), limit);
      CancellationEnds(s.store, id, operator);
      RunStartsNone(m, after, limit, p);
      RunEvolves(m, after, limit, p);
    }
  }

  // A whole life: submitted, claimed and completed with a report, from an empty store.
  lemma LifeOfATarget(request: Request, id: JobId, token: Token, worker: string, report: Report, limit: int)
    requires request.identity.operator != "" && request.identity.key != "" && request.replays == [] && token != ""
    requires |request.rows| == 1 && request.rows[0].rejection.None?
    ensures var p := Place(id, 0);
            var steps := [DoSubmit(request, id), DoClaim(p, token, worker, 1, 30),
                          DoComplete(Some(p), request.rows[0].targetId, token, Some(report), Completed, "")];
            var n := Run(Initial(1), steps, limit).store;
            && At(n, p) && Committed(TargetAt(n, p), Completed, "", Some(report)) && TargetAt(n, p).attempts == 1
            && n.jobs[id].status == JobCompleted && n.reservations == 0 && (request.bundle != "" ==> Pins(n, request.bundle) == 0)
  {
    var p := Place(id, 0);
    var submit, claim := DoSubmit(request, id), DoClaim(p, token, worker, 1, 30);
    var complete := DoComplete(Some(p), request.rows[0].targetId, token, Some(report), Completed, "");
    var a := Next(Initial(1), submit, limit);
    LoneSubmits(request, id, limit);
    var b := Next(a, claim, limit);
    ClaimStarts(a.store, p, token, worker, 1, 30);
    var c := Next(b, complete, limit);
    CompletionDecides(b.store, p, token, Some(report), Completed, "");
    LoneCompletes(b.store, p, token, report);
    var steps := [submit, claim, complete];
    assert steps[1..] == [claim, complete] && steps[1..][1..] == [complete] && steps[1..][1..][1..] == [];
    assert Run(c, [], limit) == c;
    assert Run(b, [complete], limit) == c;
    assert Run(a, [claim, complete], limit) == c;
  }

  lemma LoneSubmits(request: Request, id: JobId, limit: int)
    requires request.identity.operator != "" && request.identity.key != "" && request.replays == []
    requires |request.rows| == 1 && request.rows[0].rejection.None?
    ensures var a := Next(Initial(1), DoSubmit(request, id), limit);
            && a.store.jobs == map[id := NewJob(request)] && a.store.reservations == 1 && a.issued == {}
            && a.store.jobs[id].targets == [RowTarget(request.rows[0])] && FirstClaimable(a.store, Place(id, 0), 1)
            && (request.bundle != "" ==> Pins(a.store, request.bundle) == 1)
  {
    var a := Next(Initial(1), DoSubmit(request, id), limit);
    assert request.rows[..0] == [] && AdmittedRows(request.rows[..0]) == 0 && Admitted(request) == 1;
    assert NewTargets(request) == [RowTarget(request.rows[0])];
    assert a.store.jobs == map[id := NewJob(request)] && a.store.reservations == 1;
    forall q | Claimable(a.store, q, 1) ensures q == Place(id, 0) { }
  }

  // Completing the one target of a job completes the job and releases its pin.
  lemma LoneCompletes(s: Store, p: Place, token: Token, report: Report)
    requires At(s, p) && |s.jobs[p.job].targets| == 1 && TargetAt(s, p).status == Running && TargetAt(s, p).token == token && !s.jobs[p.job].pinReleased
    ensures var n := Complete(s, Some(p), token, Some(report), Completed, "").1; var b := s.jobs[p.job].bundle;
            p.job in n.jobs && n.jobs[p.job].status == JobCompleted && (b != "" ==> Pins(n, b) == Pins(s, b) - 1)
  {
    var mid := SetTarget(s, p, CompletedTarget(TargetAt(s, p), Some(report), Completed, "")).(reservations := s.reservations - 1);
    FinishShape(mid, p.job);
    VerdictMeaning(mid.jobs[p.job].targets);
  }
}
