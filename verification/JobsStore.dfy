// The in-memory job store as methods on its fields: the loops of each critical section,
// proved equal to the functions that the invariants of `Jobs` are about.
module JobsStore {
  import opened Options
  import opened Jobs

  // A sequence without repeats has one index per element.
  lemma DistinctPair(order: seq<JobId>, a: nat, b: nat)
    requires Distinct(order) && a < b < |order|
    ensures order[a] != order[b]
  {
    assert order == order[..b] + [order[b]] + order[b + 1..];
    assert order[a] in order[..b];
    assert multiset(order) == multiset(order[..b]) + multiset{order[b]} + multiset(order[b + 1..]);
    assert multiset(order)[order[a]] <= 1;
  }

  lemma CountNext(targets: seq<Target>, i: nat, s: TargetStatus)
    requires i < |targets|
    ensures Count(targets[..i + 1], s) == Count(targets[..i], s) + if targets[i].status == s then 1 else 0
  {
    assert targets[..i + 1][..i] == targets[..i];
  }

  lemma RowsNext(rows: seq<Row>, i: nat)
    requires i < |rows|
    ensures AdmittedRows(rows[..i + 1]) == AdmittedRows(rows[..i]) + if rows[i].rejection.None? then 1 else 0
  {
    assert rows[..i + 1][..i] == rows[..i];
  }

  class MemoryStore {
    var maximum: int
    var reservations: int
    var jobs: map<JobId, Job>
    var order: seq<JobId>
    var idempotency: map<Identity, JobId>
    var pins: map<string, int>

    function View(): Store
      reads this
    {
      Store(maximum, reservations, jobs, order, idempotency, pins)
    }

    constructor (maximum: int)
      ensures View() == Initial(maximum).store
    {
      this.maximum := maximum;
      reservations, jobs, order, idempotency, pins := 0, map[], [], map[], map[];
    }

    // finishJob's counting loop.
    static method Tally(targets: seq<Target>) returns (allTerminal: bool, failed: nat, completed: nat, partial: nat, cancelled: nat)
      ensures allTerminal <==> AllTerminal(targets)
      ensures failed == Count(targets, Failed) && completed == Count(targets, Completed)
      ensures partial == Count(targets, Partial) && cancelled == Count(targets, Cancelled)
    {
      allTerminal := true;
      failed, completed, partial, cancelled := 0, 0, 0, 0;
      for i := 0 to |targets|
        invariant allTerminal <==> forall j :: 0 <= j < i ==> Terminal(targets[j].status)
        invariant failed == Count(targets[..i], Failed) && completed == Count(targets[..i], Completed)
        invariant partial == Count(targets[..i], Partial) && cancelled == Count(targets[..i], Cancelled)
      {
        CountNext(targets, i, Failed);
        CountNext(targets, i, Completed);
        CountNext(targets, i, Partial);
        CountNext(targets, i, Cancelled);
        match targets[i].status {
          case Failed => failed := failed + 1;
          case Completed => completed := completed + 1;
          case Partial => partial := partial + 1;
          case Cancelled => cancelled := cancelled + 1;
          case _ =>
        }
        allTerminal := allTerminal && Terminal(targets[i].status);
      }
      assert targets[..|targets|] == targets;
    }

    method FinishJob(id: JobId)
      requires id in jobs
      modifies this`jobs, this`pins
      ensures View() == Finish(old(View()), id)
    {
      var job := jobs[id];
      var allTerminal, failed, completed, partial, cancelled := Tally(job.targets);
      if !allTerminal {
        jobs := jobs[id := job.(status := JobRunning)];
        return;
      }
      var verdict :=
        if failed > 0 && completed == 0 && partial == 0 then JobFailed
        else if cancelled == |job.targets| then JobCancelled
        else if partial > 0 || failed > 0 || cancelled > 0 then JobPartial
        else JobCompleted;
      var done := job.(status := verdict);
      if !job.pinReleased && job.bundle != "" {
        pins := pins[job.bundle := (if job.bundle in pins then pins[job.bundle] else 0) - 1];
        done := done.(pinReleased := true);
      }
      jobs := jobs[id := done];
    }

    method FindTarget(id: string) returns (found: Option<Place>)
      requires Ordered(View())
      ensures Locates(View(), id, found)
    {
      for k := 0 to |order|
        invariant forall q :: At(View(), q) && q.job in order[..k] ==> TargetAt(View(), q).id != id
      {
        assert Listed(View(), order[k]);
        var targets := jobs[order[k]].targets;
        for i := 0 to |targets|
          invariant forall j :: 0 <= j < i ==> targets[j].id != id
        {
          if targets[i].id == id {
            return Some(Place(order[k], i));
          }
        }
        assert order[..k + 1] == order[..k] + [order[k]];
      }
      assert order[..|order|] == order;
      forall q | At(View(), q) ensures TargetAt(View(), q).id != id {
        assert Listed(View(), q.job);
      }
      found := None;
    }

    // The first ready target in submission and input order, or None when there is none.
    method FindReady(now: nat) returns (found: Option<Place>)
      requires Ordered(View())
      ensures found.Some? ==> FirstClaimable(View(), found.value, now)
      ensures found.None? ==> forall q :: !Claimable(View(), q, now)
    {
      for k := 0 to |order|
        invariant forall q: Place :: q.job in order[..k] ==> !Claimable(View(), q, now)
      {
        assert Listed(View(), order[k]);
        var job := jobs[order[k]];
        if !job.cancelRequested {
          for i := 0 to |job.targets|
            invariant forall j :: 0 <= j < i ==> !Claimable(View(), Place(order[k], j), now)
          {
            if job.targets[i].status == Queued && job.targets[i].nextAttempt <= now {
              FoundFirst(View(), k, i, now);
              return Some(Place(order[k], i));
            }
          }
        }
        assert order[..k + 1] == order[..k] + [order[k]];
        forall q: Place | q.job in order[..k + 1] ensures !Claimable(View(), q, now) {
          assert q == Place(q.job, q.index);
        }
      }
      assert order[..|order|] == order;
      forall q ensures !Claimable(View(), q, now) {
        assert Listed(View(), q.job);
      }
      found := None;
    }

    static lemma FoundFirst(s: Store, k: nat, i: nat, now: nat)
      requires Ordered(s) && k < |s.order| && Claimable(s, Place(s.order[k], i), now)
      requires forall q: Place :: q.job in s.order[..k] ==> !Claimable(s, q, now)
      requires forall j :: 0 <= j < i ==> !Claimable(s, Place(s.order[k], j), now)
      ensures FirstClaimable(s, Place(s.order[k], i), now)
    {
      var p := Place(s.order[k], i);
      forall q | Before(s, q, p) ensures !Claimable(s, q, now) {
        var a, b :| 0 <= a <= b < |s.order| && s.order[a] == q.job && s.order[b] == p.job && (a < b || q.index < p.index);
        if b != k {
          DistinctPair(s.order, if b < k then b else k, if b < k then k else b);
        }
        assert a < b ==> q.job in s.order[..k];
        assert q == Place(q.job, q.index);
      }
    }

    method ClaimTarget(token: Token, worker: string, now: nat, lease: int) returns (r: Outcome<Place>)
      requires Ordered(View())
      modifies this`jobs
      ensures worker == "" || lease <= 0 ==> r == Err(InvalidOptions) && View() == old(View())
      ensures worker != "" && lease > 0 && r.Ok? ==>
                FirstClaimable(old(View()), r.value, now) && View() == Claim(old(View()), r.value, token, worker, now, lease)
      ensures worker != "" && lease > 0 && r.Err? ==>
                View() == old(View()) && forall q :: !Claimable(View(), q, now)
    {
      if worker == "" || lease <= 0 {
        return Err(InvalidOptions);
      }
      var found := FindReady(now);
      if found.None? {
        return Err(CapabilityUnavailable);
      }
      var p := found.value;
      var job := jobs[p.job];
      var target := job.targets[p.index];
      var leased := target.(status := Running, attempts := target.attempts + 1, token := token,
                            leaseOwner := worker, leaseExpires := now + lease);
      jobs := jobs[p.job := job.(targets := job.targets[p.index := leased], status := JobRunning)];
      r := Ok(p);
    }

    method RenewLease(targetId: string, token: Token, now: nat, lease: int) returns (r: Outcome<()>, ghost located: Option<Place>)
      requires Ordered(View())
      modifies this`jobs
      ensures Locates(old(View()), targetId, located)
      ensures (r, View()) == Renew(old(View()), located, token, now, lease)
    {
      var found := FindTarget(targetId);
      located := found;
      if found.None? {
        return Err(IdempotencyConflict), located;
      }
      var job := jobs[found.value.job];
      var target := job.targets[found.value.index];
      if target.status != Running || target.token != token {
        return Err(IdempotencyConflict), located;
      }
      if job.cancelRequested {
        return Err(JobCancelRequested), located;
      }
      jobs := jobs[found.value.job := job.(targets := job.targets[found.value.index := target.(leaseExpires := now + lease)])];
      r := Ok(());
    }

    method CompleteTarget(targetId: string, token: Token, report: Option<Report>, status: TargetStatus, reason: string)
      returns (r: Outcome<()>, ghost located: Option<Place>)
      requires Ordered(View())
      modifies this
      ensures Locates(old(View()), targetId, located)
      ensures (r, View()) == Complete(old(View()), located, token, report, status, reason)
    {
      var found := FindTarget(targetId);
      located := found;
      if !Terminal(status) {
        return Err(InvalidOptions), located;
      }
      if found.None? || jobs[found.value.job].targets[found.value.index].token != token {
        return Err(IdempotencyConflict), located;
      }
      var job := jobs[found.value.job];
      var target := job.targets[found.value.index];
      if target.status != Running {
        if target.status == status && target.reason == reason && target.report == report {
          return Ok(()), located;
        }
        return Err(IdempotencyConflict), located;
      }
      target := target.(status := status, reason := reason, leaseOwner := "", leaseExpires := ZERO_TIME);
      if report.Some? {
        target := target.(report := report);
      }
      jobs := jobs[found.value.job := job.(targets := job.targets[found.value.index := target])];
      reservations := reservations - 1;
      FinishJob(found.value.job);
      r := Ok(());
    }

    method CancelJob(id: JobId, operator: string) returns (r: Outcome<()>)
      modifies this
      ensures (r, View()) == RequestCancel(old(View()), id, operator)
    {
      if operator == "" {
        return Err(InvalidOptions);
      }
      if id !in jobs {
        return Err(InvalidTarget);
      }
      var job := jobs[id];
      var targets, released := CancelQueued(job.targets);
      jobs := jobs[id := job.(cancelRequested := true, cancelRequestedBy := operator, targets := targets)];
      reservations := reservations - released;
      FinishJob(id);
      r := Ok(());
    }

    // The cancellation loop, with the reservations it gives back.
    static method CancelQueued(before: seq<Target>) returns (targets: seq<Target>, released: nat)
      ensures targets == CancelTargets(before)
      ensures released == Count(before, Queued)
    {
      targets, released := before, 0;
      for i := 0 to |targets|
        invariant |targets| == |before|
        invariant forall j :: 0 <= j < i ==> targets[j] == CancelTarget(before[j])
        invariant forall j :: i <= j < |targets| ==> targets[j] == before[j]
        invariant released == Count(before[..i], Queued)
      {
        CountNext(before, i, Queued);
        if targets[i].status == Queued {
          targets := targets[i := targets[i].(status := Cancelled, reason := "cancelled before claim")];
          released := released + 1;
        }
      }
      assert before[..|before|] == before;
    }

    // The recovery loop over one job's targets, with the reservations it gives back.
    static method RecoverLeases(before: seq<Target>, cancelRequested: bool, limit: int, now: nat) returns (targets: seq<Target>, released: int)
      ensures |targets| == |before|
      ensures forall j :: 0 <= j < |before| ==> targets[j] == RecoverTarget(before[j], cancelRequested, limit, now)
      ensures released == Live(before) - Live(targets)
    {
      targets, released := [], 0;
      for i := 0 to |before|
        invariant |targets| == i
        invariant forall j :: 0 <= j < i ==> targets[j] == RecoverTarget(before[j], cancelRequested, limit, now)
        invariant released == Live(before[..i]) - Live(targets)
      {
        CountNext(before, i, Queued);
        CountNext(before, i, Running);
        var target := before[i];
        if target.status == Running && target.leaseExpires <= now {
          target := target.(token := "", leaseOwner := "", leaseExpires := ZERO_TIME);
          if cancelRequested {
            target := target.(status := Cancelled, reason := "cancelled after lease expiry");
            released := released + 1;
          } else if target.attempts >= limit {
            target := target.(status := Failed, reason := "attempt limit exhausted");
            released := released + 1;
          } else {
            target := target.(status := Queued, nextAttempt := now);
          }
        }
        assert (targets + [target])[..i] == targets;
        targets := targets + [target];
      }
      assert before[..|before|] == before;
    }

    // The body of RecoverExpired's outer loop.
    method RecoverOne(id: JobId, limit: int, now: nat)
      requires id in jobs
      modifies this`jobs, this`pins, this`reservations
      ensures View() == RecoverJob(old(View()), id, limit, now)
      ensures jobs.Keys == old(jobs).Keys
    {
      var job := jobs[id];
      var targets, released := RecoverLeases(job.targets, job.cancelRequested, limit, now);
      assert targets == RecoverTargets(job, limit, now);
      jobs := jobs[id := job.(targets := targets)];
      reservations := reservations - released;
      FinishJob(id);
    }

    method RecoverExpired(limit: int, now: nat)
      modifies this
      ensures View() == RecoverAll(old(View()), limit, now)
    {
      ghost var step := RecoverStep(limit, now);
      for k := 0 to |order|
        invariant order == old(order)
        invariant View() == Sweep(old(View()), order[..k], step)
      {
        assert order[..k + 1][..k] == order[..k];
        if order[k] in jobs {
          RecoverOne(order[k], limit, now);
        }
      }
      assert order[..|order|] == order;
    }

    method SubmitBatch(request: Request, id: JobId) returns (r: Outcome<JobId>)
      modifies this
      ensures (r, View()) == Submit(old(View()), request, id)
    {
      if request.identity.operator == "" || request.identity.key == "" || |request.rows| + |request.replays| == 0 {
        return Err(InvalidOptions);
      }
      var admitted := CountAdmitted(request);
      var pinned := ReplaysNamePinnedBundle(request);
      if !pinned {
        return Err(InvalidOptions);
      }
      if request.identity in idempotency {
        var existing := idempotency[request.identity];
        if existing !in jobs || jobs[existing].payloadHash != request.payloadHash {
          return Err(IdempotencyConflict);
        }
        return Ok(existing);
      }
      if maximum <= 0 || admitted > maximum - reservations {
        return Err(QueueCapacityExceeded);
      }
      var targets := BuildTargets(request);
      var status := if admitted == 0 then JobFailed else JobQueued;
      jobs := jobs[id := Job(request.identity, request.payloadHash, request.bundle, status, false, "", targets, false)];
      order := order + [id];
      idempotency := idempotency[request.identity := id];
      reservations := reservations + admitted;
      if request.bundle != "" && admitted > 0 {
        pins := pins[request.bundle := (if request.bundle in pins then pins[request.bundle] else 0) + 1];
      }
      r := Ok(id);
    }

    static method CountAdmitted(request: Request) returns (admitted: nat)
      ensures admitted == Admitted(request)
    {
      admitted := |request.replays|;
      for i := 0 to |request.rows|
        invariant admitted == |request.replays| + AdmittedRows(request.rows[..i])
      {
        RowsNext(request.rows, i);
        if request.rows[i].rejection.None? {
          admitted := admitted + 1;
        }
      }
      assert request.rows[..|request.rows|] == request.rows;
    }

    static method ReplaysNamePinnedBundle(request: Request) returns (ok: bool)
      ensures ok <==> ReplaysPinned(request)
    {
      for i := 0 to |request.replays|
        invariant forall j :: 0 <= j < i ==>
          request.replays[j].reportId != "" && request.replays[j].bundle != "" && request.replays[j].bundle == request.bundle
      {
        var replay := request.replays[i];
        if replay.reportId == "" || replay.bundle == "" || replay.bundle != request.bundle {
          return false;
        }
      }
      ok := true;
    }

    static method BuildTargets(request: Request) returns (targets: seq<Target>)
      ensures targets == NewTargets(request)
    {
      targets := [];
      for i := 0 to |request.rows|
        invariant |targets| == i && forall j :: 0 <= j < i ==> targets[j] == RowTarget(request.rows[j])
      {
        var row := request.rows[i];
        var status, reason := Queued, "";
        if row.rejection.Some? {
          status, reason := Failed, row.rejection.value;
        }
        targets := targets + [Target(row.targetId, status, 0, "", "", ZERO_TIME, ZERO_TIME, reason, None)];
      }
      for i := 0 to |request.replays|
        invariant |targets| == |request.rows| + i
        invariant forall j :: 0 <= j < |request.rows| ==> targets[j] == RowTarget(request.rows[j])
        invariant forall j :: 0 <= j < i ==> targets[|request.rows| + j] == RowTarget(Row(request.replays[j].targetId, None))
      {
        targets := targets + [Target(request.replays[i].targetId, Queued, 0, "", "", ZERO_TIME, ZERO_TIME, "", None)];
      }
      assert targets == NewTargets(request);
    }
  }
}
