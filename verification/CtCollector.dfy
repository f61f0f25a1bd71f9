// Collect and CommitCollection: bounded, contiguous ingestion of a certificate log with a
// separately advancing verified tree head (sections 2.1.2, 4.4 and 4.6 of RFC 6962).
module CtCollector {
  import opened Options

  type Hash = string
  type Path = seq<Hash>

  // Tree sizes stay below 2^63, so index sums do not wrap.
  datatype Head = Head(size: nat, root: Hash)
  datatype Leaf = Leaf(input: string, extra: nat, certificate: Option<Certificate>)
  // names: each name's normal form when it is valid and within the roots.
  datatype Certificate = Certificate(hash: string, names: seq<Option<string>>)
  datatype ProofResponse = ProofResponse(input: string, extra: nat, path: Path)

  // The Merkle checks.
  datatype Merkle = Merkle(consistent: (Head, Head, Path) -> bool, included: (nat, Head, string, Path) -> bool)

  // What the log answers in one run: a run asks for entries once per start and for a proof
  // once per index, so functions of those are general. None is an error or a cancellation.
  datatype Log = Log(head: Option<Head>, headBytes: nat, consistency: Option<Path>, entries: (nat, nat) -> Option<seq<Leaf>>,
                     proof: nat -> Option<ProofResponse>)

  datatype Budget = Budget(entries: nat, batch: nat, proofs: nat, requests: nat, bytes: nat)
  predicate ValidBudget(b: Budget) { 0 < b.batch <= b.entries && 0 < b.requests && 0 < b.bytes }

  datatype Checkpoint = Checkpoint(next: nat, head: Head, key: string)
  datatype Config = Config(logId: string, key: string, start: nat, initial: Option<Checkpoint>, trustInitial: bool, budget: Budget)

  datatype Status = Passed | Failed | NotPerformed
  datatype Provenance = VerifiedLog | LogUnverified
  datatype Record = Record(name: string, certificate: string, index: nat, provenance: Provenance, head: Head)

  const NO_HEAD := Head(0, "")

  // The checkpoint a run starts from when none is stored.
  function FirstCheckpoint(config: Config): Checkpoint {
    if config.initial.None? then Checkpoint(config.start, NO_HEAD, config.key)
    else if config.trustInitial then config.initial.value.(key := config.key)
    else config.initial.value.(key := config.key, head := NO_HEAD)
  }

  // --------------------------------------------------------------- specification

  predicate Trusted(s: Status) { s != Failed }

  // What a passed continuity check established: an equal head, or an extension proved by the
  // path the log returned.
  predicate Extends(merkle: Merkle, log: Log, was: Head, head: Head) {
    head == was || (was.size < head.size && log.consistency.Some? && merkle.consistent(was, head, log.consistency.value))
  }

  // A later head continues an earlier one: nothing was verified yet, or it is equal or proved.
  ghost predicate Continues(merkle: Merkle, was: Head, head: Head) {
    was.size > 0 ==> head == was || (was.size < head.size && exists path :: merkle.consistent(was, head, path))
  }

  function Unique(names: seq<Option<string>>): seq<string> {
    if names == [] then []
    else
      var front, last := Unique(names[..|names| - 1]), names[|names| - 1];
      if last.Some? && last.value !in front then front + [last.value] else front
  }

  function Entitled(continuity: Status, inclusion: Status): Provenance {
    if inclusion == Passed && Trusted(continuity) then VerifiedLog else LogUnverified
  }

  function Stamped(names: seq<string>, c: Certificate, index: nat, head: Head, provenance: Provenance): (rs: seq<Record>)
    ensures |rs| == |names| && forall i :: 0 <= i < |rs| ==> rs[i] == Record(names[i], c.hash, index, provenance, head)
  {
    if names == [] then [] else Stamped(names[..|names| - 1], c, index, head, provenance) + [Record(names[|names| - 1], c.hash, index, provenance, head)]
  }

  // recordsFromEntry
  function RecordsOf(leaf: Leaf, index: nat, head: Head, continuity: Status, inclusion: Status): seq<Record> {
    if leaf.certificate.None? then []
    else Stamped(Unique(leaf.certificate.value.names), leaf.certificate.value, index, head, Entitled(continuity, inclusion))
  }

  // One entry as a run took it in.
  datatype Taken = Taken(index: nat, leaf: Leaf, inclusion: Status)

  function AllRecords(taken: seq<Taken>, head: Head, continuity: Status): seq<Record> {
    if taken == [] then []
    else
      var t := taken[|taken| - 1];
      AllRecords(taken[..|taken| - 1], head, continuity) + RecordsOf(t.leaf, t.index, head, continuity, t.inclusion)
  }

  // The entries of a run: consecutive from the start, each checked against its proof while
  // proofs are left, and passed exactly when the proof includes it.
  predicate TakenRight(merkle: Merkle, log: Log, proofs: nat, head: Head, start: nat, taken: seq<Taken>) {
    forall i :: 0 <= i < |taken| ==> TakenAt(merkle, log, proofs, head, start, i, taken[i])
  }

  predicate TakenAt(merkle: Merkle, log: Log, proofs: nat, head: Head, start: nat, i: nat, t: Taken) {
    && t.index == start + i && t.leaf.certificate.Some?
    && (i < proofs ==> t.inclusion == if IncludedBy(merkle, log, head, start + i, t.leaf) then Passed else Failed)
    && (i >= proofs ==> t.inclusion == NotPerformed)
  }

  // The entries of one response, the first being the n-th of its run.
  predicate BatchRight(merkle: Merkle, log: Log, proofs: nat, head: Head, start: nat, n: nat, leaves: seq<Leaf>, batch: seq<Taken>) {
    |batch| == |leaves| && forall i :: 0 <= i < |batch| ==> batch[i].leaf == leaves[i] && TakenAt(merkle, log, proofs, head, start, n + i, batch[i])
  }

  lemma BatchJoins(merkle: Merkle, log: Log, proofs: nat, head: Head, start: nat, taken: seq<Taken>, leaves: seq<Leaf>, batch: seq<Taken>)
    requires TakenRight(merkle, log, proofs, head, start, taken) && BatchRight(merkle, log, proofs, head, start, |taken|, leaves, batch)
    ensures TakenRight(merkle, log, proofs, head, start, taken + batch) && Leaves(taken + batch) == Leaves(taken) + leaves
  {
    forall i | |taken| <= i < |taken| + |batch| ensures TakenAt(merkle, log, proofs, head, start, i, (taken + batch)[i]) {
      assert (taken + batch)[i] == batch[i - |taken|];
    }
  }

  predicate IncludedBy(merkle: Merkle, log: Log, head: Head, index: nat, leaf: Leaf) {
    var p := log.proof(index);
    p.Some? && p.value.input == leaf.input && merkle.included(index, head, leaf.input, p.value.path)
  }

  function Import(records: map<(string, string), Record>, rs: seq<Record>): map<(string, string), Record> {
    if rs == [] then records
    else
      var r := rs[|rs| - 1];
      Import(records, rs[..|rs| - 1])[(r.name, r.certificate) := r]
  }

  predicate AllIncluded(taken: seq<Taken>) { forall i :: 0 <= i < |taken| ==> taken[i].inclusion == Passed }

  // Where a run stops at the latest, and where one of its requests does.
  function RunEnd(budget: Budget, head: Head, was: nat): nat { if was + budget.entries > head.size then head.size else was + budget.entries }
  function BatchEnd(budget: Budget, start: nat, end: nat): nat { if start + budget.batch > end then end else start + budget.batch }

  // A response a run accepts: not empty and within its range.
  predicate Acceptable(r: Option<seq<Leaf>>, start: nat, end: nat) { r.Some? && 0 < |r.value| && start + |r.value| <= end }

  // The leaves of consecutive responses from start, up to the end or the first short response.
  function Fetched(log: Log, budget: Budget, start: nat, end: nat): Option<seq<Leaf>>
    decreases if start < end then end - start else 0
  {
    if start >= end then Some([])
    else
      var stop := BatchEnd(budget, start, end);
      if stop <= start then None
      else
        var r := log.entries(start, stop - 1);
        if !Acceptable(r, start, stop) then None
        else if start + |r.value| < stop then r
        else Join(r.value, Fetched(log, budget, stop, end))
  }

  function Join(a: seq<Leaf>, rest: Option<seq<Leaf>>): Option<seq<Leaf>> { if rest.None? then None else Some(a + rest.value) }

  function Leaves(taken: seq<Taken>): (ls: seq<Leaf>)
    ensures |ls| == |taken| && forall i :: 0 <= i < |taken| ==> ls[i] == taken[i].leaf
  {
    if taken == [] then [] else Leaves(taken[..|taken| - 1]) + [taken[|taken| - 1].leaf]
  }

  // The request at k got fewer entries than it asked for, and they end the leaves of the run.
  predicate ShortAt(log: Log, budget: Budget, start: nat, end: nat, ls: seq<Leaf>, k: nat) {
    && start <= k < start + |ls| < BatchEnd(budget, k, end)
    && log.entries(k, BatchEnd(budget, k, end) - 1) == Some(ls[k - start..])
  }

  // A run's leaves reach its end, or the last response was short and the run stopped there.
  lemma {:induction false} FetchedEnds(log: Log, budget: Budget, start: nat, end: nat, ls: seq<Leaf>)
    requires Fetched(log, budget, start, end) == Some(ls) && start <= end
    ensures start + |ls| == end || exists k: nat :: ShortAt(log, budget, start, end, ls, k)
    ensures start + |ls| <= end
    decreases end - start
  {
    if start < end {
      var stop := BatchEnd(budget, start, end);
      var r := log.entries(start, stop - 1);
      if start + |r.value| < stop {
        assert ls[0..] == ls;
        assert ShortAt(log, budget, start, end, ls, start);
      } else {
        var rest := Fetched(log, budget, stop, end).value;
        FetchedEnds(log, budget, stop, end, rest);
        if k: nat :| ShortAt(log, budget, stop, end, rest, k) {
          assert ls[k - start..] == rest[k - stop..];
          assert ShortAt(log, budget, start, end, ls, k);
        }
      }
    }
  }

  // The log answers a run: every request gets an acceptable response, every entry holds a
  // certificate and has a proof.
  predicate Usable(log: Log, budget: Budget, was: nat, limit: nat) {
    var ls := Fetched(log, budget, was, limit);
    ls.Some? && Proper(log, was, ls.value)
  }

  predicate Proper(log: Log, start: nat, ls: seq<Leaf>) {
    forall i :: 0 <= i < |ls| ==> ls[i].certificate.Some? && log.proof(start + i).Some?
  }

  // A successful run from checkpoint was to checkpoint now.
  ghost predicate Advances(config: Config, merkle: Merkle, log: Log, was: Checkpoint, now: Checkpoint, taken: seq<Taken>, continuity: Status) {
    && log.head.Some? && was.next + |taken| == now.next <= log.head.value.size && |taken| <= config.budget.entries
    && TakenRight(merkle, log, config.budget.proofs, log.head.value, was.next, taken)
    && Fetched(log, config.budget, was.next, RunEnd(config.budget, log.head.value, was.next)) == Some(Leaves(taken))
    && now.key == config.key
    && (was.head.size == 0 <==> continuity == NotPerformed)
    && (continuity == Passed ==> Extends(merkle, log, was.head, log.head.value))
    && now.head == if Trusted(continuity) && AllIncluded(taken) then log.head.value else was.head
  }

  // ------------------------------------------------------------------- one run

  lemma JoinUnits(a: seq<Leaf>, rest: Option<seq<Leaf>>)
    ensures Join([], rest) == rest && Join(a, Some([])) == Some(a)
  {
    assert rest.Some? ==> [] + rest.value == rest.value;
    assert a + [] == a;
  }

  lemma JoinNext(a: seq<Leaf>, b: seq<Leaf>, rest: Option<seq<Leaf>>)
    ensures Join(a, Join(b, rest)) == Join(a + b, rest)
  {
    if rest.Some? {
      assert a + (b + rest.value) == a + b + rest.value;
    }
  }

  // The leaves so far and those still to come are the run's.
  predicate Progress(log: Log, budget: Budget, was: nat, limit: nat, ls: seq<Leaf>, start: nat, end: nat) {
    && Fetched(log, budget, was, limit) == Join(ls, if start < end then Fetched(log, budget, start, limit) else Some([]))
    && (start < end ==> end == limit)
  }

  lemma ProgressNext(log: Log, budget: Budget, was: nat, limit: nat, ls: seq<Leaf>, start: nat, r: seq<Leaf>)
    requires start < limit && Progress(log, budget, was, limit, ls, start, limit)
    requires var stop := BatchEnd(budget, start, limit); start < stop && log.entries(start, stop - 1) == Some(r) && Acceptable(Some(r), start, stop)
    ensures var stop, next := BatchEnd(budget, start, limit), start + |r|;
            Progress(log, budget, was, limit, ls + r, next, if next < stop then next else limit)
  {
    var stop := BatchEnd(budget, start, limit);
    var rest := if start + |r| < stop then Some([]) else Fetched(log, budget, stop, limit);
    JoinNext(ls, r, rest);
    JoinUnits(r, rest);
  }

  // Within a usable run the response at start is acceptable, and so are its entries.
  lemma UsableNext(log: Log, budget: Budget, was: nat, limit: nat, ls: seq<Leaf>, start: nat)
    requires start < limit && start == was + |ls| && Progress(log, budget, was, limit, ls, start, limit) && Usable(log, budget, was, limit)
    ensures var stop := BatchEnd(budget, start, limit);
            start < stop && Acceptable(log.entries(start, stop - 1), start, stop) && Proper(log, start, log.entries(start, stop - 1).value)
  {
    FetchedStarts(log, budget, start, limit);
    var r := log.entries(start, BatchEnd(budget, start, limit) - 1).value;
    ProperPart(log, was, ls, r, Fetched(log, budget, start, limit).value);
  }

  lemma FetchedStarts(log: Log, budget: Budget, start: nat, limit: nat)
    requires start < limit && Fetched(log, budget, start, limit).Some?
    ensures var stop := BatchEnd(budget, start, limit);
            && start < stop && Acceptable(log.entries(start, stop - 1), start, stop)
            && log.entries(start, stop - 1).value <= Fetched(log, budget, start, limit).value
  {
  }

  lemma ProperPart(log: Log, start: nat, ls: seq<Leaf>, r: seq<Leaf>, rest: seq<Leaf>)
    requires r <= rest && Proper(log, start, ls + rest)
    ensures Proper(log, start + |ls|, r)
  {
    forall i | 0 <= i < |r| ensures r[i].certificate.Some? && log.proof(start + |ls| + i).Some? {
      assert (ls + rest)[|ls| + i] == r[i] && start + (|ls| + i) == start + |ls| + i;
    }
  }

  lemma ProgressStarts(log: Log, budget: Budget, was: nat, limit: nat)
    requires was <= limit
    ensures Progress(log, budget, was, limit, Leaves([]), was, limit)
  {
    JoinUnits([], Fetched(log, budget, was, limit));
  }

  lemma ProgressEnds(log: Log, budget: Budget, was: nat, limit: nat, taken: seq<Taken>, end: nat)
    requires Progress(log, budget, was, limit, Leaves(taken), was + |taken|, end) && was + |taken| >= end
    ensures Fetched(log, budget, was, limit) == Some(Leaves(taken))
  {
    JoinUnits(Leaves(taken), None);
  }

  // What is taken is right, and what is still to come makes it the run's.
  predicate Along(log: Log, merkle: Merkle, budget: Budget, head: Head, was: nat, limit: nat, taken: seq<Taken>, end: nat) {
    && was + |taken| <= end <= limit && TakenRight(merkle, log, budget.proofs, head, was, taken)
    && Progress(log, budget, was, limit, Leaves(taken), was + |taken|, end)
  }

  lemma AlongNext(log: Log, merkle: Merkle, budget: Budget, head: Head, was: nat, limit: nat, taken: seq<Taken>, leaves: seq<Leaf>, batch: seq<Taken>)
    requires was + |taken| < limit && Along(log, merkle, budget, head, was, limit, taken, limit)
    requires var start := was + |taken|; var stop := BatchEnd(budget, start, limit);
             start < stop && log.entries(start, stop - 1) == Some(leaves) && Acceptable(Some(leaves), start, stop)
    requires BatchRight(merkle, log, budget.proofs, head, was, |taken|, leaves, batch)
    ensures var start := was + |taken|; var stop := BatchEnd(budget, start, limit);
            Along(log, merkle, budget, head, was, limit, taken + batch, if start + |leaves| < stop then start + |leaves| else limit)
  {
    var start := was + |taken|;
    var next := start + |leaves|;
    var end := if next < BatchEnd(budget, start, limit) then next else limit;
    ProgressNext(log, budget, was, limit, Leaves(taken), start, leaves);
    BatchJoins(merkle, log, budget.proofs, head, was, taken, leaves, batch);
    AlongFrom(log, merkle, budget, head, was, limit, taken + batch, Leaves(taken) + leaves, next, end);
  }

  lemma AlongFrom(log: Log, merkle: Merkle, budget: Budget, head: Head, was: nat, limit: nat, taken: seq<Taken>, ls: seq<Leaf>, next: nat, end: nat)
    requires Progress(log, budget, was, limit, ls, next, end) && TakenRight(merkle, log, budget.proofs, head, was, taken)
    requires ls == Leaves(taken) && next == was + |taken| <= end <= limit
    ensures Along(log, merkle, budget, head, was, limit, taken, end)
  {
  }

  class CollectionRun {
    const budget: Budget
    var requests: nat
    var bytes: nat
    var proofs: nat

    constructor (budget: Budget)
      ensures this.budget == budget && requests == bytes == proofs == 0
    {
      this.budget := budget;
      requests, bytes, proofs := 0, 0, 0;
    }

    predicate Within()
      reads this
    {
      requests <= budget.requests && proofs <= budget.proofs
    }

    // No request is left, or the byte limit is exceeded.
    predicate Exhausted()
      reads this
    {
      requests == budget.requests || bytes > budget.bytes
    }

    // The proofs used after n entries.
    function Proved(n: nat): nat { if n < budget.proofs then n else budget.proofs }

    method BeforeRequest() returns (ok: bool)
      requires Within()
      modifies this`requests
      ensures Within() && ok == (old(requests) < budget.requests)
      ensures requests == old(requests) + if ok then 1 else 0
    {
      ok := requests < budget.requests;
      if ok {
        requests := requests + 1;
      }
    }

    method AddBytes(count: nat) returns (ok: bool)
      modifies this`bytes
      ensures bytes == old(bytes) + count && ok == (bytes <= budget.bytes)
    {
      bytes := bytes + count;
      ok := bytes <= budget.bytes;
    }

    method GetHead(log: Log) returns (head: Option<Head>)
      requires Within()
      modifies this`requests, this`bytes
      ensures Within() && (head.Some? ==> head == log.head) && proofs == old(proofs)
      ensures head.None? ==> log.head.None? || Exhausted()
    {
      var ok := BeforeRequest();
      if !ok || log.head.None? {
        return None;
      }
      ok := AddBytes(log.headBytes);
      head := if ok then log.head else None;
    }

    method GetEntries(log: Log, start: nat, end: nat) returns (leaves: Option<seq<Leaf>>)
      requires Within()
      modifies this`requests, this`bytes
      ensures Within() && (leaves.Some? ==> leaves == log.entries(start, end) && bytes <= budget.bytes)
      ensures leaves.None? ==> log.entries(start, end).None? || Exhausted()
      ensures old(Exhausted()) ==> Exhausted()
    {
      var ok := BeforeRequest();
      leaves := log.entries(start, end);
      if !ok || leaves.None? {
        return None;
      }
      var size: nat := 0;
      for i := 0 to |leaves.value| {
        size := size + |leaves.value[i].input| + leaves.value[i].extra;
      }
      ok := AddBytes(size);
      if !ok {
        leaves := None;
      }
    }

    method VerifyContinuity(log: Log, merkle: Merkle, was: Head, head: Head) returns (status: Status)
      requires Within()
      modifies this`requests, this`bytes
      ensures Within()
      ensures status == NotPerformed <==> was.size == 0
      ensures status == Passed ==> Extends(merkle, log, was, head)
      ensures status == Failed ==> !Extends(merkle, log, was, head) || Exhausted()
      ensures old(Exhausted()) ==> Exhausted()
    {
      if was.size == 0 {
        return NotPerformed;
      }
      if head.size < was.size {
        return Failed;
      }
      if head.size == was.size {
        return if head.root == was.root then Passed else Failed;
      }
      var ok := BeforeRequest();
      if !ok || log.consistency.None? {
        return Failed;
      }
      var path := log.consistency.value;
      var size: nat := 0;
      for i := 0 to |path| {
        size := size + |path[i]|;
      }
      ok := AddBytes(size);
      if !ok || !merkle.consistent(was, head, path) {
        return Failed;
      }
      status := Passed;
    }

    method VerifyInclusion(log: Log, merkle: Merkle, head: Head, index: nat, leaf: Leaf) returns (status: Option<Status>)
      requires Within()
      modifies this`requests, this`bytes, this`proofs
      ensures Within()
      ensures old(proofs) == budget.proofs ==> status == Some(NotPerformed) && proofs == old(proofs)
      ensures old(proofs) < budget.proofs && status.Some? ==>
                proofs == old(proofs) + 1 && status == Some(if IncludedBy(merkle, log, head, index, leaf) then Passed else Failed)
      ensures status.None? ==> log.proof(index).None? || Exhausted()
      ensures status.Some? ==> bytes <= budget.bytes || bytes == old(bytes)
      ensures old(Exhausted()) ==> Exhausted()
    {
      if proofs >= budget.proofs {
        return Some(NotPerformed);
      }
      var ok := BeforeRequest();
      if !ok {
        return None;
      }
      proofs := proofs + 1;
      var response := log.proof(index);
      if response.None? {
        return None;
      }
      var p := response.value;
      var size: nat := |p.input| + p.extra;
      for i := 0 to |p.path| {
        size := size + |p.path[i]|;
      }
      ok := AddBytes(size);
      if !ok {
        return None;
      }
      status := Some(if p.input == leaf.input && merkle.included(index, head, leaf.input, p.path) then Passed else Failed);
    }

    // The n-th entry of a run, verified and parsed.
    method TakeEntry(log: Log, merkle: Merkle, head: Head, was: nat, n: nat, leaf: Leaf) returns (entry: Option<Taken>)
      requires Within() && bytes <= budget.bytes && proofs == Proved(n)
      modifies this`requests, this`bytes, this`proofs
      ensures Within() && (old(Exhausted()) ==> Exhausted())
      ensures entry.None? && leaf.certificate.Some? && log.proof(was + n).Some? ==> Exhausted()
      ensures entry.Some? ==> && bytes <= budget.bytes && proofs == Proved(n + 1) && entry.value.leaf == leaf
                              && TakenAt(merkle, log, budget.proofs, head, was, n, entry.value)
    {
      var inclusion := VerifyInclusion(log, merkle, head, was + n, leaf);
      if inclusion.None? || leaf.certificate.None? {
        return None;
      }
      entry := Some(Taken(was + n, leaf, inclusion.value));
    }

    // The entries of one response, verified and parsed in order.
    method TakeBatch(log: Log, merkle: Merkle, head: Head, was: nat, n: nat, leaves: seq<Leaf>) returns (more: Option<seq<Taken>>)
      requires Within() && bytes <= budget.bytes && proofs == Proved(n)
      modifies this`requests, this`bytes, this`proofs
      ensures Within() && (old(Exhausted()) ==> Exhausted())
      ensures more.None? && Proper(log, was + n, leaves) ==> Exhausted()
      ensures more.Some? ==> && bytes <= budget.bytes && proofs == Proved(n + |leaves|)
                             && BatchRight(merkle, log, budget.proofs, head, was, n, leaves, more.value)
    {
      var all: seq<Taken> := [];
      for i := 0 to |leaves|
        invariant Within() && bytes <= budget.bytes && (old(Exhausted()) ==> Exhausted()) && proofs == Proved(n + i)
        invariant BatchRight(merkle, log, budget.proofs, head, was, n, leaves[..i], all)
      {
        var entry := TakeEntry(log, merkle, head, was, n + i, leaves[i]);
        if entry.None? {
          return None;
        }
        all := all + [entry.value];
      }
      assert leaves[..|leaves|] == leaves;
      more := Some(all);
    }

    // One request from start.
    method FetchBatch(log: Log, start: nat, end: nat) returns (leaves: Option<seq<Leaf>>, batchEnd: nat)
      requires Within() && ValidBudget(budget) && start < end
      modifies this`requests, this`bytes
      ensures Within() && (old(Exhausted()) ==> Exhausted())
      ensures batchEnd == BatchEnd(budget, start, end) > start
      ensures leaves.Some? ==> leaves == log.entries(start, batchEnd - 1) && Acceptable(leaves, start, batchEnd) && bytes <= budget.bytes
      ensures leaves.None? && Acceptable(log.entries(start, batchEnd - 1), start, batchEnd) ==> Exhausted()
    {
      batchEnd := start + budget.batch;
      if batchEnd > end {
        batchEnd := end;
      }
      leaves := GetEntries(log, start, batchEnd - 1);
      if leaves.Some? && (|leaves.value| == 0 || |leaves.value| > batchEnd - start) {
        leaves := None;
      }
    }

    // One request from start, verified and appended; a short response moves the end there.
    method TakeOne(log: Log, merkle: Merkle, head: Head, was: nat, taken: seq<Taken>, end: nat, ghost usable: bool)
      returns (more: Option<seq<Taken>>, newEnd: nat)
      requires Within() && ValidBudget(budget) && was + |taken| < end && Along(log, merkle, budget, head, was, end, taken, end) && proofs == Proved(|taken|)
      modifies this`requests, this`bytes, this`proofs
      ensures Within() && (old(Exhausted()) ==> Exhausted()) && (more.Some? ==> proofs == Proved(|more.value|))
      requires usable ==> Usable(log, budget, was, end)
      ensures more.None? && usable ==> Exhausted()
      ensures more.Some? ==> bytes <= budget.bytes && |taken| < |more.value| && newEnd <= end && Along(log, merkle, budget, head, was, end, more.value, newEnd)
    {
      var start := was + |taken|;
      newEnd := end;
      if usable {
        UsableNext(log, budget, was, end, Leaves(taken), start);
      }
      var leaves, batchEnd := FetchBatch(log, start, end);
      if leaves.None? {
        return None, end;
      }
      var batch := TakeBatch(log, merkle, head, was, |taken|, leaves.value);
      if batch.None? {
        return None, end;
      }
      AlongNext(log, merkle, budget, head, was, end, taken, leaves.value, batch.value);
      more := Some(taken + batch.value);
      if start + |leaves.value| < batchEnd {
        newEnd := start + |leaves.value|;
      }
    }

    // Batches up to the run's end; a short response ends the run there.
    method TakeAll(log: Log, merkle: Merkle, head: Head, was: nat) returns (taken: Option<seq<Taken>>)
      requires Within() && ValidBudget(budget) && was <= head.size && proofs == 0
      modifies this`requests, this`bytes, this`proofs
      ensures Within() && (old(Exhausted()) ==> Exhausted())
      ensures taken.None? && Usable(log, budget, was, RunEnd(budget, head, was)) ==> Exhausted()
      ensures taken.Some? ==> Fetched(log, budget, was, RunEnd(budget, head, was)) == Some(Leaves(taken.value))
      ensures taken.Some? ==> && TakenRight(merkle, log, budget.proofs, head, was, taken.value) && |taken.value| <= budget.entries
                              && was + |taken.value| <= head.size && (|taken.value| > 0 ==> bytes <= budget.bytes)
                              && (|taken.value| == 0 ==> was == head.size)
    {
      var end: nat := was + budget.entries;
      if end > head.size {
        end := head.size;
      }
      ghost var limit := end;
      ghost var usable := Usable(log, budget, was, RunEnd(budget, head, was));
      assert limit == RunEnd(budget, head, was);
      ProgressStarts(log, budget, was, limit);
      var all: seq<Taken> := [];
      while was + |all| < end
        invariant Within() && Along(log, merkle, budget, head, was, limit, all, end) && (|all| > 0 ==> bytes <= budget.bytes)
        invariant (old(Exhausted()) ==> Exhausted()) && proofs == Proved(|all|)
        invariant |all| == 0 ==> end == limit
        decreases end - |all|
      {
        var more, newEnd := TakeOne(log, merkle, head, was, all, end, usable);
        if more.None? {
          return None;
        }
        all, end := more.value, newEnd;
      }
      ProgressEnds(log, budget, was, limit, all, end);
      taken := Some(all);
    }
  }

  // --------------------------------------------------------------- store and commit

  predicate Regresses(now: Checkpoint, current: Checkpoint) {
    now.next < current.next || (now.next == current.next && now.head.size < current.head.size)
  }

  class MemoryStore {
    var records: map<(string, string), Record>
    var checkpoints: map<string, Checkpoint>

    constructor ()
      ensures records == map[] && checkpoints == map[]
    {
      records, checkpoints := map[], map[];
    }

    method LoadCheckpoint(logId: string) returns (c: Option<Checkpoint>)
      ensures c == if logId in checkpoints then Some(checkpoints[logId]) else None
    {
      c := if logId in checkpoints then Some(checkpoints[logId]) else None;
    }

    method ImportLocked(rs: seq<Record>)
      modifies this`records
      ensures records == Import(old(records), rs)
    {
      for i := 0 to |rs|
        invariant records == Import(old(records), rs[..i])
      {
        assert rs[..i + 1][..i] == rs[..i];
        records := records[(rs[i].name, rs[i].certificate) := rs[i]];
      }
      assert rs[..|rs|] == rs;
    }

    method CommitCollection(logId: string, rs: seq<Record>, now: Checkpoint, cancelled: bool) returns (ok: bool)
      modifies this
      ensures ok <==> !cancelled && !(logId in old(checkpoints) && Regresses(now, old(checkpoints)[logId]))
      ensures ok ==> records == Import(old(records), rs) && checkpoints == old(checkpoints)[logId := now]
      ensures !ok ==> records == old(records) && checkpoints == old(checkpoints)
    {
      if cancelled || (logId in checkpoints && Regresses(now, checkpoints[logId])) {
        return false;
      }
      ImportLocked(rs);
      checkpoints := checkpoints[logId := now];
      ok := true;
    }
  }

  // Collect: a failed run changes nothing, and fails only if it is cancelled, the checkpoint is
  // under another key, the log has no head or one behind the checkpoint, its answers are not
  // usable or the requests or bytes ran out; a successful one advances the checkpoint over
  // exactly the entries it stores, within its budget.
  method Collect(store: MemoryStore, config: Config, merkle: Merkle, log: Log, cancelled: bool)
    returns (ok: bool, requests: nat, proofs: nat, bytes: nat, taken: seq<Taken>, continuity: Status)
    requires ValidBudget(config.budget)
    modifies store
    ensures requests <= config.budget.requests && proofs <= config.budget.proofs
    ensures !ok ==> store.records == old(store.records) && store.checkpoints == old(store.checkpoints)
    ensures var was := if config.logId in old(store.checkpoints) then old(store.checkpoints)[config.logId] else FirstCheckpoint(config);
            && (!ok ==> cancelled || was.key !in {"", config.key} || log.head.None? || log.head.value.size < was.next
                        || !Usable(log, config.budget, was.next, RunEnd(config.budget, log.head.value, was.next))
                        || requests == config.budget.requests || bytes > config.budget.bytes)
            && (ok && continuity == Failed ==>
                  log.head.Some? && (!Extends(merkle, log, was.head, log.head.value) || requests == config.budget.requests || bytes > config.budget.bytes))
    ensures var was := if config.logId in old(store.checkpoints) then old(store.checkpoints)[config.logId] else FirstCheckpoint(config);
            ok ==> && config.logId in store.checkpoints && log.head.Some?
                   && Advances(config, merkle, log, was, store.checkpoints[config.logId], taken, continuity)
                   && store.checkpoints == old(store.checkpoints)[config.logId := store.checkpoints[config.logId]]
                   && store.records == Import(old(store.records), AllRecords(taken, log.head.value, continuity))
                   && (taken != [] ==> bytes <= config.budget.bytes)
                   && (taken == [] ==> was.next == log.head.value.size)
  {
    ok, requests, proofs, bytes, taken, continuity := false, 0, 0, 0, [], NotPerformed;
    var stored := store.LoadCheckpoint(config.logId);
    var was := if stored.Some? then stored.value else FirstCheckpoint(config);
    if was.key != "" && was.key != config.key {
      return;
    }
    var run := new CollectionRun(config.budget);
    var head := run.GetHead(log);
    if head.None? || head.value.size < was.next {
      requests, bytes := run.requests, run.bytes;
      return;
    }
    continuity := run.VerifyContinuity(log, merkle, was.head, head.value);
    var all := run.TakeAll(log, merkle, head.value, was.next);
    requests, proofs, bytes := run.requests, run.proofs, run.bytes;
    if all.None? {
      return;
    }
    taken := all.value;
    var records, included := CollectRecords(taken, head.value, continuity);
    var now := Checkpoint(was.next + |taken|, if Trusted(continuity) && included then head.value else was.head, config.key);
    ok := store.CommitCollection(config.logId, records, now, cancelled);
  }

  lemma RecordsNext(taken: seq<Taken>, i: nat, head: Head, continuity: Status)
    requires i < |taken|
    ensures AllRecords(taken[..i + 1], head, continuity)
            == AllRecords(taken[..i], head, continuity) + RecordsOf(taken[i].leaf, taken[i].index, head, continuity, taken[i].inclusion)
  {
    var t := taken[..i + 1];
    assert |t| - 1 == i && t[..i] == taken[..i] && t[i] == taken[i];
  }

  lemma IncludedNext(taken: seq<Taken>, i: nat)
    requires i < |taken|
    ensures AllIncluded(taken[..i + 1]) <==> AllIncluded(taken[..i]) && taken[i].inclusion == Passed
  {
  }

  method CollectRecords(taken: seq<Taken>, head: Head, continuity: Status) returns (records: seq<Record>, included: bool)
    ensures records == AllRecords(taken, head, continuity) && (included <==> AllIncluded(taken))
  {
    records, included := [], true;
    for i := 0 to |taken|
      invariant records == AllRecords(taken[..i], head, continuity) && (included <==> AllIncluded(taken[..i]))
    {
      RecordsNext(taken, i, head, continuity);
      IncludedNext(taken, i);
      included := included && taken[i].inclusion == Passed;
      records := records + RecordsOf(taken[i].leaf, taken[i].index, head, continuity, taken[i].inclusion);
    }
    assert taken[..|taken|] == taken;
  }

  lemma {:induction false} UniqueHolds(names: seq<Option<string>>, name: string)
    ensures name in Unique(names) <==> Some(name) in names
  {
    if names != [] {
      UniqueHolds(names[..|names| - 1], name);
    }
  }

  // A record of an entry: one of its certificate's valid names, with verified provenance
  // exactly when the entry's inclusion passed and continuity did not fail.
  predicate RecordOf(t: Taken, head: Head, continuity: Status, r: Record) {
    && t.leaf.certificate.Some? && Some(r.name) in t.leaf.certificate.value.names && r.certificate == t.leaf.certificate.value.hash
    && r.index == t.index && r.head == head && (r.provenance == VerifiedLog <==> t.inclusion == Passed && continuity != Failed)
  }

  lemma EntryRecords(t: Taken, head: Head, continuity: Status, r: Record)
    ensures r in RecordsOf(t.leaf, t.index, head, continuity, t.inclusion) <==> RecordOf(t, head, continuity, r)
  {
    if t.leaf.certificate.Some? {
      var c := t.leaf.certificate.value;
      UniqueHolds(c.names, r.name);
      var rs := Stamped(Unique(c.names), c, t.index, head, Entitled(continuity, t.inclusion));
      if r in rs {
        var i :| 0 <= i < |rs| && rs[i] == r;
        assert r.name == Unique(c.names)[i];
      }
      if RecordOf(t, head, continuity, r) {
        var i :| 0 <= i < |Unique(c.names)| && Unique(c.names)[i] == r.name;
        assert rs[i] == r;
      }
    }
  }

  // The records of a run are exactly those of its entries.
  lemma {:induction false} RecordsInWords(taken: seq<Taken>, head: Head, continuity: Status, r: Record)
    ensures r in AllRecords(taken, head, continuity) <==> exists i :: 0 <= i < |taken| && RecordOf(taken[i], head, continuity, r)
  {
    if taken != [] {
      var n := |taken| - 1;
      RecordsInWords(taken[..n], head, continuity, r);
      EntryRecords(taken[n], head, continuity, r);
      assert taken == taken[..n] + [taken[n]];
    }
  }

  // A record claims verified provenance only for an entry proved to be in a tree head that
  // continues the last verified one.
  lemma {:induction false} VerifiedIsProved(merkle: Merkle, log: Log, proofs: nat, head: Head, start: nat, taken: seq<Taken>, continuity: Status, r: Record)
    requires TakenRight(merkle, log, proofs, head, start, taken) && r in AllRecords(taken, head, continuity)
    ensures r.head == head && start <= r.index < start + |taken|
    ensures r.provenance == VerifiedLog ==> Trusted(continuity) && IncludedBy(merkle, log, head, r.index, taken[r.index - start].leaf)
  {
    var i := RecordFrom(taken, head, continuity, r);
    VerifiedEntry(merkle, log, proofs, head, start, i, taken[i], continuity, r);
  }

  lemma VerifiedEntry(merkle: Merkle, log: Log, proofs: nat, head: Head, start: nat, i: nat, t: Taken, continuity: Status, r: Record)
    requires TakenAt(merkle, log, proofs, head, start, i, t) && RecordOf(t, head, continuity, r)
    ensures r.head == head && r.index == start + i
    ensures r.provenance == VerifiedLog ==> Trusted(continuity) && IncludedBy(merkle, log, head, start + i, t.leaf)
  {
  }

  lemma {:induction false} RecordFrom(taken: seq<Taken>, head: Head, continuity: Status, r: Record) returns (i: nat)
    requires r in AllRecords(taken, head, continuity)
    ensures i < |taken| && RecordOf(taken[i], head, continuity, r)
  {
    RecordsInWords(taken, head, continuity, r);
    i :| 0 <= i < |taken| && RecordOf(taken[i], head, continuity, r);
  }

  // An import keeps, for each name and certificate, the last record given, or what was there.
  lemma {:induction false} ImportKeepsLast(records: map<(string, string), Record>, rs: seq<Record>, i: nat)
    requires i < |rs| && forall j :: i < j < |rs| ==> (rs[j].name, rs[j].certificate) != (rs[i].name, rs[i].certificate)
    ensures var n := Import(records, rs); var k := (rs[i].name, rs[i].certificate); k in n && n[k] == rs[i]
  {
    var last := |rs| - 1;
    if i < last {
      assert rs[..last][i] == rs[i];
      ImportKeepsLast(records, rs[..last], i);
    }
  }

  lemma {:induction false} ImportKeepsOthers(records: map<(string, string), Record>, rs: seq<Record>, k: (string, string))
    requires forall j :: 0 <= j < |rs| ==> (rs[j].name, rs[j].certificate) != k
    ensures var n := Import(records, rs); (k in n <==> k in records) && (k in records ==> n[k] == records[k])
  {
    if rs != [] {
      ImportKeepsOthers(records, rs[..|rs| - 1], k);
    }
  }

  // A first run begins at the configured index, or at the initial checkpoint's; only an
  // initial head that is trusted is continued, any other is forgotten.
  lemma FirstRunTrust(config: Config, merkle: Merkle, log: Log, now: Checkpoint, taken: seq<Taken>, continuity: Status)
    requires Advances(config, merkle, log, FirstCheckpoint(config), now, taken, continuity)
    ensures now.next == |taken| + if config.initial.Some? then config.initial.value.next else config.start
    ensures continuity != NotPerformed ==> config.initial.Some? && config.trustInitial
    ensures continuity == Passed ==> Extends(merkle, log, config.initial.value.head, log.head.value)
    ensures now.head == log.head.value || now.head == Head(0, "") || (config.trustInitial && config.initial.Some? && now.head == config.initial.value.head)
  {
  }

  // ---------------------------------------------------------------- runs of one log

  // A run as the ledger sees it: it failed, or it advanced.
  datatype Run = Failure | Success(log: Log, taken: seq<Taken>, continuity: Status, now: Checkpoint)

  // ingested: the indices taken in, in order; heads: the verified head before the first run
  // and after each successful one.
  datatype Ledger = Ledger(checkpoint: Checkpoint, ingested: seq<nat>, heads: seq<Head>)

  function Opening(config: Config): Ledger { Ledger(FirstCheckpoint(config), [], [FirstCheckpoint(config).head]) }

  ghost predicate CanRun(config: Config, merkle: Merkle, a: Ledger, run: Run) {
    run.Success? ==> Advances(config, merkle, run.log, a.checkpoint, run.now, run.taken, run.continuity)
  }

  function Indices(taken: seq<Taken>): (ix: seq<nat>)
    ensures |ix| == |taken| && forall i :: 0 <= i < |taken| ==> ix[i] == taken[i].index
  {
    if taken == [] then [] else Indices(taken[..|taken| - 1]) + [taken[|taken| - 1].index]
  }

  function After(a: Ledger, run: Run): Ledger {
    if run.Failure? then a else Ledger(run.now, a.ingested + Indices(run.taken), a.heads + [run.now.head])
  }

  ghost predicate Reaches(config: Config, merkle: Merkle, a: Ledger, runs: seq<Run>, b: Ledger)
    decreases |runs|
  {
    if runs == [] then b == a else CanRun(config, merkle, a, runs[0]) && Reaches(config, merkle, After(a, runs[0]), runs[1..], b)
  }

  // Exactly the indices from the start up to the next one, each once and in order.
  predicate Contiguous(config: Config, a: Ledger) {
    && a.checkpoint.next == FirstCheckpoint(config).next + |a.ingested|
    && forall i :: 0 <= i < |a.ingested| ==> a.ingested[i] == FirstCheckpoint(config).next + i
  }

  // Each verified head continues the one before, and sizes never fall.
  ghost predicate Chained(merkle: Merkle, a: Ledger) {
    && a.heads != [] && a.heads[|a.heads| - 1] == a.checkpoint.head
    && (forall i :: 0 <= i < |a.heads| - 1 ==> Linked(merkle, a.heads[i], a.heads[i + 1]))
  }

  ghost predicate Linked(merkle: Merkle, was: Head, now: Head) { was.size <= now.size && Continues(merkle, was, now) }

  lemma RunKeeps(config: Config, merkle: Merkle, a: Ledger, run: Run)
    requires Contiguous(config, a) && Chained(merkle, a) && CanRun(config, merkle, a, run)
    ensures Contiguous(config, After(a, run)) && Chained(merkle, After(a, run))
  {
    if run.Success? {
      HeadLinked(config, merkle, a.checkpoint, run);
    }
  }

  lemma HeadLinked(config: Config, merkle: Merkle, was: Checkpoint, run: Run)
    requires run.Success? && Advances(config, merkle, run.log, was, run.now, run.taken, run.continuity)
    ensures Linked(merkle, was.head, run.now.head)
  {
  }

  lemma {:induction false} RunsKeep(config: Config, merkle: Merkle, a: Ledger, runs: seq<Run>, b: Ledger)
    requires Contiguous(config, a) && Chained(merkle, a) && Reaches(config, merkle, a, runs, b)
    ensures Contiguous(config, b) && Chained(merkle, b)
    decreases |runs|
  {
    if runs != [] {
      RunKeeps(config, merkle, a, runs[0]);
      RunsKeep(config, merkle, After(a, runs[0]), runs[1..], b);
    }
  }

  // Across any sequence of runs of one collector, failed or short ones included, the ingested
  // indices are exactly a contiguous range from the start, and every verified head equals or
  // is consistency-proved against its predecessor once one is non-empty.
  lemma IngestionIsContiguous(config: Config, merkle: Merkle, runs: seq<Run>, b: Ledger)
    requires Reaches(config, merkle, Opening(config), runs, b)
    ensures Contiguous(config, b) && Chained(merkle, b)
  {
    RunsKeep(config, merkle, Opening(config), runs, b);
  }

  lemma {:induction false} SizesNeverFall(merkle: Merkle, b: Ledger, i: nat, j: nat)
    requires Chained(merkle, b) && i <= j < |b.heads|
    ensures b.heads[i].size <= b.heads[j].size
    decreases j - i
  {
    if i < j {
      assert Linked(merkle, b.heads[j - 1], b.heads[(j - 1) + 1]);
      SizesNeverFall(merkle, b, i, j - 1);
    }
  }
}
