// The store methods of the embedding index, statement by statement, each proved equal to
// the one-step function on tables that the invariants of `Embedding` are about.
module EmbeddingStore {
  import opened Options
  import opened Embedding

  class Store {
    var assets: map<string, nat>
    var tombstones: map<string, nat>
    var contexts: map<ContextKey, Context>
    var generations: map<string, Generation>
    var tasks: map<RowKey, Task>
    var vectors: map<RowKey, VectorRow>
    var vectorStorage: bool

    function View(): Tables
      reads this
    {
      Tables(assets, tombstones, contexts, generations, tasks, vectors, vectorStorage)
    }

    constructor ()
      ensures View() == Empty().db
    {
      assets, tombstones, contexts, generations := map[], map[], map[], map[];
      tasks, vectors, vectorStorage := map[], map[], false;
    }

    // UPDATE ... SET status='retained' WHERE status='active', then activate g.
    method SelectGeneration(g: string, now: int)
      requires g in generations
      modifies this`generations
      ensures View() == Select(old(View()), g, now)
    {
      generations := map h | h in generations ::
        if generations[h].status == Active then generations[h].(status := Retained, retainedAt := Some(now)) else generations[h];
      generations := generations[g := generations[g].(status := Active, retainedAt := None)];
    }

    method BeginGeneration(g: string, contract: Contract) returns (r: Outcome<nat>)
      modifies this`generations, this`tasks
      ensures (r, View()) == Begin(old(View()), g, contract)
    {
      if !vectorStorage {
        return Err(CapabilityUnavailable);
      }
      if g in generations {
        return Err(IdempotencyConflict);
      }
      generations := generations[g := Generation(contract, Building, None)];
      var described := set c | c in contexts && contexts[c].stamp.hash != "";
      assert described == Eligible(old(View()));
      var rows := set c | c in described :: RowKey(c, g);
      tasks := tasks + map row | row in rows :: FreshTask(contexts[row.owner].stamp);
      assert tasks == old(tasks) + TasksFor(old(View()), described, g);
      r := Ok(|described|);
    }

    method ActivateGeneration(g: string, now: int) returns (r: Outcome<Coverage>)
      modifies this`generations
      ensures (r, View()) == Activate(old(View()), g, now)
    {
      if g == "" {
        return Err(InvalidOptions);
      }
      if g !in generations {
        return Err(NotFound);
      }
      if generations[g].status != Building {
        return Err(InvalidOptions);
      }
      var coverage := CoverageOf(View(), g);
      if coverage.pending != 0 {
        return Err(CapabilityUnavailable);
      }
      SelectGeneration(g, now);
      r := Ok(coverage);
    }

    method RollbackGeneration(g: string, now: int) returns (r: Outcome<Coverage>)
      modifies this`generations, this`tasks
      ensures (r, View()) == Rollback(old(View()), g, now)
    {
      if g == "" {
        return Err(InvalidOptions);
      }
      if g !in generations {
        return Err(NotFound);
      }
      if generations[g].status != Retained || !WithinWindow(generations[g], now) {
        return Err(CapabilityUnavailable);
      }
      SelectGeneration(g, now);
      ghost var selected := View();
      var gaps := set c | c in contexts && contexts[c].stamp.hash != "" &&
                          !(RowKey(c, g) in vectors && vectors[RowKey(c, g)].stamp == contexts[c].stamp);
      assert gaps == set c | c in Eligible(selected) && !Indexed(selected, c, g);
      var rows := set c | c in gaps :: RowKey(c, g);
      tasks := tasks + map row | row in rows :: FreshTask(contexts[row.owner].stamp);
      assert tasks == selected.tasks + TasksFor(selected, gaps, g);
      r := Ok(CoverageOf(View(), g));
    }

    // Deleting the generation row cascades to its tasks and vectors.
    method PruneGeneration(g: string, now: int) returns (r: Outcome<()>)
      modifies this`generations, this`tasks, this`vectors
      ensures (r, View()) == Prune(old(View()), g, now)
    {
      if g !in generations {
        return Err(NotFound);
      }
      if !Expired(generations[g], now) {
        return Err(CapabilityUnavailable);
      }
      generations := generations - {g};
      tasks := map row | row in tasks && row.generation != g :: tasks[row];
      vectors := map row | row in vectors && row.generation != g :: vectors[row];
      r := Ok(());
    }

    // The part of projection publication that writes the description and its embedding work.
    method PublishDescription(w: World, c: ContextKey, generation: nat, document: Document, replace: bool)
      modifies this`contexts, this`tasks, this`vectors
      ensures View() == Describe(w, old(View()), c, generation, document, replace)
    {
      if c.asset !in assets || assets[c.asset] != generation {
        return;
      }
      if c !in contexts {
        contexts := contexts[c := Context(Document("", ""), Stamp(0, "", generation))];
      }
      if !replace {
        return;
      }
      ghost var before := View();
      assert before == Opened(old(View()), c, generation);
      var previousHash := contexts[c].stamp.hash;
      var revision := contexts[c].stamp.revision + 1;
      var currentHash := w.hash(document);
      contexts := contexts[c := Context(document, Stamp(revision, currentHash, contexts[c].stamp.deletionGeneration))];
      assert View() == Republished(w, before, c, document);
      if currentHash != previousHash {
        QueueWork(c, Stamp(revision, currentHash, generation));
      } else {
        AdvanceWork(c, Stamp(revision, currentHash, generation));
      }
    }

    method QueueWork(c: ContextKey, stamp: Stamp)
      modifies this`tasks
      ensures View() == Requeue(old(View()), c, stamp)
    {
      var rows := set g | g in generations && (generations[g].status == Building || generations[g].status == Active) :: RowKey(c, g);
      assert rows == LiveRows(View(), c);
      tasks := tasks + map row | row in rows :: FreshTask(stamp);
    }

    // Two UPDATEs whose WHERE clause is the owner, the hash and the deletion generation.
    method AdvanceWork(c: ContextKey, stamp: Stamp)
      modifies this`tasks, this`vectors
      ensures View() == Advance(old(View()), c, stamp)
    {
      tasks := map row | row in tasks ::
        if row.owner == c && SameDescription(tasks[row].stamp, stamp)
        then tasks[row].(stamp := tasks[row].stamp.(revision := stamp.revision)) else tasks[row];
      vectors := map row | row in vectors ::
        if row.owner == c && SameDescription(vectors[row].stamp, stamp)
        then vectors[row].(stamp := vectors[row].stamp.(revision := stamp.revision)) else vectors[row];
    }

    // Any eligible row may be chosen: SKIP LOCKED passes over rows other workers hold.
    method ClaimEmbedding(row: RowKey, token: Token, now: int) returns (claim: Option<Worker>)
      modifies this`tasks
      ensures claim.Some? <==> Claimable(old(View()), row, now)
      ensures claim.Some? ==> View() == Claim(old(View()), row, token, now)
      ensures claim.Some? ==> claim.value == Worker(row, old(tasks)[row].stamp.hash, old(tasks)[row].stamp.deletionGeneration,
                                                    generations[row.generation].contract, None)
      ensures claim.None? ==> View() == old(View())
    {
      if !Claimable(View(), row, now) {
        return None;
      }
      var task := tasks[row];
      claim := Some(Worker(row, task.stamp.hash, task.stamp.deletionGeneration, generations[row.generation].contract, None));
      tasks := tasks[row := task.(status := Running, attempts := task.attempts + 1,
                                  token := Some(token), leaseExpires := Some(now + LEASE_SECONDS))];
    }

    method PublishEmbedding(row: RowKey, token: Token, embedding: Vector, now: int)
      modifies this`tasks, this`vectors
      ensures View() == Publish(old(View()), row, token, embedding, now)
    {
      if !HoldsLease(View(), row, token, now) {
        return;
      }
      if row.owner !in contexts || row.generation !in generations {
        return;
      }
      var task, current, status := tasks[row].stamp, contexts[row.owner].stamp, generations[row.generation].status;
      if current.revision != task.revision || current.hash != task.hash || current.deletionGeneration != task.deletionGeneration
         || (status != Building && status != Active) {
        return;
      }
      vectors := vectors[row := VectorRow(task, embedding)];
      tasks := tasks - {row};
    }

    method FailEmbedding(row: RowKey, token: Token, now: int)
      modifies this`tasks
      ensures View() == Fail(old(View()), row, token, now)
    {
      if row in tasks && tasks[row].token == Some(token) {
        var attempts := tasks[row].attempts;
        tasks := tasks[row := tasks[row].(status := Failed, token := None, leaseExpires := None,
                                          nextAttempt := Some(now + Backoff(attempts)))];
      }
    }

    // Deleting the asset row cascades to contexts, tasks and vectors.
    method DeleteInventory(asset: string) returns (generation: nat)
      modifies this
      ensures View() == DeleteAsset(old(View()), asset)
      ensures asset in tombstones && generation == tombstones[asset] > 0
    {
      generation := if asset in tombstones then tombstones[asset] + 1 else 1;
      tombstones := tombstones[asset := generation];
      assets := assets - {asset};
      contexts := map c | c in contexts && c.asset != asset :: contexts[c];
      tasks := map row | row in tasks && row.owner.asset != asset :: tasks[row];
      vectors := map row | row in vectors && row.owner.asset != asset :: vectors[row];
    }
  }
}
