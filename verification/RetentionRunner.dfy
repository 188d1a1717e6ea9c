/** The retention runner's loops, batch by batch, on the tables it empties. */
module RetentionRunner {
  import opened Arithmetic
  import opened Domain
  import opened Retention
  import opened RetentionColumns

  function Rows(db: Database): nat {
    |db.results| + |db.checks| + |db.deliveries| + |db.outbox| + |db.incidents| + |db.audits|
  }

  lemma MapMinus<V>(m: map<Id, V>, gone: set<Id>)
    requires gone <= m.Keys
    ensures |m - gone| == |m| - |gone|
  {
    assert (m - gone).Keys == m.Keys - gone;
    SubsetSizes(gone, m.Keys);
  }

  lemma RemovedRows(db: Database, step: Step, gone: set<Id>)
    requires gone <= Ids(db, step)
    ensures Rows(Remove(db, step, gone)) == Rows(db) - |gone|
  {
    match step
    case CheckResults => MapMinus(db.results, gone);
    case ScheduledChecks => MapMinus(db.checks, gone);
    case NotificationDeliveries => MapMinus(db.deliveries, gone);
    case NotificationOutbox => MapMinus(db.outbox, gone);
    case Incidents => MapMinus(db.incidents, gone);
    case AuditLogs => MapMinus(db.audits, gone);
  }

  lemma RemoveTwice(db: Database, step: Step, a: set<Id>, b: set<Id>)
    ensures Remove(Remove(db, step, a), step, b) == Remove(db, step, a + b)
  {
    var once, both := Remove(Remove(db, step, a), step, b), Remove(db, step, a + b);
    match step
    case CheckResults => assert once.results == both.results;
    case ScheduledChecks => assert once.checks == both.checks;
    case NotificationDeliveries => assert once.deliveries == both.deliveries;
    case NotificationOutbox => assert once.outbox == both.outbox;
    case Incidents => assert once.incidents == both.incidents;
    case AuditLogs => assert once.audits == both.audits;
  }

  lemma CandidatesExist(db: Database, step: Step, cut: Cutoffs)
    ensures Eligible(db, step, cut) <= Ids(db, step)
  {}

  /** The state of a step after some batches: the oldest rows are gone, all batches so far were full or the last was short. */
  ghost predicate Batched(before: Database, now: Database, step: Step, cut: Cutoffs, gone: set<Id>) {
    var candidates := Eligible(before, step, cut);
    candidates <= Ids(before, step) && gone <= candidates && now == Remove(before, step, gone)
    && OldestFirst(before, step, candidates, gone)
  }

  /** A batch of the oldest remaining candidates extends the oldest rows gone. */
  lemma BatchExtends(before: Database, now: Database, step: Step, cut: Cutoffs, gone: set<Id>, batch: set<Id>)
    requires Batched(before, now, step, cut, gone)
    requires Eligible(now, step, cut) <= Ids(now, step) && batch <= Eligible(now, step, cut)
    requires OldestFirst(now, step, Eligible(now, step, cut), batch)
    ensures Batched(before, Remove(now, step, batch), step, cut, gone + batch)
    ensures Eligible(now, step, cut) == Eligible(before, step, cut) - gone
    ensures |gone + batch| == |gone| + |batch|
  {
    var candidates := Eligible(before, step, cut);
    OwnCandidates(before, step, cut, gone);
    RemoveTwice(before, step, gone, batch);
    forall i, j | i in gone + batch && j in candidates - (gone + batch) ensures Before(before, step, i, j) {
      if i in batch { assert Before(now, step, i, j); }
    }
    assert gone !! batch;
  }

  lemma BatchCounts(before: Database, now: Database, step: Step, cut: Cutoffs, gone: set<Id>, batch: set<Id>)
    requires Batched(before, now, step, cut, gone)
    requires Eligible(now, step, cut) <= Ids(now, step) && batch <= Eligible(now, step, cut)
    requires OldestFirst(now, step, Eligible(now, step, cut), batch)
    ensures Batched(before, Remove(now, step, batch), step, cut, gone + batch)
    ensures |Eligible(now, step, cut)| == |Eligible(before, step, cut)| - |gone| && |gone + batch| == |gone| + |batch|
  {
    BatchExtends(before, now, step, cut, gone, batch);
    SubsetSizes(gone, Eligible(before, step, cut));
  }

  lemma NothingBatched(before: Database, step: Step, cut: Cutoffs)
    ensures Batched(before, before, step, cut, {})
  {
    CandidatesExist(before, step, cut);
    assert before == Remove(before, step, {});
  }

  /** A short batch takes all that is left, which is less than the limit allows. */
  lemma ShortBatch(total: nat, size: nat, max: nat, batches: nat, affected: nat)
    requires batches < max && size * batches <= total && affected == Least(total - size * batches, size)
    ensures size * (batches + 1) == size * batches + size <= size * max
    ensures affected < size ==> size * batches + affected == total < size * max && total / size == batches
  {
    assert size * (batches + 1) <= size * max;
    if affected < size { DivisionIsUnique(total, size, batches, affected); }
  }

  /** The selection, told from the columns. */
  lemma SelectionByColumns(db: Database, step: Step, cut: Cutoffs, limit: nat, ids: set<Id>)
    requires Eligible(db, step, cut) <= Ids(db, step) && ids <= Eligible(db, step, cut)
    requires |ids| == Least(|Eligible(db, step, cut)|, limit) && OldestFirst(db, step, Eligible(db, step, cut), ids)
    ensures |ids| <= limit && forall i :: i in ids ==> Erasable(db, step, i, cut)
    ensures |ids| < limit ==> forall i :: Erasable(db, step, i, cut) ==> i in ids
    ensures TakesOldest(db, step, cut, ids)
  {
    SubsetSizes(ids, Eligible(db, step, cut));
    OldestByColumns(db, step, cut, ids);
    forall i ensures i in Eligible(db, step, cut) <==> Erasable(db, step, i, cut) { CandidatesAreErasable(db, step, cut, i); }
  }

  /** The batches a step takes: full ones and a short one, unless it is stopped before. */
  function BatchesFor(total: nat, c: Settings): nat
    requires c.batchSize >= 1
  {
    if total >= c.batchSize * c.maxBatches then c.maxBatches else total / c.batchSize + 1
  }

  class Runner {
    var results: map<Id, ResultRow>
    var checks: map<Id, CheckRow>
    var deliveries: map<Id, DeliveryRow>
    var outbox: map<Id, OutboxRow>
    var incidents: map<Id, IncidentRow>
    var audits: map<Id, AuditRow>

    function Value(): Database
      reads this
    {
      Database(results, checks, deliveries, outbox, incidents, audits)
    }

    constructor (db: Database)
      ensures Value() == db
    {
      results, checks, deliveries := db.results, db.checks, db.deliveries;
      outbox, incidents, audits := db.outbox, db.incidents, db.audits;
    }

    /** SELECT ... ORDER BY ... LIMIT: the oldest candidates. */
    method SelectCandidates(step: Step, cut: Cutoffs, limit: nat) returns (ids: set<Id>)
      ensures Eligible(Value(), step, cut) <= Ids(Value(), step) && ids <= Eligible(Value(), step, cut)
      ensures |ids| == Least(|Eligible(Value(), step, cut)|, limit)
      ensures OldestFirst(Value(), step, Eligible(Value(), step, cut), ids)
      ensures |ids| <= limit && forall i :: i in ids ==> Erasable(Value(), step, i, cut)
      ensures |ids| < limit ==> forall i :: Erasable(Value(), step, i, cut) ==> i in ids
      ensures TakesOldest(Value(), step, cut, ids)
    {
      CandidatesExist(Value(), step, cut);
      var candidates := Eligible(Value(), step, cut);
      ids := {};
      var todo := candidates;
      while |ids| < limit && todo != {}
        invariant ids !! todo && ids + todo == candidates && |ids| <= limit
        invariant OldestFirst(Value(), step, candidates, ids)
        decreases |todo|
      {
        var next := Oldest(step, todo);
        ids, todo := ids + {next}, todo - {next};
      }
      SubsetSizes(ids, candidates);
      assert todo == candidates - ids;
      SelectionByColumns(Value(), step, cut, limit, ids);
    }

    method Oldest(step: Step, candidates: set<Id>) returns (next: Id)
      requires candidates != {} && candidates <= Ids(Value(), step)
      ensures next in candidates && forall j :: j in candidates && j != next ==> Before(Value(), step, next, j)
    {
      next :| next in candidates;
      var todo := candidates - {next};
      while todo != {}
        invariant next in candidates && todo <= candidates && next !in todo
        invariant forall j :: j in candidates && j !in todo && j != next ==> Before(Value(), step, next, j)
        decreases |todo|
      {
        var j :| j in todo;
        todo := todo - {j};
        if Before(Value(), step, j, next) { next := j; }
      }
    }

    /** DELETE ... WHERE id IN (...): the database refuses it while some row refers to one of them. */
    method Delete(step: Step, ids: set<Id>) returns (affected: nat)
      requires ids <= Ids(Value(), step) && !Restricted(Value(), step, ids)
      modifies this
      ensures Value() == Remove(old(Value()), step, ids) && affected == |ids|
    {
      match step {
        case CheckResults => results := results - ids;
        case ScheduledChecks => checks := checks - ids;
        case NotificationDeliveries => deliveries := deliveries - ids;
        case NotificationOutbox => outbox := outbox - ids;
        case Incidents => incidents := incidents - ids;
        case AuditLogs => audits := audits - ids;
      }
      affected := |ids|;
    }

    /** mutateLockedCandidates for a delete step; the delete never runs into a reference. */
    method DeleteBatch(step: Step, cut: Cutoffs, batchSize: nat) returns (affected: nat, ghost batch: set<Id>)
      modifies this
      ensures var db := old(Value());
              && Eligible(db, step, cut) <= Ids(db, step) && batch <= Eligible(db, step, cut)
              && OldestFirst(db, step, Eligible(db, step, cut), batch)
              && Value() == Remove(db, step, batch)
              && affected == |batch| == Least(|Eligible(db, step, cut)|, batchSize)
    {
      var ids := SelectCandidates(step, cut, batchSize);
      batch := ids;
      if ids == {} {
        assert Value() == Remove(Value(), step, {});
        return 0, batch;
      }
      SelectionIsSafe(Value(), step, cut, ids);
      affected := Delete(step, ids);
    }

    /** The inner loop: batches until one is short or the limit is reached. */
    method RunBatches(step: Step, cut: Cutoffs, c: Settings)
      returns (batches: nat, deleted: nat, lastBatchSize: nat, ghost gone: set<Id>)
      requires c.batchSize >= 1 && c.maxBatches >= 1
      modifies this
      ensures Batched(old(Value()), Value(), step, cut, gone) && batches <= c.maxBatches
      ensures deleted == |gone| == Least(|Eligible(old(Value()), step, cut)|, c.batchSize * c.maxBatches)
      ensures batches == c.maxBatches && lastBatchSize == c.batchSize
         <==> |Eligible(old(Value()), step, cut)| >= c.batchSize * c.maxBatches
      ensures batches == BatchesFor(|Eligible(old(Value()), step, cut)|, c)
    {
      ghost var before, total := Value(), |Eligible(Value(), step, cut)|;
      batches, deleted, lastBatchSize, gone := 0, 0, 0, {};
      NothingBatched(before, step, cut);
      while batches < c.maxBatches
        invariant 0 <= batches <= c.maxBatches && Batched(before, Value(), step, cut, gone)
        invariant deleted == |gone| == c.batchSize * batches <= total
        invariant batches > 0 ==> lastBatchSize == c.batchSize
        decreases c.maxBatches - batches
      {
        ghost var now := Value();
        ghost var batch;
        lastBatchSize, batch := DeleteBatch(step, cut, c.batchSize);
        BatchCounts(before, now, step, cut, gone, batch);
        ShortBatch(total, c.batchSize, c.maxBatches, batches, lastBatchSize);
        batches, deleted, gone := batches + 1, deleted + lastBatchSize, gone + batch;
        if lastBatchSize < c.batchSize { break; }
      }
    }

    /** One step and its report. */
    method RunStep(step: Step, cut: Cutoffs, c: Settings) returns (r: Report, ghost gone: set<Id>)
      requires c.batchSize >= 1 && c.maxBatches >= 1
      modifies this
      ensures StepDone(old(Value()), Value(), step, cut, c, r, gone)
      ensures TakesOldest(old(Value()), step, cut, gone)
      ensures r.batches == BatchesFor(|Eligible(old(Value()), step, cut)|, c)
      ensures !r.limitReached ==> forall i :: !Erasable(Value(), step, i, cut)
      ensures Rows(Value()) == Rows(old(Value())) - r.deleted
    {
      var batches, deleted, lastBatchSize;
      batches, deleted, lastBatchSize, gone := RunBatches(step, cut, c);
      RemovedRows(old(Value()), step, gone);
      r := Report(batches, deleted, batches == c.maxBatches && lastBatchSize == c.batchSize);
      OldestByColumns(old(Value()), step, cut, gone);
      if !r.limitReached {
        NoLimitNoCandidate(old(Value()), Value(), step, cut, c, r, gone);
        forall i ensures !Erasable(Value(), step, i, cut) { CandidatesAreErasable(Value(), step, cut, i); }
      }
    }

    /** runRetention: the delete steps in their order, and the totals. */
    method RunRetention(cut: Cutoffs, c: Settings) returns (reports: seq<Report>, totalDeleted: nat, ghost t: Trace)
      requires c.batchSize >= 1 && c.maxBatches >= 1
      modifies this
      ensures RunDone(t, |STEPS|, cut, c) && t.states[0] == old(Value()) && t.states[|STEPS|] == Value() && t.reports == reports
      ensures totalDeleted == Rows(old(Value())) - Rows(Value())
      ensures Referential(old(Value())) ==> Referential(Value())
      ensures (forall k :: 0 <= k < |STEPS| ==> !reports[k].limitReached) ==> forall s :: Eligible(Value(), s, cut) == {}
      ensures (forall k :: 0 <= k < |STEPS| ==> !reports[k].limitReached) ==> Swept(Value(), cut)
      ensures TakesOnlyOld(old(Value()), Value(), cut)
    {
      reports, totalDeleted := [], 0;
      t := Trace([Value()], [], []);
      var k := 0;
      while k < |STEPS|
        invariant 0 <= k <= |STEPS| && RunDone(t, k, cut, c)
        invariant t.states[0] == old(Value()) && t.states[k] == Value() && t.reports == reports
        invariant Rows(Value()) + totalDeleted == Rows(old(Value()))
      {
        var r;
        ghost var gone;
        r, gone := RunStep(STEPS[k], cut, c);
        reports, totalDeleted := reports + [r], totalDeleted + r.deleted;
        t := Trace(t.states + [Value()], t.gone + [gone], t.reports + [r]);
        k := k + 1;
      }
      if Referential(old(Value())) { RunKeepsReferences(t, |STEPS|, |STEPS|, cut, c); }
      if forall j :: 0 <= j < |STEPS| ==> !reports[j].limitReached {
        AllEmpty(t, cut, c);
        NoCandidateLeft(Value(), cut);
      }
      RunTakesOnlyOld(t, |STEPS|, |STEPS|, cut, c);
    }
  }
}
