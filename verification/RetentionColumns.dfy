/** What retention may delete and must delete, told from the stored columns. */
module RetentionColumns {
  import opened Domain
  import opened Retention

  // ---- one row ------------------------------------------------------------

  /** The first of the times a row has lies before t. */
  predicate OldCheck(r: CheckRow, t: Time) {
    if r.completedAt.Some? then r.completedAt.value < t
    else if r.canceledAt.Some? then r.canceledAt.value < t
    else r.updatedAt < t
  }

  predicate OldDelivery(r: DeliveryRow, t: Time) {
    if r.finishedAt.Some? then r.finishedAt.value < t else r.createdAt < t
  }

  predicate OldOutbox(r: OutboxRow, t: Time) {
    if r.sentAt.Some? then r.sentAt.value < t
    else if r.failedAt.Some? then r.failedAt.value < t
    else if r.canceledAt.Some? then r.canceledAt.value < t
    else r.updatedAt < t
  }

  predicate OldIncident(r: IncidentRow, t: Time) {
    if r.resolvedAt.Some? then r.resolvedAt.value < t else r.canceledAt.Some? && r.canceledAt.value < t
  }

  predicate OldAt(db: Database, step: Step, i: Id, t: Time)
    requires i in Ids(db, step)
  {
    match step
    case CheckResults => db.results[i].finishedAt < t
    case ScheduledChecks => OldCheck(db.checks[i], t)
    case NotificationDeliveries => OldDelivery(db.deliveries[i], t)
    case NotificationOutbox => OldOutbox(db.outbox[i], t)
    case Incidents => OldIncident(db.incidents[i], t)
    case AuditLogs => db.audits[i].createdAt < t
  }

  /** The row is over and done with, and so is the message that a delivery belongs to. */
  ghost predicate IsOver(db: Database, step: Step, i: Id, cut: Cutoffs)
    requires i in Ids(db, step)
  {
    match step
    case CheckResults => true
    case ScheduledChecks => db.checks[i].settled
    case NotificationDeliveries =>
      && db.deliveries[i].outbox in db.outbox && db.outbox[db.deliveries[i].outbox].terminal
      && OldOutbox(db.outbox[db.deliveries[i].outbox], cut.history)
    case NotificationOutbox => db.outbox[i].terminal
    case Incidents => db.incidents[i].closed
    case AuditLogs => true
  }

  /** No row that is left refers to it. */
  ghost predicate IsAlone(db: Database, step: Step, i: Id) {
    match step
    case ScheduledChecks => forall r :: r in db.results ==> db.results[r].check != Some(i)
    case NotificationOutbox => forall d :: d in db.deliveries ==> db.deliveries[d].outbox != i
    case Incidents => forall o :: o in db.outbox ==> db.outbox[o].incident != Some(i)
    case _ => true
  }

  /** Results and checks are kept until one cutoff, everything else until the other. */
  function Until(step: Step, cut: Cutoffs): Time {
    match step
    case CheckResults => cut.checkResult
    case ScheduledChecks => cut.checkResult
    case _ => cut.history
  }

  /** A row that has outlived its cutoff, is over, and has no children. */
  ghost predicate Erasable(db: Database, step: Step, i: Id, cut: Cutoffs) {
    i in Ids(db, step) && OldAt(db, step, i, Until(step, cut)) && IsOver(db, step, i, cut) && IsAlone(db, step, i)
  }

  /** The candidates of a step are exactly the rows it may erase. */
  lemma CandidatesAreErasable(db: Database, step: Step, cut: Cutoffs, i: Id)
    ensures i in Eligible(db, step, cut) <==> Erasable(db, step, i, cut)
  {
    match step
    case ScheduledChecks => assert HasResults(db, i) <==> !IsAlone(db, step, i);
    case NotificationOutbox => assert HasDeliveries(db, i) <==> !IsAlone(db, step, i);
    case Incidents => assert HasOutbox(db, i) <==> !IsAlone(db, step, i);
    case _ =>
  }

  // ---- the order of deletion ----------------------------------------------

  /** Whenever j is old, so is i; and of two rows that are always old together the one with the lower id comes first. */
  ghost predicate NotYounger(db: Database, step: Step, i: Id, j: Id)
    requires i in Ids(db, step) && j in Ids(db, step)
  {
    && (forall t :: OldAt(db, step, j, t) ==> OldAt(db, step, i, t))
    && ((forall t :: OldAt(db, step, i, t) <==> OldAt(db, step, j, t)) ==> i < j)
  }

  /** What was taken is no younger than any erasable row that was left. */
  ghost predicate TakesOldest(db: Database, step: Step, cut: Cutoffs, gone: set<Id>)
    requires gone <= Ids(db, step)
  {
    forall i, j :: i in gone && j in Ids(db, step) && j !in gone && Erasable(db, step, j, cut) ==> NotYounger(db, step, i, j)
  }

  lemma AgeByColumns(db: Database, step: Step, cut: Cutoffs, i: Id)
    requires i in Eligible(db, step, cut)
    ensures i in Ids(db, step) && forall t :: OldAt(db, step, i, t) <==> Age(db, step, i) < t
  {}

  lemma BeforeIsNotYounger(db: Database, step: Step, cut: Cutoffs, i: Id, j: Id)
    requires i in Eligible(db, step, cut) && j in Eligible(db, step, cut) && i in Ids(db, step) && j in Ids(db, step)
    requires Before(db, step, i, j)
    ensures NotYounger(db, step, i, j)
  {
    AgeByColumns(db, step, cut, i);
    AgeByColumns(db, step, cut, j);
    if forall t :: OldAt(db, step, i, t) <==> OldAt(db, step, j, t) {
      assert OldAt(db, step, i, Age(db, step, j)) <==> OldAt(db, step, j, Age(db, step, j));
    }
  }

  lemma OldestByColumns(db: Database, step: Step, cut: Cutoffs, gone: set<Id>)
    requires Eligible(db, step, cut) <= Ids(db, step) && gone <= Eligible(db, step, cut)
    requires OldestFirst(db, step, Eligible(db, step, cut), gone)
    ensures TakesOldest(db, step, cut, gone)
  {
    forall i, j | i in gone && j in Ids(db, step) && j !in gone && Erasable(db, step, j, cut) ensures NotYounger(db, step, i, j) {
      CandidatesAreErasable(db, step, cut, j);
      assert Before(db, step, i, j);
      BeforeIsNotYounger(db, step, cut, i, j);
    }
  }

  // ---- a whole run --------------------------------------------------------

  /** Nothing is left that retention must delete. */
  ghost predicate Swept(db: Database, cut: Cutoffs) {
    && (forall i :: i in db.results ==> db.results[i].finishedAt >= cut.checkResult)
    && (forall i :: i in db.audits ==> db.audits[i].createdAt >= cut.history)
    && (forall i :: i in db.checks && db.checks[i].settled && OldCheck(db.checks[i], cut.checkResult) ==>
          exists r :: r in db.results && db.results[r].check == Some(i))
    && (forall i :: i in db.deliveries && OldDelivery(db.deliveries[i], cut.history)
                    && db.deliveries[i].outbox in db.outbox && db.outbox[db.deliveries[i].outbox].terminal ==>
          !OldOutbox(db.outbox[db.deliveries[i].outbox], cut.history))
    && (forall i :: i in db.outbox && db.outbox[i].terminal && OldOutbox(db.outbox[i], cut.history) ==>
          exists d :: d in db.deliveries && db.deliveries[d].outbox == i)
    && (forall i :: i in db.incidents && db.incidents[i].closed && OldIncident(db.incidents[i], cut.history) ==>
          exists o :: o in db.outbox && db.outbox[o].incident == Some(i))
  }

  lemma NoneErasable(db: Database, cut: Cutoffs)
    requires forall s, i :: !Erasable(db, s, i, cut)
    ensures Swept(db, cut)
  {
    forall i | i in db.results ensures db.results[i].finishedAt >= cut.checkResult { assert !Erasable(db, CheckResults, i, cut); }
    forall i | i in db.audits ensures db.audits[i].createdAt >= cut.history { assert !Erasable(db, AuditLogs, i, cut); }
    forall i | i in db.deliveries && OldDelivery(db.deliveries[i], cut.history)
               && db.deliveries[i].outbox in db.outbox && db.outbox[db.deliveries[i].outbox].terminal
      ensures !OldOutbox(db.outbox[db.deliveries[i].outbox], cut.history)
    {
      assert !Erasable(db, NotificationDeliveries, i, cut);
    }
    forall i | i in db.checks && db.checks[i].settled && OldCheck(db.checks[i], cut.checkResult)
      ensures exists r :: r in db.results && db.results[r].check == Some(i)
    {
      assert !Erasable(db, ScheduledChecks, i, cut);
    }
    forall i | i in db.outbox && db.outbox[i].terminal && OldOutbox(db.outbox[i], cut.history)
      ensures exists d :: d in db.deliveries && db.deliveries[d].outbox == i
    {
      assert !Erasable(db, NotificationOutbox, i, cut);
    }
    forall i | i in db.incidents && db.incidents[i].closed && OldIncident(db.incidents[i], cut.history)
      ensures exists o :: o in db.outbox && db.outbox[o].incident == Some(i)
    {
      assert !Erasable(db, Incidents, i, cut);
    }
  }

  lemma NoCandidateLeft(db: Database, cut: Cutoffs)
    requires forall s :: Eligible(db, s, cut) == {}
    ensures Swept(db, cut)
  {
    forall s, i ensures !Erasable(db, s, i, cut) { CandidatesAreErasable(db, s, cut, i); }
    NoneErasable(db, cut);
  }

  ghost predicate Within<V>(before: map<Id, V>, after: map<Id, V>) {
    forall i :: i in after ==> i in before && after[i] == before[i]
  }

  /** Rows only disappear. */
  ghost predicate OnlyRemoves(before: Database, after: Database) {
    && Within(before.results, after.results) && Within(before.checks, after.checks)
    && Within(before.deliveries, after.deliveries) && Within(before.outbox, after.outbox)
    && Within(before.incidents, after.incidents) && Within(before.audits, after.audits)
  }

  /**
   * What a run takes: results and audit rows that are old; checks, messages and incidents that are over, old, and no longer
   * referred to; deliveries that are old, of a message that is over and old.
   */
  ghost predicate TakesOnlyOld(before: Database, after: Database, cut: Cutoffs) {
    && OnlyRemoves(before, after)
    && (forall i :: i in before.results && i !in after.results ==> before.results[i].finishedAt < cut.checkResult)
    && (forall i :: i in before.audits && i !in after.audits ==> before.audits[i].createdAt < cut.history)
    && (forall i :: i in before.checks && i !in after.checks ==>
          && before.checks[i].settled && OldCheck(before.checks[i], cut.checkResult)
          && forall r :: r in after.results ==> after.results[r].check != Some(i))
    && (forall i :: i in before.deliveries && i !in after.deliveries ==>
          && OldDelivery(before.deliveries[i], cut.history) && before.deliveries[i].outbox in before.outbox
          && before.outbox[before.deliveries[i].outbox].terminal
          && OldOutbox(before.outbox[before.deliveries[i].outbox], cut.history))
    && (forall i :: i in before.outbox && i !in after.outbox ==>
          && before.outbox[i].terminal && OldOutbox(before.outbox[i], cut.history)
          && forall d :: d in after.deliveries ==> after.deliveries[d].outbox != i)
    && (forall i :: i in before.incidents && i !in after.incidents ==>
          && before.incidents[i].closed && OldIncident(before.incidents[i], cut.history)
          && forall o :: o in after.outbox ==> after.outbox[o].incident != Some(i))
  }

  lemma StepTakesOnlyOld(before: Database, step: Step, cut: Cutoffs, gone: set<Id>)
    requires gone <= Eligible(before, step, cut)
    ensures TakesOnlyOld(before, Remove(before, step, gone), cut)
  {
    forall i | i in gone ensures Erasable(before, step, i, cut) { CandidatesAreErasable(before, step, cut, i); }
    ErasedAreOld(before, step, cut, gone);
  }

  lemma ErasedAreOld(before: Database, step: Step, cut: Cutoffs, gone: set<Id>)
    requires forall i :: i in gone ==> Erasable(before, step, i, cut)
    ensures TakesOnlyOld(before, Remove(before, step, gone), cut)
  {
    match step
    case CheckResults =>
    case ScheduledChecks =>
    case NotificationDeliveries =>
    case NotificationOutbox =>
    case Incidents =>
    case AuditLogs =>
  }

  lemma TakingComposes(a: Database, b: Database, c: Database, cut: Cutoffs)
    requires TakesOnlyOld(a, b, cut) && TakesOnlyOld(b, c, cut)
    ensures TakesOnlyOld(a, c, cut)
  {}

  lemma {:induction false} RunTakesOnlyOld(t: Trace, n: nat, k: nat, cut: Cutoffs, c: Settings)
    requires RunDone(t, n, cut, c) && k <= n
    ensures TakesOnlyOld(t.states[0], t.states[k], cut)
  {
    if k > 0 {
      RunTakesOnlyOld(t, n, k - 1, cut, c);
      assert StepDone(t.states[k - 1], t.states[k], STEPS[k - 1], cut, c, t.reports[k - 1], t.gone[k - 1]);
      StepTakesOnlyOld(t.states[k - 1], STEPS[k - 1], cut, t.gone[k - 1]);
      TakingComposes(t.states[0], t.states[k - 1], t.states[k], cut);
    }
  }
}
