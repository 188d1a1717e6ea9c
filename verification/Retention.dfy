/** The retention runner: bounded batches, children before their RESTRICT-protected parents. */
module Retention {
  import opened Domain

  type Id = nat

  // ---- tables -----------------------------------------------------------

  datatype ResultRow = ResultRow(finishedAt: Time, check: Option<Id>)

  datatype CheckRow = CheckRow(settled: bool, completedAt: Option<Time>, canceledAt: Option<Time>, updatedAt: Time)

  datatype DeliveryRow = DeliveryRow(outbox: Id, finishedAt: Option<Time>, createdAt: Time)

  datatype OutboxRow = OutboxRow(
    terminal: bool, sentAt: Option<Time>, failedAt: Option<Time>, canceledAt: Option<Time>, updatedAt: Time, incident: Option<Id>)

  datatype IncidentRow = IncidentRow(closed: bool, resolvedAt: Option<Time>, canceledAt: Option<Time>)

  datatype AuditRow = AuditRow(createdAt: Time)

  datatype Database = Database(
    results: map<Id, ResultRow>,
    checks: map<Id, CheckRow>,
    deliveries: map<Id, DeliveryRow>,
    outbox: map<Id, OutboxRow>,
    incidents: map<Id, IncidentRow>,
    audits: map<Id, AuditRow>)

  datatype Cutoffs = Cutoffs(checkResult: Time, history: Time)

  datatype Step = CheckResults | ScheduledChecks | NotificationDeliveries | NotificationOutbox | Incidents | AuditLogs

  const STEPS: seq<Step> := [CheckResults, ScheduledChecks, NotificationDeliveries, NotificationOutbox, Incidents, AuditLogs]

  function Coalesce(a: Option<Time>, b: Time): Time { if a.Some? then a.value else b }

  function CheckAge(r: CheckRow): Time { Coalesce(r.completedAt, Coalesce(r.canceledAt, r.updatedAt)) }

  function DeliveryAge(r: DeliveryRow): Time { Coalesce(r.finishedAt, r.createdAt) }

  function OutboxAge(r: OutboxRow): Time { Coalesce(r.sentAt, Coalesce(r.failedAt, Coalesce(r.canceledAt, r.updatedAt))) }

  /** NULL when neither time is set. */
  function IncidentAge(r: IncidentRow): Option<Time> { if r.resolvedAt.Some? then r.resolvedAt else r.canceledAt }

  // ---- what each step selects -------------------------------------------

  predicate HasResults(db: Database, check: Id) { exists r :: r in db.results && db.results[r].check == Some(check) }

  predicate HasDeliveries(db: Database, outbox: Id) { exists d :: d in db.deliveries && db.deliveries[d].outbox == outbox }

  predicate HasOutbox(db: Database, incident: Id) { exists o :: o in db.outbox && db.outbox[o].incident == Some(incident) }

  function Eligible(db: Database, step: Step, cut: Cutoffs): set<Id> {
    match step
    case CheckResults => set i | i in db.results && db.results[i].finishedAt < cut.checkResult
    case ScheduledChecks =>
      set i | i in db.checks && db.checks[i].settled && CheckAge(db.checks[i]) < cut.checkResult && !HasResults(db, i)
    case NotificationDeliveries =>
      set i | i in db.deliveries && db.deliveries[i].outbox in db.outbox && db.outbox[db.deliveries[i].outbox].terminal
              && DeliveryAge(db.deliveries[i]) < cut.history && OutboxAge(db.outbox[db.deliveries[i].outbox]) < cut.history
    case NotificationOutbox =>
      set i | i in db.outbox && db.outbox[i].terminal && OutboxAge(db.outbox[i]) < cut.history && !HasDeliveries(db, i)
    case Incidents =>
      set i | i in db.incidents && db.incidents[i].closed && IncidentAge(db.incidents[i]).Some?
              && IncidentAge(db.incidents[i]).value < cut.history && !HasOutbox(db, i)
    case AuditLogs => set i | i in db.audits && db.audits[i].createdAt < cut.history
  }

  function Ids(db: Database, step: Step): set<Id> {
    match step
    case CheckResults => db.results.Keys
    case ScheduledChecks => db.checks.Keys
    case NotificationDeliveries => db.deliveries.Keys
    case NotificationOutbox => db.outbox.Keys
    case Incidents => db.incidents.Keys
    case AuditLogs => db.audits.Keys
  }

  /** The time a step orders its candidates by. */
  function Age(db: Database, step: Step, i: Id): Time
    requires i in Ids(db, step)
  {
    match step
    case CheckResults => db.results[i].finishedAt
    case ScheduledChecks => CheckAge(db.checks[i])
    case NotificationDeliveries => DeliveryAge(db.deliveries[i])
    case NotificationOutbox => OutboxAge(db.outbox[i])
    case Incidents => if IncidentAge(db.incidents[i]).Some? then IncidentAge(db.incidents[i]).value else 0
    case AuditLogs => db.audits[i].createdAt
  }

  predicate Before(db: Database, step: Step, i: Id, j: Id)
    requires i in Ids(db, step) && j in Ids(db, step)
  {
    Age(db, step, i) < Age(db, step, j) || (Age(db, step, i) == Age(db, step, j) && i < j)
  }

  function CutoffOf(step: Step, cut: Cutoffs): Time {
    if step.CheckResults? || step.ScheduledChecks? then cut.checkResult else cut.history
  }

  function Remove(db: Database, step: Step, gone: set<Id>): Database {
    match step
    case CheckResults => db.(results := db.results - gone)
    case ScheduledChecks => db.(checks := db.checks - gone)
    case NotificationDeliveries => db.(deliveries := db.deliveries - gone)
    case NotificationOutbox => db.(outbox := db.outbox - gone)
    case Incidents => db.(incidents := db.incidents - gone)
    case AuditLogs => db.(audits := db.audits - gone)
  }

  // ---- references -------------------------------------------------------

  /** Foreign keys hold. */
  ghost predicate Referential(db: Database) {
    && (forall r :: r in db.results && db.results[r].check.Some? ==> db.results[r].check.value in db.checks)
    && (forall d :: d in db.deliveries ==> db.deliveries[d].outbox in db.outbox)
    && (forall o :: o in db.outbox && db.outbox[o].incident.Some? ==> db.outbox[o].incident.value in db.incidents)
  }

  /** ON DELETE RESTRICT: some row still refers to one of these. */
  predicate Restricted(db: Database, step: Step, gone: set<Id>) {
    match step
    case ScheduledChecks => exists i :: i in gone && HasResults(db, i)
    case NotificationOutbox => exists i :: i in gone && HasDeliveries(db, i)
    case Incidents => exists i :: i in gone && HasOutbox(db, i)
    case _ => false
  }

  /** A step never selects a parent that has children, nor a row that is not older than its cutoff. */
  lemma SelectionIsSafe(db: Database, step: Step, cut: Cutoffs, gone: set<Id>)
    requires gone <= Eligible(db, step, cut)
    ensures gone <= Ids(db, step) && !Restricted(db, step, gone)
    ensures forall i :: i in gone ==> Age(db, step, i) < CutoffOf(step, cut)
    ensures Referential(db) ==> Referential(Remove(db, step, gone))
  {
    if Referential(db) {
      match step
      case ScheduledChecks =>
        forall r | r in db.results && db.results[r].check.Some? ensures db.results[r].check.value !in gone {
          if db.results[r].check.value in gone { assert HasResults(db, db.results[r].check.value); }
        }
      case NotificationOutbox =>
        forall d | d in db.deliveries ensures db.deliveries[d].outbox !in gone {
          if db.deliveries[d].outbox in gone { assert HasDeliveries(db, db.deliveries[d].outbox); }
        }
      case Incidents =>
        forall o | o in db.outbox && db.outbox[o].incident.Some? ensures db.outbox[o].incident.value !in gone {
          if db.outbox[o].incident.value in gone { assert HasOutbox(db, db.outbox[o].incident.value); }
        }
      case _ =>
    }
  }

  // ---- one step ---------------------------------------------------------

  /** Removing rows of a step's table takes exactly those from its candidates. */
  lemma OwnCandidates(db: Database, step: Step, cut: Cutoffs, gone: set<Id>)
    ensures Eligible(Remove(db, step, gone), step, cut) == Eligible(db, step, cut) - gone
    ensures forall i :: i in Eligible(db, step, cut) - gone ==> Age(Remove(db, step, gone), step, i) == Age(db, step, i)
  {
    var after := Remove(db, step, gone);
    assert forall i :: HasResults(after, i) ==> HasResults(db, i);
    match step
    case ScheduledChecks => assert forall i :: HasResults(after, i) == HasResults(db, i);
    case NotificationOutbox => assert forall i :: HasDeliveries(after, i) == HasDeliveries(db, i);
    case Incidents => assert forall i :: HasOutbox(after, i) == HasOutbox(db, i);
    case _ =>
  }

  predicate Earlier(s: Step, t: Step) {
    match t
    case CheckResults => false
    case ScheduledChecks => s.CheckResults?
    case NotificationDeliveries => s.CheckResults? || s.ScheduledChecks?
    case NotificationOutbox => s.CheckResults? || s.ScheduledChecks? || s.NotificationDeliveries?
    case Incidents => !s.Incidents? && !s.AuditLogs?
    case AuditLogs => !s.AuditLogs?
  }

  /** A later step creates no new candidates for an earlier one. */
  lemma EarlierCandidates(db: Database, s: Step, t: Step, cut: Cutoffs, gone: set<Id>)
    requires Earlier(s, t) && gone <= Eligible(db, t, cut)
    ensures Eligible(Remove(db, t, gone), s, cut) == Eligible(db, s, cut)
  {
    var after := Remove(db, t, gone);
    if t.NotificationOutbox? && s.NotificationDeliveries? {
      forall d | d in db.deliveries && db.deliveries[d].outbox in db.outbox ensures db.deliveries[d].outbox !in gone {
        if db.deliveries[d].outbox in gone { assert HasDeliveries(db, db.deliveries[d].outbox); }
      }
    }
    assert s.ScheduledChecks? ==> forall i :: HasResults(after, i) == HasResults(db, i);
    assert s.NotificationOutbox? ==> forall i :: HasDeliveries(after, i) == HasDeliveries(db, i);
    assert s.Incidents? ==> forall i :: HasOutbox(after, i) == HasOutbox(db, i);
  }

  datatype Report = Report(batches: nat, deleted: nat, limitReached: bool)

  datatype Settings = Settings(batchSize: nat, maxBatches: nat)

  /** Everything deleted comes before everything left. */
  ghost predicate OldestFirst(db: Database, step: Step, candidates: set<Id>, gone: set<Id>)
    requires candidates <= Ids(db, step) && gone <= candidates
  {
    forall i, j :: i in gone && j in candidates - gone ==> Before(db, step, i, j)
  }

  function Least(a: nat, b: nat): nat { if a <= b then a else b }

  /**
   * What one step does: it removes the oldest candidates, all of them or batchSize * maxBatches, and says the
   * limit was reached exactly when there were at least that many.
   */
  ghost predicate StepDone(before: Database, after: Database, step: Step, cut: Cutoffs, c: Settings, r: Report, gone: set<Id>) {
    var candidates := Eligible(before, step, cut);
    && candidates <= Ids(before, step) && gone <= candidates && after == Remove(before, step, gone)
    && r.deleted == |gone| == Least(|candidates|, c.batchSize * c.maxBatches)
    && OldestFirst(before, step, candidates, gone)
    && (r.limitReached <==> |candidates| >= c.batchSize * c.maxBatches)
    && r.batches <= c.maxBatches
  }

  lemma SubsetSizes(a: set<Id>, b: set<Id>)
    requires a <= b
    ensures |b - a| == |b| - |a|
    ensures |a| <= |b| && (|a| == |b| ==> a == b)
  {
    assert b == a + (b - a);
    if |a| == |b| { assert |b - a| == 0; }
  }

  /** When a step reports that its limit was not reached, it has left no candidate. */
  lemma NoLimitNoCandidate(before: Database, after: Database, step: Step, cut: Cutoffs, c: Settings, r: Report, gone: set<Id>)
    requires StepDone(before, after, step, cut, c, r, gone) && !r.limitReached
    ensures Eligible(after, step, cut) == {}
  {
    SubsetSizes(gone, Eligible(before, step, cut));
    OwnCandidates(before, step, cut, gone);
  }

  // ---- a whole run ------------------------------------------------------

  datatype Trace = Trace(states: seq<Database>, gone: seq<set<Id>>, reports: seq<Report>)

  /** A run of the first n steps. */
  ghost predicate RunDone(t: Trace, n: nat, cut: Cutoffs, c: Settings) {
    && n <= |STEPS| && |t.states| == n + 1 && |t.gone| == n && |t.reports| == n
    && forall k :: 0 <= k < n ==> StepDone(t.states[k], t.states[k + 1], STEPS[k], cut, c, t.reports[k], t.gone[k])
  }

  lemma {:induction false} RunKeepsReferences(t: Trace, n: nat, k: nat, cut: Cutoffs, c: Settings)
    requires RunDone(t, n, cut, c) && k <= n && Referential(t.states[0])
    ensures Referential(t.states[k])
  {
    if k > 0 {
      RunKeepsReferences(t, n, k - 1, cut, c);
      assert StepDone(t.states[k - 1], t.states[k], STEPS[k - 1], cut, c, t.reports[k - 1], t.gone[k - 1]);
      SelectionIsSafe(t.states[k - 1], STEPS[k - 1], cut, t.gone[k - 1]);
    }
  }

  /** Once a step has left no candidate, the steps after it leave none for it either. */
  lemma {:induction false} StaysEmpty(t: Trace, n: nat, j: nat, k: nat, cut: Cutoffs, c: Settings)
    requires RunDone(t, n, cut, c) && j < k <= n && !t.reports[j].limitReached
    ensures Eligible(t.states[k], STEPS[j], cut) == {}
  {
    if k == j + 1 {
      assert StepDone(t.states[j], t.states[j + 1], STEPS[j], cut, c, t.reports[j], t.gone[j]);
      NoLimitNoCandidate(t.states[j], t.states[j + 1], STEPS[j], cut, c, t.reports[j], t.gone[j]);
    } else {
      StaysEmpty(t, n, j, k - 1, cut, c);
      assert StepDone(t.states[k - 1], t.states[k], STEPS[k - 1], cut, c, t.reports[k - 1], t.gone[k - 1]);
      assert Earlier(STEPS[j], STEPS[k - 1]);
      EarlierCandidates(t.states[k - 1], STEPS[j], STEPS[k - 1], cut, t.gone[k - 1]);
    }
  }

  /** If no step reached its limit, a run leaves no candidate at all. */
  lemma AllEmpty(t: Trace, cut: Cutoffs, c: Settings)
    requires RunDone(t, |STEPS|, cut, c) && forall k :: 0 <= k < |STEPS| ==> !t.reports[k].limitReached
    ensures forall s :: Eligible(t.states[|STEPS|], s, cut) == {}
  {
    forall s ensures Eligible(t.states[|STEPS|], s, cut) == {} {
      var j := if s.CheckResults? then 0 else if s.ScheduledChecks? then 1 else if s.NotificationDeliveries? then 2
               else if s.NotificationOutbox? then 3 else if s.Incidents? then 4 else 5;
      assert STEPS[j] == s;
      StaysEmpty(t, |STEPS|, j, |STEPS|, cut, c);
    }
  }

  lemma {:induction false} NothingToDo(t: Trace, n: nat, k: nat, cut: Cutoffs, c: Settings)
    requires RunDone(t, n, cut, c) && k <= n
    requires forall s :: Eligible(t.states[0], s, cut) == {}
    ensures t.states[k] == t.states[0] && forall j :: 0 <= j < k ==> t.reports[j].deleted == 0
  {
    if k > 0 {
      NothingToDo(t, n, k - 1, cut, c);
      assert StepDone(t.states[k - 1], t.states[k], STEPS[k - 1], cut, c, t.reports[k - 1], t.gone[k - 1]);
      assert t.gone[k - 1] == {};
    }
  }

  /**
   * Retention reaches a fixpoint. If every step of a run reports that its limit was not reached, no candidate
   * of any step is left, and any further run with the same cutoffs, whatever its batch settings, deletes nothing.
   */
  lemma SecondRunDeletesNothing(t: Trace, u: Trace, cut: Cutoffs, c: Settings, d: Settings)
    requires RunDone(t, |STEPS|, cut, c) && RunDone(u, |STEPS|, cut, d)
    requires u.states[0] == t.states[|STEPS|] && forall k :: 0 <= k < |STEPS| ==> !t.reports[k].limitReached
    ensures forall s :: Eligible(t.states[|STEPS|], s, cut) == {}
    ensures u.states[|STEPS|] == u.states[0] && forall k :: 0 <= k < |STEPS| ==> u.reports[k].deleted == 0
  {
    AllEmpty(t, cut, c);
    NothingToDo(u, |STEPS|, |STEPS|, cut, d);
  }
}
