/** The tables of the notification outbox and the transactions that worker and API run on them. */
module OutboxStore {
  import opened Domain
  import opened Outbox
  import opened OutboxInvariants
  import opened OutboxPreservation

  ghost predicate Opens(i: IncidentId, cs: set<ChannelId>, j: Key) {
    j.First? && j.incident == i && j.channel in cs
  }

  /** How the rows look when createOutbox has written the DOWN rows for the channels `cs`. */
  ghost predicate IsOpened(S: Outbox, i: IncidentId, m: MonitorId, cs: set<ChannelId>, rows: map<Key, Row>) {
    && (forall j :: j in rows <==> j in S.rows || Opens(i, cs, j))
    && (forall j :: j in rows && !Opens(i, cs, j) ==> rows[j] == S.rows[j])
    && (forall j :: j in rows && Opens(i, cs, j) ==>
          rows[j] == NewRow(EventType.Down, Some(m), RecoveryBound(S, m, j.channel), S.clock))
  }

  /** A closing row that handling the DOWN rows in `done` creates. */
  ghost predicate Closes(S: Outbox, i: IncidentId, done: set<Key>, j: Key)
    requires i in S.incidents
  {
    && j.Closing? && j.incident == i && First(i, j.channel) in done && WantsClosing(S, i, First(i, j.channel))
    && !PlanRecovery(S.rows[First(i, j.channel)].status, S.rows[First(i, j.channel)].attempts).Skip?
  }

  /** How the rows look when createRecoveryOutbox has handled the DOWN rows in `done`. */
  ghost predicate IsHandled(S: Outbox, i: IncidentId, done: set<Key>, rows: map<Key, Row>)
    requires i in S.incidents
  {
    && (forall j :: j in rows <==> j in S.rows || Closes(S, i, done, j))
    && (forall j :: j in S.rows ==> rows[j] == if j in done && WantsClosing(S, i, j) then CloseDown(S.rows[j]) else S.rows[j])
    && (forall j :: j in rows && j !in S.rows ==>
          rows[j] == NewRow(ClosingEventAt(S, i, j.channel), Some(S.incidents[i].monitor), true, S.clock))
  }

  /** One more DOWN row: at most its own status and its closing row change. */
  lemma HandleOne(S: Outbox, i: IncidentId, done: set<Key>, k: Key, rows: map<Key, Row>)
    requires ShapeOk(S) && i in S.incidents && S.incidents[i].status.IncidentOpen?
    requires WantsClosing(S, i, k) && k !in done && IsHandled(S, i, done, rows)
    ensures var r := S.rows[k];
            var closing := NewRow(ClosingEvent(r), Some(S.incidents[i].monitor), true, S.clock);
            && rows[k] == r
            && IsHandled(S, i, done + {k}, if PlanRecovery(r.status, r.attempts).Skip? then rows
                                           else rows[k := CloseDown(r)][Closing(i, k.channel) := closing])
  {
    ClosingIsFresh(S, i);
    assert k == First(i, k.channel);
  }

  /** The DOWN rows that createRecoveryOutbox reads, whether or not they ask for a recovery. */
  ghost predicate Selected(S: Outbox, i: IncidentId, k: Key)
    requires i in S.incidents
  {
    k in S.rows && k.First? && k.incident == i && (WantsClosing(S, i, k) <==> S.rows[k].allowsRecovery)
  }

  lemma HandledNone(S: Outbox, i: IncidentId)
    requires i in S.incidents
    ensures IsHandled(S, i, {}, S.rows)
  {}

  lemma HandleNone(S: Outbox, i: IncidentId, done: set<Key>, k: Key, rows: map<Key, Row>)
    requires i in S.incidents && k.First? && !WantsClosing(S, i, k) && IsHandled(S, i, done, rows)
    ensures IsHandled(S, i, done + {k}, rows)
  {}

  lemma HandledAll(S: Outbox, i: IncidentId, done: set<Key>, rows: map<Key, Row>)
    requires ShapeOk(S) && i in S.incidents && S.incidents[i].status.IncidentOpen? && IsHandled(S, i, done, rows)
    requires forall k :: k in S.rows && WantsClosing(S, i, k) ==> k in done
    ensures rows == Resolve(S, i).rows
  {
    ClosingIsFresh(S, i);
    ResolvedRows(S, i);
    var T := Resolve(S, i);
    forall j ensures j in rows <==> j in T.rows {
      if Closes(S, i, done, j) { assert j in ClosingKeys(S, i); }
    }
    forall j | j in rows ensures rows[j] == T.rows[j] {}
  }

  lemma OpenedAll(S: Outbox, i: IncidentId, m: MonitorId, all: set<ChannelId>, rows: map<Key, Row>)
    requires i !in S.incidents && IsOpened(S, i, m, all, rows)
    requires all == set p | p in S.bindings && NotifiesOnDown(S, m, p) :: p.channel
    ensures rows == OpenIncident(S, i, m).rows
  {
    var T := OpenIncident(S, i, m);
    forall p | p in S.bindings && NotifiesOnDown(S, m, p) ensures p.channel in all {}
    forall j ensures Opens(i, all, j) <==> j in OpeningKeys(S, i, m) {
      if Opens(i, all, j) {
        var p :| p in S.bindings && NotifiesOnDown(S, m, p) && p.channel == j.channel;
      }
    }
    assert rows.Keys == T.rows.Keys;
  }

  /** Attempt a is the newest of a row that is still being processed, and its outcome is not stored yet. */
  predicate RunsIn(inFlight: set<Attempt>, rows: map<Key, Row>, a: Attempt) {
    a in inFlight && a.key in rows && rows[a.key].status.Processing? && rows[a.key].attempts == a.number
  }

  class Store {
    var clock: Time
    var incidents: map<IncidentId, Incident>
    var channels: map<ChannelId, Channel>
    var bindings: map<Pair, Prefs>
    var rows: map<Key, Row>
    var deliveries: map<Attempt, DeliveryStatus>
    var cleared: set<Permit>
    var inFlight: set<Attempt>

    ghost function Value(): Outbox
      reads this
    {
      Outbox(clock, incidents, channels, bindings, rows, deliveries, cleared, inFlight)
    }

    constructor (start: Time)
      ensures Value() == EmptyOutbox(start) && Inv(Value())
    {
      clock, incidents, channels, bindings := start, map[], map[], map[];
      rows, deliveries, cleared, inFlight := map[], map[], {}, {};
    }

    method Begin(now: Time)
      requires now > clock
      modifies this`clock
      ensures Value() == old(Value()).(clock := now)
    {
      clock := now;
    }

    predicate IsOn(c: ChannelId)
      reads this`channels
    {
      c in channels && channels[c].enabled && !channels[c].deleted
    }

    // ---- incidents ------------------------------------------------------

    /** createOutbox, in the transaction that opens the incident. */
    method CreateOutbox(i: IncidentId, m: MonitorId)
      modifies this`incidents, this`rows
      ensures Value() == OpenIncident(old(Value()), i, m)
    {
      if i in incidents { return; }
      ghost var S := Value();
      incidents := incidents[i := Incident(m, IncidentOpen)];
      var todo := set p | p in bindings && p.monitor == m && bindings[p].onDown && IsOn(p.channel) :: p.channel;
      ghost var all := todo;
      assert all - todo == {};
      while todo != {}
        invariant todo <= all && (forall c :: c in all ==> Pair(m, c) in bindings)
        invariant Value() == S.(incidents := S.incidents[i := Incident(m, IncidentOpen)], rows := rows)
        invariant IsOpened(S, i, m, all - todo, rows)
      {
        var c :| c in todo;
        rows := rows[First(i, c) := NewRow(EventType.Down, Some(m), bindings[Pair(m, c)].onRecovery, clock)];
        assert all - (todo - {c}) == all - todo + {c};
        todo := todo - {c};
      }
      assert all - todo == all;
      OpenedAll(S, i, m, all, rows);
    }

    /** createRecoveryOutbox, in the transaction that resolves the incident: every DOWN row, in any order. */
    method CreateRecoveryOutbox(i: IncidentId)
      requires ShapeOk(Value())
      modifies this`incidents, this`rows
      ensures Value() == Resolve(old(Value()), i)
    {
      if i !in incidents || !incidents[i].status.IncidentOpen? { return; }
      ghost var S := Value();
      var m := incidents[i].monitor;
      var todo := set k | k in rows && k.First? && k.incident == i && rows[k].event.Down? && IsOn(k.channel)
                          && Pair(m, k.channel) in bindings && bindings[Pair(m, k.channel)].onRecovery;
      ghost var all := todo;
      incidents := incidents[i := Incident(m, IncidentResolved)];
      HandledNone(S, i);
      assert all - todo == {};
      while todo != {}
        invariant todo <= all && (forall k :: k in all ==> Selected(S, i, k))
        invariant Value() == S.(incidents := S.incidents[i := Incident(m, IncidentResolved)], rows := rows)
        invariant IsHandled(S, i, all - todo, rows)
      {
        var k :| k in todo;
        if rows[k].allowsRecovery {
          HandleOne(S, i, all - todo, k, rows);
          CloseOne(k, m);
        } else {
          HandleNone(S, i, all - todo, k, rows);
        }
        assert all - (todo - {k}) == all - todo + {k};
        todo := todo - {k};
      }
      HandledAll(S, i, all - todo, rows);
    }

    /** The closing message of one DOWN row that asks for it. */
    method CloseOne(k: Key, m: MonitorId)
      requires k in rows && k.First?
      modifies this`rows
      ensures var r, q := old(rows)[k], Closing(k.incident, k.channel);
              rows == if PlanRecovery(r.status, r.attempts).Skip? then old(rows)
                      else old(rows)[k := CloseDown(r)][q := NewRow(ClosingEvent(r), Some(m), true, clock)]
    {
      var down := rows[k];
      var plan := PlanRecovery(down.status, down.attempts);
      if plan.ReplaceWithSummary? {
        rows := rows[k := down.(status := Canceled, lease := None)];
      }
      if plan.Skip? { return; }
      var eventType := if plan.ReplaceWithSummary? then ResolvedSummary else Recovery;
      assert rows == old(rows)[k := CloseDown(down)];
      rows := rows[Closing(k.incident, k.channel) := NewRow(eventType, Some(m), true, clock)];
    }

    // ---- administration -------------------------------------------------

    method CancelMonitorRuntime(m: MonitorId)
      modifies this`deliveries, this`incidents, this`rows
      ensures Value() == CancelRuntime(old(Value()), m)
    {
      EndMonitorTracking(m);
      CancelMonitorRows(m);
      incidents := map i | i in incidents ::
        if incidents[i].monitor == m && incidents[i].status.IncidentOpen? then incidents[i].(status := IncidentCanceled) else incidents[i];
    }

    method EndMonitorTracking(m: MonitorId)
      modifies this`deliveries
      ensures deliveries == EndTracking(old(Value()), OfMonitor(old(Value()), m))
    {
      deliveries := map a | a in deliveries ::
        if deliveries[a].Attempting? && a.key in rows && rows[a.key].monitor == Some(m) && rows[a.key].status.Processing?
        then Unknown else deliveries[a];
    }

    method CancelMonitorRows(m: MonitorId)
      modifies this`rows
      ensures rows == old(CancelTouched(Value(), OfMonitor(Value(), m)))
    {
      rows := map k | k in rows ::
        if rows[k].monitor != Some(m) then rows[k]
        else if Terminal(rows[k].status) then rows[k].(disturbed := true)
        else rows[k].(status := Canceled, lease := None, disturbed := true);
    }

    /** Disables a channel, or removes it. */
    method TurnChannelOff(c: ChannelId, remove: bool)
      modifies this`deliveries, this`bindings, this`rows, this`channels
      ensures Value() == TurnOff(old(Value()), c, remove)
    {
      if c !in channels || channels[c].deleted { return; }
      ghost var S := Value();
      deliveries := map a | a in deliveries ::
        if deliveries[a].Attempting? && a.key in rows && a.key.channel == c && rows[a.key].status.Processing?
        then Unknown else deliveries[a];
      bindings := map p | p in bindings && p.channel != c :: bindings[p];
      rows := map k | k in rows ::
        if k.channel != c then rows[k]
        else if Terminal(rows[k].status) then rows[k].(disturbed := true)
        else rows[k].(status := Canceled, lease := None, disturbed := true);
      channels := channels[c := Channel(false, remove)];
      assert rows == CancelTouched(S, OfChannel(c));
      assert deliveries == EndTracking(S, OfChannel(c));
    }

    // ---- dispatcher -----------------------------------------------------

    /** One candidate of a page: cancel it, defer it, or let it be claimed. */
    method InspectCandidate(owner: Owner, k: Key, asOf: Time) returns (progress: bool)
      modifies this`rows, this`cleared
      ensures Value() == Inspect(old(Value()), owner, k, asOf)
      ensures progress ==> k in old(rows) && Available(old(rows)[k], asOf) && cleared == old(cleared)
      ensures !progress ==> rows == old(rows)
    {
      progress := false;
      if k !in rows { return; }
      var available := Available(rows[k], asOf);
      if !IsOn(k.channel) {
        if available {
          rows := rows[k := Cancel(rows[k], OtherReason)];
          progress := true;
        }
        return;
      }
      if k.Closing? && rows[k].event.Recovery? {
        var down := First(k.incident, k.channel);
        var prerequisite := RecoveryPrerequisite(if down in rows then Some(rows[down].status) else None);
        if prerequisite.Wait? {
          if available {
            rows := rows[k := rows[k].(availableAt := asOf + RECOVERY_RECHECK_DELAY_MS)];
            progress := true;
          }
          return;
        }
        if prerequisite.MustCancel? {
          if available {
            rows := rows[k := Cancel(rows[k], DownNotDelivered)];
            progress := true;
          }
          return;
        }
      }
      cleared := cleared + {Permit(owner, k)};
    }

    method TakeCandidate(owner: Owner, k: Key, asOf: Time, leaseMs: nat) returns (claimed: bool)
      modifies this`rows, this`cleared
      ensures Value() == Take(old(Value()), owner, k, asOf, leaseMs)
      ensures claimed <==> Permit(owner, k) in old(cleared) && k in old(rows) && Available(old(rows)[k], asOf)
    {
      claimed := false;
      if Permit(owner, k) !in cleared { return; }
      cleared := cleared - {Permit(owner, k)};
      if k in rows && Available(rows[k], asOf) {
        rows := rows[k := rows[k].(status := Retry, lease := Some(Lease(owner, asOf + leaseMs)))];
        claimed := true;
      }
    }

    /** After the queue accepted or refused the job. */
    method FinishCandidate(owner: Owner, k: Key, asOf: Time, leaseMs: nat, queued: bool)
      modifies this`rows
      ensures Value() == if queued then MarkEnqueued(old(Value()), owner, k, asOf, leaseMs)
                         else QueueFailed(old(Value()), owner, k, asOf)
    {
      if k in rows && HeldBy(rows[k], owner) {
        if queued {
          rows := rows[k := rows[k].(status := Enqueued, lease := Some(Lease(owner, asOf + leaseMs)))];
        } else {
          rows := rows[k := rows[k].(availableAt := asOf + 2_000, lease := None, reason := OtherReason)];
        }
      }
    }

    // ---- processor ------------------------------------------------------

    /** The updateMany that cancels the recovery waiting for a DOWN that finally failed. */
    method CancelUndeliveredRecovery(down: Key)
      requires down.First?
      modifies this`rows
      ensures rows == CancelUndelivered(old(rows), down)
    {
      var q := Closing(down.incident, down.channel);
      if q in rows {
        var r := rows[q];
        if r.event.Recovery? && (r.status.Pending? || r.status.Retry? || r.status.Enqueued?) {
          rows := rows[q := r.(status := Canceled, lease := None, reason := DownNotDelivered)];
        }
      }
    }

    /** A send is given up; a DOWN takes its waiting recovery with it. */
    method FailRow(k: Key)
      requires k in rows
      modifies this`rows
      ensures rows == FailFinally(old(rows), k)
    {
      rows := rows[k := rows[k].(status := Failed, lease := None, reason := OtherReason)];
      if rows[k].event.Down? && k.First? { CancelUndeliveredRecovery(k); }
    }

    /** claim; the attempt number of the send that starts, if one does. */
    method ClaimSend(k: Key, owner: Owner, leaseMs: nat) returns (attempt: Option<nat>)
      modifies this`rows, this`deliveries, this`inFlight
      ensures Value() == Claim(old(Value()), k, owner, leaseMs)
      ensures attempt.Some? ==> k in old(rows) && attempt.value == old(rows)[k].attempts + 1
                                && inFlight == old(inFlight) + {Attempt(k, attempt.value)}
                                && Attempt(k, attempt.value) in deliveries && deliveries[Attempt(k, attempt.value)].Attempting?
      ensures attempt.None? ==> inFlight == old(inFlight)
    {
      attempt := None;
      if k !in rows { return; }
      var outbox := rows[k];
      if !IsOn(k.channel) {
        if !Terminal(outbox.status) { rows := rows[k := Cancel(outbox, OtherReason)]; }
        return;
      }
      if !outbox.status.Pending? && !outbox.status.Retry? && !outbox.status.Enqueued? {
        if !outbox.status.Processing? || outbox.lease.None? || outbox.lease.value.until >= clock { return; }
      }
      if (outbox.status.Pending? || outbox.status.Retry?) && outbox.availableAt > clock { return; }
      deliveries := map a | a in deliveries :: if a.key == k && deliveries[a].Attempting? then Unknown else deliveries[a];
      if k.Closing? && outbox.event.Recovery? {
        var down := First(k.incident, k.channel);
        if down !in rows || !rows[down].status.Sent? { return; }
      }
      if outbox.attempts >= outbox.maxAttempts {
        FailRow(k);
        return;
      }
      var number := StartSend(k, owner, leaseMs);
      attempt := Some(number);
    }

    /** The next attempt of a row. */
    method StartSend(k: Key, owner: Owner, leaseMs: nat) returns (number: nat)
      requires k in rows
      modifies this`rows, this`deliveries, this`inFlight
      ensures number == old(rows)[k].attempts + 1
      ensures rows == old(rows)[k := old(rows)[k].(status := Processing, attempts := number,
                                                   lease := Some(Lease(owner, clock + leaseMs)), reason := NoReason)]
      ensures deliveries == old(deliveries)[Attempt(k, number) := Attempting]
      ensures inFlight == old(inFlight) + {Attempt(k, number)}
    {
      number := rows[k].attempts + 1;
      rows := rows[k := rows[k].(status := Processing, attempts := number, lease := Some(Lease(owner, clock + leaseMs)),
                                 reason := NoReason)];
      deliveries := deliveries[Attempt(k, number) := Attempting];
      inFlight := inFlight + {Attempt(k, number)};
    }

    /** markSent. */
    method StoreSuccess(a: Attempt)
      modifies this`rows, this`deliveries, this`inFlight
      ensures Value() == MarkSent(old(Value()), a)
    {
      if a !in inFlight || a.key !in rows { return; }
      deliveries := deliveries[a := Succeeded];
      inFlight := inFlight - {a};
      if rows[a.key].status.Canceled? { return; }
      rows := rows[a.key := rows[a.key].(status := Sent, lease := None, reason := NoReason)];
      EnsureRecoveryAfterLateDownSuccess(a.key);
    }

    method EnsureRecoveryAfterLateDownSuccess(down: Key)
      requires down in rows
      modifies this`rows
      ensures Value() == old(Value()).(rows := EnsureRecovery(old(Value()), down))
    {
      var d := rows[down];
      if !down.First? || !d.event.Down? || !d.allowsRecovery { return; }
      if down.incident !in incidents || !incidents[down.incident].status.IncidentResolved? { return; }
      if d.monitor.None? || !IsOn(down.channel) { return; }
      var binding := Pair(d.monitor.value, down.channel);
      if binding !in bindings || !bindings[binding].onRecovery { return; }
      var q := Closing(down.incident, down.channel);
      if q in rows {
        var r := rows[q];
        if r.event.Recovery? && r.status.Canceled? && r.reason.DownNotDelivered? {
          rows := rows[q := r.(status := Status.Pending, availableAt := clock, lease := None, reason := NoReason,
                               reactivations := r.reactivations + 1)];
        }
        return;
      }
      rows := rows[q := NewRow(Recovery, d.monitor, true, clock)];
    }

    /** markFailed; whether the row is tried again, as far as this attempt can tell. */
    method StoreFailure(a: Attempt, retryable: bool, uncertain: bool, delay: nat) returns (retry: bool)
      modifies this`rows, this`deliveries, this`inFlight
      ensures Value() == MarkFailed(old(Value()), a, retryable, uncertain, delay)
      ensures retry <==> retryable && a.key in old(rows) && a.number < old(rows)[a.key].maxAttempts
      ensures RunsIn(old(inFlight), old(rows), a) ==>
                && a.key in rows && rows[a.key].lease.None?
                && if retry then rows[a.key].status.Retry? && rows[a.key].availableAt == clock + delay
                   else rows[a.key].status.Failed? && rows[a.key].availableAt == old(rows)[a.key].availableAt
      ensures !RunsIn(old(inFlight), old(rows), a) ==> rows == old(rows)
    {
      if a.key !in rows { return false; }
      var outbox := rows[a.key];
      retry := retryable && a.number < outbox.maxAttempts;
      if a !in inFlight { return; }
      deliveries := deliveries[a := if uncertain then Unknown else DeliveryFailed];
      inFlight := inFlight - {a};
      if outbox.status.Processing? && outbox.attempts == a.number {
        if retry {
          rows := rows[a.key := outbox.(status := Retry, availableAt := clock + delay, lease := None, reason := OtherReason)];
        } else {
          FailRow(a.key);
        }
      }
    }
  }
}
