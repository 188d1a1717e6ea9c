/** Every step of the outbox protocol keeps the invariants. */
module OutboxPreservation {
  import opened Domain
  import opened Outbox
  import opened OutboxInvariants

  lemma TickKeeps(S: Outbox, now: Time)
    requires Inv(S)
    ensures Inv(S.(clock := now))
  {
    var T := S.(clock := now);
    forall k | k in T.rows ensures RowShape(T, k, T.rows[k]) { assert RowShape(S, k, S.rows[k]); }
    forall k ensures KeptRow(T, k) { assert KeptRow(S, k); }
    forall k ensures TableRow(T, k) { assert TableRow(S, k); }
    forall k | k in T.rows ensures ReasonRow(T, k) { assert ReasonRow(S, k); }
    forall k | k in T.rows && T.rows[k].status.Sent? ensures Confirmed(T, k) { assert Confirmed(S, k); }
  }

  // ---- steps of a dispatcher on one row ---------------------------------

  /** A change of status, lease, availability and reason of an unfinished row. */
  ghost predicate Moves(S: Outbox, k: Key, r: Row) {
    && k in S.rows
    && !Terminal(S.rows[k].status)
    && r == S.rows[k].(status := r.status, availableAt := r.availableAt, lease := r.lease, reason := r.reason)
    && (Terminal(r.status) ==> r.status.Canceled? && !(k.First? && ChannelOn(S, k.channel)))
    && (r.reason.DownNotDelivered? ==> IsRecovery(S, k) && r.status.Canceled? && !DownSent(S, k)
                                       && RecoveryPrerequisite(DownStatus(S, k)).MustCancel?)
    && (IsRecovery(S, k) && !DownSent(S, k) ==>
          || r.status.Pending?
          || (r.status.Canceled? && r.reason.DownNotDelivered?)
          || (r.status.Canceled? && !ChannelOn(S, k.channel)))
  }

  lemma MoveKeepsShape(S: Outbox, k: Key, r: Row)
    requires ShapeOk(S) && Moves(S, k, r)
    ensures ShapeOk(S.(rows := S.rows[k := r]))
  {
    var T := S.(rows := S.rows[k := r]);
    forall j | j in T.rows ensures RowShape(T, j, T.rows[j]) { assert RowShape(S, j, S.rows[j]); }
  }

  lemma MoveKeepsAccounting(S: Outbox, k: Key, r: Row)
    requires Accounting(S) && Moves(S, k, r)
    ensures Accounting(S.(rows := S.rows[k := r]))
  {
    var T := S.(rows := S.rows[k := r]);
    forall j | j in T.rows && T.rows[j].status.Sent? ensures Confirmed(T, j) { assert Confirmed(S, j); }
  }

  lemma MoveKeepsOrder(S: Outbox, k: Key, r: Row)
    requires OrderOk(S) && ReasonOk(S) && Moves(S, k, r)
    ensures OrderOk(S.(rows := S.rows[k := r])) && ReasonOk(S.(rows := S.rows[k := r]))
  {
    var T := S.(rows := S.rows[k := r]);
    assert forall j :: IsRecovery(T, j) <==> IsRecovery(S, j);
    assert forall j :: DownSent(T, j) <==> DownSent(S, j);
    forall j | j in T.rows ensures ReasonRow(T, j) { assert ReasonRow(S, j); }
  }

  lemma MoveKeepsTable(S: Outbox, k: Key, r: Row)
    requires ShapeOk(S) && KeptOk(S) && TableOk(S) && OrderOk(S) && Moves(S, k, r)
    ensures KeptOk(S.(rows := S.rows[k := r])) && TableOk(S.(rows := S.rows[k := r]))
  {
    var T := S.(rows := S.rows[k := r]);
    forall j ensures KeptRow(T, j) { assert KeptRow(S, j); }
    forall j ensures TableRow(T, j) {
      assert TableRow(S, j) && KeptRow(S, j);
    }
  }

  lemma MoveKeeps(S: Outbox, k: Key, r: Row)
    requires Inv(S) && Moves(S, k, r)
    ensures Inv(S.(rows := S.rows[k := r]))
  {
    MoveKeepsShape(S, k, r);
    MoveKeepsAccounting(S, k, r);
    MoveKeepsOrder(S, k, r);
    MoveKeepsTable(S, k, r);
  }

  lemma PermitsKeep(S: Outbox, cleared: set<Permit>)
    requires Inv(S) && OrderOk(S.(cleared := cleared))
    ensures Inv(S.(cleared := cleared))
  {
    var T := S.(cleared := cleared);
    forall k | k in T.rows ensures RowShape(T, k, T.rows[k]) { assert RowShape(S, k, S.rows[k]); }
    forall k ensures KeptRow(T, k) { assert KeptRow(S, k); }
    forall k ensures TableRow(T, k) { assert TableRow(S, k); }
    forall k | k in T.rows ensures ReasonRow(T, k) { assert ReasonRow(S, k); }
    forall k | k in T.rows && T.rows[k].status.Sent? ensures Confirmed(T, k) { assert Confirmed(S, k); }
  }

  lemma ClearingIsSafe(S: Outbox, owner: Owner, k: Key)
    requires OrderOk(S) && k in S.rows && (IsRecovery(S, k) ==> DownSent(S, k))
    ensures OrderOk(S.(cleared := S.cleared + {Permit(owner, k)}))
  {
  }

  lemma InspectCases(S: Outbox, owner: Owner, k: Key, asOf: Time) returns (moved: bool)
    requires OrderOk(S) && ReasonOk(S) && Inspect(S, owner, k, asOf) != S
    ensures k in S.rows
    ensures var T := Inspect(S, owner, k, asOf);
            if moved then k in T.rows && Moves(S, k, T.rows[k]) && T == S.(rows := S.rows[k := T.rows[k]])
            else T == S.(cleared := S.cleared + {Permit(owner, k)}) && (IsRecovery(S, k) ==> DownSent(S, k))
  {
    var T := Inspect(S, owner, k, asOf);
    moved := !ChannelOn(S, k.channel) || (IsRecovery(S, k) && !RecoveryPrerequisite(DownStatus(S, k)).Ready?);
    assert ReasonRow(S, k);
  }

  lemma InspectKeeps(S: Outbox, owner: Owner, k: Key, asOf: Time)
    requires Inv(S)
    ensures Inv(Inspect(S, owner, k, asOf))
  {
    if Inspect(S, owner, k, asOf) != S {
      var moved := InspectCases(S, owner, k, asOf);
      if moved {
        MoveKeeps(S, k, Inspect(S, owner, k, asOf).rows[k]);
      } else {
        ClearingIsSafe(S, owner, k);
        PermitsKeep(S, S.cleared + {Permit(owner, k)});
      }
    }
  }

  lemma DropPermitKeeps(S: Outbox, owner: Owner, k: Key)
    requires Inv(S)
    ensures Inv(S.(cleared := S.cleared - {Permit(owner, k)}))
  {
    PermitsKeep(S, S.cleared - {Permit(owner, k)});
  }

  lemma TakeKeeps(S: Outbox, owner: Owner, k: Key, asOf: Time, leaseMs: nat)
    requires Inv(S)
    ensures Inv(Take(S, owner, k, asOf, leaseMs))
  {
    if Permit(owner, k) in S.cleared {
      var T := S.(cleared := S.cleared - {Permit(owner, k)});
      DropPermitKeeps(S, owner, k);
      if k in S.rows && Available(S.rows[k], asOf) {
        MoveKeeps(T, k, S.rows[k].(status := Retry, lease := Some(Lease(owner, asOf + leaseMs))));
      }
    }
  }

  lemma MarkEnqueuedKeeps(S: Outbox, owner: Owner, k: Key, asOf: Time, leaseMs: nat)
    requires Inv(S)
    ensures Inv(MarkEnqueued(S, owner, k, asOf, leaseMs))
  {
    if k in S.rows && HeldBy(S.rows[k], owner) {
      MoveKeeps(S, k, S.rows[k].(status := Enqueued, lease := Some(Lease(owner, asOf + leaseMs))));
    }
  }

  lemma QueueFailedKeeps(S: Outbox, owner: Owner, k: Key, asOf: Time)
    requires Inv(S)
    ensures Inv(QueueFailed(S, owner, k, asOf))
  {
    if k in S.rows && HeldBy(S.rows[k], owner) {
      MoveKeeps(S, k, S.rows[k].(availableAt := asOf + 2_000, lease := None, reason := OtherReason));
    }
  }

  // ---- incidents --------------------------------------------------------

  lemma OpeningIsFresh(S: Outbox, i: IncidentId, m: MonitorId)
    requires ShapeOk(S) && i !in S.incidents
    ensures forall c :: First(i, c) !in S.rows && Closing(i, c) !in S.rows
    ensures OpeningKeys(S, i, m) !! S.rows.Keys
  {
    forall c ensures First(i, c) !in S.rows && Closing(i, c) !in S.rows {
      assert First(i, c) in S.rows ==> RowShape(S, First(i, c), S.rows[First(i, c)]);
      assert Closing(i, c) in S.rows ==> RowShape(S, Closing(i, c), S.rows[Closing(i, c)]);
    }
  }

  /** The rows an opening incident adds. */
  lemma OpenedRows(S: Outbox, i: IncidentId, m: MonitorId)
    requires ShapeOk(S) && i !in S.incidents
    ensures var T := OpenIncident(S, i, m);
            && (forall k :: k in S.rows ==> k in T.rows && T.rows[k] == S.rows[k])
            && (forall k :: k in T.rows && k !in S.rows ==>
                  && k.First? && k.incident == i
                  && NotifiesOnDown(S, m, Pair(m, k.channel))
                  && T.rows[k] == NewRow(EventType.Down, Some(m), RecoveryBound(S, m, k.channel), S.clock))
  {
    OpeningIsFresh(S, i, m);
  }

  lemma OpenKeepsShape(S: Outbox, i: IncidentId, m: MonitorId)
    requires ShapeOk(S) && i !in S.incidents
    ensures ShapeOk(OpenIncident(S, i, m))
  {
    var T := OpenIncident(S, i, m);
    OpenedRows(S, i, m);
    forall k | k in T.rows ensures RowShape(T, k, T.rows[k]) {
      if k in S.rows { assert RowShape(S, k, S.rows[k]); }
    }
  }

  lemma OpenKeepsAccounting(S: Outbox, i: IncidentId, m: MonitorId)
    requires ShapeOk(S) && Accounting(S) && i !in S.incidents
    ensures Accounting(OpenIncident(S, i, m))
  {
    var T := OpenIncident(S, i, m);
    OpenedRows(S, i, m);
    forall k | k in T.rows && T.rows[k].status.Sent? ensures Confirmed(T, k) { assert Confirmed(S, k); }
    forall a ensures a in T.deliveries <==> a.key in T.rows && 1 <= a.number <= T.rows[a.key].attempts {}
  }

  lemma OpenKeepsOrder(S: Outbox, i: IncidentId, m: MonitorId)
    requires ShapeOk(S) && OrderOk(S) && ReasonOk(S) && i !in S.incidents
    ensures OrderOk(OpenIncident(S, i, m)) && ReasonOk(OpenIncident(S, i, m))
  {
    var T := OpenIncident(S, i, m);
    OpenedRows(S, i, m);
    assert forall j :: IsRecovery(T, j) <==> IsRecovery(S, j);
    forall j | IsRecovery(S, j) ensures DownSent(T, j) <==> DownSent(S, j) {
      assert RowShape(S, j, S.rows[j]);
    }
    forall j | j in T.rows ensures ReasonRow(T, j) { if j in S.rows { assert ReasonRow(S, j); } }
  }

  lemma OpenKeepsTable(S: Outbox, i: IncidentId, m: MonitorId)
    requires ShapeOk(S) && KeptOk(S) && TableOk(S) && i !in S.incidents
    ensures KeptOk(OpenIncident(S, i, m)) && TableOk(OpenIncident(S, i, m))
  {
    var T := OpenIncident(S, i, m);
    OpenedRows(S, i, m);
    OpeningIsFresh(S, i, m);
    forall j ensures KeptRow(T, j) { assert KeptRow(S, j); }
    forall j ensures TableRow(T, j) {
      assert TableRow(S, j);
      if Watched(T, j) && j in S.rows { assert RowShape(S, j, S.rows[j]); }
    }
  }

  lemma OpenKeeps(S: Outbox, i: IncidentId, m: MonitorId)
    requires Inv(S)
    ensures Inv(OpenIncident(S, i, m))
  {
    if i !in S.incidents {
      OpenKeepsShape(S, i, m);
      OpenKeepsAccounting(S, i, m);
      OpenKeepsOrder(S, i, m);
      OpenKeepsTable(S, i, m);
    }
  }

  /** No closing row exists before its incident is resolved, so resolving never collides with the unique key. */
  lemma ClosingIsFresh(S: Outbox, i: IncidentId)
    requires ShapeOk(S) && i in S.incidents && !S.incidents[i].status.IncidentResolved?
    ensures forall c :: Closing(i, c) !in S.rows
    ensures ClosingKeys(S, i) !! S.rows.Keys
  {
    forall c ensures Closing(i, c) !in S.rows {
      assert Closing(i, c) in S.rows ==> RowShape(S, Closing(i, c), S.rows[Closing(i, c)]);
    }
  }

  /** The rows after resolving an incident, row by row. */
  lemma ResolvedRows(S: Outbox, i: IncidentId)
    requires ShapeOk(S) && i in S.incidents && S.incidents[i].status.IncidentOpen?
    ensures var T := Resolve(S, i);
            && S.rows.Keys <= T.rows.Keys
            && (forall k :: k in S.rows ==>
                  T.rows[k] == if WantsClosing(S, i, k) then CloseDown(S.rows[k]) else S.rows[k])
            && (forall k :: k in T.rows && k !in S.rows ==>
                  && k.Closing? && k.incident == i && WantsClosing(S, i, First(i, k.channel))
                  && !PlanRecovery(S.rows[First(i, k.channel)].status, S.rows[First(i, k.channel)].attempts).Skip?
                  && T.rows[k] == NewRow(ClosingEvent(S.rows[First(i, k.channel)]), Some(S.incidents[i].monitor), true, S.clock))
            && (forall c :: Closing(i, c) in T.rows <==>
                  WantsClosing(S, i, First(i, c))
                  && !PlanRecovery(S.rows[First(i, c)].status, S.rows[First(i, c)].attempts).Skip?)
  {
    ClosingIsFresh(S, i);
    var T := Resolve(S, i);
    forall c ensures Closing(i, c) in T.rows <==>
        WantsClosing(S, i, First(i, c)) && !PlanRecovery(S.rows[First(i, c)].status, S.rows[First(i, c)].attempts).Skip?
    {
      if WantsClosing(S, i, First(i, c)) && !PlanRecovery(S.rows[First(i, c)].status, S.rows[First(i, c)].attempts).Skip? {
        assert First(i, c) in S.rows;
        assert Closing(i, c) in ClosingKeys(S, i);
      }
    }
  }

  lemma ResolveKeepsShape(S: Outbox, i: IncidentId)
    requires ShapeOk(S) && i in S.incidents && S.incidents[i].status.IncidentOpen?
    ensures ShapeOk(Resolve(S, i))
  {
    var T := Resolve(S, i);
    ResolvedRows(S, i);
    forall k | k in T.rows ensures RowShape(T, k, T.rows[k]) {
      if k in S.rows {
        assert RowShape(S, k, S.rows[k]);
      } else {
        assert RowShape(S, First(i, k.channel), S.rows[First(i, k.channel)]);
      }
    }
  }

  lemma ResolveKeepsAccounting(S: Outbox, i: IncidentId)
    requires ShapeOk(S) && Accounting(S) && i in S.incidents && S.incidents[i].status.IncidentOpen?
    ensures Accounting(Resolve(S, i))
  {
    var T := Resolve(S, i);
    ResolvedRows(S, i);
    forall k | k in T.rows && T.rows[k].status.Sent? ensures Confirmed(T, k) { assert Confirmed(S, k); }
    forall a ensures a in T.deliveries <==> a.key in T.rows && 1 <= a.number <= T.rows[a.key].attempts {}
  }

  lemma ResolveKeepsOrder(S: Outbox, i: IncidentId)
    requires ShapeOk(S) && OrderOk(S) && ReasonOk(S) && i in S.incidents && S.incidents[i].status.IncidentOpen?
    ensures OrderOk(Resolve(S, i)) && ReasonOk(Resolve(S, i))
  {
    var T := Resolve(S, i);
    ResolvedRows(S, i);
    forall j | j in S.rows ensures IsRecovery(T, j) <==> IsRecovery(S, j) {}
    forall j | IsRecovery(S, j) ensures DownSent(T, j) <==> DownSent(S, j) {
      assert RowShape(S, j, S.rows[j]);
    }
    forall j | j in T.rows ensures ReasonRow(T, j) { if j in S.rows { assert ReasonRow(S, j); } }
  }

  lemma ResolveKeepsTable(S: Outbox, i: IncidentId)
    requires ShapeOk(S) && KeptOk(S) && TableOk(S) && i in S.incidents && S.incidents[i].status.IncidentOpen?
    ensures KeptOk(Resolve(S, i)) && TableOk(Resolve(S, i))
  {
    var T := Resolve(S, i);
    ResolvedRows(S, i);
    forall j ensures KeptRow(T, j) { assert KeptRow(S, j); }
    forall j ensures TableRow(T, j) {
      assert TableRow(S, j) && KeptRow(S, j);
      if Watched(T, j) {
        assert RowShape(S, j, S.rows[j]);
        if j.incident == i {
          assert WantsClosing(S, i, j);
        } else {
          assert Closing(j.incident, j.channel) in S.rows <==> Closing(j.incident, j.channel) in T.rows;
        }
      }
    }
  }

  lemma ResolveKeeps(S: Outbox, i: IncidentId)
    requires Inv(S)
    ensures Inv(Resolve(S, i))
  {
    if i in S.incidents && S.incidents[i].status.IncidentOpen? {
      ResolveKeepsShape(S, i);
      ResolveKeepsAccounting(S, i);
      ResolveKeepsOrder(S, i);
      ResolveKeepsTable(S, i);
    }
  }

  // ---- administration ---------------------------------------------------

  /** What a bulk cancellation does to the tables. */
  ghost predicate BulkCancel(S: Outbox, T: Outbox, touched: Key -> bool) {
    && T.rows == CancelTouched(S, touched)
    && T.deliveries == EndTracking(S, touched)
    && T.inFlight == S.inFlight && T.cleared == S.cleared
  }

  lemma BulkKeepsAccounting(S: Outbox, T: Outbox, touched: Key -> bool)
    requires Accounting(S) && BulkCancel(S, T, touched)
    ensures Accounting(T)
  {
    assert T.rows.Keys == S.rows.Keys && T.deliveries.Keys == S.deliveries.Keys;
    forall k | k in T.rows && T.rows[k].status.Sent? ensures Confirmed(T, k) {
      assert Confirmed(S, k);
      var n :| Attempt(k, n) in S.deliveries && S.deliveries[Attempt(k, n)].Succeeded?;
      assert T.deliveries[Attempt(k, n)].Succeeded?;
    }
  }

  lemma BulkKeepsEvents(S: Outbox, T: Outbox, touched: Key -> bool)
    requires BulkCancel(S, T, touched)
    ensures T.rows.Keys == S.rows.Keys
    ensures forall j :: IsRecovery(T, j) <==> IsRecovery(S, j)
    ensures forall j :: DownSent(T, j) <==> DownSent(S, j)
  {
    assert T.rows.Keys == S.rows.Keys;
  }

  lemma BulkKeepsReasons(S: Outbox, T: Outbox, touched: Key -> bool)
    requires ReasonOk(S) && BulkCancel(S, T, touched)
    ensures ReasonOk(T)
  {
    BulkKeepsEvents(S, T, touched);
    forall j | j in T.rows ensures ReasonRow(T, j) { assert ReasonRow(S, j); }
  }

  lemma BulkKeepsOrder(S: Outbox, T: Outbox, touched: Key -> bool)
    requires OrderOk(S) && ReasonOk(S) && BulkCancel(S, T, touched)
    ensures OrderOk(T) && ReasonOk(T)
  {
    BulkKeepsEvents(S, T, touched);
    BulkKeepsReasons(S, T, touched);
  }

  lemma CancelRuntimeKeepsShape(S: Outbox, m: MonitorId)
    requires ShapeOk(S)
    ensures ShapeOk(CancelRuntime(S, m))
  {
    var T := CancelRuntime(S, m);
    forall k | k in T.rows ensures RowShape(T, k, T.rows[k]) { assert RowShape(S, k, S.rows[k]); }
  }

  lemma CancelRuntimeKeepsTable(S: Outbox, m: MonitorId)
    requires ShapeOk(S) && KeptOk(S) && TableOk(S)
    ensures KeptOk(CancelRuntime(S, m)) && TableOk(CancelRuntime(S, m))
  {
    var T := CancelRuntime(S, m);
    forall j ensures KeptRow(T, j) { assert KeptRow(S, j); }
    forall j ensures TableRow(T, j) {
      assert TableRow(S, j);
      if Watched(T, j) {
        assert RowShape(S, j, S.rows[j]);
        var q := Closing(j.incident, j.channel);
        if q in S.rows { assert RowShape(S, q, S.rows[q]); }
      }
    }
  }

  lemma CancelRuntimeKeeps(S: Outbox, m: MonitorId)
    requires Inv(S)
    ensures Inv(CancelRuntime(S, m))
  {
    CancelRuntimeKeepsShape(S, m);
    BulkKeepsAccounting(S, CancelRuntime(S, m), OfMonitor(S, m));
    BulkKeepsOrder(S, CancelRuntime(S, m), OfMonitor(S, m));
    CancelRuntimeKeepsTable(S, m);
  }

  lemma TurnOffKeepsShape(S: Outbox, c: ChannelId, remove: bool)
    requires ShapeOk(S)
    ensures ShapeOk(TurnOff(S, c, remove))
  {
    var T := TurnOff(S, c, remove);
    forall k | k in T.rows ensures RowShape(T, k, T.rows[k]) { assert RowShape(S, k, S.rows[k]); }
  }

  lemma TurnOffKeepsTable(S: Outbox, c: ChannelId, remove: bool)
    requires KeptOk(S) && TableOk(S)
    ensures KeptOk(TurnOff(S, c, remove)) && TableOk(TurnOff(S, c, remove))
  {
    var T := TurnOff(S, c, remove);
    forall j ensures KeptRow(T, j) { assert KeptRow(S, j); }
    forall j ensures TableRow(T, j) { assert TableRow(S, j); }
  }

  lemma TurnOffKeeps(S: Outbox, c: ChannelId, remove: bool)
    requires Inv(S)
    ensures Inv(TurnOff(S, c, remove))
  {
    if TurnOff(S, c, remove) != S {
      TurnOffKeepsShape(S, c, remove);
      BulkKeepsAccounting(S, TurnOff(S, c, remove), OfChannel(c));
      BulkKeepsOrder(S, TurnOff(S, c, remove), OfChannel(c));
      TurnOffKeepsTable(S, c, remove);
    }
  }

  /** Rows that differ at most in the history flag. */
  ghost predicate FlagsOnly(S: Outbox, T: Outbox) {
    && S.rows.Keys == T.rows.Keys
    && (forall k :: k in S.rows ==> T.rows[k] in {S.rows[k], S.rows[k].(disturbed := true)})
    && S.deliveries == T.deliveries && S.inFlight == T.inFlight && S.cleared == T.cleared
    && S.incidents == T.incidents
  }

  lemma FlagsKeepRows(S: Outbox, T: Outbox)
    requires ShapeOk(S) && Accounting(S) && FlagsOnly(S, T)
    ensures ShapeOk(T) && Accounting(T)
  {
    forall k | k in T.rows ensures RowShape(T, k, T.rows[k]) { assert RowShape(S, k, S.rows[k]); }
    forall k | k in T.rows && T.rows[k].status.Sent? ensures Confirmed(T, k) { assert Confirmed(S, k); }
  }

  lemma FlagsKeepOrder(S: Outbox, T: Outbox)
    requires OrderOk(S) && ReasonOk(S) && FlagsOnly(S, T)
    ensures OrderOk(T) && ReasonOk(T)
  {
    assert forall j :: IsRecovery(T, j) <==> IsRecovery(S, j);
    assert forall j :: DownSent(T, j) <==> DownSent(S, j);
    forall k | k in T.rows ensures ReasonRow(T, k) { assert ReasonRow(S, k); }
  }

  lemma TurnOnKeepsTable(S: Outbox, c: ChannelId)
    requires KeptOk(S) && TableOk(S)
    ensures KeptOk(TurnOn(S, c)) && TableOk(TurnOn(S, c))
  {
    var T := TurnOn(S, c);
    forall k ensures KeptRow(T, k) { assert KeptRow(S, k); }
    forall k ensures TableRow(T, k) { assert TableRow(S, k); }
  }

  lemma TurnOnKeeps(S: Outbox, c: ChannelId)
    requires Inv(S)
    ensures Inv(TurnOn(S, c))
  {
    FlagsKeepRows(S, TurnOn(S, c));
    FlagsKeepOrder(S, TurnOn(S, c));
    TurnOnKeepsTable(S, c);
  }

  lemma RebindKeepsTable(S: Outbox, m: MonitorId, prefs: map<ChannelId, Prefs>)
    requires KeptOk(S) && TableOk(S)
    ensures KeptOk(Rebind(S, m, prefs)) && TableOk(Rebind(S, m, prefs))
  {
    var T := Rebind(S, m, prefs);
    forall j ensures KeptRow(T, j) {
      assert KeptRow(S, j);
      if Watched(T, j) && S.rows[j].monitor == Some(m) {
        assert j.channel in prefs;
        assert Pair(m, j.channel) in T.bindings;
      }
    }
    forall j ensures TableRow(T, j) { assert TableRow(S, j); }
  }

  lemma RebindKeeps(S: Outbox, m: MonitorId, prefs: map<ChannelId, Prefs>)
    requires Inv(S)
    ensures Inv(Rebind(S, m, prefs))
  {
    var T := Rebind(S, m, prefs);
    FlagsKeepRows(S, T);
    FlagsKeepOrder(S, T);
    RebindKeepsTable(S, m, prefs);
  }

  lemma PostNetworkKeepsRows(S: Outbox, outage: nat, c: ChannelId)
    requires ShapeOk(S) && Accounting(S)
    ensures ShapeOk(PostNetwork(S, outage, c)) && Accounting(PostNetwork(S, outage, c))
  {
    var T := PostNetwork(S, outage, c);
    forall k | k in T.rows ensures RowShape(T, k, T.rows[k]) {
      if k in S.rows { assert RowShape(S, k, S.rows[k]); }
    }
    forall k | k in T.rows && T.rows[k].status.Sent? ensures Confirmed(T, k) { assert Confirmed(S, k); }
  }

  lemma PostNetworkKeepsOrder(S: Outbox, outage: nat, c: ChannelId)
    requires OrderOk(S) && ReasonOk(S) && KeptOk(S) && TableOk(S)
    ensures var T := PostNetwork(S, outage, c); OrderOk(T) && ReasonOk(T) && KeptOk(T) && TableOk(T)
  {
    var T := PostNetwork(S, outage, c);
    assert forall j :: IsRecovery(T, j) <==> IsRecovery(S, j);
    assert forall j :: DownSent(T, j) <==> DownSent(S, j);
    forall k | k in T.rows ensures ReasonRow(T, k) { if k in S.rows { assert ReasonRow(S, k); } }
    forall j ensures KeptRow(T, j) { assert KeptRow(S, j); }
    forall j ensures TableRow(T, j) { assert TableRow(S, j); }
  }

  lemma PostNetworkKeeps(S: Outbox, outage: nat, c: ChannelId)
    requires Inv(S)
    ensures Inv(PostNetwork(S, outage, c))
  {
    PostNetworkKeepsRows(S, outage, c);
    PostNetworkKeepsOrder(S, outage, c);
  }

  // ---- processor: deliveries --------------------------------------------

  /** A change of deliveries that confirms nothing and starts nothing. */
  ghost predicate Ends(S: Outbox, deliveries: map<Attempt, DeliveryStatus>, inFlight: set<Attempt>) {
    && deliveries.Keys == S.deliveries.Keys
    && inFlight <= S.inFlight
    && (forall a :: a in deliveries ==> (deliveries[a].Succeeded? <==> S.deliveries[a].Succeeded?))
    && (forall a :: a in deliveries && deliveries[a].Attempting? ==> S.deliveries[a].Attempting?)
  }

  lemma EndsKeepAccounting(S: Outbox, deliveries: map<Attempt, DeliveryStatus>, inFlight: set<Attempt>)
    requires Accounting(S) && Ends(S, deliveries, inFlight)
    ensures Accounting(S.(deliveries := deliveries, inFlight := inFlight))
  {
    var T := S.(deliveries := deliveries, inFlight := inFlight);
    forall k | k in T.rows && T.rows[k].status.Sent? ensures Confirmed(T, k) {
      assert Confirmed(S, k);
      var n :| Attempt(k, n) in S.deliveries && S.deliveries[Attempt(k, n)].Succeeded?;
      assert deliveries[Attempt(k, n)].Succeeded?;
    }
  }

  /** Everything but the accounting ignores deliveries. */
  lemma DeliveriesKeepRest(S: Outbox, deliveries: map<Attempt, DeliveryStatus>, inFlight: set<Attempt>)
    requires Inv(S)
    ensures var T := S.(deliveries := deliveries, inFlight := inFlight);
            ShapeOk(T) && OrderOk(T) && ReasonOk(T) && KeptOk(T) && TableOk(T)
  {
    var T := S.(deliveries := deliveries, inFlight := inFlight);
    forall k | k in T.rows ensures RowShape(T, k, T.rows[k]) { assert RowShape(S, k, S.rows[k]); }
    forall k ensures KeptRow(T, k) { assert KeptRow(S, k); }
    forall k ensures TableRow(T, k) { assert TableRow(S, k); }
    forall k | k in T.rows ensures ReasonRow(T, k) { assert ReasonRow(S, k); }
  }

  lemma EndsKeep(S: Outbox, deliveries: map<Attempt, DeliveryStatus>, inFlight: set<Attempt>)
    requires Inv(S) && Ends(S, deliveries, inFlight)
    ensures Inv(S.(deliveries := deliveries, inFlight := inFlight))
  {
    EndsKeepAccounting(S, deliveries, inFlight);
    DeliveriesKeepRest(S, deliveries, inFlight);
  }

  lemma CrashKeeps(S: Outbox, a: Attempt)
    requires Inv(S)
    ensures Inv(S.(inFlight := S.inFlight - {a}))
  {
    EndsKeep(S, S.deliveries, S.inFlight - {a});
  }

  // ---- processor: a new attempt -----------------------------------------

  function Started(S: Outbox, k: Key, owner: Owner, leaseMs: nat): Outbox
    requires k in S.rows
  {
    var r, a := S.rows[k], Attempt(k, S.rows[k].attempts + 1);
    S.(rows := S.rows[k := r.(status := Processing, attempts := r.attempts + 1,
                              lease := Some(Lease(owner, S.clock + leaseMs)), reason := NoReason)],
       deliveries := S.deliveries[a := Attempting],
       inFlight := S.inFlight + {a})
  }

  ghost predicate CanStart(S: Outbox, k: Key) {
    && k in S.rows && !Terminal(S.rows[k].status) && S.rows[k].attempts < S.rows[k].maxAttempts
    && (IsRecovery(S, k) ==> DownSent(S, k))
    && (forall a :: a in S.deliveries && a.key == k ==> !S.deliveries[a].Attempting?)
  }

  lemma StartKeepsAccounting(S: Outbox, k: Key, owner: Owner, leaseMs: nat)
    requires Accounting(S) && CanStart(S, k)
    ensures Accounting(Started(S, k, owner, leaseMs))
  {
    var T := Started(S, k, owner, leaseMs);
    assert Attempt(k, S.rows[k].attempts + 1) !in S.deliveries;
    forall j | j in T.rows && T.rows[j].status.Sent? ensures Confirmed(T, j) {
      assert Confirmed(S, j);
      var n :| Attempt(j, n) in S.deliveries && S.deliveries[Attempt(j, n)].Succeeded?;
      assert T.deliveries[Attempt(j, n)].Succeeded?;
    }
    forall a ensures a in T.deliveries <==> a.key in T.rows && 1 <= a.number <= T.rows[a.key].attempts {}
  }

  lemma StartKeepsRows(S: Outbox, k: Key, owner: Owner, leaseMs: nat)
    requires ShapeOk(S) && OrderOk(S) && ReasonOk(S) && CanStart(S, k)
    ensures var T := Started(S, k, owner, leaseMs); ShapeOk(T) && OrderOk(T) && ReasonOk(T)
  {
    var T := Started(S, k, owner, leaseMs);
    forall j | j in T.rows ensures RowShape(T, j, T.rows[j]) { assert RowShape(S, j, S.rows[j]); }
    assert forall j :: IsRecovery(T, j) <==> IsRecovery(S, j);
    assert forall j :: DownSent(T, j) <==> DownSent(S, j);
    forall j | j in T.rows ensures ReasonRow(T, j) { assert ReasonRow(S, j); }
  }

  lemma StartKeepsTable(S: Outbox, k: Key, owner: Owner, leaseMs: nat)
    requires ShapeOk(S) && KeptOk(S) && TableOk(S) && CanStart(S, k)
    ensures KeptOk(Started(S, k, owner, leaseMs)) && TableOk(Started(S, k, owner, leaseMs))
  {
    var T := Started(S, k, owner, leaseMs);
    forall j ensures KeptRow(T, j) { assert KeptRow(S, j); }
    forall j ensures TableRow(T, j) {
      assert TableRow(S, j);
      if k.Closing? { assert RowShape(S, k, S.rows[k]); }
    }
  }

  lemma StartKeeps(S: Outbox, k: Key, owner: Owner, leaseMs: nat)
    requires Inv(S) && CanStart(S, k)
    ensures Inv(Started(S, k, owner, leaseMs))
  {
    StartKeepsAccounting(S, k, owner, leaseMs);
    StartKeepsRows(S, k, owner, leaseMs);
    StartKeepsTable(S, k, owner, leaseMs);
  }

  // ---- processor: final failure -----------------------------------------

  ghost predicate CanFail(S: Outbox, k: Key) {
    k in S.rows && !Terminal(S.rows[k].status) && (IsRecovery(S, k) ==> DownSent(S, k))
  }

  /** A final failure touches its own row and, for a DOWN, the recovery that waits for it. */
  ghost predicate FailedTo(S: Outbox, k: Key, rows: map<Key, Row>)
    requires k in S.rows
  {
    && rows.Keys == S.rows.Keys
    && rows[k] == S.rows[k].(status := Failed, lease := None, reason := OtherReason)
    && (forall j :: j in rows && j != k ==>
          || rows[j] == S.rows[j]
          || (j.Closing? && k == First(j.incident, j.channel) && FellWith(S.rows[j]) && rows[j] == Cancel(S.rows[j], DownNotDelivered)))
    && (k.First? && Closing(k.incident, k.channel) in rows ==> !Falls(rows[Closing(k.incident, k.channel)]))
  }

  ghost predicate FellWith(r: Row) {
    r.event.Recovery? && !Terminal(r.status) && r.attempts == 0 && r.reactivations == 0
  }

  lemma FailedRows(S: Outbox, k: Key)
    requires ShapeOk(S) && OrderOk(S) && ReasonOk(S) && CanFail(S, k)
    ensures FailedTo(S, k, FailFinally(S.rows, k))
  {
    assert RowShape(S, k, S.rows[k]);
    if k.First? && Closing(k.incident, k.channel) in S.rows { assert ReasonRow(S, Closing(k.incident, k.channel)); }
  }

  lemma FailKeepsAccounting(S: Outbox, k: Key, rows: map<Key, Row>)
    requires Accounting(S) && CanFail(S, k) && FailedTo(S, k, rows)
    ensures Accounting(S.(rows := rows))
  {
    var T := S.(rows := rows);
    forall j | j in T.rows && T.rows[j].status.Sent? ensures Confirmed(T, j) { assert Confirmed(S, j); }
  }

  lemma FailKeepsShape(S: Outbox, k: Key, rows: map<Key, Row>)
    requires ShapeOk(S) && CanFail(S, k) && FailedTo(S, k, rows)
    ensures ShapeOk(S.(rows := rows))
  {
    var T := S.(rows := rows);
    forall j | j in T.rows ensures RowShape(T, j, T.rows[j]) { assert RowShape(S, j, S.rows[j]); }
  }

  lemma FailKeepsOrder(S: Outbox, k: Key, rows: map<Key, Row>)
    requires OrderOk(S) && ReasonOk(S) && CanFail(S, k) && FailedTo(S, k, rows)
    ensures OrderOk(S.(rows := rows)) && ReasonOk(S.(rows := rows))
  {
    var T := S.(rows := rows);
    assert forall j :: IsRecovery(T, j) <==> IsRecovery(S, j);
    assert forall j :: DownSent(T, j) <==> DownSent(S, j);
    forall j | j in T.rows ensures ReasonRow(T, j) { assert ReasonRow(S, j); }
  }

  lemma FailKeepsTable(S: Outbox, k: Key, rows: map<Key, Row>)
    requires ShapeOk(S) && OrderOk(S) && KeptOk(S) && TableOk(S) && CanFail(S, k) && FailedTo(S, k, rows)
    ensures KeptOk(S.(rows := rows)) && TableOk(S.(rows := rows))
  {
    var T := S.(rows := rows);
    forall j ensures KeptRow(T, j) { assert KeptRow(S, j); }
    forall j ensures TableRow(T, j) {
      assert TableRow(S, j);
      assert RowShape(S, k, S.rows[k]);
    }
  }

  lemma FailKeeps(S: Outbox, k: Key)
    requires Inv(S) && CanFail(S, k)
    ensures Inv(S.(rows := FailFinally(S.rows, k)))
  {
    FailedRows(S, k);
    FailKeepsAccounting(S, k, FailFinally(S.rows, k));
    FailKeepsShape(S, k, FailFinally(S.rows, k));
    FailKeepsOrder(S, k, FailFinally(S.rows, k));
    FailKeepsTable(S, k, FailFinally(S.rows, k));
  }

  lemma ForsakeEnds(S: Outbox, k: Key)
    ensures Ends(S, Forsake(S, k), S.inFlight)
  {
  }

  lemma ClaimCases(S: Outbox, k: Key, owner: Owner, leaseMs: nat) returns (T: Outbox)
    ensures T == S.(deliveries := Forsake(S, k))
    ensures Claim(S, k, owner, leaseMs) in {S, T}
            || (k in S.rows && !ChannelOn(S, k.channel) && !Terminal(S.rows[k].status)
                && Claim(S, k, owner, leaseMs) == S.(rows := S.rows[k := Cancel(S.rows[k], OtherReason)]))
            || (CanFail(T, k) && Claim(S, k, owner, leaseMs) == T.(rows := FailFinally(T.rows, k)))
            || (CanStart(T, k) && Claim(S, k, owner, leaseMs) == Started(T, k, owner, leaseMs))
  {
    T := S.(deliveries := Forsake(S, k));
  }

  lemma ClaimKeeps(S: Outbox, k: Key, owner: Owner, leaseMs: nat)
    requires Inv(S)
    ensures Inv(Claim(S, k, owner, leaseMs))
  {
    var T := ClaimCases(S, k, owner, leaseMs);
    ForsakeEnds(S, k);
    EndsKeep(S, Forsake(S, k), S.inFlight);
    var U := Claim(S, k, owner, leaseMs);
    if U == S || U == T {
    } else if k in S.rows && !ChannelOn(S, k.channel) && !Terminal(S.rows[k].status) {
      MoveKeeps(S, k, Cancel(S.rows[k], OtherReason));
    } else if CanFail(T, k) && U == T.(rows := FailFinally(T.rows, k)) {
      FailKeeps(T, k);
    } else {
      StartKeeps(T, k, owner, leaseMs);
    }
  }

  lemma MarkFailedCases(S: Outbox, a: Attempt, retryable: bool, uncertain: bool, delay: nat) returns (T: Outbox)
    requires OrderOk(S) && FlightOk(S) && a in S.inFlight && a.key in S.rows
    ensures T == S.(deliveries := S.deliveries[a := if uncertain then Unknown else DeliveryFailed], inFlight := S.inFlight - {a})
    ensures Ends(S, T.deliveries, T.inFlight)
    ensures var U := MarkFailed(S, a, retryable, uncertain, delay);
            || U == T
            || (a.key in U.rows && Moves(T, a.key, U.rows[a.key]) && U == T.(rows := T.rows[a.key := U.rows[a.key]]))
            || (CanFail(T, a.key) && U == T.(rows := FailFinally(T.rows, a.key)))
  {
    T := S.(deliveries := S.deliveries[a := if uncertain then Unknown else DeliveryFailed], inFlight := S.inFlight - {a});
  }

  lemma MarkFailedKeeps(S: Outbox, a: Attempt, retryable: bool, uncertain: bool, delay: nat)
    requires Inv(S)
    ensures Inv(MarkFailed(S, a, retryable, uncertain, delay))
  {
    if a in S.inFlight && a.key in S.rows {
      var T := MarkFailedCases(S, a, retryable, uncertain, delay);
      EndsKeep(S, T.deliveries, T.inFlight);
      var U := MarkFailed(S, a, retryable, uncertain, delay);
      if U != T {
        if CanFail(T, a.key) && U == T.(rows := FailFinally(T.rows, a.key)) {
          FailKeeps(T, a.key);
        } else {
          MoveKeeps(T, a.key, U.rows[a.key]);
        }
      }
    }
  }

  // ---- processor: late or timely success --------------------------------

  ghost predicate CanConfirm(S: Outbox, a: Attempt) {
    a in S.deliveries && a.key in S.rows && !S.rows[a.key].status.Canceled?
    && (IsRecovery(S, a.key) ==> DownSent(S, a.key))
  }

  function SentRow(r: Row): Row {
    r.(status := Sent, lease := None, reason := NoReason)
  }

  /** The rows after a confirmed attempt: its own row is sent, and for a DOWN its recovery exists or returns. */
  ghost predicate ConfirmedTo(S: Outbox, k: Key, rows: map<Key, Row>)
    requires k in S.rows
  {
    && S.rows.Keys <= rows.Keys
    && rows[k] == SentRow(S.rows[k])
    && (forall j :: j in S.rows && j != k ==> rows[j] == S.rows[j] || (IsClosingOf(k, j) && Returned(S.rows[j], rows[j], S.clock)))
    && (forall j :: j in rows && j !in S.rows ==>
          IsClosingOf(k, j) && rows[j] == NewRow(Recovery, S.rows[k].monitor, true, S.clock)
          && S.rows[k].allowsRecovery && k.incident in S.incidents && S.incidents[k.incident].status.IncidentResolved?)
    && (Watched(S, k) && k.incident in S.incidents && S.incidents[k.incident].status.IncidentResolved? ==>
          Closing(k.incident, k.channel) in rows
          && !(rows[Closing(k.incident, k.channel)].event.Recovery? && rows[Closing(k.incident, k.channel)].status.Canceled?
               && rows[Closing(k.incident, k.channel)].reason.DownNotDelivered?))
  }

  ghost predicate IsClosingOf(k: Key, j: Key) {
    k.First? && j == Closing(k.incident, k.channel)
  }

  ghost predicate Returned(before: Row, after: Row, now: Time) {
    && before.event.Recovery? && before.status.Canceled? && before.reason.DownNotDelivered?
    && after == before.(status := Status.Pending, availableAt := now, lease := None, reason := NoReason,
                        reactivations := before.reactivations + 1)
  }

  lemma ConfirmedRows(S: Outbox, a: Attempt)
    requires ShapeOk(S) && KeptOk(S) && a in S.inFlight && CanConfirm(S, a)
    ensures ConfirmedTo(S, a.key, MarkSent(S, a).rows)
    ensures MarkSent(S, a) == S.(deliveries := S.deliveries[a := Succeeded], inFlight := S.inFlight - {a},
                                 rows := MarkSent(S, a).rows)
  {
    assert RowShape(S, a.key, S.rows[a.key]);
    assert KeptRow(S, a.key);
  }

  lemma ConfirmKeepsShape(S: Outbox, k: Key, rows: map<Key, Row>)
    requires ShapeOk(S) && k in S.rows && ConfirmedTo(S, k, rows)
    ensures ShapeOk(S.(rows := rows))
  {
    var T := S.(rows := rows);
    assert RowShape(S, k, S.rows[k]);
    forall j | j in T.rows ensures RowShape(T, j, T.rows[j]) { if j in S.rows { assert RowShape(S, j, S.rows[j]); } }
  }

  lemma ConfirmKeepsAccounting(S: Outbox, a: Attempt, rows: map<Key, Row>)
    requires Accounting(S) && ReasonOk(S) && CanConfirm(S, a) && ConfirmedTo(S, a.key, rows)
    ensures Accounting(S.(deliveries := S.deliveries[a := Succeeded], inFlight := S.inFlight - {a}, rows := rows))
  {
    var T := S.(deliveries := S.deliveries[a := Succeeded], inFlight := S.inFlight - {a}, rows := rows);
    forall j | j in T.rows && T.rows[j].status.Sent? ensures Confirmed(T, j) {
      if j == a.key {
        assert a == Attempt(j, a.number);
      } else {
        assert Confirmed(S, j);
        var n :| Attempt(j, n) in S.deliveries && S.deliveries[Attempt(j, n)].Succeeded?;
        assert T.deliveries[Attempt(j, n)].Succeeded?;
      }
    }
    forall b | b in T.deliveries ensures b.key in T.rows {}
    forall j | j in S.rows ensures T.rows[j].attempts == S.rows[j].attempts {}
    forall b | b in T.deliveries && T.deliveries[b].Succeeded?
      ensures T.rows[b.key].status.Sent? || T.rows[b.key].status.Canceled?
    {
      assert ReasonRow(S, b.key);
      if b != a { assert 1 <= b.number <= S.rows[b.key].attempts; }
    }
  }

  lemma ConfirmKeepsOrder(S: Outbox, k: Key, rows: map<Key, Row>)
    requires OrderOk(S) && ReasonOk(S) && k in S.rows && ConfirmedTo(S, k, rows)
    requires IsRecovery(S, k) ==> DownSent(S, k)
    ensures OrderOk(S.(rows := rows)) && ReasonOk(S.(rows := rows))
  {
    var T := S.(rows := rows);
    assert forall j :: j in S.rows ==> (IsRecovery(T, j) <==> IsRecovery(S, j));
    assert forall j :: DownSent(S, j) ==> DownSent(T, j);
    forall j | j in T.rows ensures ReasonRow(T, j) { if j in S.rows { assert ReasonRow(S, j); } }
  }

  lemma ConfirmKeepsKept(S: Outbox, k: Key, rows: map<Key, Row>)
    requires KeptOk(S) && k in S.rows && ConfirmedTo(S, k, rows)
    ensures KeptOk(S.(rows := rows))
  {
    forall j ensures KeptRow(S.(rows := rows), j) { assert KeptRow(S, j); }
  }

  lemma ConfirmKeepsTable(S: Outbox, k: Key, rows: map<Key, Row>)
    requires ShapeOk(S) && OrderOk(S) && ReasonOk(S) && KeptOk(S) && TableOk(S) && k in S.rows && ConfirmedTo(S, k, rows)
    requires !S.rows[k].status.Canceled?
    requires IsRecovery(S, k) ==> DownSent(S, k)
    ensures KeptOk(S.(rows := rows)) && TableOk(S.(rows := rows))
  {
    var T := S.(rows := rows);
    assert RowShape(S, k, S.rows[k]);
    ConfirmKeepsKept(S, k, rows);
    forall j ensures TableRow(T, j) {
      assert TableRow(S, j);
      if Watched(T, j) {
        var q := Closing(j.incident, j.channel);
        if q in S.rows { assert ReasonRow(S, q); }
      }
    }
  }

  lemma MarkSentKeeps(S: Outbox, a: Attempt)
    requires Inv(S)
    ensures Inv(MarkSent(S, a))
  {
    if a in S.inFlight && a.key in S.rows {
      if S.rows[a.key].status.Canceled? {
        CanceledConfirmKeeps(S, a);
      } else {
        FlightIsBehindDown(S, a);
        var rows := MarkSent(S, a).rows;
        ConfirmedRows(S, a);
        ConfirmKeepsAccounting(S, a, rows);
        ConfirmKeepsShape(S, a.key, rows);
        ConfirmKeepsOrder(S, a.key, rows);
        ConfirmKeepsTable(S, a.key, rows);
        ConfirmKeepsRest(S.(rows := rows), S.deliveries[a := Succeeded], S.inFlight - {a});
      }
    }
  }

  lemma ConfirmKeepsRest(S: Outbox, deliveries: map<Attempt, DeliveryStatus>, inFlight: set<Attempt>)
    requires ShapeOk(S) && OrderOk(S) && ReasonOk(S) && KeptOk(S) && TableOk(S)
    ensures var T := S.(deliveries := deliveries, inFlight := inFlight);
            ShapeOk(T) && OrderOk(T) && ReasonOk(T) && KeptOk(T) && TableOk(T)
  {
    var T := S.(deliveries := deliveries, inFlight := inFlight);
    forall k | k in T.rows ensures RowShape(T, k, T.rows[k]) { assert RowShape(S, k, S.rows[k]); }
    forall k ensures KeptRow(T, k) { assert KeptRow(S, k); }
    forall k ensures TableRow(T, k) { assert TableRow(S, k); }
    forall k | k in T.rows ensures ReasonRow(T, k) { assert ReasonRow(S, k); }
  }

  /** A send in flight of a recovery started behind a sent DOWN, and still is. */
  lemma FlightIsBehindDown(S: Outbox, a: Attempt)
    requires Accounting(S) && OrderOk(S) && a in S.inFlight
    ensures a in S.deliveries && a.key in S.rows && S.rows[a.key].attempts >= 1
    ensures IsRecovery(S, a.key) ==> DownSent(S, a.key)
  {
  }

  lemma CanceledConfirmKeeps(S: Outbox, a: Attempt)
    requires Inv(S) && a in S.inFlight && a.key in S.rows && S.rows[a.key].status.Canceled?
    ensures Inv(S.(deliveries := S.deliveries[a := Succeeded], inFlight := S.inFlight - {a}))
  {
    var T := S.(deliveries := S.deliveries[a := Succeeded], inFlight := S.inFlight - {a});
    DeliveriesKeepRest(S, T.deliveries, T.inFlight);
    CanceledConfirmKeepsAccounting(S, a);
  }

  lemma CanceledConfirmKeepsAccounting(S: Outbox, a: Attempt)
    requires Accounting(S) && a in S.inFlight && a.key in S.rows && S.rows[a.key].status.Canceled?
    ensures Accounting(S.(deliveries := S.deliveries[a := Succeeded], inFlight := S.inFlight - {a}))
  {
    var T := S.(deliveries := S.deliveries[a := Succeeded], inFlight := S.inFlight - {a});
    forall j | j in T.rows && T.rows[j].status.Sent? ensures Confirmed(T, j) {
      assert Confirmed(S, j);
      var n :| Attempt(j, n) in S.deliveries && S.deliveries[Attempt(j, n)].Succeeded?;
      assert T.deliveries[Attempt(j, n)].Succeeded?;
    }
  }

  // ---- every run --------------------------------------------------------

  lemma PerformKeeps(S: Outbox, s: Step)
    requires Inv(S)
    ensures Inv(Perform(S, s))
  {
    match s
    case DoOpen(i, m) => OpenKeeps(S, i, m);
    case DoResolve(i) => ResolveKeeps(S, i);
    case DoCancelRuntime(m) => CancelRuntimeKeeps(S, m);
    case DoTurnOff(c, remove) => TurnOffKeeps(S, c, remove);
    case DoTurnOn(c) => TurnOnKeeps(S, c);
    case DoRebind(m, prefs) => RebindKeeps(S, m, prefs);
    case DoPostNetwork(outage, c) => PostNetworkKeeps(S, outage, c);
    case DoInspect(owner, k, asOf) => InspectKeeps(S, owner, k, asOf);
    case DoTake(owner, k, asOf, leaseMs) => TakeKeeps(S, owner, k, asOf, leaseMs);
    case DoMarkEnqueued(owner, k, asOf, leaseMs) => MarkEnqueuedKeeps(S, owner, k, asOf, leaseMs);
    case DoQueueFailed(owner, k, asOf) => QueueFailedKeeps(S, owner, k, asOf);
    case DoDropPermit(owner, k) => DropPermitKeeps(S, owner, k);
    case DoClaim(k, owner, leaseMs) => ClaimKeeps(S, k, owner, leaseMs);
    case DoMarkSent(a) => MarkSentKeeps(S, a);
    case DoMarkFailed(a, retryable, uncertain, delay) => MarkFailedKeeps(S, a, retryable, uncertain, delay);
    case DoCrash(a) => CrashKeeps(S, a);
  }

  lemma ApplyKeeps(S: Outbox, e: Event)
    requires Inv(S)
    ensures Inv(Apply(S, e))
  {
    if e.now > S.clock {
      TickKeeps(S, e.now);
      PerformKeeps(S.(clock := e.now), e.step);
    }
  }

  lemma {:induction false} RunKeeps(S: Outbox, events: seq<Event>)
    requires Inv(S)
    ensures Inv(Run(S, events))
  {
    if events != [] {
      RunKeeps(S, events[..|events| - 1]);
      ApplyKeeps(Run(S, events[..|events| - 1]), events[|events| - 1]);
    }
  }

  lemma {:induction false} Reachable(clock: Time, events: seq<Event>)
    ensures Inv(Run(EmptyOutbox(clock), events))
  {
    RunKeeps(EmptyOutbox(clock), events);
  }
}
