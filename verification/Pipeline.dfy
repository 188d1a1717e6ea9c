/**
 * Checks and messages together: a transaction that opens, resolves or cancels incidents writes the notification rows
 * with them. What the two machines promise apart, this module says from check results to messages.
 */
module Pipeline {
  import opened Domain
  import opened HealthState
  import C = CheckLedger
  import CI = CheckInvariants
  import CP = CheckPreservation
  import CT = CheckTheorems
  import O = Outbox
  import OI = OutboxInvariants
  import OP = OutboxPreservation
  import OL = OutboxLeases
  import OT = OutboxTheorems

  // ---- the machine ------------------------------------------------------

  /** The clock is the time of the last transaction of either machine. */
  datatype World = World(clock: Time, ledger: C.Ledger, outbox: O.Outbox)

  datatype Step = Checks(check: C.Step) | Messages(message: O.Step)

  datatype Event = Event(now: Time, step: Step)

  /** Incidents open, resolve and end only with a transaction of the ledger. */
  predicate Free(s: O.Step) { !s.DoOpen? && !s.DoResolve? && !s.DoCancelRuntime? }

  /** The incident effect of storing a result. */
  function EffectOf(L: C.Ledger, id: C.CheckId, r: C.CheckResult): IncidentEffect {
    if C.Persist(L, id, r) == L || !C.StillValid(L.checks[id], L.monitors[L.checks[id].monitor]) then NoEffect
    else
      var mon := L.monitors[L.checks[id].monitor];
      var t := ApplyCheckResult(mon.state, C.InputOf(r, L.checks[id].configVersion, mon.config)).value;
      if t.Applied() then t.effect else NoEffect
  }

  /** What the outbox does for the effect of a result. */
  function WritesFor(incidents: seq<C.Incident>, m: C.MonitorId, e: IncidentEffect): Option<O.Step> {
    var open := C.FindOpen(incidents, m);
    match e
    case OpenIncident(_, _, _, _) => if open.None? then Some(O.DoOpen(|incidents|, m)) else None
    case ResolveIncident(_) => if open.Some? then Some(O.DoResolve(open.value)) else None
    case _ => None
  }

  /** What a transaction of the ledger writes to the outbox. */
  function Writes(L: C.Ledger, s: C.Step): Option<O.Step> {
    match s
    case DoWorkerFinish(w, r) =>
      if !CP.CanFinish(L, w, r) || L.workers[w].check >= |L.checks| then None
      else
        WritesFor(L.incidents, L.checks[L.workers[w].check].monitor, EffectOf(L, L.workers[w].check, r))
    case DoPause(m) => if C.Pause(L, m) == L then None else Some(O.DoCancelRuntime(m))
    case DoRemove(m) => if C.Remove(L, m) == L then None else Some(O.DoCancelRuntime(m))
    case DoUpdateMonitor(m, c, jitter) => if C.UpdateMonitor(L, m, c, jitter) == L then None else Some(O.DoCancelRuntime(m))
    case _ => None
  }

  /** The event of the outbox that goes with an event, if any. */
  function Message(W: World, e: Event): Option<O.Event> {
    if e.now <= W.clock then None
    else
      match e.step
      case Checks(s) =>
        var w := Writes(W.ledger.(clock := e.now), s);
        if w.None? then None else Some(O.Event(e.now, w.value))
      case Messages(s) => if Free(s) then Some(O.Event(e.now, s)) else None
  }

  function Apply(W: World, e: Event): World {
    if e.now <= W.clock then W
    else
      World(e.now,
            if e.step.Checks? then C.Apply(W.ledger, C.Event(e.now, e.step.check)) else W.ledger,
            if Message(W, e).Some? then O.Apply(W.outbox, Message(W, e).value) else W.outbox)
  }

  function Run(clock: Time, events: seq<Event>): World {
    if events == [] then World(clock, C.EmptyLedger(clock), O.EmptyOutbox(clock))
    else Apply(Run(clock, events[..|events| - 1]), events[|events| - 1])
  }

  // ---- the two runs in it -------------------------------------------------

  function CheckEvents(clock: Time, events: seq<Event>): seq<C.Event> {
    if events == [] then []
    else
      var rest, e := CheckEvents(clock, events[..|events| - 1]), events[|events| - 1];
      if e.step.Checks? && e.now > Run(clock, events[..|events| - 1]).clock then rest + [C.Event(e.now, e.step.check)] else rest
  }

  function MessageEvents(clock: Time, events: seq<Event>): seq<O.Event> {
    if events == [] then []
    else
      var rest, e := MessageEvents(clock, events[..|events| - 1]), events[|events| - 1];
      var m := Message(Run(clock, events[..|events| - 1]), e);
      if m.Some? then rest + [m.value] else rest
  }

  lemma OneMoreCheck(L: C.Ledger, events: seq<C.Event>, e: C.Event)
    ensures C.Run(L, events + [e]) == C.Apply(C.Run(L, events), e)
  {
    assert (events + [e])[..|events|] == events;
  }

  lemma OneMoreMessage(S: O.Outbox, events: seq<O.Event>, e: O.Event)
    ensures O.Run(S, events + [e]) == O.Apply(O.Run(S, events), e)
  {
    assert (events + [e])[..|events|] == events;
  }

  /** Each part of a run of both machines is a run of its own machine, so each keeps all its promises. */
  lemma {:induction false} PartsAreRuns(clock: Time, events: seq<Event>)
    ensures Run(clock, events).ledger == C.Run(C.EmptyLedger(clock), CheckEvents(clock, events))
    ensures Run(clock, events).outbox == O.Run(O.EmptyOutbox(clock), MessageEvents(clock, events))
  {
    if events != [] {
      var prefix, e := events[..|events| - 1], events[|events| - 1];
      PartsAreRuns(clock, prefix);
      OneMoreCheck(C.EmptyLedger(clock), CheckEvents(clock, prefix), if e.step.Checks? then C.Event(e.now, e.step.check) else C.Event(0, C.DoWorkerCrash(0)));
      if Message(Run(clock, prefix), e).Some? {
        OneMoreMessage(O.EmptyOutbox(clock), MessageEvents(clock, prefix), Message(Run(clock, prefix), e).value);
      }
    }
  }

  lemma PartsAreReachable(clock: Time, events: seq<Event>)
    ensures CI.Inv(Run(clock, events).ledger) && OI.Inv(Run(clock, events).outbox)
  {
    PartsAreRuns(clock, events);
    CP.Reachable(clock, CheckEvents(clock, events));
    OP.Reachable(clock, MessageEvents(clock, events));
  }

  // ---- the incidents agree ------------------------------------------------

  predicate SameIncident(a: C.Incident, b: O.Incident) {
    && a.monitor == b.monitor
    && (a.status.IncidentOpen? <==> b.status.IncidentOpen?)
    && (a.status.IncidentResolved? <==> b.status.IncidentResolved?)
  }

  /** The outbox knows exactly the incidents of the ledger, each in its state. */
  ghost predicate Agrees(incidents: seq<C.Incident>, known: map<O.IncidentId, O.Incident>) {
    && (forall i: nat :: i in known <==> i < |incidents|)
    && (forall i :: 0 <= i < |incidents| ==> i in known && SameIncident(incidents[i], known[i]))
  }

  ghost predicate Mirrors(W: World) {
    && W.ledger.clock <= W.clock && W.outbox.clock <= W.clock
    && Agrees(W.ledger.incidents, W.outbox.incidents)
  }

  lemma PersistWritesEffect(L: C.Ledger, id: C.CheckId, r: C.CheckResult)
    requires id < |L.checks|
    ensures var m := L.checks[id].monitor;
            C.Persist(L, id, r).incidents
            == if m in L.monitors then C.ApplyIncidentEffect(L.incidents, m, L.monitors[m].state.configVersion, EffectOf(L, id, r))
               else L.incidents
  {}

  /** Opening, resolving or only annotating incidents on both sides. */
  lemma EffectAgrees(incidents: seq<C.Incident>, S: O.Outbox, m: C.MonitorId, version: int, e: IncidentEffect)
    requires Agrees(incidents, S.incidents)
    ensures var s := WritesFor(incidents, m, e);
            Agrees(C.ApplyIncidentEffect(incidents, m, version, e), if s.Some? then O.Perform(S, s.value).incidents else S.incidents)
  {
    var s := WritesFor(incidents, m, e);
    if s.Some? && s.value.DoOpen? {
      OpenAgrees(incidents, S, m, version, e);
    } else if s.Some? && s.value.DoResolve? {
      ResolveAgrees(incidents, S, m, version, e);
    }
  }

  lemma OpenAgrees(incidents: seq<C.Incident>, S: O.Outbox, m: C.MonitorId, version: int, e: IncidentEffect)
    requires Agrees(incidents, S.incidents) && e.OpenIncident? && C.FindOpen(incidents, m).None?
    ensures Agrees(C.ApplyIncidentEffect(incidents, m, version, e), O.OpenIncident(S, |incidents|, m).incidents)
  {}

  lemma ResolveAgrees(incidents: seq<C.Incident>, S: O.Outbox, m: C.MonitorId, version: int, e: IncidentEffect)
    requires Agrees(incidents, S.incidents) && e.ResolveIncident? && C.FindOpen(incidents, m).Some?
    ensures Agrees(C.ApplyIncidentEffect(incidents, m, version, e), O.Resolve(S, C.FindOpen(incidents, m).value).incidents)
  {}

  lemma CancelAgrees(incidents: seq<C.Incident>, S: O.Outbox, m: C.MonitorId, at: Time, reason: ClosureReason)
    requires Agrees(incidents, S.incidents)
    ensures Agrees(C.CancelIncidents(incidents, m, at, reason), O.CancelRuntime(S, m).incidents)
  {}

  lemma FinishedIncidents(L: C.Ledger, w: C.WorkerId, r: C.CheckResult)
    requires CI.Inv(L) && CP.CanFinish(L, w, r)
    ensures var id := L.workers[w].check;
            && id < |L.checks| && L.checks[id].monitor in L.monitors
            && var m := L.checks[id].monitor;
               C.WorkerFinish(L, w, r).incidents
               == C.ApplyIncidentEffect(L.incidents, m, L.monitors[m].state.configVersion, EffectOf(L, id, r))
  {
    var id := L.workers[w].check;
    CP.FinishCases(L, w, r);
    assert CI.WorkersOk(L);
    assert CI.RowOk(L.checks[id], id, L.monitors, L.clock);
    PersistWritesEffect(L, id, r);
  }

  lemma FinishAgrees(L: C.Ledger, S: O.Outbox, w: C.WorkerId, r: C.CheckResult)
    requires CI.Inv(L) && Agrees(L.incidents, S.incidents)
    ensures var s := C.DoWorkerFinish(w, r);
            Agrees(C.WorkerFinish(L, w, r).incidents,
                   if Writes(L, s).Some? then O.Perform(S, Writes(L, s).value).incidents else S.incidents)
  {
    if CP.CanFinish(L, w, r) {
      var id := L.workers[w].check;
      FinishedIncidents(L, w, r);
      EffectAgrees(L.incidents, S, L.checks[id].monitor, L.monitors[L.checks[id].monitor].state.configVersion, EffectOf(L, id, r));
    } else {
      CP.FinishCases(L, w, r);
    }
  }

  predicate Cancels(s: C.Step) { s.DoPause? || s.DoRemove? || s.DoUpdateMonitor? }

  lemma AdministrationAgrees(L: C.Ledger, S: O.Outbox, s: C.Step)
    requires Cancels(s) && Agrees(L.incidents, S.incidents)
    ensures Agrees(C.Perform(L, s).incidents, if Writes(L, s).Some? then O.Perform(S, Writes(L, s).value).incidents else S.incidents)
  {
    CancelAgrees(L.incidents, S, s.m, L.clock, if s.DoPause? then ByPause else if s.DoRemove? then ByDelete else ByConfigChange);
  }

  lemma OtherStepsKeepIncidents(L: C.Ledger, s: C.Step)
    requires !Cancels(s) && !s.DoWorkerFinish?
    ensures C.Perform(L, s).incidents == L.incidents && Writes(L, s).None?
  {
    if s.DoCreateDue? { CP.CreateDueChecksAppends(L, s.due, s.asOf); }
    if s.DoWorkerClaim? { var _, _ := CP.WorkerClaimCases(L, s.w, s.leaseMs); }
  }

  lemma CheckAgrees(L: C.Ledger, S: O.Outbox, s: C.Step)
    requires CI.Inv(L) && Agrees(L.incidents, S.incidents)
    ensures Agrees(C.Perform(L, s).incidents, if Writes(L, s).Some? then O.Perform(S, Writes(L, s).value).incidents else S.incidents)
  {
    if s.DoWorkerFinish? {
      FinishAgrees(L, S, s.w, s.result);
    } else if Cancels(s) {
      AdministrationAgrees(L, S, s);
    } else {
      OtherStepsKeepIncidents(L, s);
    }
  }

  lemma FreeStepsKeepIncidents(S: O.Outbox, s: O.Step)
    requires Free(s)
    ensures O.Perform(S, s).incidents == S.incidents
  {}

  lemma ClockFollows(S: O.Outbox, e: O.Event)
    ensures e.now > S.clock ==> O.Apply(S, e).clock == e.now && O.Apply(S, e).incidents == O.Perform(S.(clock := e.now), e.step).incidents
  {
    OL.StepKeepsClock(S.(clock := e.now), e.step);
  }

  lemma ApplyMirrors(W: World, e: Event)
    requires Mirrors(W) && CI.Inv(W.ledger)
    ensures Mirrors(Apply(W, e))
  {
    if e.now > W.clock {
      var L, S := W.ledger.(clock := e.now), W.outbox.(clock := e.now);
      if Message(W, e).Some? { ClockFollows(W.outbox, Message(W, e).value); }
      match e.step
      case Checks(s) =>
        CP.TickKeeps(W.ledger, e.now);
        CheckAgrees(L, S, s);
        CT.StepKeepsClock(L, s);
      case Messages(s) =>
        if Free(s) { FreeStepsKeepIncidents(S, s); }
    }
  }

  /** In every run the ledger and the outbox agree on which incidents there are, whose they are, and which are open or resolved. */
  lemma {:induction false} IncidentsAgree(clock: Time, events: seq<Event>)
    ensures Mirrors(Run(clock, events))
  {
    if events != [] {
      IncidentsAgree(clock, events[..|events| - 1]);
      PartsAreReachable(clock, events[..|events| - 1]);
      ApplyMirrors(Run(clock, events[..|events| - 1]), events[|events| - 1]);
    }
  }

  // ---- from results to messages ---------------------------------------------

  /**
   * The closing table from check results. An undisturbed DOWN row that asks for a recovery belongs to an incident of its
   * monitor that was not canceled. While that incident is open, the monitor's results contain a failure window without
   * recovery, and the pair has no closing message. As soon as the results contain none, the incident is resolved and the
   * pair has exactly the closing message that the fate of the DOWN calls for.
   */
  lemma {:induction false} MessagesFollowResults(clock: Time, events: seq<Event>, m: C.MonitorId, k: O.Key)
    requires var W := Run(clock, events);
             m in W.ledger.monitors && OI.Watched(W.outbox, k) && W.outbox.rows[k].monitor == Some(m)
    ensures k.incident < |Run(clock, events).ledger.incidents|
    ensures var W := Run(clock, events);
            var mon, d, i, c := W.ledger.monitors[m], W.outbox.rows[k], k.incident, k.channel;
            var failing := InIncident(CT.TargetHistory(W.ledger, m), mon.config.failureThreshold, mon.config.recoveryThreshold);
            && W.ledger.incidents[i].monitor == m && !W.ledger.incidents[i].status.IncidentCanceled?
            && (W.ledger.incidents[i].status.IncidentOpen? ==> failing && !d.status.Canceled? && O.Closing(i, c) !in W.outbox.rows)
            && (W.ledger.incidents[i].status.IncidentResolved? ==>
                  && (OT.LiveRecovery(W.outbox, i, c) <==> d.status.Sent? || !O.Terminal(d.status))
                  && (OT.HasSummary(W.outbox, i, c) <==> d.status.Canceled?))
            && (!failing ==> W.ledger.incidents[i].status.IncidentResolved?)
  {
    var W := Run(clock, events);
    IncidentsAgree(clock, events);
    PartsAreRuns(clock, events);
    PartsAreReachable(clock, events);
    WatchedIncident(W.outbox, k);
    assert SameIncident(W.ledger.incidents[k.incident], W.outbox.incidents[k.incident]);
    CT.IncidentsFollowResults(clock, CheckEvents(clock, events), m);
    if W.ledger.incidents[k.incident].status.IncidentOpen? { OpenCounts(W.ledger.incidents, m, k.incident); }
    if W.ledger.incidents[k.incident].status.IncidentResolved? { OT.ClosingMessages(clock, MessageEvents(clock, events), k); }
  }

  /** The incident of a watched DOWN row is known, is its monitor's and was not canceled; while it is open nothing closes it. */
  lemma WatchedIncident(S: O.Outbox, k: O.Key)
    requires OI.Inv(S) && OI.Watched(S, k)
    ensures k.incident in S.incidents && S.rows[k].monitor == Some(S.incidents[k.incident].monitor)
    ensures !S.incidents[k.incident].status.IncidentCanceled?
    ensures S.incidents[k.incident].status.IncidentOpen? ==>
              !S.rows[k].status.Canceled? && O.Closing(k.incident, k.channel) !in S.rows
  {
    assert OI.TableRow(S, k) && OI.RowShape(S, k, S.rows[k]);
    var q := O.Closing(k.incident, k.channel);
    if q in S.rows { assert OI.RowShape(S, q, S.rows[q]); }
  }

  lemma {:induction false} OpenCounts(incidents: seq<C.Incident>, m: C.MonitorId, i: nat)
    requires i < |incidents| && incidents[i].monitor == m && incidents[i].status.IncidentOpen?
    ensures CT.OpenCount(incidents, m) >= 1
  {
    if i < |incidents| - 1 { OpenCounts(incidents[..|incidents| - 1], m, i); }
  }

  /** A send starts with an event. */
  ghost predicate StartsAt(clock: Time, events: seq<Event>, n: nat, b: O.Attempt)
    requires n < |events|
  {
    b !in Run(clock, events[..n]).outbox.inFlight && b in Run(clock, events[..n + 1]).outbox.inFlight
  }

  /**
   * Delivery order from check results. When the send of a DOWN starts, its monitor's ledger has the incident. When the send
   * of a closing message starts, the ledger has that incident as RESOLVED by a result; and if the message is a recovery,
   * the DOWN of its pair is SENT, because an earlier event of the run stored one of its successes.
   */
  lemma {:induction false} DeliveryFollowsResults(clock: Time, events: seq<Event>, n: nat, b: O.Attempt)
    requires n < |events| && StartsAt(clock, events, n, b)
    ensures var W := Run(clock, events[..n]);
            && b.key in W.outbox.rows
            && (b.key.First? ==> b.key.incident < |W.ledger.incidents|
                                 && W.outbox.rows[b.key].monitor == Some(W.ledger.incidents[b.key.incident].monitor))
            && (b.key.Closing? ==>
                  && b.key.incident < |W.ledger.incidents| && W.ledger.incidents[b.key.incident].status.IncidentResolved?
                  && W.ledger.incidents[b.key.incident].closure == Some(Recovered)
                  && W.outbox.rows[b.key].monitor == Some(W.ledger.incidents[b.key.incident].monitor))
            && (O.IsRecovery(W.outbox, b.key) ==>
                  && OI.DownSent(W.outbox, b.key)
                  && exists j | 0 <= j < |MessageEvents(clock, events[..n])| ::
                       OT.ConfirmsAt(clock, MessageEvents(clock, events[..n]), j, O.First(b.key.incident, b.key.channel)))
  {
    var prefix := events[..n];
    IncidentsAgree(clock, prefix);
    PartsAreReachable(clock, prefix);
    SendStartsInOutbox(clock, events, n, b);
    OT.StartsBehindDown(Run(clock, prefix).outbox, Message(Run(clock, prefix), events[n]).value, b);
    RowIncident(Run(clock, prefix), b.key);
    if O.IsRecovery(Run(clock, prefix).outbox, b.key) { DownWasConfirmed(clock, prefix, b.key); }
  }

  lemma SendStartsInOutbox(clock: Time, events: seq<Event>, n: nat, b: O.Attempt)
    requires n < |events| && StartsAt(clock, events, n, b)
    ensures var W := Run(clock, events[..n]);
            Message(W, events[n]).Some? && OT.Starts(W.outbox, Message(W, events[n]).value, b)
  {
    assert events[..n + 1][..n] == events[..n];
  }

  lemma DownWasConfirmed(clock: Time, events: seq<Event>, k: O.Key)
    requires OI.DownSent(Run(clock, events).outbox, k)
    ensures exists j | 0 <= j < |MessageEvents(clock, events)| ::
              OT.ConfirmsAt(clock, MessageEvents(clock, events), j, O.First(k.incident, k.channel))
  {
    var messages := MessageEvents(clock, events);
    PartsAreRuns(clock, events);
    assert messages[..|messages|] == messages;
    OT.SentWasConfirmed(clock, messages, |messages|, O.First(k.incident, k.channel));
  }

  /** The incident of a row, as the ledger has it. */
  lemma RowIncident(W: World, k: O.Key)
    requires Mirrors(W) && CI.Inv(W.ledger) && OI.Inv(W.outbox) && k in W.outbox.rows
    ensures !k.Network? ==>
              k.incident < |W.ledger.incidents| && W.outbox.rows[k].monitor == Some(W.ledger.incidents[k.incident].monitor)
    ensures k.Closing? ==>
              W.ledger.incidents[k.incident].status.IncidentResolved? && W.ledger.incidents[k.incident].closure == Some(Recovered)
  {
    assert OI.RowShape(W.outbox, k, W.outbox.rows[k]);
    if k.Closing? {
      var d := O.First(k.incident, k.channel);
      assert OI.RowShape(W.outbox, d, W.outbox.rows[d]);
    }
    if !k.Network? {
      assert SameIncident(W.ledger.incidents[k.incident], W.outbox.incidents[k.incident]);
      assert CI.IncidentOk(W.ledger.incidents[k.incident], W.ledger.monitors, W.ledger.clock);
    }
  }
}
