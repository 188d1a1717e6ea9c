/** Two runs in which the network guard pulls a monitor back to, or before, a slot it has used. */
module CheckRuns {
  import opened Domain
  import opened HealthState
  import opened Scheduling
  import opened CheckLedger
  import opened CheckInvariants
  import opened CheckPreservation
  import opened CheckSchedule

  // ---- the run ----------------------------------------------------------

  function FiveSeconds(): Config {
    Config("u", Get, 5, 1_000, 200, 299, "", false, 0, 1, 1)
  }

  /** The request failed while the observer's network was down, so the guard withheld the verdict. */
  const WITHHELD := CheckResult(Inconclusive, 5_004, 5_005, Some(NetworkError), Some(0))

  /**
   * Two monitors are created and an outage begins. The first monitor uses the slot 5000; its check is dispatched, claimed
   * and ends without a verdict. Then the probe that had found the network back at `at` commits, late.
   */
  function Events(at: Time): seq<Event> {
    [] + [Event(1, DoCreateMonitor(0, FiveSeconds(), 0))] + [Event(2, DoCreateMonitor(1, FiveSeconds(), 100))]
    + [Event(3, DoOutageStarts(0, 3))] + [Event(5_000, DoCreateDue([0], 5_000))]
    + [Event(5_001, DoDispatchClaim(0, 0, 5_000, 35_000))] + [Event(5_002, DoMarkEnqueued(0, 0, 35_000))]
    + [Event(5_003, DoWorkerRead(0, 0, 1))] + [Event(5_004, DoWorkerClaim(0, 30_000))] + [Event(5_005, DoWorkerFinish(0, WITHHELD))]
    + [Event(5_006, DoOutageEnds(0, at, true))]
  }

  // ---- its states -------------------------------------------------------

  function NewRow(first: Time): Monitor {
    Monitor(MonitorState(Lifecycle.Active, Health.Pending, 0, 0, None, None, 1), FiveSeconds(), Some(first), None, 0, first, 0, false)
  }

  function CheckRow(status: CheckStatus, lease: Option<Lease>, attempts: nat): Check {
    Check(0, 5_000, 1, 5_000, status, lease, attempts, None, None)
  }

  function Down(at: Option<Time>): map<OutageId, Outage> { map[0 := Outage(3, at, false)] }

  function Started(): Ledger {
    Ledger(3, map[0 := NewRow(5_000), 1 := NewRow(5_100)], [], [], map[], Down(None), map[])
  }

  function Running(clock: Time, row: Check, workers: map<WorkerId, Phase>): Ledger {
    Ledger(clock, map[0 := NewRow(5_000).(nextCheckAt := Some(10_000)), 1 := NewRow(5_100)], [row], [], workers, Down(None), map[])
  }

  function Enqueued(): Check { CheckRow(CheckEnqueued, Some(Lease(0, 35_000)), 1) }

  function Completed(): Check {
    CheckRow(CheckCompleted, None, 1).(completedAt := Some(5_005), result := Some(WITHHELD))
  }

  function Ended(at: Time): Ledger {
    Ledger(5_006,
           map[0 := NewRow(5_000).(nextCheckAt := Some(at), anchor := at, anchorRow := 1, pulled := true), 1 := NewRow(5_100)],
           [Completed()], [], map[], Down(Some(at)), map[Withheld(0, 0) := Observation(1, None)])
  }

  // ---- step by step -----------------------------------------------------

  function OneMonitor(): Ledger {
    Ledger(1, map[0 := NewRow(5_000)], [], [], map[], map[], map[])
  }

  lemma FirstMonitor()
    ensures Apply(EmptyLedger(0), Event(1, DoCreateMonitor(0, FiveSeconds(), 0))) == OneMonitor()
  {
    assert NextBucket(1, 5_000) == 5_000;
  }

  lemma SecondMonitor()
    ensures Apply(OneMonitor(), Event(2, DoCreateMonitor(1, FiveSeconds(), 100)))
            == Ledger(2, map[0 := NewRow(5_000), 1 := NewRow(5_100)], [], [], map[], map[], map[])
  {
    assert NextBucket(2, 5_000) == 5_000;
  }

  lemma OutageBegins()
    ensures Apply(Ledger(2, map[0 := NewRow(5_000), 1 := NewRow(5_100)], [], [], map[], map[], map[]), Event(3, DoOutageStarts(0, 3)))
            == Started()
  {}

  lemma RunMore(L: Ledger, events: seq<Event>, e: Event)
    ensures Run(L, events + [e]) == Apply(Run(L, events), e)
  {
    assert (events + [e])[..|events|] == events;
  }

  lemma FirstSlotIsUsed()
    ensures Apply(Started(), Event(5_000, DoCreateDue([0], 5_000))) == Running(5_000, CheckRow(CheckPending, None, 0), map[])
  {
    var S := Started().(clock := 5_000);
    assert Interval(FiveSeconds()) == 5_000;
    NextSlotIsLatest(S, 0, 5_000);
    assert NextSlot(S, 0, 5_000) == 5_000;
    assert Selectable(S, [0], 5_000) && !Collides(S, 0, 5_000);
    assert [0][..0] == [] && CreateAll(S, [0], 5_000) == CreateDue(CreateAll(S, [0][..0], 5_000), 0, 5_000);
  }

  lemma CheckIsEnqueued()
    ensures var S := Apply(Running(5_000, CheckRow(CheckPending, None, 0), map[]), Event(5_001, DoDispatchClaim(0, 0, 5_000, 35_000)));
            Apply(S, Event(5_002, DoMarkEnqueued(0, 0, 35_000))) == Running(5_002, Enqueued(), map[])
  {}

  lemma CheckIsClaimed()
    ensures var S := Apply(Running(5_002, Enqueued(), map[]), Event(5_003, DoWorkerRead(0, 0, 1)));
            Apply(S, Event(5_004, DoWorkerClaim(0, 30_000)))
            == Running(5_004, CheckRow(CheckRunning, Some(Lease(0, 35_004)), 1), map[0 := Holding(0, 5_004)])
  {}

  lemma VerdictIsWithheld()
    ensures Apply(Running(5_004, CheckRow(CheckRunning, Some(Lease(0, 35_004)), 1), map[0 := Holding(0, 5_004)]),
                  Event(5_005, DoWorkerFinish(0, WITHHELD)))
            == Running(5_005, Completed(), map[]).(observations := map[Withheld(0, 0) := Observation(1, None)])
  {}

  lemma ProbeCommits(at: Time)
    requires 3 <= at <= 5_006
    ensures Apply(Running(5_005, Completed(), map[]).(observations := map[Withheld(0, 0) := Observation(1, None)]),
                  Event(5_006, DoOutageEnds(0, at, true))) == Ended(at)
  {}

  lemma RunEnds(at: Time)
    requires 3 <= at <= 5_006
    ensures Run(EmptyLedger(0), Events(at)) == Ended(at)
  {
    var a1 := [] + [Event(1, DoCreateMonitor(0, FiveSeconds(), 0))];
    var a2 := a1 + [Event(2, DoCreateMonitor(1, FiveSeconds(), 100))];
    var e0 := a2 + [Event(3, DoOutageStarts(0, 3))];
    var e1 := e0 + [Event(5_000, DoCreateDue([0], 5_000))];
    var e2 := e1 + [Event(5_001, DoDispatchClaim(0, 0, 5_000, 35_000))];
    var e3 := e2 + [Event(5_002, DoMarkEnqueued(0, 0, 35_000))];
    var e4 := e3 + [Event(5_003, DoWorkerRead(0, 0, 1))];
    var e5 := e4 + [Event(5_004, DoWorkerClaim(0, 30_000))];
    var e6 := e5 + [Event(5_005, DoWorkerFinish(0, WITHHELD))];
    FirstMonitor();
    SecondMonitor();
    OutageBegins();
    FirstSlotIsUsed();
    CheckIsEnqueued();
    CheckIsClaimed();
    VerdictIsWithheld();
    ProbeCommits(at);
    RunMore(EmptyLedger(0), [], Event(1, DoCreateMonitor(0, FiveSeconds(), 0)));
    RunMore(EmptyLedger(0), a1, Event(2, DoCreateMonitor(1, FiveSeconds(), 100)));
    RunMore(EmptyLedger(0), a2, Event(3, DoOutageStarts(0, 3)));
    RunMore(EmptyLedger(0), e0, Event(5_000, DoCreateDue([0], 5_000)));
    RunMore(EmptyLedger(0), e1, Event(5_001, DoDispatchClaim(0, 0, 5_000, 35_000)));
    RunMore(EmptyLedger(0), e2, Event(5_002, DoMarkEnqueued(0, 0, 35_000)));
    RunMore(EmptyLedger(0), e3, Event(5_003, DoWorkerRead(0, 0, 1)));
    RunMore(EmptyLedger(0), e4, Event(5_004, DoWorkerClaim(0, 30_000)));
    RunMore(EmptyLedger(0), e5, Event(5_005, DoWorkerFinish(0, WITHHELD)));
    RunMore(EmptyLedger(0), e6, Event(5_006, DoOutageEnds(0, at, true)));
  }

  // ---- what it shows ----------------------------------------------------

  /**
   * A pull-forward to a used slot stops the scheduler: at 5100 the batch of the two due monitors creates nothing, although
   * the slot of the second one is free.
   */
  lemma PullForwardMayBlock() returns (events: seq<Event>)
    ensures var L := Run(EmptyLedger(0), events).(clock := 5_100);
            && Selected(L, [0, 1], 5_100, 2, {})
            && Due(L, 0, 5_100) && ValidConfig(L.monitors[0].config) && Stuck(L, 0, 5_100)
            && Due(L, 1, 5_100) && ValidConfig(L.monitors[1].config) && !Stuck(L, 1, 5_100)
            && CreateDueChecks(L, [0, 1], 5_100) == L
  {
    events := Events(5_000);
    RunEnds(5_000);
    BothAreDue();
    EndIsReachable();
    FirstIsStuck();
    assert [0, 1][0] == 0;
    DowntimeIsCoalesced(Ended(5_000).(clock := 5_100), [0, 1], 5_100);
  }

  lemma EndIsReachable()
    ensures Inv(Ended(5_000).(clock := 5_100))
  {
    RunEnds(5_000);
    Reachable(0, Events(5_000));
    TickKeeps(Ended(5_000), 5_100);
  }

  lemma BothAreDue()
    ensures Selected(Ended(5_000).(clock := 5_100), [0, 1], 5_100, 2, {})
  {
    var L := Ended(5_000).(clock := 5_100);
    assert !HasActive(L.checks, 0) && !HasActive(L.checks, 1);
    assert Due(L, 0, 5_100) && Due(L, 1, 5_100);
    assert [0, 1][0] == 0 && [0, 1][1] == 1;
  }

  lemma FirstIsStuck()
    ensures var L := Ended(5_000).(clock := 5_100);
            && Due(L, 0, 5_100) && ValidConfig(L.monitors[0].config) && Stuck(L, 0, 5_100)
            && Due(L, 1, 5_100) && ValidConfig(L.monitors[1].config) && !Stuck(L, 1, 5_100)
  {
    var L := Ended(5_000).(clock := 5_100);
    assert Interval(FiveSeconds()) == 5_000;
    assert L.checks[0].scheduledAt == 5_000 && OnGrid(5_000, 5_000, 5_000);
  }

  /** A pull-forward to just before a used slot sends slots back: a later row has an earlier slot. */
  lemma PullForwardMayGoBack() returns (events: seq<Event>)
    ensures var L := Run(EmptyLedger(0), events);
            && |L.checks| == 2 && L.checks[0].monitor == L.checks[1].monitor == 0
            && L.checks[1].scheduledAt < L.checks[0].scheduledAt
  {
    var last := Event(5_007, DoCreateDue([0], 5_006));
    events := Events(4_999) + [last];
    RunEnds(4_999);
    RunMore(EmptyLedger(0), Events(4_999), last);
    EarlierSlotIsUsed();
  }

  lemma EarlierSlotIsUsed()
    ensures var T := Apply(Ended(4_999), Event(5_007, DoCreateDue([0], 5_006)));
            |T.checks| == 2 && T.checks[0] == Completed() && T.checks[1].monitor == 0 && T.checks[1].scheduledAt == 4_999
  {
    var S := Ended(4_999).(clock := 5_007);
    assert Interval(FiveSeconds()) == 5_000;
    NextSlotIsLatest(S, 0, 5_006);
    assert NextSlot(S, 0, 5_006) == 4_999;
    assert Selectable(S, [0], 5_006) && !Collides(S, 0, 5_006);
    assert [0][..0] == [] && CreateAll(S, [0], 5_006) == CreateDue(CreateAll(S, [0][..0], 5_006), 0, 5_006);
  }
}
