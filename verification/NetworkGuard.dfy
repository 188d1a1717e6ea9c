/**
 * The network guard's record of one observer: probes by several workers, each reading the settings, probing and
 * committing at its own pace, and the outages they open and close.
 */
module NetworkGuard {
  import opened Domain

  type OutageId = nat
  type ProbeId = nat

  datatype Status = Online | Offline | Undecided | Disabled

  datatype Ending = Ending(at: Time, recovered: bool)

  datatype Outage = Outage(startedAt: Time, ending: Option<Ending>)

  datatype Observer = Observer(status: Status, checkedAt: Option<Time>, active: Option<OutageId>)

  /** What a worker carries from reading the settings to its commit. */
  datatype Probe = Probe(version: nat, enabled: bool, startedAt: Option<Time>, result: Option<Reading>)

  datatype Reading = Reading(status: Status, checkedAt: Time)

  datatype Snapshot = Snapshot(status: Status, outage: Option<OutageId>, checkedAt: Time)

  datatype Network = Network(
    clock: Time,
    version: nat,
    enabled: bool,
    observer: Observer,
    outages: seq<Outage>,           // in creation order
    probes: map<ProbeId, Probe>)

  function FreshNetwork(clock: Time): Network {
    Network(clock, 0, false, Observer(Undecided, None, None), [], map[])
  }

  // ---- steps ------------------------------------------------------------

  function ReadSettings(N: Network, p: ProbeId): Network {
    if p in N.probes then N else N.(probes := N.probes[p := Probe(N.version, N.enabled, None, None)])
  }

  function StartProbe(N: Network, p: ProbeId): Network {
    if p !in N.probes || N.probes[p].startedAt.Some? then N
    else N.(probes := N.probes[p := N.probes[p].(startedAt := Some(N.clock))])
  }

  /** The references answer, unless the guard is disabled. */
  function FinishProbe(N: Network, p: ProbeId, answer: Status): Network {
    if p !in N.probes || N.probes[p].startedAt.None? || N.probes[p].result.Some? || answer.Disabled? then N
    else
      var status := if N.probes[p].enabled then answer else Disabled;
      N.(probes := N.probes[p := N.probes[p].(result := Some(Reading(status, N.clock)))])
  }

  predicate Committable(N: Network, p: ProbeId) {
    p in N.probes && N.probes[p].startedAt.Some? && N.probes[p].result.Some?
  }

  /** A probe is out of date if the settings changed or a probe that finished after its start is already stored. */
  predicate Superseded(N: Network, p: ProbeId)
    requires Committable(N, p)
  {
    || N.version != N.probes[p].version
    || (N.observer.checkedAt.Some? && N.observer.checkedAt.value > N.probes[p].startedAt.value)
  }

  /** The active outage after a reading. */
  function NextActive(N: Network, status: Status): Option<OutageId> {
    match status
    case Offline => if N.observer.active.Some? then N.observer.active else Some(|N.outages|)
    case Undecided => N.observer.active
    case _ => None
  }

  function NextOutages(N: Network, startedAt: Time, reading: Reading): seq<Outage> {
    match reading.status
    case Offline => if N.observer.active.Some? then N.outages else N.outages + [Outage(startedAt, None)]
    case Undecided => N.outages
    case _ =>
      if N.observer.active.Some? && N.observer.active.value < |N.outages|
      then N.outages[N.observer.active.value := N.outages[N.observer.active.value].(ending := Some(Ending(reading.checkedAt, reading.status.Online?)))]
      else N.outages
  }

  function Commit(N: Network, p: ProbeId): Network {
    if !Committable(N, p) then N
    else
      var done := N.(probes := N.probes - {p});
      if Superseded(N, p) then done
      else
        var reading := N.probes[p].result.value;
        done.(outages := NextOutages(N, N.probes[p].startedAt.value, reading),
              observer := Observer(reading.status, Some(reading.checkedAt), NextActive(N, reading.status)))
  }

  /** What the committing worker learns. */
  function Learned(N: Network, p: ProbeId): Snapshot
    requires Committable(N, p)
  {
    var reading := N.probes[p].result.value;
    if N.version != N.probes[p].version then Snapshot(Undecided, None, reading.checkedAt)
    else if Superseded(N, p) then Snapshot(N.observer.status, N.observer.active, N.observer.checkedAt.value)
    else Snapshot(reading.status, NextActive(N, reading.status), reading.checkedAt)
  }

  datatype Step =
    | SaveSettings(enabled: bool)
    | DoRead(p: ProbeId)
    | DoStart(p: ProbeId)
    | DoFinish(p: ProbeId, answer: Status)
    | DoCommit(p: ProbeId)
    | DoAbandon(p: ProbeId)

  datatype Event = Event(now: Time, step: Step)

  function Perform(N: Network, s: Step): Network {
    match s
    case SaveSettings(enabled) => N.(version := N.version + 1, enabled := enabled)
    case DoRead(p) => ReadSettings(N, p)
    case DoStart(p) => StartProbe(N, p)
    case DoFinish(p, answer) => FinishProbe(N, p, answer)
    case DoCommit(p) => Commit(N, p)
    case DoAbandon(p) => N.(probes := N.probes - {p})
  }

  function Apply(N: Network, e: Event): Network {
    if e.now < N.clock then N else Perform(N.(clock := e.now), e.step)
  }

  function Run(clock: Time, events: seq<Event>): Network {
    if events == [] then FreshNetwork(clock) else Apply(Run(clock, events[..|events| - 1]), events[|events| - 1])
  }

  // ---- invariants -------------------------------------------------------

  ghost predicate ProbeOk(q: Probe, clock: Time) {
    && (q.startedAt.Some? ==> q.startedAt.value <= clock)
    && (q.result.Some? ==> q.startedAt.Some? && q.startedAt.value <= q.result.value.checkedAt <= clock)
    && (q.result.Some? ==> (q.result.value.status.Disabled? <==> !q.enabled))
  }

  ghost predicate ProbesOk(N: Network) {
    && (forall p :: p in N.probes ==> ProbeOk(N.probes[p], N.clock))
    && (N.observer.checkedAt.Some? ==> N.observer.checkedAt.value <= N.clock)
  }

  /** The active outage is the last one and the only open one; the observer's status says which case it is. */
  ghost predicate ActiveOk(N: Network) {
    && (N.observer.active.Some? ==> N.outages != [] && N.observer.active.value == |N.outages| - 1)
    && (forall i :: 0 <= i < |N.outages| ==> (N.outages[i].ending.None? <==> N.observer.active == Some(i)))
    && (N.observer.status.Offline? ==> N.observer.active.Some?)
    && (N.observer.status.Online? || N.observer.status.Disabled? ==> N.observer.active.None?)
  }

  /** Everything recorded about outages lies in the past of the last stored probe, in order. */
  ghost predicate IntervalsOk(N: Network) {
    && (N.outages != [] ==> N.observer.checkedAt.Some?)
    && (forall i :: 0 <= i < |N.outages| ==> N.outages[i].startedAt <= N.observer.checkedAt.value)
    && (forall i :: 0 <= i < |N.outages| && N.outages[i].ending.Some? ==>
          N.outages[i].startedAt <= N.outages[i].ending.value.at <= N.observer.checkedAt.value)
    && (forall i, j :: 0 <= i < j < |N.outages| && N.outages[i].ending.Some? ==>
          N.outages[i].ending.value.at <= N.outages[j].startedAt)
  }

  ghost predicate Inv(N: Network) { ProbesOk(N) && ActiveOk(N) && IntervalsOk(N) }

  lemma CommitKeepsProbes(N: Network, p: ProbeId)
    requires ProbesOk(N)
    ensures ProbesOk(Commit(N, p))
  {
    if p in N.probes { assert ProbeOk(N.probes[p], N.clock); }
  }

  lemma CommitKeepsActive(N: Network, p: ProbeId)
    requires ActiveOk(N)
    ensures ActiveOk(Commit(N, p))
  {}

  lemma CommitKeepsIntervals(N: Network, p: ProbeId)
    requires ProbesOk(N) && ActiveOk(N) && IntervalsOk(N)
    ensures IntervalsOk(Commit(N, p))
  {
    if Committable(N, p) && !Superseded(N, p) {
      assert ProbeOk(N.probes[p], N.clock);
      ReadingKeepsIntervals(N, N.probes[p].startedAt.value, N.probes[p].result.value);
    }
  }

  /** A reading of a probe that started after everything recorded. */
  lemma ReadingKeepsIntervals(N: Network, startedAt: Time, reading: Reading)
    requires ActiveOk(N) && IntervalsOk(N) && startedAt <= reading.checkedAt
    requires N.observer.checkedAt.Some? ==> N.observer.checkedAt.value <= startedAt
    ensures IntervalsOk(N.(outages := NextOutages(N, startedAt, reading),
                           observer := Observer(reading.status, Some(reading.checkedAt), NextActive(N, reading.status))))
  {
    match reading.status
    case Offline =>
    case Undecided =>
    case Online =>
    case Disabled =>
  }

  lemma CommitKeeps(N: Network, p: ProbeId)
    requires Inv(N)
    ensures Inv(Commit(N, p))
  {
    CommitKeepsProbes(N, p);
    CommitKeepsActive(N, p);
    CommitKeepsIntervals(N, p);
  }

  /** The other steps touch neither the observer nor the outages. */
  lemma OtherStepsKeep(N: Network, s: Step)
    requires Inv(N) && !s.DoCommit?
    ensures Inv(Perform(N, s))
  {
    var T := Perform(N, s);
    forall q | q in T.probes ensures ProbeOk(T.probes[q], T.clock) {
      if q in N.probes { assert ProbeOk(N.probes[q], N.clock); }
    }
  }

  lemma ApplyKeeps(N: Network, e: Event)
    requires Inv(N)
    ensures Inv(Apply(N, e))
  {
    if e.now >= N.clock {
      var T := N.(clock := e.now);
      forall p | p in T.probes ensures ProbeOk(T.probes[p], T.clock) { assert ProbeOk(N.probes[p], N.clock); }
      if e.step.DoCommit? { CommitKeeps(T, e.step.p); } else { OtherStepsKeep(T, e.step); }
    }
  }

  lemma {:induction false} Reachable(clock: Time, events: seq<Event>)
    ensures Inv(Run(clock, events))
  {
    if events != [] {
      Reachable(clock, events[..|events| - 1]);
      ApplyKeeps(Run(clock, events[..|events| - 1]), events[|events| - 1]);
    }
  }

  // ---- what every run promises ------------------------------------------

  /**
   * However probes interleave, the observer's active outage is its only open one, or none is open, and the
   * outages are non-negative intervals that follow one another without overlap.
   */
  lemma OutagesAreDisjoint(clock: Time, events: seq<Event>)
    ensures var N := Run(clock, events);
            && (forall i :: 0 <= i < |N.outages| ==> (N.outages[i].ending.None? <==> N.observer.active == Some(i)))
            && (N.observer.active.Some? ==> N.observer.active.value < |N.outages|)
            && (forall i :: 0 <= i < |N.outages| && N.outages[i].ending.Some? ==> N.outages[i].startedAt <= N.outages[i].ending.value.at)
            && (forall i, j :: 0 <= i < j < |N.outages| ==>
                  N.outages[i].ending.Some? && N.outages[i].ending.value.at <= N.outages[j].startedAt)
  {
    Reachable(clock, events);
  }

  /** A later state keeps every closed outage as it is, and its last probe is no earlier. */
  ghost predicate Extends(N: Network, T: Network) {
    && |N.outages| <= |T.outages|
    && (forall i :: 0 <= i < |N.outages| ==>
          T.outages[i].startedAt == N.outages[i].startedAt
          && (N.outages[i].ending.Some? ==> T.outages[i] == N.outages[i]))
    && (N.observer.checkedAt.Some? ==> T.observer.checkedAt.Some? && N.observer.checkedAt.value <= T.observer.checkedAt.value)
  }

  lemma ApplyExtends(N: Network, e: Event)
    requires Inv(N)
    ensures Extends(N, Apply(N, e))
  {
    if e.now >= N.clock && e.step.DoCommit? && e.step.p in N.probes { assert ProbeOk(N.probes[e.step.p], N.clock); }
  }

  /** History only grows: in any run, checkedAt never goes back and a closed outage never changes. */
  lemma {:induction false} HistoryOnlyGrows(clock: Time, events: seq<Event>, n: nat)
    requires n <= |events|
    ensures Extends(Run(clock, events[..n]), Run(clock, events))
  {
    if n == |events| {
      assert events[..n] == events;
    } else {
      var last := |events| - 1;
      HistoryOnlyGrows(clock, events[..last], n);
      assert events[..last][..n] == events[..n];
      Reachable(clock, events[..last]);
      ApplyExtends(Run(clock, events[..last]), events[last]);
    }
  }

  /** A probe knows the settings of its version; none is newer than the stored ones. */
  ghost predicate VersionsOk(N: Network) {
    forall p :: p in N.probes ==>
      N.probes[p].version <= N.version && (N.probes[p].version == N.version ==> N.probes[p].enabled == N.enabled)
  }

  lemma {:induction false} VersionsMatch(clock: Time, events: seq<Event>)
    ensures VersionsOk(Run(clock, events))
  {
    if events != [] { VersionsMatch(clock, events[..|events| - 1]); }
  }

  /**
   * What a probe of the present settings reports, in every run: what the references answered at that moment, or that the guard
   * is off, as the settings are stored now.
   */
  lemma {:induction false} ProbesReport(clock: Time, events: seq<Event>, p: ProbeId, answer: Status, now: Time)
    requires var N := Run(clock, events);
             && now >= N.clock && p in N.probes && N.probes[p].version == N.version && !answer.Disabled?
             && N.probes[p].startedAt.Some? && N.probes[p].result.None?
    ensures var N := Run(clock, events);
            var T := Apply(N, Event(now, DoFinish(p, answer)));
            && T == N.(clock := now, probes := T.probes) && Committable(T, p)
            && T.probes[p] == N.probes[p].(result := Some(Reading(if N.enabled then answer else Disabled, now)))
  {
    VersionsMatch(clock, events);
  }

  /** The settings are those the probe was made for, and no probe that ended after its start is stored. */
  ghost predicate IsCurrent(N: Network, q: Probe) {
    q.startedAt.Some? && N.version == q.version && (N.observer.checkedAt.Some? ==> N.observer.checkedAt.value <= q.startedAt.value)
  }

  /** The outages after a current probe: one opens at its start, or the open one ends with its reading, or nothing happens. */
  ghost predicate OutagesFollow(before: seq<Outage>, after: seq<Outage>, open: Option<OutageId>, startedAt: Time, reading: Reading) {
    if reading.status.Offline? && open.None? then after == before + [Outage(startedAt, None)]
    else if (reading.status.Online? || reading.status.Disabled?) && open.Some?
    then open.value < |before| && after == before[open.value := Outage(before[open.value].startedAt,
                                                                       Some(Ending(reading.checkedAt, reading.status.Online?)))]
    else after == before
  }

  /**
   * A commit changes the record exactly when the probe is current; and then the outage open before is closed
   * iff the references answered or the guard is disabled, and one is opened iff none was open and none answered.
   * The worker learns what is stored then, unless the settings changed under it.
   */
  lemma CommitDecides(clock: Time, events: seq<Event>, p: ProbeId)
    requires Committable(Run(clock, events), p)
    ensures var N := Run(clock, events);
            var T, q, reading := Commit(N, p), N.probes[p], N.probes[p].result.value;
            var s := reading.status;
            && T == N.(observer := T.observer, outages := T.outages, probes := N.probes - {p})
            && (!IsCurrent(N, q) ==> T.observer == N.observer && T.outages == N.outages)
            && (IsCurrent(N, q) ==>
                  && OutagesFollow(N.outages, T.outages, N.observer.active, q.startedAt.value, reading)
                  && T.observer.status == s && T.observer.checkedAt == Some(reading.checkedAt)
                  && T.observer.active == if s.Online? || s.Disabled? then None
                                          else if s.Offline? && N.observer.active.None? then Some(|N.outages|) else N.observer.active)
            && Learned(N, p) == if N.version != q.version then Snapshot(Undecided, None, reading.checkedAt)
                                else Snapshot(T.observer.status, T.observer.active, T.observer.checkedAt.value)
  {
    Reachable(clock, events);
  }

  // ---- the tables -------------------------------------------------------

  class Guard {
    var clock: Time
    var version: nat
    var enabled: bool
    var observer: Observer
    var outages: seq<Outage>
    var probes: map<ProbeId, Probe>

    ghost function Value(): Network
      reads this
    {
      Network(clock, version, enabled, observer, outages, probes)
    }

    constructor (start: Time)
      ensures Value() == FreshNetwork(start) && Inv(Value())
    {
      clock, version, enabled := start, 0, false;
      observer, outages, probes := Observer(Undecided, None, None), [], map[];
    }

    /** The transaction of inspectFresh. */
    method CommitProbe(p: ProbeId) returns (snapshot: Snapshot)
      requires Committable(Value(), p) && ActiveOk(Value())
      modifies this`observer, this`outages, this`probes
      ensures Value() == Commit(old(Value()), p)
      ensures snapshot == Learned(old(Value()), p)
    {
      var probe := probes[p];
      var startedAt, status, checkedAt := probe.startedAt.value, probe.result.value.status, probe.result.value.checkedAt;
      probes := probes - {p};
      if version != probe.version { return Snapshot(Undecided, None, checkedAt); }
      if observer.checkedAt.Some? && observer.checkedAt.value > startedAt {
        return Snapshot(observer.status, observer.active, observer.checkedAt.value);
      }
      var outage := observer.active;
      if status.Offline? && outage.None? {
        outage := Some(|outages|);
        outages := outages + [Outage(startedAt, None)];
      }
      if (status.Online? || status.Disabled?) && outage.Some? {
        outages := outages[outage.value := outages[outage.value].(ending := Some(Ending(checkedAt, status.Online?)))];
        outage := None;
      }
      observer := Observer(status, Some(checkedAt), outage);
      return Snapshot(status, outage, checkedAt);
    }
  }
}
