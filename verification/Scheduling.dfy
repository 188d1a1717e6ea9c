/** The schedule grid of packages/domain: slots are counted from an anchor, never from completion times. */
module Scheduling {
  import opened Arithmetic
  import opened Bits
  import opened Domain

  datatype RangeFault = BadInterval | EmptyMonitorId | BadJitterRatio

  function IntervalMs(intervalSec: int): Result<int, RangeFault> {
    if !IsSafeInteger(intervalSec) || intervalSec < 1 then Err(BadInterval) else Ok(intervalSec * 1_000)
  }

  /** t lies on the grid that starts at anchor and steps by I. */
  predicate OnGrid(anchor: Time, I: int, t: Time)
    requires I > 0
  {
    (t - anchor) % I == 0
  }

  /** Moving by whole intervals keeps a time on the grid. */
  lemma GridStep(anchor: Time, I: int, t: Time, k: int)
    requires I > 0 && OnGrid(anchor, I, t)
    ensures OnGrid(anchor, I, t + k * I)
  {
    var q := (t - anchor) / I;
    assert t - anchor == q * I;
    assert t + k * I - anchor == (q + k) * I + 0 by { assert q * I + k * I == (q + k) * I; }
    DivisionIsUnique(t + k * I - anchor, I, q + k, 0);
  }

  /** Two grid times closer than one interval are the same time. */
  lemma GridTimesAreApart(anchor: Time, I: int, t: Time, u: Time)
    requires I > 0 && OnGrid(anchor, I, t) && OnGrid(anchor, I, u) && t < u
    ensures t + I <= u
  {
    var p, q := (t - anchor) / I, (u - anchor) / I;
    assert t - anchor == p * I && u - anchor == q * I;
    Distribute(q, p, I);
    AtLeastOnce(q - p, I);
  }

  function CoalescedSlot(nextCheckAt: Time, I: int, now: Time): Option<Time>
    requires I > 0
  {
    var elapsed := now - nextCheckAt;
    if elapsed < 0 then None else Some(nextCheckAt + (elapsed / I) * I)
  }

  function CoalesceDueScheduledAt(nextCheckAt: Time, intervalSec: int, now: Time): Result<Option<Time>, RangeFault> {
    var interval := IntervalMs(intervalSec);
    if interval.Err? then Err(interval.error) else Ok(CoalescedSlot(nextCheckAt, interval.value, now))
  }

  function Max(a: int, b: int): int { if a >= b then a else b }

  function SlotAfter(scheduledAt: Time, I: int, now: Time): Time
    requires I > 0
  {
    scheduledAt + Max(1, (now - scheduledAt) / I + 1) * I
  }

  function CalculateNextCheckAt(scheduledAt: Time, intervalSec: int, now: Time): Result<Time, RangeFault> {
    var interval := IntervalMs(intervalSec);
    if interval.Err? then Err(interval.error) else Ok(SlotAfter(scheduledAt, interval.value, now))
  }

  /** The coalesced slot is the latest grid time that is due, and it exists exactly when something is due. */
  lemma CoalescedSlotIsLatest(nextCheckAt: Time, I: int, now: Time)
    requires I > 0
    ensures CoalescedSlot(nextCheckAt, I, now).Some? <==> nextCheckAt <= now
    ensures CoalescedSlot(nextCheckAt, I, now).Some? ==>
              var t := CoalescedSlot(nextCheckAt, I, now).value;
              && OnGrid(nextCheckAt, I, t) && nextCheckAt <= t <= now < t + I
              && forall u :: OnGrid(nextCheckAt, I, u) && u <= now ==> u <= t
  {
    if nextCheckAt <= now {
      var elapsed := now - nextCheckAt;
      var q := elapsed / I;
      assert elapsed == q * I + elapsed % I;
      assert q * I >= 0;
      GridStep(nextCheckAt, I, nextCheckAt, q);
      var t := nextCheckAt + q * I;
      forall u | OnGrid(nextCheckAt, I, u) && u <= now ensures u <= t {
        if t < u { GridTimesAreApart(nextCheckAt, I, t, u); }
      }
    }
  }

  /** The next slot is the first grid time after both the given slot and the clock. */
  lemma SlotAfterIsFirst(scheduledAt: Time, I: int, now: Time)
    requires I > 0
    ensures var n := SlotAfter(scheduledAt, I, now);
            && OnGrid(scheduledAt, I, n) && n > now && n > scheduledAt
            && (forall u :: OnGrid(scheduledAt, I, u) && u > now && u > scheduledAt ==> n <= u)
            && (scheduledAt <= now < scheduledAt + I ==> n == scheduledAt + I)
  {
    var x := now - scheduledAt;
    var q := x / I;
    assert x == q * I + x % I;
    var k := Max(1, q + 1);
    GridStep(scheduledAt, I, scheduledAt, k);
    var n := SlotAfter(scheduledAt, I, now);
    assert n == scheduledAt + k * I;
    assert n > now && n > scheduledAt && (n - I <= now || n - I <= scheduledAt) by {
      assert (q + 1) * I == q * I + I;
      if q + 1 < 1 { assert (q + 1) * I <= 0; }
      assert k == 1 ==> k * I == I;
    }
    forall u | OnGrid(scheduledAt, I, u) && u > now && u > scheduledAt ensures n <= u {
      if u < n { GridTimesAreApart(scheduledAt, I, u, n); }
    }
    if 0 <= x < I { DivisionIsUnique(x, I, 0, x); }
  }

  /**
   * How the scheduler uses the two: after any downtime the due slot is followed by exactly the next grid time, which is
   * the first one in the future; both calls refuse exactly the intervals that are no positive safe integers.
   */
  lemma DueThenNext(nextCheckAt: Time, intervalSec: int, now: Time)
    ensures var due, I := CoalesceDueScheduledAt(nextCheckAt, intervalSec, now), intervalSec * 1_000;
            && (due.Ok? <==> IsSafeInteger(intervalSec) && intervalSec >= 1)
            && (due.Ok? ==>
                  && (due.value.None? <==> now < nextCheckAt)
                  && (due.value.Some? ==>
                        && CalculateNextCheckAt(due.value.value, intervalSec, now) == Ok(due.value.value + I)
                        && OnGrid(nextCheckAt, I, due.value.value + I) && now < due.value.value + I
                        && forall u :: OnGrid(nextCheckAt, I, u) && u > now ==> due.value.value + I <= u))
  {
    var I := intervalSec * 1_000;
    var due := CoalesceDueScheduledAt(nextCheckAt, intervalSec, now);
    if due.Ok? && due.value.Some? {
      var slot := due.value.value;
      CoalescedSlotIsLatest(nextCheckAt, I, now);
      SlotAfterIsFirst(slot, I, now);
      GridStep(nextCheckAt, I, slot, 1);
      forall u | OnGrid(nextCheckAt, I, u) && u > now ensures slot + I <= u { GridTimesAreApart(nextCheckAt, I, slot, u); }
    }
  }

  // ---- jitter -----------------------------------------------------------

  const FNV_OFFSET: Word := 0x811c_9dc5
  const FNV_PRIME: nat := 0x0100_0193

  /** An unsigned 32-bit number. */
  type Word = x: nat | x < 0x1_0000_0000

  /** hash ^ unit, then Math.imul by the prime; the signed results in between agree with it modulo 2^32. */
  function FnvStep(hash: Word, unit: CodeUnit): Word {
    (Xor(hash, unit) * FNV_PRIME) % 0x1_0000_0000
  }

  function Fnv1aOf(value: CodeUnits): Word {
    if value == [] then FNV_OFFSET else FnvStep(Fnv1aOf(value[..|value| - 1]), value[|value| - 1])
  }

  /** The prime is odd, so multiplying by it modulo 2^32 can be undone: this is its inverse. */
  const FNV_INVERSE: nat := 0x359c_449b

  lemma ProductGivesBack(x: Word)
    ensures (x * FNV_PRIME) % 0x1_0000_0000 * FNV_INVERSE % 0x1_0000_0000 == x
  {
    var p := x * FNV_PRIME;
    var q := p / 0x1_0000_0000;
    assert FNV_PRIME * FNV_INVERSE == 0x359c99 * 0x1_0000_0000 + 1;
    assert p * FNV_INVERSE == x * 0x359c99 * 0x1_0000_0000 + x;
    assert p % 0x1_0000_0000 * FNV_INVERSE == (x * 0x359c99 - q * FNV_INVERSE) * 0x1_0000_0000 + x;
    DivisionIsUnique(p % 0x1_0000_0000 * FNV_INVERSE, 0x1_0000_0000, x * 0x359c99 - q * FNV_INVERSE, x);
  }

  /** A step forgets nothing: not of the hash before it, and not of the code unit it takes in. */
  lemma FnvStepIsInjective(g: Word, h: Word, u: CodeUnit, v: CodeUnit)
    ensures FnvStep(g, u) == FnvStep(h, u) ==> g == h
    ensures FnvStep(g, u) == FnvStep(g, v) ==> u == v
  {
    StepGivesBack(g, u);
    StepGivesBack(h, u);
    StepGivesBack(g, v);
  }

  lemma StepGivesBack(hash: Word, unit: CodeUnit)
    ensures var x := FnvStep(hash, unit) * FNV_INVERSE % 0x1_0000_0000; Xor(x, unit) == hash && Xor(hash, x) == unit
  {
    PowersOfTwo();
    XorFits(hash, unit, 32);
    ProductGivesBack(Xor(hash, unit));
    XorUndone(hash, unit);
  }

  /** Identifiers of one length that differ in exactly one code unit never share a hash. */
  lemma {:induction false} OneUnitChangesHash(a: CodeUnits, b: CodeUnits, k: nat)
    requires |a| == |b| && k < |a| && a[k] != b[k]
    requires forall j :: 0 <= j < |a| && j != k ==> a[j] == b[j]
    ensures Fnv1aOf(a) != Fnv1aOf(b)
  {
    var n := |a| - 1;
    FnvStepIsInjective(Fnv1aOf(a[..n]), Fnv1aOf(b[..n]), a[n], b[n]);
    if k == n {
      assert a[..n] == b[..n];
    } else {
      OneUnitChangesHash(a[..n], b[..n], k);
    }
  }

  method Fnv1a(value: CodeUnits) returns (hash: Word)
    ensures hash == Fnv1aOf(value)
  {
    hash := FNV_OFFSET;
    var index := 0;
    while index < |value|
      invariant 0 <= index <= |value|
      invariant hash == Fnv1aOf(value[..index])
    {
      assert value[..index + 1][..index] == value[..index];
      hash := FnvStep(hash, value[index]);
      index := index + 1;
    }
    assert value[..index] == value;
  }

  lemma {:induction false} XorNothing(x: nat)
    ensures Xor(x, 0) == x
  {
    if x > 0 { XorNothing(x / 2); }
  }

  lemma LastDigits()
    ensures Xor(0x811c9dc5, 0x61) == 0x811c9da4
  {
    XorNothing(0x811c9d);
    assert Xor(0x102393b, 0x0) == 0x102393b;
    assert Xor(0x2047277, 0x1) == 0x2047276;
    assert Xor(0x408e4ee, 0x3) == 0x408e4ed;
    assert Xor(0x811c9dc, 0x6) == 0x811c9da;
    assert Xor(0x102393b8, 0xc) == 0x102393b4;
    assert Xor(0x20472771, 0x18) == 0x20472769;
    assert Xor(0x408e4ee2, 0x30) == 0x408e4ed2;
    assert Xor(0x811c9dc5, 0x61) == 0x811c9da4;
  }

  /** The published values of the hash: of nothing, and of the letter a. */
  lemma KnownHashes()
    ensures Fnv1aOf([]) == 0x811c_9dc5 && Fnv1aOf([0x61]) == 0xe40c_292c
  {
    LastDigits();
    assert [0x61][..0] == [];
  }

  predicate IsTrimmed(c: CodeUnit) {
    c in {9, 10, 11, 12, 13, 32, 0xa0, 0x1680, 0x2028, 0x2029, 0x202f, 0x205f, 0x3000, 0xfeff} || 0x2000 <= c <= 0x200a
  }

  predicate Blank(value: CodeUnits) {
    forall k :: 0 <= k < |value| ==> IsTrimmed(value[k])
  }

  function JitterIn(window: int, hash: Word): int
    requires window >= 0
  {
    if window == 0 then 0 else hash % window
  }

  /** The jitter lies in its window and differs from the hash by whole windows; there is none in an empty window. */
  lemma JitterFollowsHash(window: int, hash: Word)
    requires window >= 0
    ensures window == 0 ==> JitterIn(window, hash) == 0
    ensures window > 0 ==> 0 <= JitterIn(window, hash) < window && (hash - JitterIn(window, hash)) % window == 0
  {
    if window > 0 { DivisionIsUnique(hash - hash % window, window, hash / window, 0); }
  }

  lemma ShareOfInterval(I: int, ratio: real)
    requires I > 0 && 0.0 <= ratio <= 1.0
    ensures 0 <= (I as real * ratio).Floor <= I
  {
    var x := I as real;
    assert x * ratio <= x * 1.0;
    assert x * ratio >= 0.0;
  }

  function StableJitterMs(monitorId: CodeUnits, intervalSec: int, jitterRatio: real): Result<int, RangeFault> {
    var interval := IntervalMs(intervalSec);
    if interval.Err? then Err(interval.error)
    else if Blank(monitorId) then Err(EmptyMonitorId)
    else if jitterRatio < 0.0 || jitterRatio > 1.0 then Err(BadJitterRatio)
    else
      var window := (interval.value as real * jitterRatio).Floor;
      ShareOfInterval(interval.value, jitterRatio);
      Ok(JitterIn(window, Fnv1aOf(monitorId)))
  }

  /** Start of the wall-clock bucket after the one that holds now. */
  function NextBucket(now: Time, I: int): Time
    requires I > 0
  {
    (now / I) * I + I
  }

  function CalculateInitialNextCheckAt(monitorId: CodeUnits, intervalSec: int, now: Time, jitterRatio: real)
    : Result<Time, RangeFault>
  {
    var interval := IntervalMs(intervalSec);
    if interval.Err? then Err(interval.error)
    else
      var jitter := StableJitterMs(monitorId, intervalSec, jitterRatio);
      if jitter.Err? then Err(jitter.error) else Ok(NextBucket(now, interval.value) + jitter.value)
  }

  lemma NextBucketIsFuture(now: Time, I: int)
    requires I > 0
    ensures now < NextBucket(now, I) <= now + I && OnGrid(0, I, NextBucket(now, I))
  {
    assert now == (now / I) * I + now % I;
    GridStep(0, I, 0, now / I + 1);
    assert (now / I + 1) * I == (now / I) * I + I;
  }

  lemma JitterFits(monitorId: CodeUnits, intervalSec: int, jitterRatio: real)
    requires StableJitterMs(monitorId, intervalSec, jitterRatio).Ok?
    ensures 0 <= StableJitterMs(monitorId, intervalSec, jitterRatio).value < intervalSec * 1_000
  {
    var window := ((intervalSec * 1_000) as real * jitterRatio).Floor;
    ShareOfInterval(intervalSec * 1_000, jitterRatio);
    JitterFollowsHash(window, Fnv1aOf(monitorId));
  }

  /** The first check lies less than one interval behind the start of a bucket that begins within one interval. */
  ghost predicate FallsInNextBucket(first: Time, I: int, now: Time)
    requires I > 0
  {
    && now < first < now + 2 * I
    && exists bucket :: OnGrid(0, I, bucket) && now < bucket <= now + I && bucket <= first < bucket + I
  }

  lemma JitteredBucket(now: Time, I: int, jitter: int)
    requires I > 0 && 0 <= jitter < I
    ensures FallsInNextBucket(NextBucket(now, I) + jitter, I, now)
  {
    NextBucketIsFuture(now, I);
    assert OnGrid(0, I, NextBucket(now, I));
  }

  /** A monitor's first check falls in the next bucket, offset by less than one interval, for every id and clock. */
  lemma InitialCheckFallsInNextBucket(monitorId: CodeUnits, intervalSec: int, now: Time, jitterRatio: real)
    ensures CalculateInitialNextCheckAt(monitorId, intervalSec, now, jitterRatio).Ok?
            <==> IntervalMs(intervalSec).Ok? && !Blank(monitorId) && 0.0 <= jitterRatio <= 1.0
    ensures CalculateInitialNextCheckAt(monitorId, intervalSec, now, jitterRatio).Ok? ==>
              FallsInNextBucket(CalculateInitialNextCheckAt(monitorId, intervalSec, now, jitterRatio).value, intervalSec * 1_000, now)
  {
    if CalculateInitialNextCheckAt(monitorId, intervalSec, now, jitterRatio).Ok? {
      JitterFits(monitorId, intervalSec, jitterRatio);
      JitteredBucket(now, intervalSec * 1_000, StableJitterMs(monitorId, intervalSec, jitterRatio).value);
    }
  }
}
