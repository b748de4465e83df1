/**
  Runs of the failover state machine: what sequences of operations on one
  BaseSignCtrled do to its state and which outcomes they report.
*/
module Failover {
  import opened SignCtrled

  /**
    The operations that change the state under the state machine's own rules.
    Promote is included although the Go code calls it only from Missed;
    SetRank and SetCurrentHeight are not.
  */
  datatype Op = LockCounter | UnlockCounter | Missed | Reset | Promote

  function Apply(s: Snapshot, op: Op): (t: Step)
  {
    match op
    case LockCounter => Step(LockStep(s), Ok)
    case UnlockCounter => Step(UnlockStep(s), Ok)
    case Missed => MissedStep(s)
    case Reset => Step(ResetStep(s), Ok)
    case Promote => PromoteStep(s)
  }

  /** The state after running `ops` from `s`. */
  function Final(s: Snapshot, ops: seq<Op>): (r: Snapshot)
    decreases |ops|
  {
    if ops == [] then s else Final(Apply(s, ops[0]).next, ops[1..])
  }

  /** The outcome each operation of `ops` reports, in order. */
  function Outcomes(s: Snapshot, ops: seq<Op>): (outs: seq<Outcome>)
    ensures |outs| == |ops|
    decreases |ops|
  {
    if ops == [] then [] else
      var t := Apply(s, ops[0]);
      [t.outcome] + Outcomes(t.next, ops[1..])
  }

  /** `n` consecutive reports of a missed block. */
  function Misses(n: nat): (ops: seq<Op>)
  {
    seq(n, _ => Missed)
  }

  lemma MissesTail(n: nat)
    requires n > 0
    ensures Misses(n)[0] == Missed && Misses(n)[1..] == Misses(n - 1)
  {
  }

  /** Locking is idempotent and touches nothing but the lock. */
  lemma LockIdempotent(s: Snapshot)
    ensures LockStep(LockStep(s)) == LockStep(s)
    ensures LockStep(s) == s.(counterLocked := true)
  {
  }

  /** Unlocking is idempotent and touches nothing but the lock. */
  lemma UnlockIdempotent(s: Snapshot)
    ensures UnlockStep(UnlockStep(s)) == UnlockStep(s)
    ensures UnlockStep(s) == s.(counterLocked := false)
  {
  }

  /** Unlock then lock leaves the counter locked; lock then unlock leaves it unlocked. */
  lemma LockUnlockRoundTrip(s: Snapshot)
    ensures LockStep(UnlockStep(s)) == LockStep(s)
    ensures UnlockStep(LockStep(s)) == UnlockStep(s)
  {
  }

  /** Reset is idempotent: a second Reset finds the counter at zero and changes nothing. */
  lemma ResetIdempotent(s: Snapshot)
    ensures ResetStep(ResetStep(s)) == ResetStep(s)
    ensures ResetStep(s) == s.(missedInARow := 0)
  {
  }

  /** While the counter is locked, any number of misses reports CounterLocked and changes nothing. */
  lemma {:induction false} LockedMissesChangeNothing(s: Snapshot, n: nat)
    requires s.counterLocked
    ensures Final(s, Misses(n)) == s
    ensures forall i :: 0 <= i < n ==> Outcomes(s, Misses(n))[i] == CounterLocked
  {
    if n > 0 {
      MissesTail(n);
      LockedMissesChangeNothing(s, n - 1);
    }
  }

  /**
    From an unlocked counter below the threshold, the misses still missing to
    reach it report Ok each, except the last: that one promotes the signer
    (ThresholdExceeded: rank one lower, counter zero, one height skipped), or,
    at rank 1, reports MustShutdown and leaves the counter at the threshold.
  */
  lemma {:induction false} MissesUpToThreshold(s: Snapshot)
    requires !s.counterLocked && s.Operational()
    ensures var n := s.threshold - s.missedInARow;
      var outs := Outcomes(s, Misses(n));
      n >= 1 &&
      (forall i :: 0 <= i < n - 1 ==> outs[i] == Ok) &&
      outs[n - 1] == (if s.rank == 1 then MustShutdown else ThresholdExceeded)
    ensures var n := s.threshold - s.missedInARow;
      Final(s, Misses(n)) ==
        if s.rank == 1 then s.(missedInARow := s.threshold)
        else s.(rank := s.rank - 1, missedInARow := 0, currentHeight := s.currentHeight + 1)
    decreases s.threshold - s.missedInARow
  {
    var n := s.threshold - s.missedInARow;
    var t := MissedStep(s);
    MissesTail(n);
    assert Outcomes(s, Misses(n)) == [t.outcome] + Outcomes(t.next, Misses(n - 1));
    if n > 1 {
      assert t.outcome == Ok && t.next == s.(missedInARow := s.missedInARow + 1);
      MissesUpToThreshold(t.next);
    }
  }

  /**
    Starting from zero misses on an unlocked counter, the threshold-th
    consecutive miss is the first call that does not report Ok.
  */
  lemma ThresholdthMissIsFirstNotOk(s: Snapshot)
    requires !s.counterLocked && s.Valid() && s.missedInARow == 0
    ensures var outs := Outcomes(s, Misses(s.threshold));
      (forall i :: 0 <= i < s.threshold - 1 ==> outs[i] == Ok) && outs[s.threshold - 1] != Ok
    ensures s.rank > 1 ==>
      Outcomes(s, Misses(s.threshold))[s.threshold - 1] == ThresholdExceeded &&
      Final(s, Misses(s.threshold)).rank == s.rank - 1 &&
      Final(s, Misses(s.threshold)).missedInARow == 0 &&
      Final(s, Misses(s.threshold)).currentHeight == s.currentHeight + 1
  {
    MissesUpToThreshold(s);
  }

  /**
    Along any run of the public operations the rank never increases, never
    drops below 1, and moves at most one step per operation; the threshold
    never changes and the height never goes back.
  */
  lemma {:induction false} RankOnlyMovesTowardOne(s: Snapshot, ops: seq<Op>)
    requires s.rank >= 1
    ensures 1 <= Final(s, ops).rank <= s.rank
    ensures s.rank - Final(s, ops).rank <= |ops|
    ensures Final(s, ops).threshold == s.threshold
    ensures Final(s, ops).currentHeight >= s.currentHeight
    decreases |ops|
  {
    if ops != [] {
      RankOnlyMovesTowardOne(Apply(s, ops[0]).next, ops[1..]);
    }
  }

  /**
    Fail closed: a run that starts operational and in which no MustShutdown
    was reported is still operational, so the counter never passes the
    threshold and the rank stays at least 1.
  */
  lemma {:induction false} OperationalUntilShutdown(s: Snapshot, ops: seq<Op>)
    requires s.Operational()
    requires MustShutdown !in Outcomes(s, ops)
    ensures Final(s, ops).Operational()
    decreases |ops|
  {
    if ops != [] {
      var t := Apply(s, ops[0]);
      assert Outcomes(s, ops) == [t.outcome] + Outcomes(t.next, ops[1..]);
      OperationalUntilShutdown(t.next, ops[1..]);
    }
  }

  /**
    The step that reports MustShutdown still leaves a valid state: whatever an
    operational signer does, it is never invalid before it is told to shut down.
  */
  lemma {:induction false} ValidThroughShutdown(s: Snapshot, ops: seq<Op>)
    requires s.Operational()
    requires MustShutdown !in Outcomes(s, ops)
    ensures forall op :: Apply(Final(s, ops), op).next.Valid()
  {
    OperationalUntilShutdown(s, ops);
  }

  /** MustShutdown is reported only by the signer at rank 1, and only rank 1 can be told to shut down. */
  lemma {:induction false} ShutdownOnlyAtRankOne(s: Snapshot, ops: seq<Op>, i: nat)
    requires i < |ops| && Outcomes(s, ops)[i] == MustShutdown
    ensures Final(s, ops[..i]).rank == 1
    decreases |ops|
  {
    var t := Apply(s, ops[0]);
    assert Outcomes(s, ops) == [t.outcome] + Outcomes(t.next, ops[1..]);
    if i > 0 {
      ShutdownOnlyAtRankOne(t.next, ops[1..], i - 1);
      assert ops[..i][1..] == ops[1..][..i - 1];
    }
  }

  /**
    A miss on an unlocked counter that already stands at the threshold (the
    state a refused promotion leaves) takes neither branch of the Go `Missed`: it
    reports Ok and leaves the counter above the threshold.
  */
  lemma MissAfterShutdownBreaksBound(s: Snapshot)
    requires !s.counterLocked && s.missedInARow == s.threshold
    ensures MissedStep(s) == Step(s.(missedInARow := s.threshold + 1), Ok)
    ensures !MissedStep(s).next.Valid()
  {
  }

  /** threshold 3, rank 3, unlocked, height 10: Ok, Ok, then a promotion to rank 2 at height 11. */
  lemma ScenarioPromotion()
    ensures var s := Snapshot(false, 10, 0, 3, 3);
      Outcomes(s, Misses(3)) == [Ok, Ok, ThresholdExceeded] &&
      Final(s, Misses(3)) == Snapshot(false, 11, 0, 3, 2)
  {
  }

  /**
    threshold 2, rank 1, unlocked: Ok, then MustShutdown with the height
    unchanged; a third miss that ignores the shutdown reports Ok at 3/2.
  */
  lemma ScenarioShutdown()
    ensures var s := Snapshot(false, 1, 0, 2, 1);
      Outcomes(s, Misses(3)) == [Ok, MustShutdown, Ok] &&
      Final(s, Misses(2)) == Snapshot(false, 1, 2, 2, 1) &&
      Final(s, Misses(3)) == Snapshot(false, 1, 3, 2, 1)
  {
  }

  /**
    Right after construction any number of misses report CounterLocked and
    change nothing; after one UnlockCounter the next miss is counted.
  */
  lemma ScenarioStartup(threshold: int, rank: int, n: nat)
    requires threshold >= 2
    ensures var s := Initial(threshold, rank);
      Final(s, Misses(n)) == s &&
      Outcomes(s, Misses(n) + [UnlockCounter, Missed]) == seq(n, _ => CounterLocked) + [Ok, Ok] &&
      Final(s, Misses(n) + [UnlockCounter, Missed]) == s.(counterLocked := false, missedInARow := 1)
  {
    var s := Initial(threshold, rank);
    LockedMissesChangeNothing(s, n);
    RunAppend(s, Misses(n), [UnlockCounter, Missed]);
    var u := UnlockStep(s);
    assert Outcomes(s, Misses(n)) == seq(n, _ => CounterLocked);
    assert Outcomes(u, [Missed]) == [Ok];
  }

  /** Running `a` then `b` is running `a + b`. */
  lemma {:induction false} RunAppend(s: Snapshot, a: seq<Op>, b: seq<Op>)
    ensures Final(s, a + b) == Final(Final(s, a), b)
    ensures Outcomes(s, a + b) == Outcomes(s, a) + Outcomes(Final(s, a), b)
    decreases |a|
  {
    if a != [] {
      assert (a + b)[0] == a[0] && (a + b)[1..] == a[1..] + b;
      RunAppend(Apply(s, a[0]).next, a[1..], b);
    } else {
      assert a + b == b;
    }
  }
}
