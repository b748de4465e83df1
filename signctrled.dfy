/**
  The rank / missed-block failover state machine of a SignCTRL signer
  (types/signctrled.go).

  A signer holds a rank (1 = active signer, 2..N = standbys). While the counter
  for missed blocks is unlocked, every reported miss is counted; the miss that
  brings the counter to the threshold promotes the signer one rank closer to 1.
  The active signer (rank 1) cannot be promoted and must shut down instead.

  The module gives the state as a value (`Snapshot`), each operation as a pure
  step on that value, and the class `BaseSignCtrled` whose methods update the
  same five fields in place and are proved against the steps.
*/
module SignCtrled {

  /** What an operation reports: Go's nil, or one of the three error values. */
  datatype Outcome =
    | Ok                 // nil
    | CounterLocked      // ErrCounterLocked
    | ThresholdExceeded  // ErrThresholdExceeded
    | MustShutdown       // ErrMustShutdown

  /** The five fields of BaseSignCtrled, as a value. */
  datatype Snapshot = Snapshot(
    counterLocked: bool,
    currentHeight: int,
    missedInARow: nat,
    threshold: int,
    rank: int)
  {
    /** The state-machine invariant: a rank exists, a threshold can be reached, the counter is bounded by it. */
    predicate Valid() {
      rank >= 1 && threshold >= 1 && missedInARow <= threshold
    }

    /**
      Valid, and the counter has not been left sitting at the threshold by a
      refused promotion: the state every run starts in and keeps as long as no
      MustShutdown has been reported.
    */
    predicate Operational() {
      Valid() && missedInARow < threshold
    }
  }

  /** The new state together with the outcome an operation reports. */
  datatype Step = Step(next: Snapshot, outcome: Outcome)

  /** The state NewBaseSignCtrled builds: locked counter, genesis height, no misses. */
  function Initial(threshold: int, rank: int): (s: Snapshot)
    ensures s.counterLocked && s.currentHeight == 1 && s.missedInARow == 0
    ensures s.threshold == threshold && s.rank == rank
    ensures s.Valid() <==> threshold >= 1 && rank >= 1
    ensures s.Valid() ==> s.Operational()
  {
    Snapshot(true, 1, 0, threshold, rank)
  }

  /** LockCounter: stop counting misses. */
  function LockStep(s: Snapshot): (r: Snapshot)
    ensures r.counterLocked
    ensures r.currentHeight == s.currentHeight && r.missedInARow == s.missedInARow
    ensures r.threshold == s.threshold && r.rank == s.rank
  {
    if !s.counterLocked then s.(counterLocked := true) else s
  }

  /** UnlockCounter: start counting misses. */
  function UnlockStep(s: Snapshot): (r: Snapshot)
    ensures !r.counterLocked
    ensures r.currentHeight == s.currentHeight && r.missedInARow == s.missedInARow
    ensures r.threshold == s.threshold && r.rank == s.rank
  {
    if s.counterLocked then s.(counterLocked := false) else s
  }

  /** Reset: the miss counter goes back to zero and nothing else changes. */
  function ResetStep(s: Snapshot): (r: Snapshot)
    ensures r.missedInARow == 0
    ensures r.counterLocked == s.counterLocked && r.currentHeight == s.currentHeight
    ensures r.threshold == s.threshold && r.rank == s.rank
    ensures s.Valid() ==> r.Operational()
  {
    if s.missedInARow > 0 then s.(missedInARow := 0) else s
  }

  /**
    Promote: at rank 1 the signer fails closed (MustShutdown, nothing changes);
    otherwise the rank moves exactly one step toward 1 and the counter is reset.
  */
  function PromoteStep(s: Snapshot): (t: Step)
    ensures s.rank == 1 <==> t.outcome == MustShutdown
    ensures s.rank == 1 ==> t.next == s
    ensures s.rank != 1 ==> t.outcome == Ok && t.next.rank == s.rank - 1 && t.next.missedInARow == 0
    ensures t.next.counterLocked == s.counterLocked && t.next.currentHeight == s.currentHeight
    ensures t.next.threshold == s.threshold
    ensures t.next.rank <= s.rank
    ensures s.Valid() ==> t.next.Valid()
    ensures s.Operational() ==> t.next.Operational()
  {
    if s.rank == 1 then
      Step(s, MustShutdown)
    else
      var promoted := ResetStep(s.(rank := s.rank - 1));
      // OnPromote is the base no-op hook
      Step(promoted, Ok)
  }

  /**
    Missed: one more block without the signer's signature.
    The outcome alone says how the state moved:
      CounterLocked     -- counting is off, nothing changes;
      Ok                -- the counter went up by one;
      ThresholdExceeded -- the threshold was reached and the signer was promoted:
                           rank one lower, counter zero, the next height skipped;
      MustShutdown      -- the threshold was reached at rank 1: the counter stays
                           at the threshold, rank and height are unchanged.
    A call on a counter that already stands at the threshold (a MustShutdown
    that was not acted upon) takes neither branch of the Go `Missed` and reports Ok
    with the counter above the threshold.
  */
  function MissedStep(s: Snapshot): (t: Step)
    ensures t.next.counterLocked == s.counterLocked && t.next.threshold == s.threshold
    ensures t.outcome == CounterLocked <==> s.counterLocked
    ensures t.outcome == CounterLocked ==> t.next == s
    ensures t.outcome == Ok <==> !s.counterLocked && s.missedInARow + 1 != s.threshold
    ensures t.outcome == Ok ==> t.next == s.(missedInARow := s.missedInARow + 1)
    ensures t.outcome == ThresholdExceeded <==>
              !s.counterLocked && s.missedInARow + 1 == s.threshold && s.rank != 1
    ensures t.outcome == MustShutdown <==>
              !s.counterLocked && s.missedInARow + 1 == s.threshold && s.rank == 1
    ensures t.outcome == MustShutdown ==> t.next == s.(missedInARow := s.threshold)
    ensures t.next.rank == if t.outcome == ThresholdExceeded then s.rank - 1 else s.rank
    ensures t.next.currentHeight ==
              if t.outcome == ThresholdExceeded then s.currentHeight + 1 else s.currentHeight
    ensures t.outcome == ThresholdExceeded ==> t.next.missedInARow == 0
    ensures s.Operational() ==> t.next.Valid()
    ensures s.Operational() && t.outcome != MustShutdown ==> t.next.Operational()
  {
    if s.counterLocked then
      Step(s, CounterLocked)
    else
      var counted := s.(missedInARow := s.missedInARow + 1);
      if counted.missedInARow < counted.threshold then
        Step(counted, Ok)
      else if counted.missedInARow == counted.threshold then
        // OnMissedTooMany is the base no-op hook
        var promotion := PromoteStep(counted);
        if promotion.outcome != Ok then
          promotion
        else
          Step(promotion.next.(currentHeight := promotion.next.currentHeight + 1), ThresholdExceeded)
      else
        Step(counted, Ok)
  }

  /** BaseSignCtrled: the state machine as the Go struct keeps it, five fields updated in place. */
  class BaseSignCtrled {
    var counterLocked: bool
    var currentHeight: int
    var missedInARow: nat
    var threshold: int
    var rank: int

    /** The fields as a value. */
    function View(): (s: Snapshot)
      reads this
    {
      Snapshot(counterLocked, currentHeight, missedInARow, threshold, rank)
    }

    predicate Valid()
      reads this
    {
      View().Valid()
    }

    predicate Operational()
      reads this
    {
      View().Operational()
    }

    /** NewBaseSignCtrled: takes threshold and rank as given, without validating them. */
    constructor (threshold: int, rank: int)
      ensures View() == Initial(threshold, rank)
      ensures Valid() <==> threshold >= 1 && rank >= 1
      ensures Valid() ==> Operational()
    {
      this.counterLocked := true;
      this.currentHeight := 1;
      this.missedInARow := 0;
      this.threshold := threshold;
      this.rank := rank;
    }

    method LockCounter()
      modifies this
      ensures View() == LockStep(old(View()))
      ensures old(Operational()) ==> Operational()
    {
      if !counterLocked {
        counterLocked := true;
      }
    }

    method UnlockCounter()
      modifies this
      ensures View() == UnlockStep(old(View()))
      ensures old(Operational()) ==> Operational()
    {
      if counterLocked {
        counterLocked := false;
      }
    }

    method GetCurrentHeight() returns (height: int)
      ensures height == currentHeight
    {
      height := currentHeight;
    }

    /** SetCurrentHeight: any height, no check; the invariant does not mention the height. */
    method SetCurrentHeight(height: int)
      modifies this
      ensures View() == old(View()).(currentHeight := height)
      ensures Valid() == old(Valid()) && Operational() == old(Operational())
    {
      currentHeight := height;
    }

    method GetThreshold() returns (t: int)
      ensures t == threshold
    {
      t := threshold;
    }

    method GetMissedInARow() returns (missed: nat)
      ensures missed == missedInARow
    {
      missed := missedInARow;
    }

    method GetRank() returns (r: int)
      ensures r == rank
    {
      r := rank;
    }

    /** SetRank: any rank, no check; a rank below 1 breaks the invariant. */
    method SetRank(rank: int)
      modifies this
      ensures View() == old(View()).(rank := rank)
      ensures old(Valid()) ==> (Valid() <==> rank >= 1)
    {
      this.rank := rank;
    }

    method Missed() returns (err: Outcome)
      modifies this
      ensures View() == MissedStep(old(View())).next
      ensures err == MissedStep(old(View())).outcome
      ensures old(Operational()) ==> Valid()
      ensures old(Operational()) && err != MustShutdown ==> Operational()
    {
      if counterLocked {
        return CounterLocked;
      }

      missedInARow := missedInARow + 1;
      if missedInARow < threshold {
        // only logged
      } else if missedInARow == threshold {
        OnMissedTooMany();
        var promoted := Promote();
        if promoted != Ok {
          return promoted;
        }

        // the block after a promotion carries the commit of the unsigned height: skip it
        currentHeight := currentHeight + 1;
        return ThresholdExceeded;
      }

      return Ok;
    }

    /** The base hook: does nothing. */
    method OnMissedTooMany()
      ensures unchanged(this)
    {
    }

    method Reset()
      modifies this
      ensures View() == ResetStep(old(View()))
      ensures old(Valid()) ==> Operational()
    {
      if missedInARow > 0 {
        missedInARow := 0;
      }
    }

    method Promote() returns (err: Outcome)
      modifies this
      ensures View() == PromoteStep(old(View())).next
      ensures err == PromoteStep(old(View())).outcome
      ensures old(Valid()) ==> Valid()
      ensures old(Operational()) ==> Operational()
    {
      if rank == 1 {
        return MustShutdown;
      }

      rank := rank - 1;
      Reset();
      OnPromote();

      return Ok;
    }

    /** The base hook: does nothing. */
    method OnPromote()
      ensures unchanged(this)
    {
    }
  }
}
