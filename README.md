# SignCTRL failover state machine in Dafny

SignCTRL lets several validator signing processes share one signing role
without any consensus between them. Each process has a rank. Rank 1 is the
active signer, and ranks 2..N are standbys in failover order. A standby counts
the consecutive blocks that the active signer missed. When that count reaches
the configured threshold, the standby promotes itself one rank closer to 1.
The active signer sees the same condition about itself, but it cannot be
promoted any further, so it must shut down. Ranks therefore only move toward 1,
and rank 1 fails closed.

This project models `BaseSignCtrled`, the state machine behind that rule, and
proves properties of it. The five fields are `counterLocked`, `currentHeight`,
`missedInARow`, `threshold` and `rank`.

- `signctrled.dfy`, module `SignCtrled`:
  - `Outcome` models Go's `error` result. It is `Ok` for nil, or one of
    `CounterLocked`, `ThresholdExceeded` and `MustShutdown`.
  - `Snapshot` is the five fields as a value.
  - `Valid` is the invariant: `rank >= 1`, `threshold >= 1` and
    `missedInARow <= threshold`.
  - `Operational` is `Valid` with the counter strictly below the threshold.
  - Every operation is a pure step on a `Snapshot`. Its `ensures` say what
    the step means.
  - The class `BaseSignCtrled` keeps the five fields and updates them in
    place. It mirrors the Go code statement by statement, including `Missed`
    calling `Promote`, `Promote` calling `Reset`, and the two no-op hooks.
    Each state-changing method of the state machine is proved equal to its
    step on `View()`, the fields read as a `Snapshot`.
- `failover.dfy`, module `Failover`:
  - `Final` and `Outcomes` give the state and the reported outcomes after a
    sequence of public operations.
  - The lemmas prove the multi-call properties. The threshold-th consecutive
    miss is the first one that is not `Ok`. Locked misses change nothing. The
    rank never increases. A run stays operational until `MustShutdown` is
    reported. Three concrete runs are also proved: a promotion from rank 3,
    a refused promotion at rank 1, and misses right after construction.

The methods have no `requires`, because the Go methods demand nothing of their
callers. Where an invariant is preserved, the contract says so as an
implication from the old state.

Where the code's comments and what the code does differ, the model follows the code:

- The comment at `types/signctrled.go:141-142` gives 2 as the minimum
  threshold; the code does not enforce it. `NewBaseSignCtrled` accepts
  any threshold and rank (`types/signctrled.go:47-59`), so the constructor has
  no `requires`. Its `ensures` say that the state is `Valid` exactly when
  `threshold >= 1 && rank >= 1`.
- When the promotion inside `Missed` is refused at rank 1, the counter stays
  at the threshold (`types/signctrled.go:133-135`). A later `Missed` on the
  unlocked counter matches neither branch of the code and returns nil, and the
  counter is then above the threshold (`types/signctrled.go:128-147`).
  `MissedStep` states this case, and `Failover.MissAfterShutdownBreaksBound` and
  `Failover.ScenarioShutdown` exhibit it. The bound is therefore proved only
  for callers that stop at `MustShutdown` (`Failover.OperationalUntilShutdown`).
  The message loop at `privval/sc_file.go:102-109` stops when the request
  handler's error is identical to `ErrMustShutdown`; that it stops after the
  first such report assumes that `HandleRequest`, which is not part of this
  model, passes `Missed`'s error through unwrapped.
- `SetRank` and `SetCurrentHeight` write any value. The run lemmas cover the
  five operations in `Failover.Op`: `LockCounter`, `UnlockCounter`, `Missed`,
  `Reset` and `Promote`. `Promote` is included even though the Go code calls it
  only from `Missed` (`types/signctrled.go:165-166`); `SetRank` and
  `SetCurrentHeight` are excluded, so the rank only moves toward 1 over runs of
  those five.

## Model

| member | source | states |
|---|---|---|
| SignCtrled.Initial | types/signctrled.go:52-59 | the initial state has the counter locked, height 1 and no misses, with threshold and rank as given; it is valid exactly when threshold >= 1 and rank >= 1, and then it is operational |
| SignCtrled.LockStep | types/signctrled.go:66-71 | afterwards the counter is locked; height, misses, threshold and rank are untouched |
| SignCtrled.UnlockStep | types/signctrled.go:77-82 | afterwards the counter is unlocked; height, misses, threshold and rank are untouched |
| SignCtrled.ResetStep | types/signctrled.go:156-161 | afterwards the miss counter is 0 and no other field changed; from any valid state the result is operational |
| SignCtrled.PromoteStep | types/signctrled.go:168-179 | at rank 1 it reports MustShutdown and changes nothing (and only at rank 1); otherwise it reports Ok, the rank drops by exactly 1 and the counter is 0; the rank never rises, the lock, height and threshold are untouched, and Valid and Operational are preserved |
| SignCtrled.MissedStep | types/signctrled.go:122-148 | CounterLocked exactly when locked, with no change; Ok exactly when unlocked and the count does not reach the threshold, and then the counter rises by one; ThresholdExceeded exactly when the threshold is reached at any rank other than 1, and then the rank drops by one, the counter is 0 and the height rises by one; MustShutdown exactly when the threshold is reached at rank 1, and then the counter stays at the threshold with the rank and height unchanged; from an operational state the result is valid, and it is operational unless MustShutdown was reported |
| SignCtrled.BaseSignCtrled.constructor | types/signctrled.go:47-59 | the new object's fields equal Initial(threshold, rank); it is valid exactly when threshold >= 1 and rank >= 1 |
| SignCtrled.BaseSignCtrled.LockCounter | types/signctrled.go:66-71 | the fields change as LockStep says; an operational state stays operational |
| SignCtrled.BaseSignCtrled.UnlockCounter | types/signctrled.go:77-82 | the fields change as UnlockStep says; an operational state stays operational |
| SignCtrled.BaseSignCtrled.GetCurrentHeight | types/signctrled.go:85-87 | returns the current height and changes nothing |
| SignCtrled.BaseSignCtrled.SetCurrentHeight | types/signctrled.go:90-92 | the height becomes the argument and nothing else changes; validity is unaffected |
| SignCtrled.BaseSignCtrled.GetThreshold | types/signctrled.go:96-98 | returns the threshold and changes nothing |
| SignCtrled.BaseSignCtrled.GetMissedInARow | types/signctrled.go:101-103 | returns the miss counter and changes nothing |
| SignCtrled.BaseSignCtrled.GetRank | types/signctrled.go:106-108 | returns the rank and changes nothing |
| SignCtrled.BaseSignCtrled.SetRank | types/signctrled.go:111-113 | the rank becomes the argument and nothing else changes; from a valid state the result is valid exactly when the new rank is at least 1 (no check is made) |
| SignCtrled.BaseSignCtrled.Missed | types/signctrled.go:122-148 | the fields and the returned error are exactly MissedStep's; from an operational state the result is valid, and operational unless MustShutdown is returned |
| SignCtrled.BaseSignCtrled.OnMissedTooMany | types/signctrled.go:152 | the base hook changes nothing |
| SignCtrled.BaseSignCtrled.Reset | types/signctrled.go:156-161 | the fields change as ResetStep says; from a valid state the result is operational |
| SignCtrled.BaseSignCtrled.Promote | types/signctrled.go:168-179 | the fields and the returned error are exactly PromoteStep's; Valid and Operational are preserved |
| SignCtrled.BaseSignCtrled.OnPromote | types/signctrled.go:183 | the base hook changes nothing |
| Failover.LockIdempotent | types/signctrled.go:66-71 | locking twice is locking once, and locking sets only the lock |
| Failover.UnlockIdempotent | types/signctrled.go:77-82 | unlocking twice is unlocking once, and unlocking clears only the lock |
| Failover.LockUnlockRoundTrip | types/signctrled.go:66-82 | unlock then lock ends locked; lock then unlock ends unlocked |
| Failover.ResetIdempotent | types/signctrled.go:156-161 | Reset sets only the counter to 0, and a second Reset changes nothing |
| Failover.LockedMissesChangeNothing | types/signctrled.go:122-125 | while locked, any number of misses each report CounterLocked and leave the state unchanged |
| Failover.MissesUpToThreshold | types/signctrled.go:127-147 | from an unlocked operational state, each miss still needed to reach the threshold reports Ok except the last; the last reports ThresholdExceeded with rank - 1, counter 0 and height + 1, or at rank 1 it reports MustShutdown and leaves the counter at the threshold |
| Failover.ThresholdthMissIsFirstNotOk | types/signctrled.go:127-147 | from zero misses, unlocked, the threshold-th consecutive miss is the first that does not report Ok; at rank > 1 it promotes by exactly one rank and skips one height |
| Failover.RankOnlyMovesTowardOne | types/signctrled.go:122-179 | over any sequence of lock, unlock, miss, reset and promote calls, the rank never rises, never drops below 1, and drops at most once per call; the threshold is constant and the height never decreases |
| Failover.OperationalUntilShutdown | types/signctrled.go:122-179 | a run that starts operational and reports no MustShutdown ends operational, so the counter stays below the threshold |
| Failover.ValidThroughShutdown | types/signctrled.go:122-179 | in such a run, the next call, including the one that reports MustShutdown, still leaves a valid state |
| Failover.ShutdownOnlyAtRankOne | types/signctrled.go:133-135 | whenever a run reports MustShutdown, the state before that call has rank 1 |
| Failover.MissAfterShutdownBreaksBound | types/signctrled.go:128-147 | a miss on an unlocked counter already at the threshold reports Ok and leaves the counter at threshold + 1, which is not valid |
| Failover.ScenarioPromotion | types/signctrled.go:122-179 | with threshold 3, rank 3 and height 10, three misses report Ok, Ok, ThresholdExceeded and end at rank 2, counter 0, height 11 |
| Failover.ScenarioShutdown | types/signctrled.go:122-179 | with threshold 2 and rank 1, misses report Ok and then MustShutdown with the height unchanged; a third miss reports Ok with the counter at 3 |
| Failover.ScenarioStartup | types/signctrled.go:47-82 | after construction any number of misses report CounterLocked and change nothing; after UnlockCounter the next miss reports Ok and counts 1 |

## Left out

- Logging: the `Logger` field, the `SyncLogger` fallback to a discarding writer, and every `Info`/`Debug` call. They are output only and change no state.
- The `impl` field and hook overriding: `impl` is stored but never used, so `OnMissedTooMany` and `OnPromote` are always the base no-ops. They are modelled as methods that change nothing. The `SignCtrled` interface itself is not modelled, because there is exactly one implementation.
- Go integer widths: `currentHeight` is `int64` and the other fields are `int`. The model uses unbounded integers and does not model overflow of `missedInARow++`, `currentHeight++` or `rank--`.
- privval/sc_file.go is not part of this model. Its `run` loop, `OnStart` and `OnStop` do framed network I/O over an encrypted connection, dial with retries, and run a goroutine that races an external `Stop`. They also depend on `HandleRequest`, `BaseService` and the connection package, none of which is part of this model. `KeyFilePath` and `StateFilePath` are one-line path concatenations.
- `SetRank`, `SetCurrentHeight`: they write any value without a check. `SetCurrentHeight` keeps `Valid` because `Valid` does not mention the height; `SetRank` keeps it exactly when the new rank is at least 1, and nothing checks that. `Failover.Op` does not include them, so the run lemmas cover only the operations that change the rank or counter under the state machine's own rules.
