# Posturizer game engine and page router in Dafny

Posturizer is an iPad game steered by head movements. The camera measures the
player's head roll and pitch. Tilting the head left or right moves a ball one
lane sideways. Tilting it up makes the ball jump. Barriers come down the track
every three seconds. Dodging one earns 8 points; touching one costs 4 points,
but the score never drops below 0. A game lasts 60 seconds and then shows a
summary screen with the score. Around the game, a page router steps through
six screens in a cycle.

This project models two parts of the app:

- the game logic of `GameViewController`: the gesture classifier, the lane and
  jump state, the cooldown check, scoring, the barrier completion rule, the
  contact handler, and the start and end of a session;
- `PageRouter` with its `goToNextPage` and `goToPreviousPage`.

Layout:

- `optional.dfy` holds module `Optional`, the `Option` type that stands for a
  Swift optional.
- `page_router.dfy` holds module `PageRouting`: the screen enumeration, the
  cyclic index arithmetic and its lemmas, and class `PageRouter`.
- `game_rules.dfy` holds module `GameRules`. It defines the constants, the
  classifier, and a `Session` value with every field the controller writes.
  Each controller method has one function saying what it does to that
  value. Module `GameRules` also defines events and runs of events, and the
  invariant `Inv`.
- `game_steps.dfy` holds module `GameSteps`: lemmas about one step (guards,
  score rules, flag lifecycles) and concrete runs that show surprising
  behaviour of the code.
- `game_traces.dfy` holds module `GameTraces`: lemmas about any sequence of
  events (the invariant, dodge bonuses per barrier, the end of the session,
  the jump phases, the cooldown).
- `game_controller.dfy` holds module `GameController` with class
  `GameViewController`. It has the controller's fields, and its methods
  update them step by step in the order the Swift code does. Each method
  ensures that the new field values are those its `GameRules` function
  gives. Every method except `StartGameTimer` and `StartSpawningBarrier`
  also requires and ensures `Valid()` (the invariant). Those two neither
  require nor ensure it: they are called only from `ViewDidLoad`, which
  ensures it.

How the environment is modelled:

- Sensor samples, animation completions, timer ticks and physics contacts are
  events, applied one at a time.
- The clock is a parameter `now`, in seconds since the reference date. Both
  `Date()` and `Date.timeIntervalSinceReferenceDate` read this clock.
- The `Int.random` lane index is a parameter `laneChoice`.
- SceneKit action sequences become explicit completion events:
  `LaneSwitchDone`, the three jump steps (`JumpRiseDone`, `JumpFallDone`,
  `JumpResetRun`), and `BarrierDone(id, z)`, the run block at the end of a
  barrier's move.
- Barrier nodes are entries of a map from id to `Barrier(x, collided)`. A node
  named `"collided"` has `collided == true`.

## Model

Each `GameController.GameViewController.X` row also covers the function
`GameRules.X`, which the method is proved equal to: the method's `ensures`
says that its new fields are `GameRules.X` applied to its old fields. The
lemmas in `GameSteps` and `GameTraces` reason about those functions.

| member | source | states |
|---|---|---|
| `PageRouting.FirstIndex` | AppContainerView.swift:7 | The result of `firstIndex(of:)`: when Some, an in-range index holding `v` with no earlier occurrence; None exactly when `v` is not in the list |
| `PageRouting.NextIndex` | AppContainerView.swift:8 | `(i + 1) % count` is below `count`, and it is `i + 1` except that the last index wraps to 0 |
| `PageRouting.PreviousIndex` | AppContainerView.swift:14 | `(i - 1 + count) % count` is below `count`, and it is `i - 1` except that index 0 wraps to `count - 1` |
| `PageRouting.Position` | AppContainerView.swift:20-22 | Each of the six screens has a position in `allCases` that holds that screen |
| `PageRouting.EveryScreenIsListed` | AppContainerView.swift:7 | `firstIndex(of:)` finds every screen at its position, so the `guard ... else { return }` of both methods never fires |
| `PageRouting.StepsMoveByOne` | AppContainerView.swift:6-16 | "Next" moves one position forward and "previous" one back, with wrap-around |
| `PageRouting.EndsWrapAround` | AppContainerView.swift:6-16 | "Next" from `summaryView` gives `introView`; "previous" from `introView` gives `summaryView` |
| `PageRouting.NextPreviousRoundTrip` | AppContainerView.swift:6-16 | Next then previous, and previous then next, return to the starting screen |
| `PageRouting.AdvanceBy` | AppContainerView.swift:8 | Any number of forward steps from a valid index gives a valid index |
| `PageRouting.AdvanceByIsModular` | AppContainerView.swift:8 | `k` forward steps from `i` land on `(i + k) % 6` |
| `PageRouting.NextTimesAdvance` | AppContainerView.swift:6-10 | Pressing "next" `k` times moves the position `k` steps forward |
| `PageRouting.NextTimesPosition` | AppContainerView.swift:6-10 | Pressing "next" `k` times gives position `(p + k) % 6` |
| `PageRouting.SixNextsCycle` | AppContainerView.swift:6-10 | Six presses of "next" return to the start, and no smaller positive number of presses does |
| `PageRouting.PageRouter.constructor` | AppContainerView.swift:4 | The router starts on `introView` |
| `PageRouting.PageRouter.GoToNextPage` | AppContainerView.swift:6-10 | The shown screen becomes the next one in the cycle, one position forward modulo 6 |
| `PageRouting.PageRouter.GoToPreviousPage` | AppContainerView.swift:12-16 | The shown screen becomes the previous one in the cycle, one position back modulo 6 |
| `GameRules.IsSwitchAllowed` | Controller/GameViewController.swift:177-179 | The cooldown check never admits a switch at or before the time of the last one |
| `GameSteps.CooldownWindow` | Controller/GameViewController.swift:177-179 | A switch is refused for the first 0.1 s after the last one and admitted from then on, and once admitted it stays admitted as the clock advances |
| `GameRules.Classify` | Controller/GameViewController.swift:156-165 | A lane switch exactly when \|roll\| > 24, direction -1 exactly when roll < 0 and +1 otherwise; a jump exactly when the roll test fails and 20 < pitch < 30, both strict; so turning takes priority over jumping |
| `GameSteps.StepPreservesInv` | Controller/GameViewController.swift:153-166 | Every event keeps the invariant: lane in {-1, 0, 1}, score >= 0, the flags `isJumping` and `isSwitchingLane` never both set, `isJumping` set exactly while the jump sequence runs, `isSwitchingLane` only while a move is in flight |
| `GameSteps.LoadedStateIsValid` | Controller/GameViewController.swift:105-113 | After `viewDidLoad` the invariant holds, the start time is the load time and the score is 0 |
| `GameSteps.ReloadPreservesInv` | Controller/GameViewController.swift:105-113 | Loading the view again keeps the invariant and, while the game has started, starts no second spawn timer |
| `GameSteps.GestureIgnoredWhenGated` | Controller/GameViewController.swift:154 | No gesture is acted on while a lane switch is in flight or the cooldown check fails |
| `GameSteps.GestureLaneChange` | Controller/GameViewController.swift:154-162 | A sample changes the lane if and only if it is admitted, no jump is in flight, and it classifies as a switch toward a lane that exists. The lane then moves by exactly the direction and the switching flag is set |
| `GameSteps.MovesStayInLanes` | Controller/GameViewController.swift:158-162 | A left move happens only from an index above -1 and a right move only from an index below 1, by exactly one lane |
| `GameSteps.GestureJumpStart` | Controller/GameViewController.swift:154-165 | A sample starts a jump if and only if it is admitted, no jump is in flight and it classifies as a jump; the lane does not change |
| `GameSteps.MoveBlockedWhileBusy` | Controller/GameViewController.swift:331 | `movePlayerBall` does nothing while `isSwitchingLane` or `isJumping` holds |
| `GameSteps.NoDoubleJump` | Controller/GameViewController.swift:313 | `jumpPlayerBall` does nothing while `isJumping` holds |
| `GameSteps.SwitchFlagLifecycle` | Controller/GameViewController.swift:186-191 | `isSwitchingLane` is cleared only by a move completion or by the view disappearing. It is set only by a sample that moves the ball one lane |
| `GameSteps.JumpFlagLifecycle` | Controller/GameViewController.swift:312-328 | `isJumping` is set only by a sensor sample, which starts the rise, and cleared only by the reset step after the fall; while jumping, the stage advances only rise to fall to reset, each by its own completion |
| `GameSteps.BarrierArrivalScoring` | Controller/GameViewController.swift:300-305 | A finished barrier adds exactly 8 when not named "collided" and z > 0, nothing otherwise, and is removed in both cases |
| `GameSteps.ContactScoring` | Controller/GameViewController.swift:213-227 | A player-barrier contact, in either order, sets the score to max(score - 4, 0) and marks the barrier collided; any other pair changes nothing |
| `GameSteps.StartOnce` | Controller/GameViewController.swift:268-277 | `startSpawningBarrier` does nothing once the game has started, and otherwise starts the game and the spawn timer |
| `GameSteps.GameEndsAtSixtySeconds` | Controller/GameViewController.swift:76-92 | A tick at 60 s or more after the start clears the start time, stops both timers and presents one summary with the current score; an earlier tick changes nothing |
| `GameSteps.TickAfterEndIsNoOp` | Controller/GameViewController.swift:77 | Without a start time, a tick returns at once |
| `GameSteps.RepeatedContactPenalisesTwice` | Controller/GameViewController.swift:213-225 | Two contact events for one barrier take 8 points from a score of 8 |
| `GameSteps.PitchIsReadOneSampleLate` | Controller/GameViewController.swift:63-67 | The gesture check runs when the roll is assigned, before the sample's pitch is stored. So a first head-up sample does not jump and an identical second one does |
| `GameSteps.ScoreChangesAfterSummary` | Controller/GameViewController.swift:86-101 | A barrier still moving when the game ends earns its bonus after the summary showed score 0 |
| `GameSteps.JumpDuringLaneMoveAfterDisappear` | Controller/GameViewController.swift:186-191 | After a lane move starts and the view disappears, a jump starts while that move is still in flight, in lane -1 |
| `GameSteps.BarrierCentresMissSideLanes` | Controller/GameViewController.swift:288-290 | A barrier centre (x in {-1, 0, 1}) lines up with a player lane (x = 2 * index) only in the middle lane |
| `GameTraces.RunPreservesInv` | Controller/GameViewController.swift:153-166 | The invariant holds after any sequence of events |
| `GameTraces.ReachableStatesAreValid` | Controller/GameViewController.swift:52 | After the view loads and any events follow, the lane is in {-1, 0, 1}, the score is not negative, and the flags `isJumping` and `isSwitchingLane` are never both set |
| `GameTraces.RunKeepsLastSwitchTime` | Controller/GameViewController.swift:33 | No sequence of events writes `lastSwitchTime` |
| `GameTraces.CooldownNeverThrottles` | Controller/GameViewController.swift:177-179 | At every clock reading of at least 0.1 s, after any events, the cooldown check passes |
| `GameTraces.DodgeCount` | Controller/GameViewController.swift:300-303 | The number of dodge bonuses one barrier gets along a run |
| `GameTraces.GoneBarrierNeverDodges` | Controller/GameViewController.swift:304 | A barrier removed from the scene never earns a bonus again |
| `GameTraces.AtMostOneDodge` | Controller/GameViewController.swift:300-305 | Each barrier earns the dodge bonus at most once in any run |
| `GameTraces.CollidedNeverDodges` | Controller/GameViewController.swift:218-222 | A barrier marked "collided" earns no dodge bonus in any later run |
| `GameTraces.ContactForfeitsBonus` | Controller/GameViewController.swift:213-225 | After a player-barrier contact, that barrier never earns the dodge bonus |
| `GameTraces.EndedStaysEnded` | Controller/GameViewController.swift:76-92 | Once the start time is cleared, no event restores it or presents another summary |
| `GameTraces.EndsOnce` | Controller/GameViewController.swift:81-92 | After the tick that ends the game, any run shows exactly one more summary, holding the score at the end |
| `GameTraces.JumpEndsOnlyAfterAllPhases` | Controller/GameViewController.swift:321-327 | A jump in flight ends only after its remaining completions (rise, fall, reset) have occurred in order |
| `GameTraces.JumpLastsThreePhases` | Controller/GameViewController.swift:312-327 | Once a gesture starts a jump, `isJumping` stays set until the rise, the fall and the reset step have all run in sequence |
| `GameController.GameViewController.constructor` | Controller/GameViewController.swift:33-61 | The fields start as declared: score 0, middle lane, no flags, no start time, last switch time 0 |
| `GameController.GameViewController.ViewDidLoad` | Controller/GameViewController.swift:105-113 | Records the start time, starts the game timer, and starts spawning once |
| `GameController.GameViewController.StartGameTimer` | Controller/GameViewController.swift:71-74 | Resets the remaining time to 60 s and starts the game timer |
| `GameController.GameViewController.StartSpawningBarrier` | Controller/GameViewController.swift:268-277 | Does nothing once the game has started; otherwise starts the game and the spawn timer |
| `GameController.GameViewController.UpdateGameTime` | Controller/GameViewController.swift:76-84 | Without a start time, does nothing; after 60 s, ends the game with one summary of the current score |
| `GameController.GameViewController.EndGame` | Controller/GameViewController.swift:86-92 | Clears the start time, stops both timers, clears `gameHasStarted`, and presents a summary with the current score |
| `GameController.GameViewController.ViewWillDisappear` | Controller/GameViewController.swift:186-191 | Clears `isSwitchingLane` and stops the spawn timer |
| `GameController.GameViewController.UpdateHeadOrientation` | Controller/GameViewController.swift:345-350 | Stores the roll, runs the gesture check, then stores the negated pitch |
| `GameController.GameViewController.ProcessHeadGesture` | Controller/GameViewController.swift:153-166 | Changes nothing while switching or when the cooldown check fails. Otherwise it applies the classified gesture, and the lane stays in {-1, 0, 1} |
| `GameController.GameViewController.MovePlayerBall` | Controller/GameViewController.swift:330-343 | Changes nothing while switching or jumping; otherwise moves the lane by the direction and sets `isSwitchingLane` |
| `GameController.GameViewController.JumpPlayerBall` | Controller/GameViewController.swift:312-328 | Changes nothing while jumping; otherwise sets `isJumping` and starts the rise |
| `GameController.GameViewController.CompleteLaneSwitch` | Controller/GameViewController.swift:340-342 | The move completion clears `isSwitchingLane` |
| `GameController.GameViewController.CompleteJumpRise` | Controller/GameViewController.swift:316-317 | The rise finishing starts the fall; `isJumping` stays set |
| `GameController.GameViewController.CompleteJumpFall` | Controller/GameViewController.swift:318-319 | The fall finishing leaves only the reset step; `isJumping` stays set |
| `GameController.GameViewController.ResetJumpState` | Controller/GameViewController.swift:321-323 | The reset step clears `isJumping` |
| `GameController.GameViewController.SpawnBarrier` | Controller/GameViewController.swift:279-297 | Adds a barrier at x = -1, 0 or 1, as the lane choice selects, under a fresh id |
| `GameController.GameViewController.BarrierMoveDone` | Controller/GameViewController.swift:300-305 | Adds 8 exactly when the barrier is not "collided" and z > 0, then removes the barrier |
| `GameController.GameViewController.PhysicsContact` | Controller/GameViewController.swift:213-227 | A player-barrier pair marks the barrier node "collided" and applies the penalty; any other pair changes nothing |
| `GameController.GameViewController.MarkCollided` | Controller/GameViewController.swift:218-222 | Names the barrier node "collided" |
| `GameController.GameViewController.IncrementScore` | Controller/GameViewController.swift:354-358 | Adds exactly 8 |
| `GameController.GameViewController.DecrementScore` | Controller/GameViewController.swift:360-364 | Sets the score to max(score - 4, 0), which is never negative |

## Behaviour of the code worth knowing

Some consequences of the code are not what its names and constants
suggest. Each point below has a lemma that shows it.

- **Cooldown:** `switchCooldownDuration` and `isSwitchAllowed`
  (Controller/GameViewController.swift:177-179) suggest a 0.1 s cooldown
  between switches. But `lastSwitchTime`, declared at
  Controller/GameViewController.swift:33, is never assigned. The cooldown
  check therefore passes at every real clock reading
  (`GameTraces.CooldownNeverThrottles`). In the code, two gestures less than
  0.1 s apart can both be acted on.
- **Repeated contacts:** every contact event costs 4 points. Nothing stops a
  second contact with the same barrier from costing 4 more
  (`GameSteps.RepeatedContactPenalisesTwice`). A barrier marked collided still
  never earns the dodge bonus (`GameTraces.CollidedNeverDodges`).
- **Pitch lag:** the roll's `didSet` runs the gesture check before the pitch
  of the same sample is stored. Jumps are therefore decided on the previous
  sample's pitch (`GameSteps.PitchIsReadOneSampleLate`).
- **Score after the end:** ending the game stops the spawn timer but not the
  barriers already moving. Their bonuses still change the score after the
  summary was presented (`GameSteps.ScoreChangesAfterSummary`).
- **Lane positions:** barriers are spawned at x in {-1, 0, 1}, but the player
  lanes are at x = -2, 0, 2 (`GameSteps.BarrierCentresMissSideLanes`).
- **Switching flag:** `viewWillDisappear` clears `isSwitchingLane` without
  stopping a move in flight. So `isSwitchingLane` implies a move in flight,
  but not the other way round. After `viewWillDisappear`, a jump can start
  while the ball is still moving between lanes
  (`GameSteps.JumpDuringLaneMoveAfterDisappear`).
- **Jump and switch exclusion:** the two guards are asymmetric.
  `jumpPlayerBall` does not check `isSwitchingLane`; its only caller
  returns early while a switch is in flight. The model's `JumpPlayerBall`
  method states that call condition as a precondition. With it, the flags
  `isJumping` and `isSwitchingLane` are never both set (`Inv`). The flags
  do not cover the move itself, as the previous point shows.

## Left out

- SceneKit rendering and physics: scene, camera, lights, lanes, ball and
  barrier geometry, `flashPlayerBall`, `cleanUpScene` and `deinit`. Contacts
  and completions of animations arrive as events instead.
- Animation timing (0.2 s lane switch, 0.5 s jump phases, 4 s barrier move,
  3 s spawn period). These only decide when the completion events arrive,
  and the model allows them in any order.
- The 1-second tick period of the game timer. Ticks are events with a clock
  reading, and a tick that comes after the timer stops is still handled,
  by the start-time guard.
- `DispatchQueue.main.async` hops in `updateHeadOrientation`, the contact
  handler, `incrementScore`, `decrementScore` and `navigateToSummary`. They
  are modelled as immediate updates, so the model does not capture a
  callback that runs between a contact and its deferred marking.
- Presenting the summary screen: the model records only the score handed to
  `SummaryView`.
- The camera and the face-landmark pipeline that produce roll, pitch and yaw,
  and their conversion from radians, which is floating point. Angles are
  exact reals, and `yaw` is accepted but unused, as in the code.
- `ScoreManager.updateScore`, the score's `didSet` observer that publishes the
  value to the view.
- The 64-bit range of Swift `Int`: the score is an unbounded integer. Gaining
  8 points every 3 s cannot overflow in a 60-second game.
- `viewWillAppear` and `stopCamera`: these only start and stop the camera.
- The router's screen functions `Next` and `Previous` are defined by
  position in the cycle. The router methods still run `firstIndex(of:)` and
  its guard as the source does, and `EveryScreenIsListed` shows that the
  guard never fires.
- GameController.GameViewController.MovePlayerBall: requires a direction of
  -1 or +1 toward a lane that exists. The Swift method has no such check; its
  only caller, the gesture check, passes only such moves.
- GameController.GameViewController.JumpPlayerBall: requires that no lane
  switch is in flight. The Swift method does not check this; its only caller
  returns early while a switch is in flight.
- GameController.GameViewController.CompleteLaneSwitch,
  CompleteJumpRise, CompleteJumpFall, ResetJumpState and BarrierMoveDone:
  each requires the state in which SceneKit runs that completion (a move in
  flight, the matching jump stage, a barrier still in the scene).
- GameController.GameViewController.SpawnBarrier: requires the spawn timer
  to be running and a lane choice below 3, which is the range
  `Int.random(in: 0..<3)` draws from.
- GameController.GameViewController: every method except the two starters
  requires the invariant `Valid()`, which the constructor establishes and
  every method keeps.
- The SwiftUI views of the app and the `body` of `AppContainerView`, which
  only lay out screens.
