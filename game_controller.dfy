/** The game view controller as an object whose methods update its fields
    step by step, in the order GameViewController.swift does. Each method is
    proved to change the fields exactly as the matching function of
    GameRules says, and to keep the controller's invariant. SceneKit calls
    (geometry, actions, flashing) are left out; the actions a method starts
    show up as the in-flight counters and stages that the completion
    methods consume. */
module GameController {
  import opened Optional
  import GameRules

  class GameViewController {
    var currentRoll: real
    var currentPitch: real
    var currentLaneIndex: int
    var isSwitchingLane: bool
    /** Lane-switch move actions whose completion has not run yet. */
    var laneMovesInFlight: nat
    var isJumping: bool
    /** Where the jump action sequence on the player ball has got to. */
    var jumpStage: GameRules.JumpStage
    var score: int
    var lastSwitchTime: real
    var gameHasStarted: bool
    var gameStartTime: Option<real>
    var gameTimeRemaining: real
    var gameTimerRunning: bool
    /** Whether the repeating spawn timer is valid. */
    var spawnTimerRunning: bool
    /** The barrier nodes in the scene, by id. */
    var barriers: map<nat, GameRules.Barrier>
    var nextBarrierId: nat
    /** Scores shown by the summary screens presented so far. */
    var summaries: seq<int>

    /** The fields as one value. */
    ghost function Snapshot(): GameRules.Session
      reads this
    {
      GameRules.Session(currentRoll, currentPitch, currentLaneIndex, isSwitchingLane,
        laneMovesInFlight, isJumping, jumpStage, score, lastSwitchTime, gameHasStarted,
        gameStartTime, gameTimeRemaining, gameTimerRunning, spawnTimerRunning, barriers,
        nextBarrierId, summaries)
    }

    ghost predicate Valid()
      reads this
    {
      GameRules.Inv(Snapshot())
    }

    constructor ()
      ensures Valid() && Snapshot() == GameRules.Initial()
    {
      currentRoll, currentPitch := 0.0, 0.0;
      currentLaneIndex, isSwitchingLane, laneMovesInFlight := 0, false, 0;
      isJumping, jumpStage := false, GameRules.Grounded;
      score, lastSwitchTime := 0, 0.0;
      gameHasStarted, gameStartTime := false, None;
      gameTimeRemaining, gameTimerRunning, spawnTimerRunning := GameRules.GameTimeDuration, false, false;
      barriers, nextBarrierId, summaries := map[], 0, [];
    }

    // -------------------------------------------------------------------
    // Session lifecycle.

    method ViewDidLoad(now: real)
      requires Valid()
      modifies this
      ensures Valid() && Snapshot() == GameRules.ViewDidLoad(old(Snapshot()), now)
      ensures gameStartTime == Some(now) && gameTimerRunning && gameHasStarted
    {
      gameStartTime := Some(now);
      StartGameTimer();
      StartSpawningBarrier();
    }

    method StartGameTimer()
      modifies this
      ensures Snapshot() == GameRules.StartGameTimer(old(Snapshot()))
      ensures gameTimerRunning && gameTimeRemaining == GameRules.GameTimeDuration
    {
      gameTimeRemaining := GameRules.GameTimeDuration;
      gameTimerRunning := true;
    }

    /** Starts the spawn timer, once. */
    method StartSpawningBarrier()
      modifies this
      ensures Snapshot() == GameRules.StartSpawningBarrier(old(Snapshot()))
      ensures old(gameHasStarted) ==> Snapshot() == old(Snapshot())
      ensures gameHasStarted && (!old(gameHasStarted) ==> spawnTimerRunning)
    {
      if gameHasStarted {
        return;
      }
      gameHasStarted := true;
      spawnTimerRunning := true;
    }

    /** A game-timer tick: ends the game once 60 seconds have elapsed since
        the start time; without a start time it returns at once. */
    method UpdateGameTime(now: real)
      requires Valid()
      modifies this
      ensures Valid() && Snapshot() == GameRules.UpdateGameTime(old(Snapshot()), now)
      ensures old(gameStartTime).None? ==> Snapshot() == old(Snapshot())
      ensures old(gameStartTime).Some? && now - old(gameStartTime).value >= GameRules.GameTimeDuration ==>
        gameStartTime.None? && summaries == old(summaries) + [old(score)]
    {
      if gameStartTime.None? {
        return;
      }
      var startTime := gameStartTime.value;
      var elapsedTime := now - startTime;
      if elapsedTime >= GameRules.GameTimeDuration {
        EndGame();
      }
    }

    method EndGame()
      requires Valid()
      modifies this
      ensures Valid() && Snapshot() == GameRules.EndGame(old(Snapshot()))
      ensures gameStartTime.None? && !gameTimerRunning && !spawnTimerRunning && !gameHasStarted
      ensures summaries == old(summaries) + [old(score)]
    {
      gameStartTime := None;
      gameTimerRunning := false;
      spawnTimerRunning := false;
      gameHasStarted := false;
      summaries := summaries + [score];
    }

    method ViewWillDisappear()
      requires Valid()
      modifies this
      ensures Valid() && Snapshot() == GameRules.ViewWillDisappear(old(Snapshot()))
      ensures !isSwitchingLane && !spawnTimerRunning
    {
      isSwitchingLane := false;
      spawnTimerRunning := false;
    }

    // -------------------------------------------------------------------
    // Gestures.

    /** A sensor sample: the roll is stored first, which runs the gesture
        check, and only then the negated pitch. */
    method UpdateHeadOrientation(roll: real, pitch: real, yaw: real, now: real)
      requires Valid()
      modifies this
      ensures Valid() && Snapshot() == GameRules.UpdateHeadOrientation(old(Snapshot()), roll, pitch, yaw, now)
      ensures currentRoll == roll && currentPitch == -pitch
    {
      currentRoll := roll;
      ProcessHeadGesture(now);
      currentPitch := -pitch;
    }

    method ProcessHeadGesture(now: real)
      requires Valid()
      modifies this
      ensures Valid() && Snapshot() == GameRules.ProcessHeadGesture(old(Snapshot()), now)
      ensures old(isSwitchingLane) || !GameRules.IsSwitchAllowed(old(lastSwitchTime), now) ==>
        Snapshot() == old(Snapshot())
      ensures -1 <= currentLaneIndex <= 1
    {
      if isSwitchingLane || !GameRules.IsSwitchAllowed(lastSwitchTime, now) {
        return;
      }
      if GameRules.Abs(currentRoll) > GameRules.HeadTurnThreshold {
        var direction := if currentRoll < 0.0 then -1 else 1;
        if direction == -1 && currentLaneIndex > -1 {
          MovePlayerBall(direction);
        } else if direction == 1 && currentLaneIndex < 1 {
          MovePlayerBall(direction);
        }
      } else if currentPitch > GameRules.JumpLowerThreshold && currentPitch < GameRules.JumpUpperThreshold {
        JumpPlayerBall();
      }
    }

    /** Starts a lane switch toward `direction` unless a switch or a jump is
        in flight. */
    method MovePlayerBall(direction: int)
      requires Valid()
      requires direction == -1 || direction == 1
      requires -1 <= currentLaneIndex + direction <= 1
      modifies this
      ensures Valid() && Snapshot() == GameRules.MovePlayerBall(old(Snapshot()), direction)
      ensures old(isSwitchingLane) || old(isJumping) ==> Snapshot() == old(Snapshot())
      ensures !old(isSwitchingLane) && !old(isJumping) ==>
        currentLaneIndex == old(currentLaneIndex) + direction && isSwitchingLane
    {
      if isSwitchingLane || isJumping {
        return;
      }
      currentLaneIndex := currentLaneIndex + direction;
      isSwitchingLane := true;
      laneMovesInFlight := laneMovesInFlight + 1;
    }

    /** Starts the jump sequence unless a jump is already in flight. */
    method JumpPlayerBall()
      requires Valid()
      requires !isSwitchingLane
      modifies this
      ensures Valid() && Snapshot() == GameRules.JumpPlayerBall(old(Snapshot()))
      ensures old(isJumping) ==> Snapshot() == old(Snapshot())
      ensures isJumping && (!old(isJumping) ==> jumpStage == GameRules.Rising)
    {
      if isJumping {
        return;
      }
      isJumping := true;
      jumpStage := GameRules.Rising;
    }

    // -------------------------------------------------------------------
    // Animation completions.

    /** The completion handler of a lane-switch move. */
    method CompleteLaneSwitch()
      requires Valid() && laneMovesInFlight > 0
      modifies this
      ensures Valid() && Snapshot() == GameRules.CompleteLaneSwitch(old(Snapshot()))
      ensures !isSwitchingLane && laneMovesInFlight == old(laneMovesInFlight) - 1
    {
      laneMovesInFlight := laneMovesInFlight - 1;
      isSwitchingLane := false;
    }

    method CompleteJumpRise()
      requires Valid() && jumpStage == GameRules.Rising
      modifies this
      ensures Valid() && Snapshot() == GameRules.CompleteJumpRise(old(Snapshot()))
      ensures isJumping && jumpStage == GameRules.Falling
    {
      jumpStage := GameRules.Falling;
    }

    method CompleteJumpFall()
      requires Valid() && jumpStage == GameRules.Falling
      modifies this
      ensures Valid() && Snapshot() == GameRules.CompleteJumpFall(old(Snapshot()))
      ensures isJumping && jumpStage == GameRules.Resetting
    {
      jumpStage := GameRules.Resetting;
    }

    /** The last action of the jump sequence. */
    method ResetJumpState()
      requires Valid() && jumpStage == GameRules.Resetting
      modifies this
      ensures Valid() && Snapshot() == GameRules.ResetJumpState(old(Snapshot()))
      ensures !isJumping && jumpStage == GameRules.Grounded
    {
      isJumping := false;
      jumpStage := GameRules.Grounded;
    }

    // -------------------------------------------------------------------
    // Barriers and score.

    /** A spawn-timer tick: a barrier at x = -1, 0 or 1, as `laneChoice`
        (the random index) selects. */
    method SpawnBarrier(laneChoice: nat)
      requires Valid() && spawnTimerRunning && laneChoice < |GameRules.BarrierLanePositions|
      modifies this
      ensures Valid() && Snapshot() == GameRules.SpawnBarrier(old(Snapshot()), laneChoice)
      ensures barriers == old(barriers)[old(nextBarrierId) := GameRules.Barrier(GameRules.BarrierLanePositions[laneChoice], false)]
    {
      var barrier := GameRules.Barrier(GameRules.BarrierLanePositions[laneChoice], false);
      barriers := barriers[nextBarrierId := barrier];
      nextBarrierId := nextBarrierId + 1;
    }

    /** The action that ends a barrier's sequence once its move is over at
        depth `z`. */
    method BarrierMoveDone(id: nat, z: real)
      requires Valid() && id in barriers
      modifies this
      ensures Valid() && Snapshot() == GameRules.BarrierMoveDone(old(Snapshot()), id, z)
      ensures barriers == old(barriers) - {id}
      ensures score == if !old(barriers)[id].collided && z > 0.0 then old(score) + GameRules.DodgeBonus else old(score)
    {
      if !barriers[id].collided && z > 0.0 {
        IncrementScore();
      }
      barriers := barriers - {id};
    }

    /** The contact delegate. */
    method PhysicsContact(a: GameRules.Body, b: GameRules.Body)
      requires Valid()
      modifies this
      ensures Valid() && Snapshot() == GameRules.PhysicsContact(old(Snapshot()), a, b)
    {
      var categoryA, categoryB := GameRules.Category(a), GameRules.Category(b);
      if (categoryA == GameRules.CategoryPlayerBall && categoryB == GameRules.CategoryObstacleBarrier)
        || (categoryA == GameRules.CategoryObstacleBarrier && categoryB == GameRules.CategoryPlayerBall)
      {
        if categoryA == GameRules.CategoryObstacleBarrier {
          MarkCollided(a);
        } else if categoryB == GameRules.CategoryObstacleBarrier {
          MarkCollided(b);
        }
        DecrementScore();
      }
    }

    /** Names a barrier node "collided". */
    method MarkCollided(body: GameRules.Body)
      requires Valid()
      modifies this
      ensures Valid() && Snapshot() == GameRules.MarkCollided(old(Snapshot()), body)
    {
      if body.BarrierNode? && body.id in barriers {
        barriers := barriers[body.id := barriers[body.id].(collided := true)];
      }
    }

    method IncrementScore()
      requires Valid()
      modifies this
      ensures Valid() && Snapshot() == GameRules.IncrementScore(old(Snapshot()))
      ensures score == old(score) + GameRules.DodgeBonus
    {
      score := score + GameRules.DodgeBonus;
    }

    method DecrementScore()
      requires Valid()
      modifies this
      ensures Valid() && Snapshot() == GameRules.DecrementScore(old(Snapshot()))
      ensures score >= 0 && (old(score) >= GameRules.ContactPenalty ==> score == old(score) - GameRules.ContactPenalty)
    {
      score := GameRules.Max(score - GameRules.ContactPenalty, 0);
    }
  }
}
