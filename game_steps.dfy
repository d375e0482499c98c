/** Properties of single steps of the game: what one gesture, completion,
    tick or contact can and cannot do. */
module GameSteps {
  import opened Optional
  import opened GameRules

  /** A sensor sample keeps the controller's invariant. */
  lemma HeadSamplePreservesInv(s: Session, roll: real, pitch: real, yaw: real, now: real)
    requires Inv(s)
    ensures Inv(UpdateHeadOrientation(s, roll, pitch, yaw, now))
  {
    var s1 := s.(currentRoll := roll);
    assert Inv(s1);
    assert Inv(ProcessHeadGesture(s1, now));
  }

  /** A contact keeps the controller's invariant. */
  lemma ContactPreservesInv(s: Session, a: Body, b: Body)
    requires Inv(s)
    ensures Inv(PhysicsContact(s, a, b))
  {
    var r := PhysicsContact(s, a, b);
    forall id | id in r.barriers
      ensures id < r.nextBarrierId && r.barriers[id].x in BarrierLanePositions
    {
      assert id in s.barriers;
    }
  }

  /** A finished barrier move keeps the controller's invariant. */
  lemma BarrierDonePreservesInv(s: Session, id: nat, z: real)
    requires Inv(s)
    ensures Inv(BarrierMoveDone(s, id, z))
  {
  }

  /** A spawn-timer tick keeps the controller's invariant. */
  lemma SpawnPreservesInv(s: Session, laneChoice: nat)
    requires Inv(s) && s.spawnTimerRunning && laneChoice < |BarrierLanePositions|
    ensures Inv(SpawnBarrier(s, laneChoice))
  {
  }

  /** Every event keeps the controller's invariant. */
  lemma StepPreservesInv(s: Session, e: Event)
    requires Inv(s)
    ensures Inv(Apply(s, e))
  {
    match e
    case HeadOrientation(roll, pitch, yaw, now) => HeadSamplePreservesInv(s, roll, pitch, yaw, now);
    case SpawnTimerTick(c) =>
      if s.spawnTimerRunning && c < |BarrierLanePositions| {
        SpawnPreservesInv(s, c);
      }
    case BarrierDone(id, z) => BarrierDonePreservesInv(s, id, z);
    case Contact(a, b) => ContactPreservesInv(s, a, b);
    case _ =>
  }

  /** The controller's invariant holds once the view has loaded. */
  lemma LoadedStateIsValid(now: real)
    ensures Inv(ViewDidLoad(Initial(), now))
    ensures ViewDidLoad(Initial(), now).gameStartTime == Some(now)
    ensures ViewDidLoad(Initial(), now).score == 0
  {
  }

  /** Loading the view again keeps the invariant and never starts a second
      spawn timer while the game has started. */
  lemma ReloadPreservesInv(s: Session, now: real)
    requires Inv(s)
    ensures Inv(ViewDidLoad(s, now))
    ensures s.gameHasStarted ==> ViewDidLoad(s, now).spawnTimerRunning == s.spawnTimerRunning
  {
  }

  /** No gesture is acted on while a lane switch is in flight or the
      cooldown check fails. */
  lemma GestureIgnoredWhenGated(s: Session, now: real)
    requires s.isSwitchingLane || !IsSwitchAllowed(s.lastSwitchTime, now)
    ensures ProcessHeadGesture(s, now) == s
  {
  }

  /** A gesture changes the lane exactly when it is admitted, classifies as
      a lane switch toward an existing lane, and no jump is in flight; the
      lane then moves by the direction and the switching flag is set. */
  lemma GestureLaneChange(s: Session, now: real)
    requires Inv(s)
    ensures var r := ProcessHeadGesture(s, now);
      var g := Classify(s.currentRoll, s.currentPitch);
      r.currentLaneIndex != s.currentLaneIndex <==>
        && !s.isSwitchingLane && IsSwitchAllowed(s.lastSwitchTime, now) && !s.isJumping
        && g.SwitchLane? && -1 <= s.currentLaneIndex + g.direction <= 1
    ensures var r := ProcessHeadGesture(s, now);
      var g := Classify(s.currentRoll, s.currentPitch);
      r.currentLaneIndex != s.currentLaneIndex ==>
        g.SwitchLane? && r.currentLaneIndex == s.currentLaneIndex + g.direction
        && r.isSwitchingLane && r.laneMovesInFlight == s.laneMovesInFlight + 1 && !r.isJumping
  {
  }

  /** A leftward move happens only from a lane greater than -1 and a
      rightward one only from a lane less than 1. */
  lemma MovesStayInLanes(s: Session, now: real)
    requires Inv(s)
    ensures var r := ProcessHeadGesture(s, now);
      (r.currentLaneIndex < s.currentLaneIndex ==> s.currentLaneIndex > -1 && r.currentLaneIndex == s.currentLaneIndex - 1)
      && (r.currentLaneIndex > s.currentLaneIndex ==> s.currentLaneIndex < 1 && r.currentLaneIndex == s.currentLaneIndex + 1)
  {
  }

  /** A gesture starts a jump only when it is admitted and classifies as a
      jump; the lane does not change. */
  lemma GestureJumpStart(s: Session, now: real)
    requires Inv(s)
    ensures var r := ProcessHeadGesture(s, now);
      !s.isJumping && r.isJumping <==>
        && !s.isSwitchingLane && IsSwitchAllowed(s.lastSwitchTime, now) && !s.isJumping
        && Classify(s.currentRoll, s.currentPitch).Jump?
    ensures var r := ProcessHeadGesture(s, now);
      !s.isJumping && r.isJumping ==>
        r.jumpStage == Rising && r.currentLaneIndex == s.currentLaneIndex && !r.isSwitchingLane
  {
  }

  /** movePlayerBall does nothing while a lane switch or a jump is in flight. */
  lemma MoveBlockedWhileBusy(s: Session, direction: int)
    requires s.isSwitchingLane || s.isJumping
    ensures MovePlayerBall(s, direction) == s
  {
  }

  /** No double jump: jumpPlayerBall does nothing while a jump is in flight. */
  lemma NoDoubleJump(s: Session)
    requires s.isJumping
    ensures JumpPlayerBall(s) == s
  {
  }

  /** The switching flag is cleared only by a move completion or by the
      view disappearing, and set only by a sample that moves the ball one
      lane. */
  lemma SwitchFlagLifecycle(s: Session, e: Event)
    requires Inv(s)
    ensures s.isSwitchingLane && !Apply(s, e).isSwitchingLane ==> e.LaneSwitchDone? || e.Disappear?
    ensures !s.isSwitchingLane && Apply(s, e).isSwitchingLane ==>
      e.HeadOrientation? && (Apply(s, e).currentLaneIndex - s.currentLaneIndex == 1
                             || s.currentLaneIndex - Apply(s, e).currentLaneIndex == 1)
  {
  }

  /** The jumping flag is set only by a sample that starts the rise, and
      cleared only by the reset step of the jump sequence, after the fall
      has finished. */
  lemma JumpFlagLifecycle(s: Session, e: Event)
    requires Inv(s)
    ensures !s.isJumping && Apply(s, e).isJumping ==> e.HeadOrientation? && Apply(s, e).jumpStage == Rising
    ensures s.isJumping && !Apply(s, e).isJumping ==> e.JumpResetRun? && s.jumpStage == Resetting
    ensures s.isJumping ==>
      || Apply(s, e).jumpStage == s.jumpStage
      || (e.JumpRiseDone? && s.jumpStage == Rising && Apply(s, e).jumpStage == Falling)
      || (e.JumpFallDone? && s.jumpStage == Falling && Apply(s, e).jumpStage == Resetting)
      || (e.JumpResetRun? && s.jumpStage == Resetting && Apply(s, e).jumpStage == Grounded)
  {
  }

  /** A barrier whose move finishes adds exactly the dodge bonus when it was
      not marked collided and ended past the player (z > 0), adds nothing
      otherwise, and leaves the scene in both cases. */
  lemma BarrierArrivalScoring(s: Session, id: nat, z: real)
    requires id in s.barriers
    ensures var r := BarrierMoveDone(s, id, z);
      && r.barriers == s.barriers - {id}
      && r.score == (if !s.barriers[id].collided && z > 0.0 then s.score + 8 else s.score)
  {
  }

  /** A contact between the player and a barrier costs 4 points with a floor
      of 0 and marks the barrier collided; contacts between other bodies
      change nothing. */
  lemma ContactScoring(s: Session, a: Body, b: Body)
    requires s.score >= 0
    ensures var r := PhysicsContact(s, a, b);
      (a.PlayerBall? && b.BarrierNode?) || (a.BarrierNode? && b.PlayerBall?) ==>
        && r.score == (if s.score >= 4 then s.score - 4 else 0)
        && r.score >= 0
        && r.barriers.Keys == s.barriers.Keys
        && var id := if a.BarrierNode? then a.id else b.id;
           id in s.barriers ==> r.barriers[id].collided
    ensures !((a.PlayerBall? && b.BarrierNode?) || (a.BarrierNode? && b.PlayerBall?)) ==>
      PhysicsContact(s, a, b) == s
  {
  }

  /** Spawning starts at most once: while the game has started the start
      call changes nothing, and otherwise it starts the game and the spawn
      timer. */
  lemma StartOnce(s: Session)
    ensures s.gameHasStarted ==> StartSpawningBarrier(s) == s
    ensures !s.gameHasStarted ==> StartSpawningBarrier(s).gameHasStarted && StartSpawningBarrier(s).spawnTimerRunning
  {
  }

  /** A game-timer tick ends the game once the session has lasted 60
      seconds: the start time is cleared, both timers stop and one summary
      with the current score is presented. Before that it changes nothing. */
  lemma GameEndsAtSixtySeconds(s: Session, startTime: real, now: real)
    requires s.gameStartTime == Some(startTime)
    ensures now - startTime >= 60.0 ==>
      var r := UpdateGameTime(s, now);
      r.gameStartTime.None? && !r.gameTimerRunning && !r.spawnTimerRunning && !r.gameHasStarted
      && r.summaries == s.summaries + [s.score] && r.score == s.score
    ensures now - startTime < 60.0 ==> UpdateGameTime(s, now) == s
  {
  }

  /** Once the start time is cleared every tick returns at once. */
  lemma TickAfterEndIsNoOp(s: Session, now: real)
    requires s.gameStartTime.None?
    ensures UpdateGameTime(s, now) == s
  {
  }

  // ---------------------------------------------------------------------
  // Consequences of the code as written that its names and constants do not
  // suggest.

  /** Nothing stops one barrier from being penalised twice: two contact
      events for the same barrier take 8 points. */
  lemma RepeatedContactPenalisesTwice()
    ensures var s := Initial().(score := 8, barriers := map[0 := Barrier(0, false)], nextBarrierId := 1);
      var once := PhysicsContact(s, PlayerBall, BarrierNode(0));
      var twice := PhysicsContact(once, BarrierNode(0), PlayerBall);
      once.score == 4 && once.barriers[0].collided && twice.score == 0
  {
  }

  /** The gesture check runs when the roll is assigned, before the pitch of
      the same sample is stored, so a jump is decided on the previous
      sample's pitch: the first level head-up sample does not jump, an
      identical second one does. */
  lemma PitchIsReadOneSampleLate()
    ensures var s := ViewDidLoad(Initial(), 0.0);
      var first := UpdateHeadOrientation(s, 0.0, -25.0, 0.0, 1.0);
      var second := UpdateHeadOrientation(first, 0.0, -25.0, 0.0, 2.0);
      !first.isJumping && first.currentPitch == 25.0 && second.isJumping
  {
  }

  /** Barriers already moving keep scoring after the game has ended, so the
      score can differ from the one the summary shows. */
  lemma ScoreChangesAfterSummary()
    ensures var s := ViewDidLoad(Initial(), 0.0).(barriers := map[0 := Barrier(1, false)], nextBarrierId := 1);
      var ended := UpdateGameTime(s, 61.0);
      var later := BarrierMoveDone(ended, 0, 50.0);
      ended.summaries == [0] && later.score == 8
  {
  }

  /** `viewWillDisappear` clears the switching flag but does not stop the
      move in flight, so a jump can then start while the ball is still
      moving between lanes. */
  lemma JumpDuringLaneMoveAfterDisappear()
    ensures var loaded := ViewDidLoad(Initial(), 0.0);
      var moved := UpdateHeadOrientation(loaded, -30.0, 0.0, 0.0, 1.0);
      var hidden := ViewWillDisappear(moved);
      var level := UpdateHeadOrientation(hidden, 0.0, -25.0, 0.0, 1.05);
      var jumped := UpdateHeadOrientation(level, 0.0, -25.0, 0.0, 1.1);
      && moved.currentLaneIndex == -1 && moved.isSwitchingLane
      && jumped.isJumping && jumped.laneMovesInFlight == 1 && jumped.currentLaneIndex == -1
  {
  }

  /** The cooldown check refuses a switch for the first SwitchCooldownDuration
      seconds after the last one and admits it from then on. */
  lemma CooldownWindow(lastSwitchTime: real, now: real, later: real)
    ensures lastSwitchTime <= now < lastSwitchTime + SwitchCooldownDuration ==> !IsSwitchAllowed(lastSwitchTime, now)
    ensures now >= lastSwitchTime + SwitchCooldownDuration ==> IsSwitchAllowed(lastSwitchTime, now)
    ensures IsSwitchAllowed(lastSwitchTime, now) && now <= later ==> IsSwitchAllowed(lastSwitchTime, later)
  {
  }

  /** Barriers are placed at x in {-1, 0, 1} but player lanes are at
      x = 2 * index, so a barrier's centre lines up with the player's only in
      the middle lane. */
  lemma BarrierCentresMissSideLanes(laneIndex: int, k: nat)
    requires -1 <= laneIndex <= 1 && k < |BarrierLanePositions|
    ensures PlayerX(laneIndex) == BarrierLanePositions[k] <==> laneIndex == 0 && k == 1
  {
  }
}
