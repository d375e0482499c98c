/** The rules of the head-gesture game driven by GameViewController.swift,
    stated as functions on a value that holds every field the controller
    updates. Each controller method has one function here that says what
    the method does to that value; animation completions, timer ticks,
    sensor samples and physics contacts are events applied one at a time. */
module GameRules {
  import opened Optional

  // Tuning constants of the controller.
  const HeadTurnThreshold: real := 24.0
  const JumpLowerThreshold: real := 20.0
  const JumpUpperThreshold: real := 30.0
  const SwitchCooldownDuration: real := 0.1
  const GameTimeDuration: real := 60.0
  const DodgeBonus: int := 8
  const ContactPenalty: int := 4

  /** Horizontal distance between player lanes: lane `i` is at x = 2 * i. */
  const LaneSpacing: int := 2

  /** The x coordinates a barrier may be spawned at. */
  const BarrierLanePositions: seq<int> := [-1, 0, 1]

  // Physics category bit masks.
  const CategoryNone: int := 0
  const CategoryPlayerBall: int := 1
  const CategoryObstacleBarrier: int := 2

  /** What one head orientation asks the player ball to do. */
  datatype Gesture = SwitchLane(direction: int) | Jump | NoGesture

  /** Progress of the jump action sequence on the player ball: the rise, the
      fall, then the step that clears the jumping flag. */
  datatype JumpStage = Grounded | Rising | Falling | Resetting

  /** A barrier node in the scene: its x coordinate, and whether its name
      has been set to "collided". */
  datatype Barrier = Barrier(x: int, collided: bool)

  /** A physics body that can take part in a contact. */
  datatype Body = PlayerBall | BarrierNode(id: nat) | LaneNode(index: int)

  /** Everything the controller changes. `laneMovesInFlight` counts lane-switch
      move actions whose completion has not run yet, `jumpStage` is the
      position of the jump action sequence, `barriers` are the barrier nodes
      still in the scene, and `summaries` are the scores handed to the
      summary screens presented so far. */
  datatype Session = Session(
    currentRoll: real,
    currentPitch: real,
    currentLaneIndex: int,
    isSwitchingLane: bool,
    laneMovesInFlight: nat,
    isJumping: bool,
    jumpStage: JumpStage,
    score: int,
    lastSwitchTime: real,
    gameHasStarted: bool,
    gameStartTime: Option<real>,
    gameTimeRemaining: real,
    gameTimerRunning: bool,
    spawnTimerRunning: bool,
    barriers: map<nat, Barrier>,
    nextBarrierId: nat,
    summaries: seq<int>)

  /** The field values of a freshly created controller. */
  function Initial(): (s: Session) {
    Session(0.0, 0.0, 0, false, 0, false, Grounded, 0, 0.0, false, None,
            GameTimeDuration, false, false, map[], 0, [])
  }

  function Abs(x: real): (r: real)
    ensures r >= 0.0 && (r == x || r == -x)
  {
    if x < 0.0 then -x else x
  }

  function Max(a: int, b: int): (m: int)
    ensures m >= a && m >= b && (m == a || m == b)
  {
    if a >= b then a else b
  }

  /** The gesture a head orientation stands for. A roll beyond the turn
      threshold switches lane, toward the side the head is tilted; only
      otherwise does a pitch strictly between the jump thresholds jump. */
  function Classify(roll: real, pitch: real): (g: Gesture)
    ensures g.SwitchLane? <==> Abs(roll) > HeadTurnThreshold
    ensures g.SwitchLane? ==> (g.direction == -1 <==> roll < 0.0)
    ensures g.SwitchLane? ==> (g.direction == 1 <==> roll >= 0.0)
    ensures g.Jump? <==> Abs(roll) <= HeadTurnThreshold && JumpLowerThreshold < pitch < JumpUpperThreshold
  {
    if Abs(roll) > HeadTurnThreshold then SwitchLane(if roll < 0.0 then -1 else 1)
    else if JumpLowerThreshold < pitch && pitch < JumpUpperThreshold then Jump
    else NoGesture
  }

  /** The cooldown check: at least SwitchCooldownDuration seconds have passed
      since `lastSwitchTime`. It never admits a switch at or before the last
      one. */
  function IsSwitchAllowed(lastSwitchTime: real, now: real): (allowed: bool)
    ensures allowed ==> now > lastSwitchTime
  {
    now - lastSwitchTime >= SwitchCooldownDuration
  }

  /** The x coordinate the player ball is moved to for a lane index. */
  function PlayerX(laneIndex: int): (x: int) {
    LaneSpacing * laneIndex
  }

  // ---------------------------------------------------------------------
  // One function per controller method.

  function MovePlayerBall(s: Session, direction: int): (r: Session) {
    if s.isSwitchingLane || s.isJumping then s
    else s.(currentLaneIndex := s.currentLaneIndex + direction,
            isSwitchingLane := true,
            laneMovesInFlight := s.laneMovesInFlight + 1)
  }

  function JumpPlayerBall(s: Session): (r: Session) {
    if s.isJumping then s
    else s.(isJumping := true, jumpStage := Rising)
  }

  function ProcessHeadGesture(s: Session, now: real): (r: Session) {
    if s.isSwitchingLane || !IsSwitchAllowed(s.lastSwitchTime, now) then s
    else match Classify(s.currentRoll, s.currentPitch)
      case SwitchLane(direction) =>
        if (direction == -1 && s.currentLaneIndex > -1) || (direction == 1 && s.currentLaneIndex < 1)
        then MovePlayerBall(s, direction)
        else s
      case Jump => JumpPlayerBall(s)
      case NoGesture => s
  }

  /** A sensor sample. Assigning the roll runs the gesture check at once,
      before the (negated) pitch of the same sample is stored. */
  function UpdateHeadOrientation(s: Session, roll: real, pitch: real, yaw: real, now: real): (r: Session) {
    ProcessHeadGesture(s.(currentRoll := roll), now).(currentPitch := -pitch)
  }

  /** The completion handler of a lane-switch move action. */
  function CompleteLaneSwitch(s: Session): (r: Session) {
    if s.laneMovesInFlight == 0 then s
    else s.(laneMovesInFlight := s.laneMovesInFlight - 1, isSwitchingLane := false)
  }

  /** The rise of the jump sequence has finished. */
  function CompleteJumpRise(s: Session): (r: Session) {
    if s.jumpStage == Rising then s.(jumpStage := Falling) else s
  }

  /** The fall of the jump sequence has finished. */
  function CompleteJumpFall(s: Session): (r: Session) {
    if s.jumpStage == Falling then s.(jumpStage := Resetting) else s
  }

  /** The last action of the jump sequence, which clears the jumping flag. */
  function ResetJumpState(s: Session): (r: Session) {
    if s.jumpStage == Resetting then s.(jumpStage := Grounded, isJumping := false) else s
  }

  function StartGameTimer(s: Session): (r: Session) {
    s.(gameTimeRemaining := GameTimeDuration, gameTimerRunning := true)
  }

  function StartSpawningBarrier(s: Session): (r: Session) {
    if s.gameHasStarted then s
    else s.(gameHasStarted := true, spawnTimerRunning := true)
  }

  function ViewDidLoad(s: Session, now: real): (r: Session) {
    StartSpawningBarrier(StartGameTimer(s.(gameStartTime := Some(now))))
  }

  /** Ends the session: both timers stop and a summary showing the current
      score is presented. */
  function EndGame(s: Session): (r: Session) {
    s.(gameStartTime := None,
       gameTimerRunning := false,
       spawnTimerRunning := false,
       gameHasStarted := false,
       summaries := s.summaries + [s.score])
  }

  /** A tick of the game timer. */
  function UpdateGameTime(s: Session, now: real): (r: Session) {
    match s.gameStartTime
    case None => s
    case Some(startTime) =>
      if now - startTime >= GameTimeDuration then EndGame(s) else s
  }

  function ViewWillDisappear(s: Session): (r: Session) {
    s.(isSwitchingLane := false, spawnTimerRunning := false)
  }

  /** A tick of the spawn timer: a new barrier at the chosen x position. */
  function SpawnBarrier(s: Session, laneChoice: nat): (r: Session)
    requires laneChoice < |BarrierLanePositions|
  {
    s.(barriers := s.barriers[s.nextBarrierId := Barrier(BarrierLanePositions[laneChoice], false)],
       nextBarrierId := s.nextBarrierId + 1)
  }

  function IncrementScore(s: Session): (r: Session) {
    s.(score := s.score + DodgeBonus)
  }

  function DecrementScore(s: Session): (r: Session) {
    s.(score := Max(s.score - ContactPenalty, 0))
  }

  /** The last action of a barrier's sequence, run when its move has
      finished at depth `z`: the dodge bonus unless it was marked collided,
      then the barrier leaves the scene either way. */
  function BarrierMoveDone(s: Session, id: nat, z: real): (r: Session) {
    if id !in s.barriers then s
    else
      var scored := if !s.barriers[id].collided && z > 0.0 then IncrementScore(s) else s;
      scored.(barriers := scored.barriers - {id})
  }

  function Category(b: Body): (c: int) {
    match b
    case PlayerBall => CategoryPlayerBall
    case BarrierNode(_) => CategoryObstacleBarrier
    case LaneNode(_) => CategoryNone
  }

  /** Names a body's node "collided"; only barriers still in the scene are
      recorded. */
  function MarkCollided(s: Session, b: Body): (r: Session) {
    match b
    case BarrierNode(id) =>
      if id in s.barriers then s.(barriers := s.barriers[id := s.barriers[id].(collided := true)]) else s
    case _ => s
  }

  /** The contact delegate: a contact between the player ball and a barrier
      marks the barrier collided and costs the penalty; other pairs are
      ignored. */
  function PhysicsContact(s: Session, a: Body, b: Body): (r: Session) {
    if (Category(a) == CategoryPlayerBall && Category(b) == CategoryObstacleBarrier)
       || (Category(a) == CategoryObstacleBarrier && Category(b) == CategoryPlayerBall)
    then
      var marked :=
        if Category(a) == CategoryObstacleBarrier then MarkCollided(s, a)
        else if Category(b) == CategoryObstacleBarrier then MarkCollided(s, b)
        else s;
      DecrementScore(marked)
    else s
  }

  // ---------------------------------------------------------------------
  // Events: the callbacks through which the rest of the system reaches the
  // controller once the view has loaded.

  datatype Event =
    | HeadOrientation(roll: real, pitch: real, yaw: real, now: real)
    | LaneSwitchDone
    | JumpRiseDone
    | JumpFallDone
    | JumpResetRun
    | GameTimerTick(now: real)
    | SpawnTimerTick(laneChoice: nat)
    | BarrierDone(id: nat, z: real)
    | Contact(a: Body, b: Body)
    | Disappear

  /** The state after one event. A spawn tick happens only while the spawn
      timer is valid and names one of the three positions. */
  function Apply(s: Session, e: Event): (r: Session) {
    match e
    case HeadOrientation(roll, pitch, yaw, now) => UpdateHeadOrientation(s, roll, pitch, yaw, now)
    case LaneSwitchDone => CompleteLaneSwitch(s)
    case JumpRiseDone => CompleteJumpRise(s)
    case JumpFallDone => CompleteJumpFall(s)
    case JumpResetRun => ResetJumpState(s)
    case GameTimerTick(now) => UpdateGameTime(s, now)
    case SpawnTimerTick(c) =>
      if s.spawnTimerRunning && c < |BarrierLanePositions| then SpawnBarrier(s, c) else s
    case BarrierDone(id, z) => BarrierMoveDone(s, id, z)
    case Contact(a, b) => PhysicsContact(s, a, b)
    case Disappear => ViewWillDisappear(s)
  }

  /** The state after a sequence of events. */
  function Run(s: Session, t: seq<Event>): (r: Session)
    decreases |t|
  {
    if t == [] then s else Run(Apply(s, t[0]), t[1..])
  }

  /** The controller's invariant: the lane index stays in {-1, 0, 1}, the
      score is never negative, the jumping and switching flags are never
      both set, the jumping flag is set exactly while the jump sequence runs, the
      switching flag is set only while a lane move is in flight, the spawn
      timer and the start time exist only while the game has started, and
      every barrier has an issued id and a valid x position. */
  ghost predicate Inv(s: Session) {
    && -1 <= s.currentLaneIndex <= 1
    && s.score >= 0
    && !(s.isJumping && s.isSwitchingLane)
    && (s.isJumping <==> s.jumpStage != Grounded)
    && (s.isSwitchingLane ==> s.laneMovesInFlight > 0)
    && (s.spawnTimerRunning ==> s.gameHasStarted)
    && (s.gameStartTime.Some? ==> s.gameHasStarted)
    && forall id :: id in s.barriers ==> id < s.nextBarrierId && s.barriers[id].x in BarrierLanePositions
  }
}
