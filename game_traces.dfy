/** Properties of whole runs of the game: what holds after any sequence of
    sensor samples, completions, ticks and contacts. */
module GameTraces {
  import opened Optional
  import opened GameRules
  import opened GameSteps

  /** The invariant holds after any sequence of events. */
  lemma {:induction false} RunPreservesInv(s: Session, t: seq<Event>)
    requires Inv(s)
    ensures Inv(Run(s, t))
    decreases |t|
  {
    if t != [] {
      StepPreservesInv(s, t[0]);
      RunPreservesInv(Apply(s, t[0]), t[1..]);
    }
  }

  /** In every state reachable after the view has loaded the lane index is in
      {-1, 0, 1}, the score is not negative, and the jumping and switching
      flags are never both set. */
  lemma ReachableStatesAreValid(loadTime: real, t: seq<Event>)
    ensures var s := Run(ViewDidLoad(Initial(), loadTime), t);
      && Inv(s)
      && -1 <= s.currentLaneIndex <= 1
      && s.score >= 0
      && !(s.isJumping && s.isSwitchingLane)
  {
    LoadedStateIsValid(loadTime);
    RunPreservesInv(ViewDidLoad(Initial(), loadTime), t);
  }

  /** No event writes the time of the last switch. */
  lemma StepKeepsLastSwitchTime(s: Session, e: Event)
    ensures Apply(s, e).lastSwitchTime == s.lastSwitchTime
  {
    match e
    case HeadOrientation(roll, pitch, yaw, now) =>
      var s1 := s.(currentRoll := roll);
      assert ProcessHeadGesture(s1, now).lastSwitchTime == s.lastSwitchTime;
    case _ =>
  }

  /** No sequence of events writes the time of the last switch. */
  lemma {:induction false} RunKeepsLastSwitchTime(s: Session, t: seq<Event>)
    ensures Run(s, t).lastSwitchTime == s.lastSwitchTime
    decreases |t|
  {
    if t != [] {
      StepKeepsLastSwitchTime(s, t[0]);
      RunKeepsLastSwitchTime(Apply(s, t[0]), t[1..]);
    }
  }

  /** The cooldown never throttles: the last switch time stays at its
      initial 0, so at every clock reading of at least 0.1 s (every real
      date) the check passes, whatever happened before. */
  lemma CooldownNeverThrottles(loadTime: real, t: seq<Event>, now: real)
    requires now >= SwitchCooldownDuration
    ensures IsSwitchAllowed(Run(ViewDidLoad(Initial(), loadTime), t).lastSwitchTime, now)
  {
    RunKeepsLastSwitchTime(ViewDidLoad(Initial(), loadTime), t);
  }

  // ---------------------------------------------------------------------
  // Dodge bonuses per barrier.

  /** Event `e` awards barrier `id` the dodge bonus in state `s`. */
  predicate Dodged(s: Session, e: Event, id: nat) {
    e.BarrierDone? && e.id == id && id in s.barriers && !s.barriers[id].collided && e.z > 0.0
  }

  /** How many dodge bonuses barrier `id` receives along `t`. */
  function DodgeCount(s: Session, t: seq<Event>, id: nat): nat
    decreases |t|
  {
    if t == [] then 0
    else (if Dodged(s, t[0], id) then 1 else 0) + DodgeCount(Apply(s, t[0]), t[1..], id)
  }

  /** The only barrier id an event can add is the next unissued one, and
      ids are never reissued. */
  lemma StepBarrierIds(s: Session, e: Event)
    ensures Apply(s, e).barriers.Keys <= s.barriers.Keys + {s.nextBarrierId}
    ensures Apply(s, e).nextBarrierId >= s.nextBarrierId
  {
    if e.HeadOrientation? {
      var s1 := s.(currentRoll := e.roll);
      assert ProcessHeadGesture(s1, e.now).barriers == s.barriers;
      assert ProcessHeadGesture(s1, e.now).nextBarrierId == s.nextBarrierId;
    }
  }

  /** A barrier that has left the scene never earns a bonus again. */
  lemma {:induction false} GoneBarrierNeverDodges(s: Session, t: seq<Event>, id: nat)
    requires id !in s.barriers && id < s.nextBarrierId
    ensures DodgeCount(s, t, id) == 0
    decreases |t|
  {
    if t != [] {
      StepBarrierIds(s, t[0]);
      GoneBarrierNeverDodges(Apply(s, t[0]), t[1..], id);
    }
  }

  /** Each barrier earns the dodge bonus at most once, whatever happens. */
  lemma {:induction false} AtMostOneDodge(s: Session, t: seq<Event>, id: nat)
    requires Inv(s)
    ensures DodgeCount(s, t, id) <= 1
    decreases |t|
  {
    if t != [] {
      var e := t[0];
      StepPreservesInv(s, e);
      if Dodged(s, e, id) {
        assert id !in Apply(s, e).barriers;
        StepBarrierIds(s, e);
        GoneBarrierNeverDodges(Apply(s, e), t[1..], id);
      } else {
        AtMostOneDodge(Apply(s, e), t[1..], id);
      }
    }
  }

  /** One event keeps a collided barrier collided while it stays in the
      scene. */
  lemma StepKeepsCollided(s: Session, e: Event, id: nat)
    requires Inv(s) && id in s.barriers && s.barriers[id].collided
    ensures id in Apply(s, e).barriers ==> Apply(s, e).barriers[id].collided
    ensures id !in Apply(s, e).barriers ==> e.BarrierDone? && e.id == id
  {
    if e.HeadOrientation? {
      var s1 := s.(currentRoll := e.roll);
      assert ProcessHeadGesture(s1, e.now).barriers == s.barriers;
    }
  }

  /** A barrier marked collided never earns the dodge bonus afterwards. */
  lemma {:induction false} CollidedNeverDodges(s: Session, t: seq<Event>, id: nat)
    requires Inv(s) && id in s.barriers && s.barriers[id].collided
    ensures DodgeCount(s, t, id) == 0
    decreases |t|
  {
    if t != [] {
      var e := t[0];
      StepPreservesInv(s, e);
      StepKeepsCollided(s, e, id);
      StepBarrierIds(s, e);
      if id in Apply(s, e).barriers {
        CollidedNeverDodges(Apply(s, e), t[1..], id);
      } else {
        GoneBarrierNeverDodges(Apply(s, e), t[1..], id);
      }
    }
  }

  /** A barrier the player touched never also earns the dodge bonus. */
  lemma ContactForfeitsBonus(s: Session, id: nat, t: seq<Event>)
    requires Inv(s) && id in s.barriers
    ensures DodgeCount(PhysicsContact(s, PlayerBall, BarrierNode(id)), t, id) == 0
  {
    ContactPreservesInv(s, PlayerBall, BarrierNode(id));
    CollidedNeverDodges(PhysicsContact(s, PlayerBall, BarrierNode(id)), t, id);
  }

  // ---------------------------------------------------------------------
  // End of the session.

  /** No event other than a game-timer tick touches the start time or the
      summaries, and a tick does nothing once the start time is cleared. */
  lemma StepKeepsEnded(s: Session, e: Event)
    requires s.gameStartTime.None?
    ensures Apply(s, e).gameStartTime.None?
    ensures Apply(s, e).summaries == s.summaries
  {
    match e
    case HeadOrientation(roll, pitch, yaw, now) =>
      var s1 := s.(currentRoll := roll);
      assert ProcessHeadGesture(s1, now).gameStartTime == s.gameStartTime;
      assert ProcessHeadGesture(s1, now).summaries == s.summaries;
    case _ =>
  }

  /** Once the start time is cleared the session stays ended: no later
      event restores it or presents another summary. */
  lemma {:induction false} EndedStaysEnded(s: Session, t: seq<Event>)
    requires s.gameStartTime.None?
    ensures Run(s, t).gameStartTime.None?
    ensures Run(s, t).summaries == s.summaries
    decreases |t|
  {
    if t != [] {
      StepKeepsEnded(s, t[0]);
      EndedStaysEnded(Apply(s, t[0]), t[1..]);
    }
  }

  /** The session ends exactly once: after the tick that ends it, later
      events present no further summary. */
  lemma EndsOnce(s: Session, startTime: real, now: real, t: seq<Event>)
    requires s.gameStartTime == Some(startTime) && now - startTime >= GameTimeDuration
    ensures Run(UpdateGameTime(s, now), t).summaries == s.summaries + [s.score]
  {
    EndedStaysEnded(UpdateGameTime(s, now), t);
  }

  // ---------------------------------------------------------------------
  // The jump sequence.

  /** `p` occurs in `t` in order, not necessarily contiguously. */
  predicate IsSubsequence(p: seq<Event>, t: seq<Event>)
    decreases |t|
  {
    if p == [] then true
    else if t == [] then false
    else if p[0] == t[0] then IsSubsequence(p[1..], t[1..])
    else IsSubsequence(p, t[1..])
  }

  /** The completions still due before a jump at `stage` is over. */
  function RemainingPhases(stage: JumpStage): seq<Event> {
    match stage
    case Grounded => []
    case Rising => [JumpRiseDone, JumpFallDone, JumpResetRun]
    case Falling => [JumpFallDone, JumpResetRun]
    case Resetting => [JumpResetRun]
  }

  /** A jump in flight is over only after the rise, the fall and the reset
      step have each run, in that order. */
  lemma {:induction false} JumpEndsOnlyAfterAllPhases(s: Session, t: seq<Event>)
    requires Inv(s)
    ensures !Run(s, t).isJumping ==> IsSubsequence(RemainingPhases(s.jumpStage), t)
    decreases |t|
  {
    if t != [] && s.jumpStage != Grounded {
      var e := t[0];
      var s' := Apply(s, e);
      StepPreservesInv(s, e);
      JumpFlagLifecycle(s, e);
      JumpEndsOnlyAfterAllPhases(s', t[1..]);
      if s'.jumpStage != s.jumpStage {
        assert RemainingPhases(s'.jumpStage) == RemainingPhases(s.jumpStage)[1..];
      }
    }
  }

  /** Once a gesture has started a jump, the jumping flag stays set until
      the rise, the fall and the reset step have run in sequence. */
  lemma JumpLastsThreePhases(s: Session, now: real, t: seq<Event>)
    requires Inv(s) && !s.isJumping && ProcessHeadGesture(s, now).isJumping
    ensures !Run(ProcessHeadGesture(s, now), t).isJumping ==>
      IsSubsequence([JumpRiseDone, JumpFallDone, JumpResetRun], t)
  {
    GestureJumpStart(s, now);
    var s1 := ProcessHeadGesture(s, now);
    assert Inv(s1);
    JumpEndsOnlyAfterAllPhases(s1, t);
  }
}
