/**
 * What each session operation of game.js does, stated against the Rules
 * functions: catching, missing and hitting, the power-up clock, the
 * power-up effects and their timeouts, level-up, the speed controls, the
 * basket controls and the spawn gates.
 */
module Properties {

  import opened Util
  import opened Catalog
  import opened Spawning
  import opened Entities
  import opened Rules
  import opened Invariants

  // ---------------------------------------------------------------------------
  // The item pass
  // ---------------------------------------------------------------------------

  /**
   * Catching an item adds its points (twice them under `multiplier`),
   * splices it out and pushes one new item, so the pool keeps its size; the
   * pass stops with a level-up exactly when the score reaches the target of
   * the current row of the level table.
   */
  lemma CatchScoresAndRefills(st: GameState, i: nat, random: nat -> real)
    requires st.level >= 1 && i < |st.fallingItems|
    requires !st.fallingItems[i].frozen && Collides(st, st.fallingItems[i])
    ensures var (r, stop) := ItemStep(st, i, random);
            var p := st.fallingItems[i].points;
            var score := st.score + (if Active(st, Multiplier) then p * 2 else p);
            r.score == score &&
            |r.fallingItems| == |st.fallingItems| &&
            r.fallingItems[..|st.fallingItems| - 1] == st.fallingItems[..i] + st.fallingItems[i + 1..] &&
            (stop <==> score >= LevelRowFor(st.level).targetScore) &&
            (stop ==> r.level == st.level + 1 && r.isPaused) &&
            (!stop ==> r.level == st.level && r.isPaused == st.isPaused)
  {
    var s := Caught(st, i, random);
    assert s.fallingItems[..|st.fallingItems| - 1] == Remove(st.fallingItems, i);
  }

  /** An item that falls past the bottom uncaught is replaced where it is; nothing else changes. */
  lemma MissReplacesInPlace(st: GameState, i: nat, random: nat -> real)
    requires st.level >= 1 && i < |st.fallingItems|
    requires !st.fallingItems[i].frozen && !Collides(st, st.fallingItems[i]) && st.fallingItems[i].y > CanvasHeight
    ensures var (r, stop) := ItemStep(st, i, random);
            !stop && r.score == st.score && r.level == st.level && |r.fallingItems| == |st.fallingItems| &&
            (forall j :: 0 <= j < |st.fallingItems| && j != i ==> r.fallingItems[j] == st.fallingItems[j]) &&
            r.fallingItems[i].kind.Fruit? && r.fallingItems[i].points >= 1
  {
    assert ItemStep(st, i, random).0 == Replaced(st, i, random);
  }

  /** The passes leave frozen items and frozen obstacles alone. */
  lemma FrozenIsIgnored(st: GameState, i: nat, j: nat, random: nat -> real)
    requires st.level >= 1 && i < |st.fallingItems| && j < |st.obstacles|
    ensures st.fallingItems[i].frozen ==> ItemStep(st, i, random) == (st, false)
    ensures st.obstacles[j].frozen ==> ObstacleStep(st, j) == (st, false)
  {
  }

  // ---------------------------------------------------------------------------
  // The power-up pass
  // ---------------------------------------------------------------------------

  /**
   * A power-up caught by either basket is activated with its own type and
   * duration and then spliced out; one past the bottom is only spliced
   * out; any other is left where it is.
   */
  lemma PowerupCatchActivates(st: GameState, i: nat, random: nat -> real)
    requires st.level >= 1 && i < |st.bonusItems| && IsUnitStream(random) && st.bonusItems[i].kind.Bonus?
    ensures var b := st.bonusItems[i];
            var r := BonusStep(st, i, random);
            (Collides(st, b) ==>
               r == ActivatePowerup(st, b.kind.power, b.kind.duration, random).(bonusItems := Remove(st.bonusItems, i)) &&
               Active(r, b.kind.power) && r.powerupTimeLeft == b.kind.duration &&
               r.bonusItems == st.bonusItems[..i] + st.bonusItems[i + 1..]) &&
            (!Collides(st, b) && b.y > CanvasHeight ==> r == st.(bonusItems := Remove(st.bonusItems, i))) &&
            (!Collides(st, b) && b.y <= CanvasHeight ==> r == st)
  {
    var b := st.bonusItems[i];
    if Collides(st, b) {
      ActivateMakesSoleActive(st, b.kind.power, b.kind.duration, random);
    }
  }

  // ---------------------------------------------------------------------------
  // The obstacle pass
  // ---------------------------------------------------------------------------

  /**
   * An unprotected hit costs a life and five times the obstacle's points
   * (the score never going below 0), resizes the basket for the lives left
   * unless `giant` is active, and shakes the screen; with no life left the
   * game is over and the obstacle stays, otherwise it is spliced out.
   */
  lemma HitCostsLifeAndScore(st: GameState, i: nat)
    requires i < |st.obstacles|
    requires !st.obstacles[i].frozen && Collides(st, st.obstacles[i])
    requires !Active(st, Shield) && !st.isInvincible
    ensures var (r, stop) := ObstacleStep(st, i);
            var o := st.obstacles[i];
            r.lives == st.lives - 1 &&
            r.score == MaxInt(0, st.score - o.points * 5) && r.score >= 0 &&
            (!Active(st, Giant) ==> r.basket.width == 80.0 * HitSizeFactor(st.lives - 1) &&
                                    r.basket.height == 60.0 * HitSizeFactor(st.lives - 1)) &&
            (Active(st, Giant) ==> r.basket == st.basket) &&
            r.screenShake == StartScreenShake((o.points * 3 + 3) as real, 300.0) &&
            (stop <==> st.lives <= 1) &&
            (stop ==> r.isPaused && r.obstacles == st.obstacles) &&
            (!stop ==> r.obstacles == st.obstacles[..i] + st.obstacles[i + 1..])
  {
  }

  /**
   * Under `shield` or invincibility no obstacle pass costs a point or a
   * life or touches the basket: every hit only removes the obstacle.
   */
  lemma {:induction false} ShieldAbsorbsHits(st: GameState, i: int)
    requires -1 <= i < |st.obstacles|
    requires Active(st, Shield) || st.isInvincible
    ensures var r := ObstaclePassFrom(st, i);
            r.score == st.score && r.lives == st.lives && r.basket == st.basket && r.isPaused == st.isPaused &&
            |r.obstacles| <= |st.obstacles|
    decreases i + 1
  {
    if i >= 0 {
      var (s, stop) := ObstacleStep(st, i);
      assert !stop && s == st.(obstacles := s.obstacles) && |s.obstacles| <= |st.obstacles|;
      ShieldAbsorbsHits(s, i - 1);
    }
  }

  /**
   * The obstacle that ended the game is never spliced, so resuming a
   * finished game with the Pause button lets it hit again: the lives go
   * below zero and the game is over a second time.
   */
  lemma ResumedGameOverHitsAgain(st: GameState, i: nat)
    requires i < |st.obstacles| && st.isPaused && st.lives == 0
    requires !st.obstacles[i].frozen && Collides(st, st.obstacles[i])
    requires !Active(st, Shield) && !st.isInvincible
    ensures var (r, stop) := ObstacleStep(PauseGame(st), i);
            stop && r.lives == -1 && r.isPaused && r.obstacles == st.obstacles
  {
    HitCostsLifeAndScore(PauseGame(st), i);
  }

  // ---------------------------------------------------------------------------
  // The power-up clock
  // ---------------------------------------------------------------------------

  /**
   * The frame counts the active power-up down by the scaled time step; it
   * ends exactly when its time runs out, clearing the type and the basket
   * flag, restoring the life-based basket after `giant`, dropping the
   * shadow basket after `doubleTrouble`, and leaving every entity as it is.
   */
  lemma CountDownEnds(st: GameState, adjustedDeltaTime: real)
    requires st.hasActivePowerup
    ensures var r := CountDown(st, adjustedDeltaTime);
            var t := st.powerupTimeLeft - adjustedDeltaTime * 1000.0;
            r.powerupTimeLeft == t &&
            (r.hasActivePowerup <==> t > 0.0) &&
            (t > 0.0 ==> r == st.(powerupTimeLeft := t)) &&
            (t <= 0.0 ==> r.activePowerupType.None? && !r.basket.powerupActive) &&
            (t <= 0.0 && st.activePowerupType == Some(Giant) ==>
               r.basket.width == 80.0 * LifeSizeFactor(st.lives) && r.basket.height == 60.0 * LifeSizeFactor(st.lives)) &&
            (t <= 0.0 && st.activePowerupType == Some(DoubleTrouble) ==> r.shadowBasket.None?) &&
            (t <= 0.0 && st.activePowerupType == Some(TimeSlow) ==> r.timeSlowFactor.None?) &&
            r.fallingItems == st.fallingItems && r.obstacles == st.obstacles && r.score == st.score && r.lives == st.lives
  {
  }

  /** Without an active power-up the clock does nothing. */
  lemma CountDownIdle(st: GameState, adjustedDeltaTime: real)
    requires !st.hasActivePowerup
    ensures CountDown(st, adjustedDeltaTime) == st
  {
  }

  // ---------------------------------------------------------------------------
  // Power-ups
  // ---------------------------------------------------------------------------

  /**
   * After `activatePowerup(t, d)` exactly `t` is active for `d` ms; a
   * pre-empted `giant` has left the basket at a flat 80 x 60 and a
   * pre-empted `doubleTrouble` its shadow basket gone.
   */
  lemma ActivateMakesSoleActive(st: GameState, t: Power, duration: real, random: nat -> real)
    requires IsUnitStream(random)
    ensures var r := ActivatePowerup(st, t, duration, random);
            Active(r, t) && r.activePowerupType == Some(t) && r.powerupTimeLeft == duration && r.basket.powerupActive &&
            r.bonusItems == st.bonusItems && r.level == st.level && r.isPaused == st.isPaused
    ensures Active(st, Giant) && t != Giant ==>
              ActivatePowerup(st, t, duration, random).basket.width == 80.0 &&
              ActivatePowerup(st, t, duration, random).basket.height == 60.0
    ensures Active(st, DoubleTrouble) && t != DoubleTrouble ==>
              ActivatePowerup(st, t, duration, random).shadowBasket.None?
  {
    var s := Engaged(st, t, duration);
    EffectKeepsBookkeeping(s, t, random);
  }

  lemma EffectKeepsBookkeeping(s: GameState, t: Power, random: nat -> real)
    requires IsUnitStream(random)
    ensures var r := Effect(s, t, random);
            r.activePowerupType == s.activePowerupType && r.hasActivePowerup == s.hasActivePowerup &&
            r.powerupTimeLeft == s.powerupTimeLeft && r.basket.powerupActive == s.basket.powerupActive &&
            r.bonusItems == s.bonusItems && r.level == s.level && r.isPaused == s.isPaused &&
            (t != Giant ==> r.basket == s.basket) && (t != DoubleTrouble ==> r.shadowBasket == s.shadowBasket) &&
            (t != GoldRush ==> r.goldRushIntervals == s.goldRushIntervals)
  {
    match t
    case Blast =>
      var scored := BlastScored(s);
      var refilled := Refilled(scored, PoolSize, random);
      assert refilled.basket == s.basket && refilled.shadowBasket == s.shadowBasket;
      assert refilled.activePowerupType == s.activePowerupType && refilled.hasActivePowerup == s.hasActivePowerup;
      assert refilled.powerupTimeLeft == s.powerupTimeLeft && refilled.goldRushIntervals == s.goldRushIntervals;
      assert refilled.isPaused == s.isPaused;
    case GoldRush =>
      var r := GoldRushEffect(s, random);
      assert r.basket == s.basket && r.shadowBasket == s.shadowBasket;
    case _ =>
  }

  /**
   * `extraLife` adds a life and a short invincibility only below 3 lives,
   * and 50 points otherwise, so it never takes the lives past 3.
   */
  lemma ExtraLifeCapsLives(st: GameState, duration: real, random: nat -> real)
    requires IsUnitStream(random) && st.lives <= 3
    ensures var r := ActivatePowerup(st, ExtraLife, duration, random);
            r.lives <= 3 &&
            (st.lives < 3 ==> r.lives == st.lives + 1 && r.isInvincible && r.score == st.score) &&
            (st.lives >= 3 ==> r.lives == st.lives && r.score == st.score + 50)
  {
  }

  /**
   * `blast` scores every item at its face value, shakes the screen, brings
   * in five new items and clears the obstacles; with valid items it gains
   * at least a point per item.
   */
  lemma BlastScoresEverything(st: GameState, duration: real, random: nat -> real)
    requires IsUnitStream(random)
    ensures var r := ActivatePowerup(st, Blast, duration, random);
            r.score == st.score + SumPoints(st.fallingItems) &&
            |r.fallingItems| == PoolSize && AllScore(r.fallingItems) && r.obstacles == [] &&
            r.screenShake == StartScreenShake(20.0, 500.0) &&
            (AllScore(st.fallingItems) ==> r.score >= st.score + |st.fallingItems|)
  {
    var s := Engaged(st, Blast, duration);
    assert s.fallingItems == st.fallingItems && s.score == st.score;
    var scored := s.(score := s.score + SumPoints(s.fallingItems),
                     screenShake := StartScreenShake(20.0, 500.0), fallingItems := []);
    assert AllScore(scored.fallingItems);
    if AllScore(st.fallingItems) {
      SumPointsAtLeastCount(st.fallingItems);
    }
  }

  /** `giant` makes the basket half again as large as its life-based size. */
  lemma GiantEnlarges(st: GameState, duration: real, random: nat -> real)
    requires IsUnitStream(random)
    ensures var r := ActivatePowerup(st, Giant, duration, random);
            r.basket.width == 80.0 * LifeSizeFactor(st.lives) * 1.5 &&
            r.basket.height == 60.0 * LifeSizeFactor(st.lives) * 1.5 &&
            r.basket.x == st.basket.x && r.basket.y == st.basket.y
  {
  }

  /**
   * `freeze` followed by its timeout gives every moving, unfrozen item its
   * speed back (keeping the remembered speed); nothing moves in between.
   */
  lemma FreezeThenThaw(st: GameState, duration: real, random: nat -> real)
    requires IsUnitStream(random)
    requires forall j :: 0 <= j < |st.fallingItems| ==> !st.fallingItems[j].frozen && st.fallingItems[j].speed != 0.0
    ensures var frozen := ActivatePowerup(st, Freeze, duration, random);
            (forall j :: 0 <= j < |frozen.fallingItems| ==> frozen.fallingItems[j].frozen && frozen.fallingItems[j].speed == 0.0) &&
            var thawed := RevertFreeze(frozen);
            |thawed.fallingItems| == |st.fallingItems| &&
            forall j :: 0 <= j < |st.fallingItems| ==>
              thawed.fallingItems[j] == st.fallingItems[j].(originalSpeed := st.fallingItems[j].speed)
  {
    var frozen := ActivatePowerup(st, Freeze, duration, random);
    assert frozen.fallingItems == Mapped(st.fallingItems, FreezeEntity);
    forall j | 0 <= j < |st.fallingItems|
      ensures RevertFreeze(frozen).fallingItems[j] == st.fallingItems[j].(originalSpeed := st.fallingItems[j].speed)
    {
      ThawUndoesFreeze(st.fallingItems[j]);
    }
  }

  /**
   * `timeSlow` halves every item's speed, and its timeout, while `timeSlow`
   * is still the active type, gives each moving item its own speed back.
   */
  lemma SlowThenRestore(st: GameState, duration: real, random: nat -> real)
    requires IsUnitStream(random) && st.timeSlowFactor.None?
    requires forall j :: 0 <= j < |st.fallingItems| ==> st.fallingItems[j].speed != 0.0
    ensures var slowed := ActivatePowerup(st, TimeSlow, duration, random);
            slowed.timeSlowFactor == Some(0.5) &&
            (forall j :: 0 <= j < |slowed.fallingItems| ==> slowed.fallingItems[j].speed == st.fallingItems[j].speed * 0.5) &&
            var restored := RevertTimeSlow(slowed);
            restored.timeSlowFactor.None? && |restored.fallingItems| == |st.fallingItems| &&
            forall j :: 0 <= j < |st.fallingItems| ==> restored.fallingItems[j] == st.fallingItems[j].(originalSpeed := 0.0)
  {
    var e := Engaged(st, TimeSlow, duration);
    assert e.fallingItems == st.fallingItems && e.timeSlowFactor.None? && e.activePowerupType == Some(TimeSlow);
    var slowed := TimeSlowEffect(e);
    assert ActivatePowerup(st, TimeSlow, duration, random) == slowed;
    assert slowed.fallingItems == Mapped(st.fallingItems, Slow);
    assert RevertTimeSlow(slowed).fallingItems == Mapped(slowed.fallingItems, Restore);
    forall j | 0 <= j < |st.fallingItems|
      ensures RevertTimeSlow(slowed).fallingItems[j] == st.fallingItems[j].(originalSpeed := 0.0)
    {
      RestoreUndoesSlow(st.fallingItems[j]);
    }
  }

  /** `doubleTrouble` adds a shadow basket of the basket's size 30 up and left; its timeout takes it away. */
  lemma ShadowComesAndGoes(st: GameState, duration: real, random: nat -> real)
    requires IsUnitStream(random)
    ensures var s := ActivatePowerup(st, DoubleTrouble, duration, random);
            s.shadowBasket.Some? && s.shadowBasket.value.offsetX == -30.0 && s.shadowBasket.value.offsetY == -30.0 &&
            s.shadowBasket.value.width == s.basket.width && s.shadowBasket.value.height == s.basket.height &&
            RemoveShadow(s).shadowBasket.None?
  {
  }

  // ---------------------------------------------------------------------------
  // Level, speed, basket, spawning
  // ---------------------------------------------------------------------------

  /**
   * `levelUp` moves to the next level and pauses; the recorded target is
   * the next row's up to level 5 and 1200 * 1.5 beyond; the next row
   * allows at least as many obstacles and is at least as fast.
   */
  lemma LevelUpAdvances(st: GameState)
    requires st.level >= 1
    ensures var r := LevelUp(st);
            r.level == st.level + 1 && r.isPaused && r.score == st.score && r.lives == st.lives &&
            (r.level <= |LevelConfig| ==> r.targetScore == LevelConfig[r.level - 1].targetScore) &&
            (r.level > |LevelConfig| ==> r.targetScore == 1800) &&
            LevelRowFor(st.level).maxObstacles <= LevelRowFor(r.level).maxObstacles &&
            LevelRowFor(st.level).itemSpeed <= LevelRowFor(r.level).itemSpeed
  {
    LevelRowsMonotone(st.level, st.level + 1);
  }

  /**
   * `changeGameSpeed` always lands in [0.25, 2], takes the step exactly
   * when it stays inside, and a step inside the range is undone by the
   * opposite step; `resetGameSpeed` gives exactly 1.
   */
  lemma GameSpeedClamped(st: GameState, delta: real)
    ensures 0.25 <= ChangeGameSpeed(st, delta).gameSpeed <= 2.0
    ensures 0.25 <= st.gameSpeed + delta <= 2.0 ==> ChangeGameSpeed(st, delta).gameSpeed == st.gameSpeed + delta
    ensures st.gameSpeed + delta > 2.0 ==> ChangeGameSpeed(st, delta).gameSpeed == 2.0
    ensures st.gameSpeed + delta < 0.25 ==> ChangeGameSpeed(st, delta).gameSpeed == 0.25
    ensures 0.25 <= st.gameSpeed <= 2.0 && 0.25 <= st.gameSpeed + delta <= 2.0 ==>
              ChangeGameSpeed(ChangeGameSpeed(st, delta), -delta) == st
    ensures ResetGameSpeed(st).gameSpeed == 1.0 && ResetGameSpeed(st) == st.(gameSpeed := 1.0)
  {
  }

  /**
   * The arrow keys move the basket by its speed only while it is inside
   * the canvas, so it never ends more than one step outside; left then
   * right returns it; `m` toggles the mute flag.  A paused game ignores keys.
   */
  lemma ArrowKeysMoveBasket(st: GameState)
    requires !st.isPaused && st.basket.speed >= 0.0
    ensures var l := MoveBasket(st, "ArrowLeft");
            l.basket.x == (if st.basket.x > 0.0 then st.basket.x - st.basket.speed else st.basket.x) &&
            l == st.(basket := l.basket) && l.basket == st.basket.(x := l.basket.x)
    ensures var r := MoveBasket(st, "ArrowRight");
            r.basket.x == (if st.basket.x + st.basket.width < CanvasWidth then st.basket.x + st.basket.speed else st.basket.x)
    ensures -st.basket.speed < st.basket.x ==> -st.basket.speed < MoveBasket(st, "ArrowLeft").basket.x
    ensures st.basket.x + st.basket.width < CanvasWidth + st.basket.speed ==>
              MoveBasket(st, "ArrowRight").basket.x + st.basket.width < CanvasWidth + st.basket.speed
    ensures st.basket.x > 0.0 && st.basket.x - st.basket.speed + st.basket.width < CanvasWidth ==>
              MoveBasket(MoveBasket(st, "ArrowLeft"), "ArrowRight") == st
    ensures MoveBasket(st, "m").isMuted == !st.isMuted && MoveBasket(st, "m").basket == st.basket
  {
  }

  lemma PausedIgnoresInput(st: GameState, key: string, touchX: real)
    requires st.isPaused
    ensures MoveBasket(st, key) == st && TouchMoveBasket(st, touchX) == st
  {
  }

  /**
   * Touch centres the basket under the finger, clamped so that the basket
   * stays wholly on the canvas.
   */
  lemma TouchKeepsBasketOnCanvas(st: GameState, touchX: real)
    requires !st.isPaused && 0.0 <= st.basket.width <= CanvasWidth
    ensures var x := TouchMoveBasket(st, touchX).basket.x;
            0.0 <= x <= CanvasWidth - st.basket.width &&
            (0.0 <= touchX - st.basket.width / 2.0 <= CanvasWidth - st.basket.width ==> x == touchX - st.basket.width / 2.0) &&
            (touchX - st.basket.width / 2.0 < 0.0 ==> x == 0.0) &&
            (touchX - st.basket.width / 2.0 > CanvasWidth - st.basket.width ==> x == CanvasWidth - st.basket.width)
  {
  }

  /**
   * The obstacle spawner adds exactly one obstacle when the game runs and
   * the level's cap is not reached, and nothing otherwise, so the cap holds.
   */
  lemma ObstacleSpawnGate(st: GameState, random: nat -> real)
    requires st.level >= 1
    ensures var r := SpawnObstacleTick(st, random);
            var open := !st.isPaused && |st.obstacles| < LevelRowFor(st.level).maxObstacles;
            (open ==> |r.obstacles| == |st.obstacles| + 1 && r.obstacles[..|st.obstacles|] == st.obstacles &&
                      r.obstacles[|st.obstacles|].kind.Hazard?) &&
            (!open ==> r == st) &&
            (|st.obstacles| <= LevelRowFor(st.level).maxObstacles ==> |r.obstacles| <= LevelRowFor(st.level).maxObstacles)
  {
  }

  /**
   * The power-up spawner rolls only while the game runs with no power-up
   * falling, adds one exactly when the roll is under the level's chance,
   * and so never has two falling.
   */
  lemma PowerupSpawnGate(st: GameState, random: nat -> real)
    requires st.level >= 1 && IsUnitStream(random)
    ensures var r := SpawnPowerupTick(st, random);
            var open := !st.isPaused && |st.bonusItems| < 1;
            (!open ==> r == st) &&
            (open ==> (|r.bonusItems| == 1 <==> random(st.draws) < PowerupChance(st.level))) &&
            (open && |r.bonusItems| == 1 ==> r.bonusItems[0].kind.Bonus?) &&
            (|st.bonusItems| <= 1 ==> |r.bonusItems| <= 1)
  {
  }
}
