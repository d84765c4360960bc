/**
 * The session invariant of game.js and its preservation: every operation
 * of the Rules module, started from a valid session, leaves a valid one.
 * A second property, that a session without lives is paused, is kept by
 * every operation except `pauseGame` and `continueToNextLevel`, which can
 * resume a finished game.
 */
module Invariants {

  import opened Util
  import opened Catalog
  import opened Spawning
  import opened Entities
  import opened Rules

  /**
   * A valid session: the score is never negative, the level starts at 1,
   * there are at most 3 lives, at most one power-up is active (and the
   * basket shows it), the game
   * speed lies in [0.25, 2], the catch pool holds five items worth at
   * least a point each, at most one power-up falls, and the obstacles
   * respect the level's cap.
   */
  predicate Valid(st: GameState) {
    st.score >= 0 && st.level >= 1 && st.lives <= 3 &&
    (st.hasActivePowerup <==> st.activePowerupType.Some?) &&
    st.basket.powerupActive == st.hasActivePowerup &&
    0.25 <= st.gameSpeed <= 2.0 &&
    |st.fallingItems| == PoolSize && AllScore(st.fallingItems) &&
    |st.bonusItems| <= 1 && |st.obstacles| <= LevelRowFor(st.level).maxObstacles
  }

  /**
   * A session with no lives left is paused: `gameOver` has run.  Lives
   * are not bounded below, since resuming a finished game lets the
   * obstacle that ended it hit again.
   */
  predicate OverMeansPaused(st: GameState) {
    st.lives <= 0 ==> st.isPaused
  }

  /** Splicing keeps the remaining entities' points. */
  lemma RemoveKeepsScore(es: seq<Entity>, i: nat)
    requires i < |es| && AllScore(es)
    ensures AllScore(Remove(es, i))
  {
    var r := Remove(es, i);
    forall j | 0 <= j < |r|
      ensures r[j].points >= 1
    {
      if j < i {
        assert r[j] == es[j];
      } else {
        assert r[j] == es[j + 1];
      }
    }
  }

  /** Every one of `a` is worth at least a point, so the sum is at least their number. */
  lemma {:induction false} SumPointsAtLeastCount(es: seq<Entity>)
    requires AllScore(es)
    ensures SumPoints(es) >= |es|
  {
    if es != [] {
      assert AllScore(es[1..]) by {
        forall j | 0 <= j < |es[1..]|
          ensures es[1..][j].points >= 1
        {
          assert es[1..][j] == es[j + 1];
        }
      }
      SumPointsAtLeastCount(es[1..]);
    }
  }

  // ---------------------------------------------------------------------------
  // Start
  // ---------------------------------------------------------------------------

  /**
   * `startGame` yields a valid session at level 1 with score 0, 3 lives,
   * five items, no obstacles, power-ups or active power-up, and the basket
   * full-size and centred on its old width; the mute flag is kept.
   */
  lemma StartGameEstablishesValid(st: GameState, now: real, random: nat -> real)
    requires st.gameSpeed == 0.0 || 0.25 <= st.gameSpeed <= 2.0
    ensures var r := StartGame(st, now, random);
            Valid(r) && r.score == 0 && r.level == 1 && r.lives == 3 && r.targetScore == 100 &&
            !r.isPaused && !r.hasActivePowerup && r.obstacles == [] && r.bonusItems == [] &&
            r.isMuted == st.isMuted && r.lastUpdateTime == now &&
            r.basket.x == 200.0 - st.basket.width / 2.0 && r.basket.width == 80.0 && r.basket.height == 60.0 &&
            r.gameSpeed == (if st.gameSpeed == 0.0 then 1.0 else st.gameSpeed)
  {
  }

  // ---------------------------------------------------------------------------
  // The frame
  // ---------------------------------------------------------------------------

  /** A paused frame only records the time. */
  lemma PausedFrameOnlyRecordsTime(st: GameState, now: real, random: nat -> real)
    requires st.level >= 1 && IsUnitStream(random) && st.isPaused
    ensures Frame(st, now, random) == st.(lastUpdateTime := now)
  {
  }

  /** The moves and the countdown of a frame keep the session valid. */
  lemma MotionPreservesValid(st: GameState, adjustedDeltaTime: real)
    requires Valid(st)
    ensures var r := Advance(CountDown(DrawPhase(st), adjustedDeltaTime), adjustedDeltaTime);
            Valid(r) && r.lives == st.lives && r.isPaused == st.isPaused && r.level == st.level
  {
    DrawPhaseKeepsValid(st);
    var d := DrawPhase(st);
    CountDownKeepsValid(d, adjustedDeltaTime);
    AdvanceKeepsValid(CountDown(d, adjustedDeltaTime), adjustedDeltaTime);
  }

  lemma DrawPhaseKeepsValid(st: GameState)
    requires Valid(st)
    ensures var r := DrawPhase(st);
            Valid(r) && r.lives == st.lives && r.isPaused == st.isPaused && r.level == st.level
  {
    MappedKeepsScore(st.fallingItems, DrawStep);
    var r := DrawPhase(st);
    assert |r.fallingItems| == |st.fallingItems| && |r.bonusItems| == |st.bonusItems| && |r.obstacles| == |st.obstacles|;
  }

  /** The countdown ends the power-up together with the basket's flag. */
  lemma CountDownKeepsValid(st: GameState, adjustedDeltaTime: real)
    requires Valid(st)
    ensures var r := CountDown(st, adjustedDeltaTime);
            Valid(r) && r.lives == st.lives && r.isPaused == st.isPaused && r.level == st.level
  {
    if st.hasActivePowerup {
      var s := Elapsed(st, adjustedDeltaTime);
      assert Valid(s);
      if s.powerupTimeLeft <= 0.0 {
        ExpiredKeepsValid(s);
      }
    }
  }

  /** The expiry clean-up touches neither score, lives, level nor entities, and clears the flag with the power-up. */
  lemma ExpiredKeepsValid(s: GameState)
    requires Valid(s)
    ensures var r := Expired(s);
            Valid(r) && !r.hasActivePowerup && r.lives == s.lives && r.isPaused == s.isPaused && r.level == s.level
  {
    CleanupKeepsValid(s);
  }

  /** The per-type clean-up only resizes the basket, clears the time-slow factor or drops the shadow basket. */
  lemma CleanupKeepsValid(s: GameState)
    requires Valid(s)
    ensures var c := ExpiryCleanup(s);
            Valid(c) && c.lives == s.lives && c.isPaused == s.isPaused && c.level == s.level
  {
    if s.activePowerupType == Some(Giant) {
      var f := LifeSizeFactor(s.lives);
      ValidWithBasket(s, s.basket.(width := 80.0 * f, height := 60.0 * f));
    }
  }

  /** A new basket with the same power-up flag keeps validity. */
  lemma ValidWithBasket(s: GameState, b: BasketState)
    requires Valid(s) && b.powerupActive == s.basket.powerupActive
    ensures Valid(s.(basket := b))
  {
  }

  lemma AdvanceKeepsValid(st: GameState, adjustedDeltaTime: real)
    requires Valid(st)
    ensures var r := Advance(st, adjustedDeltaTime);
            Valid(r) && r.lives == st.lives && r.isPaused == st.isPaused && r.level == st.level
  {
    MappedKeepsScore(st.fallingItems, e => AdvanceStep(e, adjustedDeltaTime, true));
    var r := Advance(st, adjustedDeltaTime);
    assert |r.fallingItems| == |st.fallingItems| && |r.bonusItems| == |st.bonusItems| && |r.obstacles| == |st.obstacles|;
  }

  lemma MappedKeepsScore(es: seq<Entity>, f: Entity -> Entity)
    requires AllScore(es) && forall i :: 0 <= i < |es| ==> f(es[i]).points == es[i].points
    ensures AllScore(Mapped(es, f))
  {
  }

  lemma ItemStepPreservesValid(st: GameState, i: nat, random: nat -> real)
    requires Valid(st) && i < |st.fallingItems|
    ensures Valid(ItemStep(st, i, random).0) && ItemStep(st, i, random).0.lives == st.lives
  {
    var item := st.fallingItems[i];
    if item.frozen {
      assert ItemStep(st, i, random).0 == st;
    } else if Collides(st, item) {
      CaughtPreservesValid(st, i, random);
      var s := Caught(st, i, random);
      if s.score >= LevelRowFor(s.level).targetScore {
        LevelUpPreservesValid(s);
        assert ItemStep(st, i, random).0 == LevelUp(s);
      } else {
        assert ItemStep(st, i, random).0 == s;
      }
    } else if item.y > CanvasHeight {
      ReplacedPreservesValid(st, i, random);
      assert ItemStep(st, i, random).0 == Replaced(st, i, random);
    } else {
      assert ItemStep(st, i, random).0 == st;
    }
  }

  lemma ReplacedPreservesValid(st: GameState, i: nat, random: nat -> real)
    requires Valid(st) && i < |st.fallingItems|
    ensures var r := Replaced(st, i, random);
            Valid(r) && r.lives == st.lives
  {
    var p := NewItem(st.level, st.fallingItems, st.bonusItems, st.draws, random);
    var items := st.fallingItems[i := p.0];
    assert AllScore(items);
    ValidWithItems(st, items, p.1);
  }

  /** Replacing the items by five others worth a point each, and moving the cursor, keeps validity. */
  lemma ValidWithItems(st: GameState, items: seq<Entity>, draws: nat)
    requires Valid(st) && |items| == PoolSize && AllScore(items)
    ensures Valid(st.(fallingItems := items, draws := draws))
  {
  }

  lemma CaughtPreservesValid(st: GameState, i: nat, random: nat -> real)
    requires Valid(st) && i < |st.fallingItems|
    ensures var r := Caught(st, i, random);
            Valid(r) && r.lives == st.lives && r.level == st.level && r.isPaused == st.isPaused
  {
    var spliced := st.(score := st.score + Gain(st, st.fallingItems[i]), fallingItems := Remove(st.fallingItems, i));
    RemoveKeepsScore(st.fallingItems, i);
    var p := NewItem(spliced.level, spliced.fallingItems, spliced.bonusItems, spliced.draws, random);
    assert AllScore(spliced.fallingItems + [p.0]);
  }

  /** `levelUp` keeps the session valid: the next row allows at least as many obstacles. */
  lemma LevelUpPreservesValid(st: GameState)
    requires Valid(st)
    ensures Valid(LevelUp(st))
  {
    LevelRowsMonotone(st.level, st.level + 1);
  }

  lemma {:induction false} ItemPassPreservesValid(st: GameState, i: int, random: nat -> real)
    requires Valid(st) && -1 <= i < |st.fallingItems|
    ensures Valid(ItemPassFrom(st, i, random)) && ItemPassFrom(st, i, random).lives == st.lives
    decreases i + 1
  {
    if i >= 0 {
      ItemStepPreservesValid(st, i, random);
      var (s, stop) := ItemStep(st, i, random);
      if !stop {
        ItemPassPreservesValid(s, i - 1, random);
      }
    }
  }

  /** `activatePowerup` keeps the session valid: in particular `extraLife` never passes 3 lives. */
  lemma ActivatePreservesValid(st: GameState, t: Power, duration: real, random: nat -> real)
    requires Valid(st) && IsUnitStream(random)
    ensures var r := ActivatePowerup(st, t, duration, random);
            Valid(r) && r.bonusItems == st.bonusItems && r.level == st.level && r.isPaused == st.isPaused &&
            r.lives >= st.lives
  {
    var s := Engaged(st, t, duration);
    assert Valid(s) && s.bonusItems == st.bonusItems && s.level == st.level && s.isPaused == st.isPaused && s.lives == st.lives;
    EffectPreservesValid(s, t, random);
  }

  lemma EffectPreservesValid(s: GameState, t: Power, random: nat -> real)
    requires Valid(s) && IsUnitStream(random)
    ensures var r := Effect(s, t, random);
            Valid(r) && r.bonusItems == s.bonusItems && r.level == s.level && r.isPaused == s.isPaused &&
            r.lives >= s.lives
  {
    match t
    case Blast => BlastPreservesValid(s, random);
    case ExtraLife => ExtraLifePreservesValid(s);
    case Freeze => FreezePreservesValid(s);
    case TimeSlow => TimeSlowPreservesValid(s);
    case GoldRush => GoldRushPreservesValid(s, random);
    case _ =>
  }

  /** `blast` scores at least a point per item, so the score stays non-negative; five new items follow. */
  lemma BlastPreservesValid(s: GameState, random: nat -> real)
    requires Valid(s)
    ensures var r := BlastEffect(s, random);
            Valid(r) && r.bonusItems == s.bonusItems && r.level == s.level && r.isPaused == s.isPaused && r.lives == s.lives
  {
    SumPointsAtLeastCount(s.fallingItems);
    var scored := BlastScored(s);
    assert scored.score >= 0 && scored.fallingItems == [] && AllScore(scored.fallingItems);
    var refilled := Refilled(scored, PoolSize, random);
    assert |refilled.fallingItems| == PoolSize && AllScore(refilled.fallingItems);
    assert refilled.score == scored.score && refilled.lives == s.lives && refilled.isPaused == s.isPaused;
    assert refilled.level == s.level && refilled.bonusItems == s.bonusItems && refilled.gameSpeed == s.gameSpeed;
    assert refilled.hasActivePowerup == s.hasActivePowerup && refilled.activePowerupType == s.activePowerupType;
    assert refilled.basket == s.basket;
  }

  lemma ExtraLifePreservesValid(s: GameState)
    requires Valid(s)
    ensures var r := ExtraLifeEffect(s);
            Valid(r) && r.bonusItems == s.bonusItems && r.level == s.level && r.isPaused == s.isPaused && r.lives >= s.lives
  {
    var r := ExtraLifeEffect(s);
    assert r.score >= s.score && s.lives <= r.lives <= 3;
    assert r.fallingItems == s.fallingItems && r.obstacles == s.obstacles && r.basket == s.basket;
  }

  lemma FreezePreservesValid(s: GameState)
    requires Valid(s)
    ensures var r := FreezeEffect(s);
            Valid(r) && r.bonusItems == s.bonusItems && r.level == s.level && r.isPaused == s.isPaused && r.lives == s.lives
  {
    MappedKeepsScore(s.fallingItems, FreezeEntity);
    var r := FreezeEffect(s);
    assert |r.fallingItems| == |s.fallingItems| && |r.obstacles| == |s.obstacles| && r.basket == s.basket;
  }

  lemma TimeSlowPreservesValid(s: GameState)
    requires Valid(s)
    ensures var r := TimeSlowEffect(s);
            Valid(r) && r.bonusItems == s.bonusItems && r.level == s.level && r.isPaused == s.isPaused && r.lives == s.lives
  {
    MappedKeepsScore(s.fallingItems, Slow);
    var r := TimeSlowEffect(s);
    assert |r.fallingItems| == |s.fallingItems| && |r.obstacles| == |s.obstacles| && r.basket == s.basket;
  }

  lemma GoldRushPreservesValid(s: GameState, random: nat -> real)
    requires Valid(s) && IsUnitStream(random)
    ensures var r := GoldRushEffect(s, random);
            Valid(r) && r.bonusItems == s.bonusItems && r.level == s.level && r.isPaused == s.isPaused && r.lives == s.lives
  {
    var r := GoldRushEffect(s, random);
    assert |r.fallingItems| == |s.fallingItems| && AllScore(r.fallingItems);
    assert r.obstacles == s.obstacles && r.basket == s.basket;
  }

  lemma BonusStepPreservesValid(st: GameState, i: nat, random: nat -> real)
    requires Valid(st) && i < |st.bonusItems| && IsUnitStream(random)
    ensures var r := BonusStep(st, i, random);
            Valid(r) && r.lives >= st.lives && r.isPaused == st.isPaused
  {
    var item := st.bonusItems[i];
    if Collides(st, item) && item.kind.Bonus? {
      ActivatePreservesValid(st, item.kind.power, item.kind.duration, random);
    }
  }

  lemma {:induction false} BonusPassPreservesValid(st: GameState, i: int, random: nat -> real)
    requires Valid(st) && -1 <= i < |st.bonusItems| && IsUnitStream(random)
    ensures var r := BonusPassFrom(st, i, random);
            Valid(r) && r.lives >= st.lives && r.isPaused == st.isPaused
    decreases i + 1
  {
    if i >= 0 {
      BonusStepPreservesValid(st, i, random);
      BonusPassPreservesValid(BonusStep(st, i, random), i - 1, random);
    }
  }

  /** An unshielded hit keeps the session valid; it ends the game, pausing it, exactly when no life is left. */
  lemma HurtPreservesValid(st: GameState, o: Entity)
    requires Valid(st)
    ensures var (r, over) := Hurt(st, o);
            Valid(r) && r.lives == st.lives - 1 && (over <==> r.lives <= 0) &&
            (over ==> r.isPaused) && (!over ==> r.isPaused == st.isPaused)
  {
    var lives := st.lives - 1;
    var paused := st.isPaused || lives <= 0;
    var b := if !Active(st, Giant) then st.basket.(width := 80.0 * HitSizeFactor(lives), height := 60.0 * HitSizeFactor(lives)) else st.basket;
    var shake := StartScreenShake((o.points * 3 + 3) as real, 300.0);
    var r := st.(score := MaxInt(0, st.score - o.points * 5), lives := lives, basket := b, screenShake := shake, isPaused := paused);
    assert Hurt(st, o) == (r, lives <= 0);
    ValidWithBasket(st, b);
    ValidAfterHit(st.(basket := b, screenShake := shake), MaxInt(0, st.score - o.points * 5), lives, paused);
  }

  /** A non-negative score and at most three lives keep validity. */
  lemma ValidAfterHit(st: GameState, score: int, lives: int, paused: bool)
    requires Valid(st) && score >= 0 && lives <= 3
    ensures Valid(st.(score := score, lives := lives, isPaused := paused))
  {
  }

  /** Dropping one obstacle keeps the session valid. */
  lemma DropPreservesValid(st: GameState, i: nat)
    requires Valid(st) && i < |st.obstacles|
    ensures Valid(st.(obstacles := Remove(st.obstacles, i)))
  {
  }

  /**
   * An obstacle step keeps the session valid, costs at most one life, and
   * stops only on a game over, paused with no life left; a step that goes
   * on after a lost life leaves one.
   */
  lemma ObstacleStepPreservesValid(st: GameState, i: nat)
    requires Valid(st) && i < |st.obstacles|
    ensures var (r, stop) := ObstacleStep(st, i);
            Valid(r) && (r.lives == st.lives || r.lives == st.lives - 1) &&
            (stop ==> r.isPaused && r.lives <= 0) &&
            (!stop ==> r.isPaused == st.isPaused && (r.lives < st.lives ==> r.lives >= 1))
  {
    var o := st.obstacles[i];
    if !o.frozen && Collides(st, o) && !(Active(st, Shield) || st.isInvincible) {
      HurtPreservesValid(st, o);
      var (hurt, over) := Hurt(st, o);
      if !over {
        DropPreservesValid(hurt, i);
      }
    } else if !o.frozen && (Collides(st, o) || o.y > CanvasHeight) {
      DropPreservesValid(st, i);
    }
  }

  lemma {:induction false} ObstaclePassPreservesValid(st: GameState, i: int)
    requires Valid(st) && -1 <= i < |st.obstacles|
    ensures var r := ObstaclePassFrom(st, i);
            Valid(r) && (OverMeansPaused(st) ==> OverMeansPaused(r))
    decreases i + 1
  {
    if i >= 0 {
      ObstacleStepPreservesValid(st, i);
      var (s, stop) := ObstacleStep(st, i);
      if !stop {
        ObstaclePassPreservesValid(s, i - 1);
      }
    }
  }

  /** A frame keeps the session valid. */
  lemma FramePreservesValid(st: GameState, now: real, random: nat -> real)
    requires Valid(st) && IsUnitStream(random)
    ensures var r := Frame(st, now, random);
            Valid(r) && (OverMeansPaused(st) ==> OverMeansPaused(r))
  {
    var adjusted := AdjustedDeltaTime(st, now);
    var s := st.(lastUpdateTime := now);
    if !s.isPaused {
      var shaken := s.(screenShake := UpdateScreenShake(s.screenShake, adjusted));
      MotionPreservesValid(shaken, adjusted);
      var moved := Moved(s, adjusted);
      assert moved.lives == st.lives;
      ItemPassPreservesValid(moved, |moved.fallingItems| - 1, random);
      var afterItems := ItemPassFrom(moved, |moved.fallingItems| - 1, random);
      BonusPassPreservesValid(afterItems, |afterItems.bonusItems| - 1, random);
      var afterBonus := BonusPassFrom(afterItems, |afterItems.bonusItems| - 1, random);
      assert afterBonus.lives >= st.lives;
      ObstaclePassPreservesValid(afterBonus, |afterBonus.obstacles| - 1);
      assert Frame(st, now, random) == ObstaclePassFrom(afterBonus, |afterBonus.obstacles| - 1);
    }
  }

  // ---------------------------------------------------------------------------
  // Between frames: timer callbacks and input
  // ---------------------------------------------------------------------------

  /** The obstacle interval of `startGame` spawns only under the current level's cap. */
  lemma SpawnObstacleTickKeepsValid(st: GameState, random: nat -> real)
    requires Valid(st)
    ensures var r := SpawnObstacleTick(st, random);
            Valid(r) && (OverMeansPaused(st) ==> OverMeansPaused(r))
  {
  }

  /**
   * The obstacle interval of `continueToNextLevel` read the row of a level
   * no later than the current one, whose cap is no larger.
   */
  lemma ContinuedObstacleTickKeepsValid(st: GameState, l: int, random: nat -> real)
    requires Valid(st) && 1 <= l <= st.level
    ensures var r := ContinuedObstacleTick(st, LevelRowFor(l), random);
            Valid(r) && (OverMeansPaused(st) ==> OverMeansPaused(r))
  {
    LevelRowsMonotone(l, st.level);
  }

  /** The power-up interval adds one only when none is falling. */
  lemma SpawnPowerupTickKeepsValid(st: GameState, random: nat -> real)
    requires Valid(st) && IsUnitStream(random)
    ensures var r := SpawnPowerupTick(st, random);
            Valid(r) && (OverMeansPaused(st) ==> OverMeansPaused(r))
  {
  }

  /** The freeze timeout thaws entities without touching their points. */
  lemma RevertFreezeKeepsValid(st: GameState)
    requires Valid(st)
    ensures var r := RevertFreeze(st);
            Valid(r) && (OverMeansPaused(st) ==> OverMeansPaused(r))
  {
    MappedKeepsScore(st.fallingItems, ThawEntity);
  }

  /** The time-slow timeout restores speeds without touching points. */
  lemma RevertTimeSlowKeepsValid(st: GameState)
    requires Valid(st)
    ensures var r := RevertTimeSlow(st);
            Valid(r) && (OverMeansPaused(st) ==> OverMeansPaused(r))
  {
    MappedKeepsScore(st.fallingItems, Restore);
  }

  lemma RemoveShadowKeepsValid(st: GameState)
    requires Valid(st)
    ensures var r := RemoveShadow(st);
            Valid(r) && (OverMeansPaused(st) ==> OverMeansPaused(r))
  {
  }

  lemma EndInvincibilityKeepsValid(st: GameState)
    requires Valid(st)
    ensures var r := EndInvincibility(st);
            Valid(r) && (OverMeansPaused(st) ==> OverMeansPaused(r))
  {
  }

  /** A gold-rush tick keeps five scoring items. */
  lemma GoldRushTickKeepsValid(st: GameState, random: nat -> real)
    requires Valid(st) && IsUnitStream(random)
    ensures var r := GoldRushTick(st, random);
            Valid(r) && (OverMeansPaused(st) ==> OverMeansPaused(r))
  {
  }

  /** The gold-rush timeout, as written and as intended, keeps five scoring items. */
  lemma RevertGoldRushKeepsValid(st: GameState, random: nat -> real)
    requires Valid(st) && IsUnitStream(random)
    ensures var r := RevertGoldRush(st, random);
            Valid(r) && (OverMeansPaused(st) ==> OverMeansPaused(r))
    ensures var r := RevertGoldRushAsWritten(st, random);
            Valid(r) && (OverMeansPaused(st) ==> OverMeansPaused(r))
  {
  }

  /** The speed buttons keep the game speed in [0.25, 2]. */
  lemma GameSpeedKeepsValid(st: GameState, delta: real)
    requires Valid(st)
    ensures var r := ChangeGameSpeed(st, delta);
            Valid(r) && (OverMeansPaused(st) ==> OverMeansPaused(r))
    ensures var r := ResetGameSpeed(st);
            Valid(r) && (OverMeansPaused(st) ==> OverMeansPaused(r))
  {
  }

  /** Keys and touches move only the basket and the mute flag. */
  lemma InputKeepsValid(st: GameState, key: string, touchX: real)
    requires Valid(st)
    ensures var r := MoveBasket(st, key);
            Valid(r) && (OverMeansPaused(st) ==> OverMeansPaused(r))
    ensures var r := TouchMoveBasket(st, touchX);
            Valid(r) && (OverMeansPaused(st) ==> OverMeansPaused(r))
  {
  }

  /**
   * `pauseGame` and `continueToNextLevel` keep the session valid, but they
   * are the two operations that can resume a finished game: from a game
   * over with no lives, both leave it running.
   */
  lemma ResumeKeepsValid(st: GameState)
    requires Valid(st)
    ensures Valid(PauseGame(st)) && Valid(ContinueToNextLevel(st))
    ensures st.isPaused && st.lives <= 0 ==>
              !OverMeansPaused(PauseGame(st)) && !OverMeansPaused(ContinueToNextLevel(st))
    ensures !st.isPaused ==> OverMeansPaused(PauseGame(st))
  {
  }
}
