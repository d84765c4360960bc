/**
 * The session of game.js as the program holds it: one object whose fields
 * the frame, the power-ups, the timeouts and the input handlers overwrite,
 * and entity arrays that the passes splice and push.  Every method is
 * proved to leave the object in the state the matching function of the
 * Rules module computes, so everything proved about those functions (the
 * session invariant in particular) holds of the object too.
 */
module Session {

  import opened Util
  import opened Catalog
  import opened Spawning
  import opened Entities
  import opened Rules

  // ---------------------------------------------------------------------------
  // Loops over an entity array
  // ---------------------------------------------------------------------------

  /** `forEach` rewriting every entity by `f`, in order. */
  method MapEach(es: seq<Entity>, f: Entity -> Entity) returns (r: seq<Entity>)
    ensures r == Mapped(es, f)
  {
    r := es;
    var k := 0;
    while k < |r|
      invariant k <= |r| == |es|
      invariant forall j :: 0 <= j < k ==> r[j] == f(es[j])
      invariant forall j :: k <= j < |r| ==> r[j] == es[j]
    {
      r := r[k := f(r[k])];
      k := k + 1;
    }
  }

  /** `blast`'s scoring loop: the sum of the items' points. */
  method TotalPoints(es: seq<Entity>) returns (total: int)
    ensures total == SumPoints(es)
  {
    total := 0;
    var k := 0;
    while k < |es|
      invariant 0 <= k <= |es|
      invariant total == SumPoints(es[..k])
    {
      SumPointsAppend(es[..k], es[k]);
      assert es[..k + 1] == es[..k] + [es[k]];
      total := total + es[k].points;
      k := k + 1;
    }
    assert es[..k] == es;
  }

  /**
   * The `forEach` passes of gold rush over the items: one draw for each item
   * `draws` selects, which `f` rewrites; the first pass, the interval's tick
   * and the timeout's revert are this loop with their own step.
   */
  method DrawAll(f: (Entity, real) --> Entity, draws: Entity -> bool, es: seq<Entity>, random: nat -> real, c: nat)
    returns (r: seq<Entity>, next: nat)
    requires IsUnitStream(random)
    requires forall e: Entity, u: real :: 0.0 <= u < 1.0 ==> f.requires(e, u)
    ensures (r, next) == DrawMap(f, draws, es, random, c)
  {
    r := [];
    next := c;
    var k := 0;
    assert es[k..] == es;
    while k < |es|
      invariant k <= |es|
      invariant DrawMap(f, draws, es, random, c).0 == r + DrawMap(f, draws, es[k..], random, next).0
      invariant DrawMap(f, draws, es, random, c).1 == DrawMap(f, draws, es[k..], random, next).1
    {
      var item := if draws(es[k]) then f(es[k], random(next)) else es[k];
      var after := if draws(es[k]) then next + 1 else next;
      DrawAdvance(f, draws, es, random, c, k, next, r, item, after);
      r := r + [item];
      next := after;
      k := k + 1;
    }
    assert es[k..] == [];
    assert r + DrawMap(f, draws, es[k..], random, next).0 == r;
  }

  /** One index of `DrawMap`: the invariant of `DrawAll`'s loop moves on by one. */
  lemma DrawAdvance(f: (Entity, real) --> Entity, draws: Entity -> bool, es: seq<Entity>, random: nat -> real, c: nat,
                    k: nat, next: nat, r: seq<Entity>, item: Entity, after: nat)
    requires IsUnitStream(random) && k < |es|
    requires forall e: Entity, u: real :: 0.0 <= u < 1.0 ==> f.requires(e, u)
    requires DrawMap(f, draws, es, random, c).0 == r + DrawMap(f, draws, es[k..], random, next).0
    requires DrawMap(f, draws, es, random, c).1 == DrawMap(f, draws, es[k..], random, next).1
    requires item == (if draws(es[k]) then f(es[k], random(next)) else es[k])
    requires after == (if draws(es[k]) then next + 1 else next)
    ensures DrawMap(f, draws, es, random, c).0 == (r + [item]) + DrawMap(f, draws, es[k + 1..], random, after).0
    ensures DrawMap(f, draws, es, random, c).1 == DrawMap(f, draws, es[k + 1..], random, after).1
  {
    assert es[k..][1..] == es[k + 1..];
    var tail := DrawMap(f, draws, es[k + 1..], random, after);
    assert DrawMap(f, draws, es[k..], random, next) == ([item] + tail.0, tail.1);
    Associative(r, [item], tail.0);
  }


  /** `selectItemWithIntelligence`: the level's admitted item types, walked by weight. */
  method SelectItem(level: int, u: real) returns (entry: CatalogEntry)
    ensures entry == ItemEntry(level, u)
  {
    EntriesThroughGate(level, u);
    var available := AvailableItems(level);
    var k := SelectWeighted(available, u);
    entry := available[k];
  }

  /** `selectObstacleWithIntelligence`: the level's admitted obstacle types, walked by weight. */
  method SelectObstacle(level: int, u: real) returns (entry: CatalogEntry)
    ensures entry == ObstacleEntry(level, u)
  {
    EntriesThroughGate(level, u);
    var available := AvailableObstacles(level);
    var k := SelectWeighted(available, u);
    entry := available[k];
  }

  lemma Associative(a: seq<Entity>, b: seq<Entity>, c: seq<Entity>)
    ensures a + (b + c) == (a + b) + c
  {
  }

  // ---------------------------------------------------------------------------
  // The session object
  // ---------------------------------------------------------------------------

  /**
   * `gameState` together with the `basket`, the `screenShake`, the number
   * of gold-rush intervals still running and the random cursor.  `random`
   * is the `Math.random` stream; `draws` counts the draws taken from it.
   */
  class Game {
    var draws: nat
    var score: int
    var level: int
    var lives: int
    var targetScore: int
    var isPaused: bool
    var isMuted: bool
    var hasActivePowerup: bool
    var activePowerupType: Option<Power>
    var powerupTimeLeft: real
    var fallingItems: seq<Entity>
    var obstacles: seq<Entity>
    var bonusItems: seq<Entity>
    var timeSlowFactor: Option<real>
    var gameSpeed: real
    var lastUpdateTime: real
    var isInvincible: bool
    var shadowBasket: Option<ShadowBasket>
    var goldRushIntervals: nat
    var basket: BasketState
    var screenShake: ScreenShakeState
    const random: nat -> real

    /** The object's fields as a value of the Rules module. */
    function Snapshot(): GameState
      reads this
    {
      GameState(draws, score, level, lives, targetScore, isPaused, isMuted,
                hasActivePowerup, activePowerupType, powerupTimeLeft,
                fallingItems, obstacles, bonusItems, timeSlowFactor, gameSpeed, lastUpdateTime,
                isInvincible, shadowBasket, goldRushIntervals, basket, screenShake)
    }

    /** The state the page loads with. */
    constructor (random: nat -> real)
      ensures Snapshot() == Initial() && this.random == random
    {
      draws := 0;
      score := 0;
      level := 1;
      lives := 3;
      targetScore := 100;
      isPaused := false;
      isMuted := false;
      hasActivePowerup := false;
      activePowerupType := None;
      powerupTimeLeft := 0.0;
      fallingItems := [];
      obstacles := [];
      bonusItems := [];
      timeSlowFactor := None;
      gameSpeed := 1.0;
      lastUpdateTime := 0.0;
      isInvincible := false;
      shadowBasket := None;
      goldRushIntervals := 0;
      basket := BasketState(170.0, 520.0, 80.0, 60.0, 20.0, false);
      screenShake := ScreenShakeState(false, 0.0, 0.0, 0.0);
      this.random := random;
    }

    // -------------------------------------------------------------------------
    // Factories
    // -------------------------------------------------------------------------

    /** `createFallingItem`: choose the type, then build the item. */
    method CreateFallingItem() returns (item: Entity)
      modifies this`draws
      ensures (item, draws) == NewItem(level, fallingItems, bonusItems, old(draws), random)
    {
      var entry := SelectItem(level, random(draws));
      item := BuildItem(entry);
    }

    /** The rest of `createFallingItem`: the placement loop, then the item literal. */
    method BuildItem(entry: CatalogEntry) returns (item: Entity)
      requires entry.points >= 1
      modifies this`draws
      ensures (item, draws) == ItemOf(entry, level, fallingItems, bonusItems, old(draws), random)
    {
      var c := draws;
      var x, next := PlaceX(Xs(fallingItems) + Xs(bonusItems), 45.0, Candidates(random), c + 2);
      assert ItemOf(entry, level, fallingItems, bonusItems, c, random) == (ItemAt(entry, level, c, x, next, random), next + 3);
      item := ItemAt(entry, level, c, x, next, random);
      draws := next + 3;
    }

    /** `createPowerup`. */
    method CreatePowerup() returns (item: Entity)
      requires level >= 1 && IsUnitStream(random)
      modifies this`draws
      ensures (item, draws) == NewPowerup(level, fallingItems, bonusItems, old(draws), random)
    {
      var p := PowerupTypes[PickIndex(random(draws), |PowerupTypes|)];
      item := BuildPowerup(p);
    }

    /** The rest of `createPowerup`: the placement loop, then the power-up literal. */
    method BuildPowerup(p: PowerupEntry) returns (item: Entity)
      requires level >= 1
      modifies this`draws
      ensures (item, draws) == PowerupOf(p, level, fallingItems, bonusItems, old(draws), random)
    {
      var c := draws;
      var x, next := PlaceX(Xs(fallingItems) + Xs(bonusItems), 50.0, Candidates(random), c + 1);
      assert PowerupOf(p, level, fallingItems, bonusItems, c, random) == (PowerupAt(p, level, x, next, random), next + 1);
      item := PowerupAt(p, level, x, next, random);
      draws := next + 1;
    }

    /** `createObstacle`: choose the type, then build the obstacle, slowed while `timeSlow` is the active power-up. */
    method CreateObstacle() returns (obstacle: Entity)
      modifies this`draws
      ensures (obstacle, draws) == NewObstacle(level, hasActivePowerup && activePowerupType == Some(TimeSlow), obstacles, old(draws), random)
    {
      var entry := SelectObstacle(level, random(draws));
      obstacle := BuildObstacle(entry);
    }

    /** The rest of `createObstacle`: the placement loop, then the obstacle literal. */
    method BuildObstacle(entry: CatalogEntry) returns (obstacle: Entity)
      requires entry.points >= 1
      modifies this`draws
      ensures (obstacle, draws) == ObstacleOf(entry, level, hasActivePowerup && activePowerupType == Some(TimeSlow), obstacles, old(draws), random)
    {
      var timeSlow := hasActivePowerup && activePowerupType == Some(TimeSlow);
      var c := draws;
      var x, next := PlaceX(Xs(obstacles), 50.0, Candidates(random), c + 2);
      assert ObstacleOf(entry, level, timeSlow, obstacles, c, random) == (ObstacleAt(entry, level, timeSlow, c, x, next, random), next + 3);
      obstacle := ObstacleAt(entry, level, timeSlow, c, x, next, random);
      draws := next + 3;
    }

    /** `fallingItems.push(createFallingItem())`. */
    method PushItem()
      modifies this`fallingItems, this`draws
      ensures var step := NewItem(old(level), old(fallingItems), old(bonusItems), old(draws), random);
              fallingItems == old(fallingItems) + [step.0] && draws == step.1
    {
      var item := CreateFallingItem();
      fallingItems := fallingItems + [item];
    }

    /** `for (let i = 0; i < n; i++) fallingItems.push(createFallingItem())`. */
    method PushItems(n: nat)
      modifies this`fallingItems, this`draws
      ensures Snapshot() == Refilled(old(Snapshot()), n, random)
    {
      ghost var make := ItemMaker(level, bonusItems, random);
      ghost var goal := Refill(make, fallingItems, draws, n);
      var m := n;
      while m > 0
        invariant make == ItemMaker(level, bonusItems, random)
        invariant Refill(make, fallingItems, draws, m) == goal
      {
        ghost var items, c, before := fallingItems, draws, m;
        PushItem();
        m := m - 1;
        RefillUnfold(make, items, c, before, fallingItems, draws, m);
      }
    }

    // -------------------------------------------------------------------------
    // Speed, input, level
    // -------------------------------------------------------------------------

    /** `changeGameSpeed(delta)`. */
    method ChangeGameSpeed(delta: real)
      modifies this`gameSpeed
      ensures Snapshot() == Rules.ChangeGameSpeed(old(Snapshot()), delta)
    {
      gameSpeed := MaxReal(0.25, MinReal(2.0, gameSpeed + delta));
    }

    /** `resetGameSpeed`. */
    method ResetGameSpeed()
      modifies this`gameSpeed
      ensures Snapshot() == Rules.ResetGameSpeed(old(Snapshot()))
    {
      gameSpeed := 1.0;
    }

    /** `moveBasket(event)` for the key `key`. */
    method MoveBasket(key: string)
      modifies this`basket, this`isMuted
      ensures Snapshot() == Rules.MoveBasket(old(Snapshot()), key)
    {
      if isPaused {
        return;
      }
      if key == "ArrowLeft" && basket.x > 0.0 {
        basket := basket.(x := basket.x - basket.speed);
      } else if key == "ArrowRight" && basket.x + basket.width < CanvasWidth {
        basket := basket.(x := basket.x + basket.speed);
      }
      if key == "m" || key == "M" {
        isMuted := !isMuted;
      }
    }

    /** `touchMoveBasket` for a touch at canvas x `touchX`. */
    method TouchMoveBasket(touchX: real)
      modifies this`basket
      ensures Snapshot() == Rules.TouchMoveBasket(old(Snapshot()), touchX)
    {
      if isPaused {
        return;
      }
      var x := touchX - basket.width / 2.0;
      if x < 0.0 {
        x := 0.0;
      }
      if x + basket.width > CanvasWidth {
        x := CanvasWidth - basket.width;
      }
      basket := basket.(x := x);
    }

    /** `levelUp`. */
    method LevelUp()
      requires level >= 1
      modifies this`level, this`isPaused, this`targetScore
      ensures Snapshot() == Rules.LevelUp(old(Snapshot()))
    {
      level := level + 1;
      isPaused := true;
      targetScore := TargetAfterLevelUp(level);
    }

    /** `pauseGame` without its button label and music. */
    method PauseGame()
      modifies this`isPaused
      ensures Snapshot() == Rules.PauseGame(old(Snapshot()))
    {
      isPaused := !isPaused;
    }

    /** `continueToNextLevel` without its overlay and the interval it restarts. */
    method ContinueToNextLevel()
      modifies this`isPaused
      ensures Snapshot() == Rules.ContinueToNextLevel(old(Snapshot()))
    {
      isPaused := false;
    }

    /** `startGame(now)` without its DOM and timer set-up. */
    method StartGame(now: real)
      modifies this
      ensures Snapshot() == Rules.StartGame(old(Snapshot()), now, random)
    {
      ResetSession();
      PushItems(PoolSize);
      StampClock(now);
    }

    /** `gameState.lastUpdateTime = performance.now()`. */
    method StampClock(now: real)
      modifies this`lastUpdateTime
      ensures Snapshot() == old(Snapshot()).(lastUpdateTime := now)
    {
      lastUpdateTime := now;
    }

    /** The resets of `startGame` before the catch pool is filled: a fresh `gameState` that keeps the mute flag and the speed, then the basket. */
    method ResetSession()
      modifies this
      ensures Snapshot() == Rules.ResetSession(old(Snapshot()))
    {
      ResetProgress();
      ResetPowerups();
      ResetEntities();
      ResetClock();
      basket := StartBasket(basket);
    }

    method ResetProgress()
      modifies this`score, this`level, this`lives, this`targetScore, this`isPaused
      ensures Snapshot() == old(Snapshot()).(score := 0, level := 1, lives := 3, targetScore := LevelConfig[0].targetScore, isPaused := false)
    {
      ResetScore();
      ResetLives();
    }

    method ResetScore()
      modifies this`score, this`level, this`targetScore
      ensures Snapshot() == old(Snapshot()).(score := 0, level := 1, targetScore := LevelConfig[0].targetScore)
    {
      score := 0;
      level := 1;
      targetScore := LevelConfig[0].targetScore;
    }

    method ResetLives()
      modifies this`lives, this`isPaused
      ensures Snapshot() == old(Snapshot()).(lives := 3, isPaused := false)
    {
      lives := 3;
      isPaused := false;
    }

    method ResetPowerups()
      modifies this`hasActivePowerup, this`activePowerupType, this`powerupTimeLeft, this`timeSlowFactor, this`isInvincible, this`shadowBasket
      ensures Snapshot() == old(Snapshot()).(hasActivePowerup := false, activePowerupType := None, powerupTimeLeft := 0.0,
                                             timeSlowFactor := None, isInvincible := false, shadowBasket := None)
    {
      ResetActive();
      ResetEffects();
    }

    method ResetActive()
      modifies this`hasActivePowerup, this`activePowerupType, this`powerupTimeLeft
      ensures Snapshot() == old(Snapshot()).(hasActivePowerup := false, activePowerupType := None, powerupTimeLeft := 0.0)
    {
      hasActivePowerup := false;
      activePowerupType := None;
      powerupTimeLeft := 0.0;
    }

    method ResetEffects()
      modifies this`timeSlowFactor, this`isInvincible, this`shadowBasket
      ensures Snapshot() == old(Snapshot()).(timeSlowFactor := None, isInvincible := false, shadowBasket := None)
    {
      timeSlowFactor := None;
      isInvincible := false;
      shadowBasket := None;
    }

    method ResetEntities()
      modifies this`fallingItems, this`obstacles, this`bonusItems
      ensures Snapshot() == old(Snapshot()).(fallingItems := [], obstacles := [], bonusItems := [])
    {
      fallingItems := [];
      obstacles := [];
      bonusItems := [];
    }

    /** `gameState.gameSpeed || 1.0` is kept; the frame clock starts at 0. */
    method ResetClock()
      modifies this`gameSpeed, this`lastUpdateTime
      ensures Snapshot() == old(Snapshot()).(gameSpeed := if old(gameSpeed) != 0.0 then old(gameSpeed) else 1.0, lastUpdateTime := 0.0)
    {
      gameSpeed := if gameSpeed != 0.0 then gameSpeed else 1.0;
      lastUpdateTime := 0.0;
    }

    // -------------------------------------------------------------------------
    // activatePowerup
    // -------------------------------------------------------------------------

    /** `activatePowerup(t, duration)`: the clean-up and bookkeeping, then the immediate effect. */
    method ActivatePowerup(t: Power, duration: real)
      requires IsUnitStream(random)
      modifies this
      ensures Snapshot() == Rules.ActivatePowerup(old(Snapshot()), t, duration, random)
    {
      Engage(t, duration);
      ApplyEffect(t);
    }

    /** Clear the power-up being pre-empted, then make `t` the active one. */
    method Engage(t: Power, duration: real)
      modifies this`basket, this`shadowBasket, this`hasActivePowerup, this`activePowerupType, this`powerupTimeLeft
      ensures Snapshot() == Engaged(old(Snapshot()), t, duration)
    {
      Preempt();
      Install(t, duration);
    }

    /** The clean-up of the power-up `activatePowerup` pre-empts: `giant`'s absolute size, `doubleTrouble`'s shadow. */
    method Preempt()
      modifies this`basket, this`shadowBasket
      ensures Snapshot() == Rules.Preempt(old(Snapshot()))
    {
      if hasActivePowerup {
        if activePowerupType == Some(Giant) {
          basket := basket.(width := 80.0, height := 60.0);
        } else if activePowerupType == Some(DoubleTrouble) {
          if shadowBasket.Some? {
            shadowBasket := None;
          }
        }
      }
    }

    /** Make `t` the one active power-up with `duration` milliseconds left. */
    method Install(t: Power, duration: real)
      modifies this`basket, this`hasActivePowerup, this`activePowerupType, this`powerupTimeLeft
      ensures Snapshot() == old(Snapshot()).(hasActivePowerup := true, activePowerupType := Some(t), powerupTimeLeft := duration,
                                             basket := old(basket).(powerupActive := true))
    {
      hasActivePowerup := true;
      activePowerupType := Some(t);
      powerupTimeLeft := duration;
      basket := basket.(powerupActive := true);
    }

    /** The `switch (type)` of `activatePowerup`. */
    method ApplyEffect(t: Power)
      requires IsUnitStream(random)
      modifies this
      ensures Snapshot() == Effect(old(Snapshot()), t, random)
    {
      match t
      case Blast => ApplyBlast();
      case ExtraLife => ApplyExtraLife();
      case Giant => ApplyGiant();
      case Freeze => ApplyFreeze();
      case TimeSlow => ApplyTimeSlow();
      case DoubleTrouble => ApplyDoubleTrouble();
      case GoldRush => ApplyGoldRush();
      case _ =>
    }

    /** `blast`: score every item, shake, five new items, no obstacles. */
    method ApplyBlast()
      modifies this
      ensures Snapshot() == BlastEffect(old(Snapshot()), random)
    {
      ScoreBlast();
      PushItems(PoolSize);
      ClearObstacles();
    }

    /** `blast` up to the new items. */
    method ScoreBlast()
      modifies this`score, this`screenShake, this`fallingItems
      ensures Snapshot() == BlastScored(old(Snapshot()))
    {
      var points := TotalPoints(fallingItems);
      score := score + points;
      screenShake := StartScreenShake(20.0, 500.0);
      fallingItems := [];
    }

    /** `gameState.obstacles = []`. */
    method ClearObstacles()
      modifies this`obstacles
      ensures Snapshot() == old(Snapshot()).(obstacles := [])
    {
      obstacles := [];
    }

    /** `extraLife`: a life and invincibility below three lives, else 50 points. */
    method ApplyExtraLife()
      modifies this`lives, this`isInvincible, this`score
      ensures Snapshot() == ExtraLifeEffect(old(Snapshot()))
    {
      if lives < 3 {
        lives := lives + 1;
        isInvincible := true;
      } else {
        score := score + 50;
      }
    }

    /** `giant`: one and a half times the size the lives allow. */
    method ApplyGiant()
      modifies this`basket
      ensures Snapshot() == GiantEffect(old(Snapshot()))
    {
      var factor := LifeSizeFactor(lives);
      basket := basket.(width := 80.0 * factor * 1.5, height := 60.0 * factor * 1.5);
    }

    /** `freeze`: stop every item and obstacle, remembering its speed. */
    method ApplyFreeze()
      modifies this`fallingItems, this`obstacles
      ensures Snapshot() == FreezeEffect(old(Snapshot()))
    {
      fallingItems := MapEach(fallingItems, FreezeEntity);
      obstacles := MapEach(obstacles, FreezeEntity);
    }

    /** `timeSlow`: halve every speed, once. */
    method ApplyTimeSlow()
      modifies this`timeSlowFactor, this`fallingItems, this`obstacles
      ensures Snapshot() == TimeSlowEffect(old(Snapshot()))
    {
      if timeSlowFactor.None? {
        timeSlowFactor := Some(0.5);
        fallingItems := MapEach(fallingItems, Slow);
        obstacles := MapEach(obstacles, Slow);
      }
    }

    /** `doubleTrouble`: a shadow basket the size of the basket, up and to the left. */
    method ApplyDoubleTrouble()
      modifies this`shadowBasket
      ensures Snapshot() == DoubleTroubleEffect(old(Snapshot()))
    {
      shadowBasket := Some(ShadowBasket(basket.width, basket.height, -30.0, -30.0));
    }

    /** `goldRush`: gild the items and start a gold-rush interval. */
    method ApplyGoldRush()
      requires IsUnitStream(random)
      modifies this`fallingItems, this`draws, this`goldRushIntervals
      ensures Snapshot() == GoldRushEffect(old(Snapshot()), random)
    {
      GildItems();
      goldRushIntervals := goldRushIntervals + 1;
    }

    /** Gild every item, one draw each. */
    method GildItems()
      requires IsUnitStream(random)
      modifies this`fallingItems, this`draws
      ensures (fallingItems, draws) == GoldFirstAll(old(fallingItems), random, old(draws))
    {
      GoldPassesAreDrawMaps(fallingItems, random, draws);
      fallingItems, draws := DrawAll(GoldFirstPass, EveryItem, fallingItems, random, draws);
    }

    // -------------------------------------------------------------------------
    // Timeouts and intervals
    // -------------------------------------------------------------------------

    /** The freeze timeout. */
    method RevertFreeze()
      modifies this`fallingItems, this`obstacles
      ensures Snapshot() == Rules.RevertFreeze(old(Snapshot()))
    {
      if activePowerupType == Some(Freeze) {
        fallingItems := MapEach(fallingItems, ThawEntity);
        obstacles := MapEach(obstacles, ThawEntity);
      }
    }

    /** The time-slow timeout. */
    method RevertTimeSlow()
      modifies this`timeSlowFactor, this`fallingItems, this`obstacles
      ensures Snapshot() == Rules.RevertTimeSlow(old(Snapshot()))
    {
      if timeSlowFactor.Some? && activePowerupType == Some(TimeSlow) {
        timeSlowFactor := None;
        fallingItems := MapEach(fallingItems, Restore);
        obstacles := MapEach(obstacles, Restore);
      }
    }

    /** The double-trouble timeout. */
    method RemoveShadow()
      modifies this`shadowBasket
      ensures Snapshot() == Rules.RemoveShadow(old(Snapshot()))
    {
      if activePowerupType == Some(DoubleTrouble) && shadowBasket.Some? {
        shadowBasket := None;
      }
    }

    /** The extra-life timeout. */
    method EndInvincibility()
      modifies this`isInvincible
      ensures Snapshot() == Rules.EndInvincibility(old(Snapshot()))
    {
      isInvincible := false;
    }

    /** One tick of the running gold-rush intervals. */
    method GoldRushTick()
      requires IsUnitStream(random)
      modifies this`fallingItems, this`draws
      ensures Snapshot() == Rules.GoldRushTick(old(Snapshot()), random)
    {
      if goldRushIntervals > 0 {
        GoldPassesAreDrawMaps(fallingItems, random, draws);
        var items, next := DrawAll(GoldTick, TickDraws, fallingItems, random, draws);
        fallingItems := items;
        draws := next;
      }
    }

    /** The gold-rush timeout, clearing its interval whether or not gold rush is still active. */
    method RevertGoldRush()
      requires IsUnitStream(random)
      modifies this`goldRushIntervals, this`fallingItems, this`draws
      ensures Snapshot() == Rules.RevertGoldRush(old(Snapshot()), random)
    {
      goldRushIntervals := Decremented(goldRushIntervals);
      if activePowerupType == Some(GoldRush) {
        RevertItems();
      }
    }

    /** Turn the marked items back into plain fruit. */
    method RevertItems()
      requires IsUnitStream(random)
      modifies this`fallingItems, this`draws
      ensures (fallingItems, draws) == GoldRevertAll(old(fallingItems), random, old(draws))
    {
      GoldPassesAreDrawMaps(fallingItems, random, draws);
      fallingItems, draws := DrawAll(GoldRevert, RevertDraws, fallingItems, random, draws);
    }

    /** The obstacle interval's callback. */
    method SpawnObstacleTick()
      requires level >= 1
      modifies this`obstacles, this`draws
      ensures Snapshot() == Rules.SpawnObstacleTick(old(Snapshot()), random)
    {
      if !isPaused && |obstacles| < LevelRowFor(level).maxObstacles {
        SpawnObstacle();
      }
    }

    /** The callback of the obstacle interval `continueToNextLevel` starts, with the row it read. */
    method ContinuedObstacleTick(row: LevelRow)
      requires level >= 1
      modifies this`obstacles, this`draws
      ensures Snapshot() == Rules.ContinuedObstacleTick(old(Snapshot()), row, random)
    {
      if !isPaused && |obstacles| < row.maxObstacles {
        SpawnObstacle();
      }
    }

    /** `gameState.obstacles.push(createObstacle())`. */
    method SpawnObstacle()
      requires level >= 1
      modifies this`obstacles, this`draws
      ensures Snapshot() == ObstacleSpawned(old(Snapshot()), random)
    {
      PushObstacle();
    }

    /** The push itself, for the session's level and time-slow state. */
    method PushObstacle()
      modifies this`obstacles, this`draws
      ensures var step := NewObstacle(old(level), old(hasActivePowerup && activePowerupType == Some(TimeSlow)), old(obstacles), old(draws), random);
              obstacles == old(obstacles) + [step.0] && draws == step.1
    {
      var o := CreateObstacle();
      obstacles := obstacles + [o];
    }

    /** The power-up interval's callback. */
    method SpawnPowerupTick()
      requires level >= 1 && IsUnitStream(random)
      modifies this`bonusItems, this`draws
      ensures Snapshot() == Rules.SpawnPowerupTick(old(Snapshot()), random)
    {
      if !isPaused && |bonusItems| < 1 {
        var u := random(draws);
        draws := draws + 1;
        if u < PowerupChance(level) {
          SpawnPowerup();
        }
      }
    }

    /** `gameState.bonusItems.push(createPowerup())`. */
    method SpawnPowerup()
      requires level >= 1 && IsUnitStream(random)
      modifies this`bonusItems, this`draws
      ensures Snapshot() == PowerupSpawned(old(Snapshot()), random)
    {
      var p := CreatePowerup();
      bonusItems := bonusItems + [p];
    }

    // -------------------------------------------------------------------------
    // gameLoop
    // -------------------------------------------------------------------------

    /** `gameLoop(now)`. */
    method Frame(now: real)
      requires level >= 1 && IsUnitStream(random)
      modifies this
      ensures Snapshot() == Rules.Frame(old(Snapshot()), now, random)
    {
      ghost var st := Snapshot();
      var adjusted := MinReal((now - lastUpdateTime) / 1000.0, 0.1) * gameSpeed;
      assert adjusted == AdjustedDeltaTime(st, now);
      StampClock(now);
      if isPaused {
        return;
      }
      Update(adjusted);
    }

    /** The unpaused part of the frame. */
    method Update(adjustedDeltaTime: real)
      requires level >= 1 && IsUnitStream(random)
      modifies this
      ensures Snapshot() == Passes(Moved(old(Snapshot()), adjustedDeltaTime), random)
    {
      Move(adjustedDeltaTime);
      RunPasses();
    }

    /** The three collision passes. */
    method RunPasses()
      requires level >= 1 && IsUnitStream(random)
      modifies this
      ensures Snapshot() == Passes(old(Snapshot()), random)
    {
      ghost var st := Snapshot();
      ItemPass();
      ghost var afterItems := Snapshot();
      assert afterItems == ItemPassFrom(st, |st.fallingItems| - 1, random);
      BonusPass();
      assert Snapshot() == BonusPassFrom(afterItems, |afterItems.bonusItems| - 1, random);
      ObstaclePass();
    }

    /** The frame up to the collision passes. */
    method Move(adjustedDeltaTime: real)
      modifies this
      ensures Snapshot() == Moved(old(Snapshot()), adjustedDeltaTime)
    {
      UpdateShake(adjustedDeltaTime);
      DrawMoves();
      CountDown(adjustedDeltaTime);
      AdvanceAll(adjustedDeltaTime);
    }

    /** `updateScreenShake(deltaTime)` without the canvas offset. */
    method UpdateShake(deltaTime: real)
      modifies this`screenShake
      ensures Snapshot() == old(Snapshot()).(screenShake := UpdateScreenShake(old(screenShake), deltaTime))
    {
      if screenShake.active {
        screenShake := screenShake.(timeLeft := screenShake.timeLeft - deltaTime * 1000.0);
        if screenShake.timeLeft <= 0.0 {
          screenShake := screenShake.(active := false);
        }
      }
    }

    /** The moves `drawFallingItems` and `drawObstacles` make while they draw. */
    method DrawMoves()
      modifies this`fallingItems, this`bonusItems, this`obstacles
      ensures Snapshot() == DrawPhase(old(Snapshot()))
    {
      fallingItems := MapEach(fallingItems, DrawStep);
      bonusItems := MapEach(bonusItems, DrawMove);
      obstacles := MapEach(obstacles, DrawStep);
    }

    /** The power-up countdown and what its expiry undoes. */
    method CountDown(adjustedDeltaTime: real)
      modifies this`powerupTimeLeft, this`basket, this`timeSlowFactor, this`shadowBasket, this`hasActivePowerup, this`activePowerupType
      ensures Snapshot() == Rules.CountDown(old(Snapshot()), adjustedDeltaTime)
    {
      if hasActivePowerup {
        Elapse(adjustedDeltaTime);
        ExpireIfDue();
      }
    }

    /** `powerupTimeLeft -= adjustedDeltaTime * 1000`. */
    method Elapse(adjustedDeltaTime: real)
      modifies this`powerupTimeLeft
      ensures Snapshot() == Elapsed(old(Snapshot()), adjustedDeltaTime)
    {
      powerupTimeLeft := powerupTimeLeft - adjustedDeltaTime * 1000.0;
    }

    /** `if (powerupTimeLeft <= 0)`: expire. */
    method ExpireIfDue()
      modifies this`basket, this`timeSlowFactor, this`shadowBasket, this`hasActivePowerup, this`activePowerupType
      ensures Snapshot() == Rules.ExpireIfDue(old(Snapshot()))
    {
      if powerupTimeLeft <= 0.0 {
        Expire();
      }
    }

    /** The countdown has run out. */
    method Expire()
      modifies this`basket, this`timeSlowFactor, this`shadowBasket, this`hasActivePowerup, this`activePowerupType
      ensures Snapshot() == Expired(old(Snapshot()))
    {
      ExpiryCleanup();
      Deactivate();
    }

    /** The per-type clean-up when the countdown runs out. */
    method ExpiryCleanup()
      modifies this`basket, this`timeSlowFactor, this`shadowBasket
      ensures Snapshot() == Rules.ExpiryCleanup(old(Snapshot()))
    {
      if activePowerupType == Some(Giant) {
        var factor := LifeSizeFactor(lives);
        basket := basket.(width := 80.0 * factor, height := 60.0 * factor);
      } else if activePowerupType == Some(TimeSlow) {
        if timeSlowFactor.Some? {
          timeSlowFactor := None;
        }
      } else if activePowerupType == Some(DoubleTrouble) {
        shadowBasket := None;
      }
    }

    /** No power-up is active any more. */
    method Deactivate()
      modifies this`basket, this`hasActivePowerup, this`activePowerupType
      ensures Snapshot() == old(Snapshot()).(hasActivePowerup := false, activePowerupType := None,
                                             basket := old(basket).(powerupActive := false))
    {
      hasActivePowerup := false;
      activePowerupType := None;
      basket := basket.(powerupActive := false);
    }

    /** The `forEach` position updates. */
    method AdvanceAll(adjustedDeltaTime: real)
      modifies this`fallingItems, this`bonusItems, this`obstacles
      ensures Snapshot() == Advance(old(Snapshot()), adjustedDeltaTime)
    {
      fallingItems := MapEach(fallingItems, e => AdvanceStep(e, adjustedDeltaTime, true));
      bonusItems := MapEach(bonusItems, e => AdvanceStep(e, adjustedDeltaTime, false));
      obstacles := MapEach(obstacles, e => AdvanceStep(e, adjustedDeltaTime, true));
    }

    /** `checkCollision(e)`, then the shadow basket while `doubleTrouble` keeps one. */
    method Hit(e: Entity) returns (collision: bool)
      ensures collision == Collides(Snapshot(), e)
    {
      collision := CheckCollision(e, Box(basket.x, basket.y, basket.width, basket.height));
      if !collision && hasActivePowerup && activePowerupType == Some(DoubleTrouble) && shadowBasket.Some? {
        var shadow := shadowBasket.value;
        collision := CheckCollision(e, Box(basket.x + shadow.offsetX, basket.y + shadow.offsetY, shadow.width, shadow.height));
      }
    }

    /** The item pass: from the last index down, stopping at a level-up. */
    method ItemPass()
      requires level >= 1
      modifies this
      ensures Snapshot() == ItemPassFrom(old(Snapshot()), |old(fallingItems)| - 1, random)
    {
      var i := |fallingItems| - 1;
      ghost var goal := ItemPassFrom(Snapshot(), i, random);
      while i >= 0
        invariant -1 <= i < |fallingItems| && level >= 1
        invariant ItemPassFrom(Snapshot(), i, random) == goal
      {
        ghost var before := Snapshot();
        ItemPassUnfold(before, i, random);
        var stop := ItemIndex(i);
        if stop {
          return;
        }
        i := i - 1;
      }
    }

    /** One index of the item pass; `stop` is the `break` after a level-up. */
    method ItemIndex(i: nat) returns (stop: bool)
      requires i < |fallingItems| && level >= 1
      modifies this
      ensures (Snapshot(), stop) == ItemStep(old(Snapshot()), i, random)
    {
      stop := false;
      var item := fallingItems[i];
      if item.frozen {
        return;
      }
      var collision := Hit(item);
      if collision {
        CatchItem(i);
        if score >= LevelRowFor(level).targetScore {
          LevelUp();
          stop := true;
        }
      } else if item.y > CanvasHeight {
        ReplaceItem(i);
      }
    }

    /** Score the caught item, splice it out and push a new one. */
    method CatchItem(i: nat)
      requires i < |fallingItems|
      modifies this`score, this`fallingItems, this`draws
      ensures Snapshot() == Caught(old(Snapshot()), i, random)
    {
      Splice(i);
      PushNewItem();
    }

    /** Score the caught item and splice it out. */
    method Splice(i: nat)
      requires i < |fallingItems|
      modifies this`score, this`fallingItems
      ensures Snapshot() == Spliced(old(Snapshot()), i)
    {
      var multiplier := if hasActivePowerup && activePowerupType == Some(Multiplier) then 2 else 1;
      score := score + fallingItems[i].points * multiplier;
      fallingItems := fallingItems[..i] + fallingItems[i + 1..];
    }

    /** `PushItem` seen on the whole session. */
    method PushNewItem()
      modifies this`fallingItems, this`draws
      ensures Snapshot() == ItemPushed(old(Snapshot()), NewItem(old(level), old(fallingItems), old(bonusItems), old(draws), random))
    {
      ghost var before := Snapshot();
      ghost var step := NewItem(level, fallingItems, bonusItems, draws, random);
      PushItem();
      assert fallingItems == before.fallingItems + [step.0] && draws == step.1;
    }

    /** `fallingItems[i] = createFallingItem()`. */
    method ReplaceItem(i: nat)
      requires i < |fallingItems|
      modifies this`fallingItems, this`draws
      ensures Snapshot() == Replaced(old(Snapshot()), i, random)
    {
      ghost var before := Snapshot();
      ghost var step := NewItem(level, fallingItems, bonusItems, draws, random);
      ReplaceAt(i);
      assert fallingItems == before.fallingItems[i := step.0] && draws == step.1;
    }

    /** The replacement itself. */
    method ReplaceAt(i: nat)
      requires i < |fallingItems|
      modifies this`fallingItems, this`draws
      ensures var step := NewItem(old(level), old(fallingItems), old(bonusItems), old(draws), random);
              fallingItems == old(fallingItems)[i := step.0] && draws == step.1
    {
      var item := CreateFallingItem();
      fallingItems := fallingItems[i := item];
    }

    /** The power-up pass: from the last index down. */
    method BonusPass()
      requires level >= 1 && IsUnitStream(random)
      modifies this
      ensures Snapshot() == BonusPassFrom(old(Snapshot()), |old(bonusItems)| - 1, random)
    {
      var i := |bonusItems| - 1;
      ghost var goal := BonusPassFrom(Snapshot(), i, random);
      while i >= 0
        invariant -1 <= i < |bonusItems| && level >= 1
        invariant BonusPassFrom(Snapshot(), i, random) == goal
      {
        ghost var before := Snapshot();
        BonusPassUnfold(before, i, random);
        BonusIndex(i);
        i := i - 1;
      }
    }

    /** One index of the power-up pass. */
    method BonusIndex(i: nat)
      requires i < |bonusItems| && level >= 1 && IsUnitStream(random)
      modifies this
      ensures Snapshot() == BonusStep(old(Snapshot()), i, random)
    {
      var item := bonusItems[i];
      var collision := Hit(item);
      if collision {
        if item.kind.Bonus? {
          ActivatePowerup(item.kind.power, item.kind.duration);
        }
        bonusItems := bonusItems[..i] + bonusItems[i + 1..];
      } else if item.y > CanvasHeight {
        bonusItems := bonusItems[..i] + bonusItems[i + 1..];
      }
    }

    /** The obstacle pass: from the last index down, stopping when the game ends. */
    method ObstaclePass()
      modifies this
      ensures Snapshot() == ObstaclePassFrom(old(Snapshot()), |old(obstacles)| - 1)
    {
      var i := |obstacles| - 1;
      ghost var goal := ObstaclePassFrom(Snapshot(), i);
      while i >= 0
        invariant -1 <= i < |obstacles|
        invariant ObstaclePassFrom(Snapshot(), i) == goal
      {
        ghost var before := Snapshot();
        ObstaclePassUnfold(before, i);
        var stop := ObstacleIndex(i);
        if stop {
          return;
        }
        i := i - 1;
      }
    }

    /** One index of the obstacle pass; `stop` is the `break` after `gameOver`. */
    method ObstacleIndex(i: nat) returns (stop: bool)
      requires i < |obstacles|
      modifies this
      ensures (Snapshot(), stop) == ObstacleStep(old(Snapshot()), i)
    {
      stop := false;
      var o := obstacles[i];
      if o.frozen {
        return;
      }
      var collision := Hit(o);
      if collision {
        if !((hasActivePowerup && activePowerupType == Some(Shield)) || isInvincible) {
          stop := TakeHit(o);
          if stop {
            return;
          }
        }
        obstacles := obstacles[..i] + obstacles[i + 1..];
      } else if o.y > CanvasHeight {
        obstacles := obstacles[..i] + obstacles[i + 1..];
      }
    }

    /** An unshielded hit: lose score and a life, shrink unless `giant`, shake; `gameOver` at no lives. */
    method TakeHit(o: Entity) returns (over: bool)
      modifies this`score, this`lives, this`basket, this`screenShake, this`isPaused
      ensures (Snapshot(), over) == Hurt(old(Snapshot()), o)
    {
      var giant := hasActivePowerup && activePowerupType == Some(Giant);
      Penalize(o);
      if !giant {
        ShrinkForLives();
      }
      ShakeFor(o);
      over := lives <= 0;
      if over {
        GameOverPause();
      }
    }

    /** `score = max(0, score - points * 5)` and one life less. */
    method Penalize(o: Entity)
      modifies this`score, this`lives
      ensures Snapshot() == old(Snapshot()).(score := MaxInt(0, old(score) - o.points * 5), lives := old(lives) - 1)
    {
      score := MaxInt(0, score - o.points * 5);
      lives := lives - 1;
    }

    /** The basket resized for the lives left. */
    method ShrinkForLives()
      modifies this`basket
      ensures Snapshot() == old(Snapshot()).(basket := old(basket).(width := 80.0 * HitSizeFactor(lives), height := 60.0 * HitSizeFactor(lives)))
    {
      var factor := HitSizeFactor(lives);
      basket := basket.(width := 80.0 * factor, height := 60.0 * factor);
    }

    /** The hit's screen shake. */
    method ShakeFor(o: Entity)
      modifies this`screenShake
      ensures Snapshot() == old(Snapshot()).(screenShake := StartScreenShake((o.points * 3 + 3) as real, 300.0))
    {
      screenShake := StartScreenShake((o.points * 3 + 3) as real, 300.0);
    }

    /** `gameOver`: the session stops. */
    method GameOverPause()
      modifies this`isPaused
      ensures Snapshot() == GameOver(old(Snapshot()))
    {
      isPaused := true;
    }
  }
}
