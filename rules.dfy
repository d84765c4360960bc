/**
 * The session rules of game.js as functions of the session state: one
 * function per operation, taking the state before and returning the state
 * after.  The `Game` class of the Session module carries the same state in
 * mutable fields, and each of its methods is proved to produce exactly what
 * the function here says; the properties of the game are proved here, about
 * these functions.
 *
 * `Math.random` is the stream `random`, read from the cursor `draws` that
 * the state carries.  Only the draws that decide something the rules read
 * are taken (item and obstacle types, speeds, positions, sizes, wobble, the
 * power-up roll and type, gold-rush types); draws that only feed particles,
 * sounds, rotation or pulse phase are not.  Any run of the game with the
 * power-up drift corrected (see the Findings module) is a run of the model
 * for the stream of the draws it kept.
 */
module Rules {

  import opened Util
  import opened Catalog
  import opened Spawning
  import opened Entities

  /** `gameState.baseItemSpeed`. */
  const BaseItemSpeed: real := 1.5

  /** The number of fruit items in play. */
  const PoolSize: nat := 5

  /** The factories draw x in `[0, canvas.width - 40)`. */
  const Span: real := CanvasWidth - 40.0

  // ---------------------------------------------------------------------------
  // State
  // ---------------------------------------------------------------------------

  /** The `basket` object's fields that the rules read or write. */
  datatype BasketState = BasketState(x: real, y: real, width: real, height: real, speed: real, powerupActive: bool)

  /** The `doubleTrouble` shadow basket: its size and its offset from the main basket. */
  datatype ShadowBasket = ShadowBasket(width: real, height: real, offsetX: real, offsetY: real)

  /** game.js's own `screenShake` object (not the camera shake of the separate script). */
  datatype ScreenShakeState = ScreenShakeState(active: bool, intensity: real, duration: real, timeLeft: real)

  /**
   * A session: `gameState`, the `basket`, the `screenShake`, the number of
   * gold-rush intervals still running, and the random cursor.
   */
  datatype GameState = GameState(
    draws: nat,
    score: int, level: int, lives: int, targetScore: int,
    isPaused: bool, isMuted: bool,
    hasActivePowerup: bool, activePowerupType: Option<Power>, powerupTimeLeft: real,
    fallingItems: seq<Entity>, obstacles: seq<Entity>, bonusItems: seq<Entity>,
    timeSlowFactor: Option<real>, gameSpeed: real, lastUpdateTime: real,
    isInvincible: bool, shadowBasket: Option<ShadowBasket>, goldRushIntervals: nat,
    basket: BasketState, screenShake: ScreenShakeState)

  function InitialBasket(): BasketState {
    BasketState(170.0, 520.0, 80.0, 60.0, 20.0, false)
  }

  /** The state the page loads with, before the first `startGame`. */
  function Initial(): GameState {
    GameState(0, 0, 1, 3, 100, false, false, false, None, 0.0, [], [], [], None, 1.0, 0.0,
              false, None, 0, InitialBasket(), ScreenShakeState(false, 0.0, 0.0, 0.0))
  }

  /** `gameState.hasActivePowerup && gameState.activePowerupType === t`. */
  predicate Active(st: GameState, t: Power) {
    st.hasActivePowerup && st.activePowerupType == Some(t)
  }

  function BasketBox(st: GameState): Box {
    Box(st.basket.x, st.basket.y, st.basket.width, st.basket.height)
  }

  function ShadowBox(st: GameState): Box
    requires st.shadowBasket.Some?
  {
    var s := st.shadowBasket.value;
    Box(st.basket.x + s.offsetX, st.basket.y + s.offsetY, s.width, s.height)
  }

  /** The main basket catches the entity, or the shadow basket does while `doubleTrouble` is active. */
  predicate Collides(st: GameState, e: Entity) {
    CheckCollision(e, BasketBox(st)) ||
    (Active(st, DoubleTrouble) && st.shadowBasket.Some? && CheckCollision(e, ShadowBox(st)))
  }

  /** `array.splice(i, 1)`. */
  function Remove(es: seq<Entity>, i: nat): (r: seq<Entity>)
    requires i < |es|
    ensures |r| == |es| - 1
  {
    es[..i] + es[i + 1..]
  }

  /** Every entity is worth at least one point. */
  predicate AllScore(es: seq<Entity>) {
    forall i :: 0 <= i < |es| ==> es[i].points >= 1
  }

  function Mapped(es: seq<Entity>, f: Entity -> Entity): (r: seq<Entity>)
    ensures |r| == |es| && forall i :: 0 <= i < |es| ==> r[i] == f(es[i])
  {
    seq(|es|, i requires 0 <= i < |es| => f(es[i]))
  }

  function Xs(es: seq<Entity>): seq<real> {
    seq(|es|, i requires 0 <= i < |es| => es[i].x)
  }

  /** The x position draw `j` proposes: `Math.random() * (canvas.width - 40)`. */
  function Candidates(random: nat -> real): nat -> real {
    (j: nat) => random(j) * Span
  }

  // ---------------------------------------------------------------------------
  // Factories
  // ---------------------------------------------------------------------------

  /**
   * The item type `selectItemWithIntelligence` picks at `level` for the draw
   * `u`.  Its level gate admits the whole catalog at every level
   * (`ItemGateAdmitsAll`), so the weighted walk runs over `ItemTypes`;
   * `EntriesThroughGate` states the pick through the gate itself.
   */
  function ItemEntry(level: int, u: real): (e: CatalogEntry)
    ensures e.points >= 1
  {
    ItemTypesWellFormed();
    ItemTypes[Choice(ItemTypes, u)]
  }

  /** The obstacle type `selectObstacleWithIntelligence` picks at `level` for the draw `u`. */
  function ObstacleEntry(level: int, u: real): (e: CatalogEntry)
    ensures e.points >= 1
  {
    ObstacleTypesWellFormed();
    ObstacleTypes[Choice(ObstacleTypes, u)]
  }

  /** Walking the types the level gate lets through picks the same type. */
  lemma EntriesThroughGate(level: int, u: real)
    ensures var a := AvailableItems(level);
      WellFormed(a) && |a| > 0 && ItemEntry(level, u) == a[Choice(a, u)]
    ensures var a := AvailableObstacles(level);
      WellFormed(a) && |a| > 0 && ObstacleEntry(level, u) == a[Choice(a, u)]
  {
    ItemGateAdmitsAll(level);
    ItemTypesWellFormed();
    ObstacleGateAdmitsAll(level);
    ObstacleTypesWellFormed();
  }

  /** The chosen types are always among the types the level admits. */
  lemma EntriesAdmitted(level: int, u: real)
    ensures ItemEntry(level, u) in AvailableItems(level)
    ensures ObstacleEntry(level, u) in AvailableObstacles(level)
  {
    ItemGateAdmitsAll(level);
    ItemTypesWellFormed();
    ObstacleGateAdmitsAll(level);
    ObstacleTypesWellFormed();
    var items := AvailableItems(level);
    var obstacles := AvailableObstacles(level);
    assert items[Choice(items, u)] in items;
    assert obstacles[Choice(obstacles, u)] in obstacles;
  }

  /** The sideways drift per frame a new item or obstacle gets from its draw `u`: `(u * 0.5 - 0.25) / 60`. */
  function Wobble(u: real): real {
    (u * 0.5 - 0.25) / 60.0
  }

  /**
   * `createFallingItem`: the weighted item choice, the speed factor, a
   * position 45 away from the items and power-ups in play, then the height,
   * size and wobble draws.  Returns the item and the next cursor.
   */
  function NewItem(level: int, items: seq<Entity>, bonus: seq<Entity>, c: nat, random: nat -> real): (r: (Entity, nat))
    ensures r.1 > c
    ensures r.0.kind.Fruit? && !r.0.kind.goldRushTransformed && !r.0.frozen && r.0.originalSpeed == 0.0
    ensures r.0.points >= 1
  {
    ItemOf(ItemEntry(level, random(c)), level, items, bonus, c, random)
  }

  /** The rest of `createFallingItem` once the type `entry` is chosen. */
  function ItemOf(entry: CatalogEntry, level: int, items: seq<Entity>, bonus: seq<Entity>, c: nat, random: nat -> real): (r: (Entity, nat))
    requires entry.points >= 1
    ensures r.1 > c
    ensures r.0.kind.Fruit? && !r.0.kind.goldRushTransformed && !r.0.frozen && r.0.originalSpeed == 0.0
    ensures r.0.points >= 1
  {
    var (x, next) := Placement(Xs(items) + Xs(bonus), 45.0, Candidates(random), c + 2);
    (ItemAt(entry, level, c, x, next, random), next + 3)
  }

  /** The item literal of `createFallingItem`, from the draws at `c + 1` and from `next` on. */
  function ItemAt(entry: CatalogEntry, level: int, c: nat, x: real, next: nat, random: nat -> real): Entity {
    var randomFactor := random(c + 1) * 0.5 + 0.75;
    var baseSpeed := BaseItemSpeed + 0.25 * ((level - 1) as real);
    Entity(x, -40.0 - random(next) * 30.0, 30.0 + random(next + 1) * 10.0, baseSpeed * randomFactor,
           entry.points, false, 0.0, Some(Wobble(random(next + 2))), Fruit(entry.name, false))
  }

  /**
   * `createPowerup`: a uniformly drawn power-up type, a position 50 away
   * from the items and power-ups in play, the height draw; it falls at the
   * level's item speed plus 1 and has no wobble.
   */
  function NewPowerup(level: int, items: seq<Entity>, bonus: seq<Entity>, c: nat, random: nat -> real): (r: (Entity, nat))
    requires level >= 1 && IsUnitStream(random)
    ensures r.1 > c
    ensures r.0.kind.Bonus? && !r.0.frozen
  {
    PowerupOf(PowerupTypes[PickIndex(random(c), |PowerupTypes|)], level, items, bonus, c, random)
  }

  /** The rest of `createPowerup` once the type `p` is drawn. */
  function PowerupOf(p: PowerupEntry, level: int, items: seq<Entity>, bonus: seq<Entity>, c: nat, random: nat -> real): (r: (Entity, nat))
    requires level >= 1
    ensures r.1 > c
    ensures r.0.kind.Bonus? && !r.0.frozen
  {
    var (x, next) := Placement(Xs(items) + Xs(bonus), 50.0, Candidates(random), c + 1);
    (PowerupAt(p, level, x, next, random), next + 1)
  }

  /** The power-up literal of `createPowerup`, with the height draw at `next`. */
  function PowerupAt(p: PowerupEntry, level: int, x: real, next: nat, random: nat -> real): Entity
    requires level >= 1
  {
    Entity(x, -40.0 - random(next) * 50.0, 35.0, LevelRowFor(level).itemSpeed + 1.0,
           0, false, 0.0, None, Bonus(p.name, p.duration))
  }

  /**
   * `createObstacle`: the weighted obstacle choice, speed `2 + 0.3 (level - 1)`
   * halved under `timeSlow`, the speed factor, a position 50 away from the
   * other obstacles, then the height, size and wobble draws.
   */
  function NewObstacle(level: int, timeSlow: bool, obstacles: seq<Entity>, c: nat, random: nat -> real): (r: (Entity, nat))
    ensures r.1 > c
    ensures r.0.kind.Hazard? && !r.0.frozen && r.0.points >= 1
  {
    ObstacleOf(ObstacleEntry(level, random(c)), level, timeSlow, obstacles, c, random)
  }

  /** The rest of `createObstacle` once the type `entry` is chosen. */
  function ObstacleOf(entry: CatalogEntry, level: int, timeSlow: bool, obstacles: seq<Entity>, c: nat, random: nat -> real): (r: (Entity, nat))
    requires entry.points >= 1
    ensures r.1 > c
    ensures r.0.kind.Hazard? && !r.0.frozen && r.0.points >= 1
  {
    var (x, next) := Placement(Xs(obstacles), 50.0, Candidates(random), c + 2);
    (ObstacleAt(entry, level, timeSlow, c, x, next, random), next + 3)
  }

  /** The obstacle literal of `createObstacle`, from the draws at `c + 1` and from `next` on. */
  function ObstacleAt(entry: CatalogEntry, level: int, timeSlow: bool, c: nat, x: real, next: nat, random: nat -> real): Entity {
    var speed := BaseItemSpeed + 0.5 + 0.3 * ((level - 1) as real);
    var baseSpeed := if timeSlow then speed * 0.5 else speed;
    var randomFactor := random(c + 1) * 0.5 + 0.75;
    Entity(x, -40.0 - random(next) * 30.0, 30.0 + random(next + 1) * 15.0, baseSpeed * randomFactor,
           entry.points, false, 0.0, Some(Wobble(random(next + 2))), Hazard(entry.name))
  }

  /** `createFallingItem` at a session's level, against its power-ups, on the stream `random`. */
  function ItemMaker(level: int, bonus: seq<Entity>, random: nat -> real): (seq<Entity>, nat) -> (Entity, nat)
  {
    (items: seq<Entity>, c: nat) => NewItem(level, items, bonus, c, random)
  }

  /** Push `n` items made by `make` one at a time, each made against the ones already pushed. */
  function Refill(make: (seq<Entity>, nat) -> (Entity, nat), items: seq<Entity>, c: nat, n: nat): (r: (seq<Entity>, nat))
    ensures |r.0| == |items| + n
    decreases n
  {
    if n == 0 then (items, c)
    else
      var step := make(items, c);
      Refill(make, items + [step.0], step.1, n - 1)
  }

  /** Refilling keeps the items already there and, when `make` only makes items worth a point, pushes only those. */
  lemma {:induction false} RefillExtends(make: (seq<Entity>, nat) -> (Entity, nat), items: seq<Entity>, c: nat, n: nat)
    requires forall xs, d :: make(xs, d).0.points >= 1
    ensures var r := Refill(make, items, c, n);
            r.0[..|items|] == items && forall i :: |items| <= i < |r.0| ==> r.0[i].points >= 1
    decreases n
  {
    if n > 0 {
      var step := make(items, c);
      var items' := items + [step.0];
      RefillExtends(make, items', step.1, n - 1);
      RefillUnfold(make, items, c, n, items', step.1, n - 1);
      RefillStep(items, step.0, Refill(make, items', step.1, n - 1).0);
    }
  }

  /** One push of `Refill`: the new item goes on the end and one push fewer is left. */
  lemma RefillUnfold(make: (seq<Entity>, nat) -> (Entity, nat), items: seq<Entity>, c: nat, m: nat,
                     items': seq<Entity>, c': nat, m': nat)
    requires m > 0 && m' == m - 1
    requires items' == items + [make(items, c).0] && c' == make(items, c).1
    ensures Refill(make, items', c', m') == Refill(make, items, c, m)
  {
  }

  lemma RefillStep(items: seq<Entity>, item: Entity, r: seq<Entity>)
    requires |r| >= |items + [item]| && r[..|items + [item]|] == items + [item]
    requires item.points >= 1 && forall i :: |items + [item]| <= i < |r| ==> r[i].points >= 1
    ensures r[..|items|] == items
    ensures forall i :: |items| <= i < |r| ==> r[i].points >= 1
  {
    assert |items + [item]| == |items| + 1;
    assert r[..|items|] == r[..|items| + 1][..|items|];
    assert r[|items|] == r[..|items| + 1][|items|];
  }

  /** `Refill` on the session's items, at its level and cursor. */
  function Refilled(st: GameState, n: nat, random: nat -> real): (r: GameState)
    ensures r == st.(fallingItems := r.fallingItems, draws := r.draws)
    ensures |r.fallingItems| == |st.fallingItems| + n && r.fallingItems[..|st.fallingItems|] == st.fallingItems
    ensures AllScore(st.fallingItems) ==> AllScore(r.fallingItems)
  {
    var make := ItemMaker(st.level, st.bonusItems, random);
    var p := Refill(make, st.fallingItems, st.draws, n);
    RefillExtends(make, st.fallingItems, st.draws, n);
    AllScoreJoin(st.fallingItems, p.0);
    st.(fallingItems := p.0, draws := p.1)
  }

  lemma AllScoreJoin(items: seq<Entity>, r: seq<Entity>)
    requires |items| <= |r| && r[..|items|] == items
    requires forall i :: |items| <= i < |r| ==> r[i].points >= 1
    ensures AllScore(items) ==> AllScore(r)
  {
    forall i | 0 <= i < |items| && AllScore(items)
      ensures r[i].points >= 1
    {
      assert r[i] == r[..|items|][i];
    }
  }

  // ---------------------------------------------------------------------------
  // Screen shake, speed, basket movement
  // ---------------------------------------------------------------------------

  /** `startScreenShake`: unconditionally restart with the new intensity and duration. */
  function StartScreenShake(intensity: real, duration: real): ScreenShakeState {
    ScreenShakeState(true, intensity, duration, duration)
  }

  /** `updateScreenShake`: count down an active shake and stop it at zero. */
  function UpdateScreenShake(s: ScreenShakeState, deltaTime: real): ScreenShakeState {
    if !s.active then s
    else
      var t := s.timeLeft - deltaTime * 1000.0;
      s.(timeLeft := t, active := t > 0.0)
  }

  /**
   * For a frame of `deltaTime >= 0` the update never starts a shake, never
   * adds time and keeps its strength; an active shake loses one frame of
   * time and stays active exactly while some is left.
   */
  lemma ScreenShakeCountsDown(s: ScreenShakeState, deltaTime: real)
    requires deltaTime >= 0.0
    ensures var s' := UpdateScreenShake(s, deltaTime);
            (s'.active ==> s.active) && s'.timeLeft <= s.timeLeft &&
            s'.intensity == s.intensity && s'.duration == s.duration
    ensures s.active ==>
            UpdateScreenShake(s, deltaTime).timeLeft == s.timeLeft - deltaTime * 1000.0 &&
            (UpdateScreenShake(s, deltaTime).active <==> s.timeLeft - deltaTime * 1000.0 > 0.0)
  {
  }

  /** The screen shake after `n` frames of `deltaTime`. */
  function ScreenShakeAfter(s: ScreenShakeState, deltaTime: real, n: nat): ScreenShakeState {
    if n == 0 then s else UpdateScreenShake(ScreenShakeAfter(s, deltaTime, n - 1), deltaTime)
  }

  /** While the screen shake stays active, each frame takes exactly its time off. */
  lemma {:induction false} ScreenShakeTimeLeftAfter(s: ScreenShakeState, deltaTime: real, n: nat)
    requires ScreenShakeAfter(s, deltaTime, n).active
    ensures ScreenShakeAfter(s, deltaTime, n).timeLeft == s.timeLeft - (n as real) * deltaTime * 1000.0
  {
    if n > 0 {
      assert ScreenShakeAfter(s, deltaTime, n - 1).active;
      ScreenShakeTimeLeftAfter(s, deltaTime, n - 1);
    }
  }

  /**
   * Once `n` frames of a positive `deltaTime` cover its time left, a live
   * screen shake (an active one has time left, as `startScreenShake` leaves
   * it) has stopped.
   */
  lemma {:induction false} ScreenShakeEnds(s: ScreenShakeState, deltaTime: real, n: nat)
    requires (s.active ==> s.timeLeft > 0.0) && deltaTime > 0.0 && (n as real) * deltaTime * 1000.0 >= s.timeLeft
    ensures !ScreenShakeAfter(s, deltaTime, n).active
  {
    if n > 0 {
      var prev := ScreenShakeAfter(s, deltaTime, n - 1);
      if prev.active {
        ScreenShakeTimeLeftAfter(s, deltaTime, n - 1);
        assert ((n - 1) as real) * deltaTime * 1000.0 + deltaTime * 1000.0 == (n as real) * deltaTime * 1000.0;
        assert prev.timeLeft - deltaTime * 1000.0 <= 0.0;
      }
      assert ScreenShakeAfter(s, deltaTime, n) == UpdateScreenShake(prev, deltaTime);
    }
  }

  /** `changeGameSpeed(delta)`: add and clamp to [0.25, 2.0]. */
  function ChangeGameSpeed(st: GameState, delta: real): GameState {
    st.(gameSpeed := MaxReal(0.25, MinReal(2.0, st.gameSpeed + delta)))
  }

  function ResetGameSpeed(st: GameState): GameState {
    st.(gameSpeed := 1.0)
  }

  /** `moveBasket`: arrow keys step the basket while it is inside the canvas; `m` toggles mute. */
  function MoveBasket(st: GameState, key: string): GameState {
    if st.isPaused then st
    else
      var b := st.basket;
      var moved :=
        if key == "ArrowLeft" && b.x > 0.0 then b.(x := b.x - b.speed)
        else if key == "ArrowRight" && b.x + b.width < CanvasWidth then b.(x := b.x + b.speed)
        else b;
      var s := st.(basket := moved);
      if key == "m" || key == "M" then s.(isMuted := !s.isMuted) else s
  }

  /** `touchMoveBasket`: centre the basket on the touch, then clamp it into the canvas. */
  function TouchMoveBasket(st: GameState, touchX: real): GameState {
    if st.isPaused then st
    else
      var b := st.basket;
      var x0 := touchX - b.width / 2.0;
      var x1 := if x0 < 0.0 then 0.0 else x0;
      var x2 := if x1 + b.width > CanvasWidth then CanvasWidth - b.width else x1;
      st.(basket := b.(x := x2))
  }

  // ---------------------------------------------------------------------------
  // Level up, game over, start
  // ---------------------------------------------------------------------------

  /** `levelUp`: next level, pause, record the next target. */
  function LevelUp(st: GameState): GameState
    requires st.level >= 1
  {
    st.(level := st.level + 1, isPaused := true, targetScore := TargetAfterLevelUp(st.level + 1))
  }

  /** `gameOver`: pause (the spawn intervals it clears only run while unpaused anyway). */
  function GameOver(st: GameState): GameState {
    st.(isPaused := true)
  }

  /**
   * `pauseGame`: flip the pause flag.  The Pause button stays wired after
   * `gameOver`, so this also unpauses a finished game.
   */
  function PauseGame(st: GameState): GameState {
    st.(isPaused := !st.isPaused)
  }

  /**
   * `continueToNextLevel`: unpause.  The obstacle interval it starts is
   * `ContinuedObstacleTick` with the row of the level at this moment.
   */
  function ContinueToNextLevel(st: GameState): GameState {
    st.(isPaused := false)
  }

  /**
   * `startGame`: a fresh `gameState` keeping the mute flag and the game
   * speed, the basket centred on its old width and then resized for 3
   * lives, and five new items.  The screen shake, the gold-rush intervals
   * and the random cursor carry over.
   */
  function StartGame(st: GameState, now: real, random: nat -> real): GameState {
    Refilled(ResetSession(st), PoolSize, random).(lastUpdateTime := now)
  }

  /** The resets `startGame` makes before it fills the catch pool. */
  function ResetSession(st: GameState): GameState {
    GameState(
      st.draws, 0, 1, 3, LevelConfig[0].targetScore, false, st.isMuted,
      false, None, 0.0, [], [], [], None,
      if st.gameSpeed != 0.0 then st.gameSpeed else 1.0, 0.0,
      false, None, st.goldRushIntervals,
      StartBasket(st.basket),
      st.screenShake)
  }

  /** `startGame` centres the basket at its current width, then gives it the full three-life size. */
  function StartBasket(b: BasketState): (r: BasketState)
    ensures r.x + b.width / 2.0 == CanvasWidth / 2.0 && r.width == 80.0 && r.height == 60.0 && !r.powerupActive
    ensures r.y == b.y && r.speed == b.speed
  {
    b.(x := CanvasWidth / 2.0 - b.width / 2.0, width := 80.0 * LifeSizeFactor(3), height := 60.0 * LifeSizeFactor(3),
       powerupActive := false)
  }

  // ---------------------------------------------------------------------------
  // Power-ups
  // ---------------------------------------------------------------------------

  /** Sum of the points of the items: what `blast` scores (its multiplier is always 1). */
  function SumPoints(es: seq<Entity>): int {
    if es == [] then 0 else es[0].points + SumPoints(es[1..])
  }

  /** Adding an item at the end adds its points: the sum can be taken front to back. */
  lemma {:induction false} SumPointsAppend(es: seq<Entity>, e: Entity)
    ensures SumPoints(es + [e]) == SumPoints(es) + e.points
    decreases |es|
  {
    if es != [] {
      assert (es + [e])[1..] == es[1..] + [e];
      SumPointsAppend(es[1..], e);
    } else {
      assert [e][1..] == [];
    }
  }

  /** Gilding and reverting always leave an item worth a catalog price: at least one point. */
  lemma GoldKeepsPoints(e: Entity, u: real)
    requires 0.0 <= u < 1.0
    ensures e.points >= 1 ==> GoldFirstPass(e, u).points >= 1 && GoldTick(e, u).points >= 1 && GoldRevert(e, u).points >= 1
  {
    ItemTypesWellFormed();
    if e.kind.Fruit? {
      var gold := GoldTypes[PickIndex(u, |GoldTypes|)];
      assert FindItem(gold) in ItemTypes;
      var plain := NormalFruits[PickIndex(u, |NormalFruits|)];
      assert FindItem(plain) in ItemTypes;
    }
  }

  /**
   * A pass over the items in order that takes one draw for each item
   * `draws` selects and rewrites that item with `f`; the others stay as
   * they are and take no draw.  The cursor after the pass is `r.1`.
   */
  function DrawMap(f: (Entity, real) --> Entity, draws: Entity -> bool, es: seq<Entity>, random: nat -> real, c: nat): (r: (seq<Entity>, nat))
    requires IsUnitStream(random)
    requires forall e: Entity, u: real :: 0.0 <= u < 1.0 ==> f.requires(e, u)
    ensures |r.0| == |es| && r.1 >= c
    decreases |es|
  {
    if es == [] then ([], c)
    else if draws(es[0]) then
      var (rest, next) := DrawMap(f, draws, es[1..], random, c + 1);
      ([f(es[0], random(c))] + rest, next)
    else
      var (rest, next) := DrawMap(f, draws, es[1..], random, c);
      ([es[0]] + rest, next)
  }

  /** A pass whose step keeps an item scoring keeps every item scoring. */
  lemma {:induction false} DrawMapScores(f: (Entity, real) --> Entity, draws: Entity -> bool, es: seq<Entity>, random: nat -> real, c: nat)
    requires IsUnitStream(random)
    requires forall e: Entity, u: real :: 0.0 <= u < 1.0 ==> f.requires(e, u)
    requires forall e: Entity, u: real :: 0.0 <= u < 1.0 && e.points >= 1 ==> f(e, u).points >= 1
    ensures AllScore(es) ==> AllScore(DrawMap(f, draws, es, random, c).0)
    decreases |es|
  {
    if es != [] && AllScore(es) {
      var c' := if draws(es[0]) then c + 1 else c;
      assert AllScore(es[1..]) by {
        forall j | 0 <= j < |es[1..]| ensures es[1..][j].points >= 1 {
          assert es[1..][j] == es[j + 1];
        }
      }
      DrawMapScores(f, draws, es[1..], random, c');
      var r := DrawMap(f, draws, es, random, c).0;
      var rest := DrawMap(f, draws, es[1..], random, c').0;
      assert r == [r[0]] + rest;
      forall j | 0 <= j < |r| ensures r[j].points >= 1 {
        if j > 0 {
          assert r[j] == rest[j - 1];
        }
      }
    }
  }

  /**
   * A relation every step keeps between an item and what becomes of it holds
   * between each item and its image after the pass.
   */
  lemma {:induction false} DrawMapPointwise(f: (Entity, real) --> Entity, draws: Entity -> bool, R: (Entity, Entity) -> bool,
                                            es: seq<Entity>, random: nat -> real, c: nat)
    requires IsUnitStream(random)
    requires forall e: Entity, u: real :: 0.0 <= u < 1.0 ==> f.requires(e, u)
    requires forall e: Entity, u: real :: 0.0 <= u < 1.0 && draws(e) ==> R(e, f(e, u))
    requires forall e: Entity :: !draws(e) ==> R(e, e)
    ensures var r := DrawMap(f, draws, es, random, c).0;
            forall j :: 0 <= j < |es| ==> R(es[j], r[j])
    decreases |es|
  {
    if es != [] {
      var c' := if draws(es[0]) then c + 1 else c;
      DrawMapPointwise(f, draws, R, es[1..], random, c');
      var r := DrawMap(f, draws, es, random, c).0;
      var rest := DrawMap(f, draws, es[1..], random, c').0;
      assert r == [r[0]] + rest;
      forall j | 0 <= j < |es| ensures R(es[j], r[j]) {
        if j > 0 {
          assert r[j] == rest[j - 1] && es[j] == es[1..][j - 1];
        }
      }
    }
  }

  /** A pass that draws for every item takes exactly one draw per item. */
  lemma {:induction false} DrawMapCountsAll(f: (Entity, real) --> Entity, draws: Entity -> bool, es: seq<Entity>, random: nat -> real, c: nat)
    requires IsUnitStream(random)
    requires forall e: Entity, u: real :: 0.0 <= u < 1.0 ==> f.requires(e, u)
    requires forall e: Entity :: draws(e)
    ensures DrawMap(f, draws, es, random, c).1 == c + |es|
    decreases |es|
  {
    if es != [] {
      DrawMapCountsAll(f, draws, es[1..], random, c + 1);
    }
  }

  /** Every gold step keeps an item worth at least one point. */
  lemma GoldStepsScore()
    ensures forall e: Entity, u: real :: 0.0 <= u < 1.0 && e.points >= 1 ==> GoldFirstPass(e, u).points >= 1
    ensures forall e: Entity, u: real :: 0.0 <= u < 1.0 && e.points >= 1 ==> GoldTick(e, u).points >= 1
    ensures forall e: Entity, u: real :: 0.0 <= u < 1.0 && e.points >= 1 ==> GoldRevert(e, u).points >= 1
  {
    forall e: Entity, u: real | 0.0 <= u < 1.0 {
      GoldKeepsPoints(e, u);
    }
  }

  /**
   * Always true: the draw selector of `gold rush`'s first pass, which takes a
   * draw for every item, fruit or not.
   */
  predicate EveryItem(e: Entity) {
    true
  }

  /** `gold rush`'s first pass: one draw per item, in order. */
  function GoldFirstAll(es: seq<Entity>, random: nat -> real, c: nat): (r: (seq<Entity>, nat))
    requires IsUnitStream(random)
    ensures |r.0| == |es| && r.1 == c + |es|
    ensures AllScore(es) ==> AllScore(r.0)
  {
    GoldStepsScore();
    DrawMapScores(GoldFirstPass, EveryItem, es, random, c);
    DrawMapCountsAll(GoldFirstPass, EveryItem, es, random, c);
    DrawMap(GoldFirstPass, EveryItem, es, random, c)
  }

  /** The gold passes are the plain draw passes of their steps. */
  lemma GoldPassesAreDrawMaps(es: seq<Entity>, random: nat -> real, c: nat)
    requires IsUnitStream(random)
    ensures GoldFirstAll(es, random, c) == DrawMap(GoldFirstPass, EveryItem, es, random, c)
    ensures GoldTickAll(es, random, c) == DrawMap(GoldTick, TickDraws, es, random, c)
    ensures GoldRevertAll(es, random, c) == DrawMap(GoldRevert, RevertDraws, es, random, c)
  {
  }

  /** One tick of a gold-rush interval: a draw for each unmarked item. */
  function GoldTickAll(es: seq<Entity>, random: nat -> real, c: nat): (r: (seq<Entity>, nat))
    requires IsUnitStream(random)
    ensures |r.0| == |es| && r.1 >= c
    ensures AllScore(es) ==> AllScore(r.0)
  {
    GoldStepsScore();
    DrawMapScores(GoldTick, TickDraws, es, random, c);
    DrawMap(GoldTick, TickDraws, es, random, c)
  }

  /** The gold-rush revert: a draw for each marked item. */
  function GoldRevertAll(es: seq<Entity>, random: nat -> real, c: nat): (r: (seq<Entity>, nat))
    requires IsUnitStream(random)
    ensures |r.0| == |es| && r.1 >= c
    ensures AllScore(es) ==> AllScore(r.0)
  {
    GoldStepsScore();
    DrawMapScores(GoldRevert, RevertDraws, es, random, c);
    DrawMap(GoldRevert, RevertDraws, es, random, c)
  }

  /** `blast`: score every item, shake, replace the items with five new ones, clear the obstacles. */
  function BlastEffect(st: GameState, random: nat -> real): GameState
  {
    Refilled(BlastScored(st), PoolSize, random).(obstacles := [])
  }

  /** The part of `blast` before the new items: score every item (multiplier 1), shake, empty the items. */
  function BlastScored(st: GameState): GameState {
    st.(score := st.score + SumPoints(st.fallingItems), screenShake := StartScreenShake(20.0, 500.0), fallingItems := [])
  }

  /** The clean-up `activatePowerup` does for the power-up it pre-empts. */
  function Preempt(st: GameState): GameState {
    if Active(st, Giant) then st.(basket := st.basket.(width := 80.0, height := 60.0))
    else if Active(st, DoubleTrouble) then st.(shadowBasket := None)
    else st
  }

  /** The bookkeeping of `activatePowerup(type, duration)`: pre-empt, then make `type` the one active power-up. */
  function Engaged(st: GameState, t: Power, duration: real): GameState {
    var pre := Preempt(st);
    pre.(hasActivePowerup := true, activePowerupType := Some(t), powerupTimeLeft := duration,
         basket := pre.basket.(powerupActive := true))
  }

  /** The immediate effect of power-up `t`; the others act through the frame, the timeouts or not at all. */
  function Effect(s: GameState, t: Power, random: nat -> real): (r: GameState)
    requires IsUnitStream(random)
    ensures r.level == s.level && r.bonusItems == s.bonusItems
  {
    match t
    case Blast => BlastEffect(s, random)
    case ExtraLife => ExtraLifeEffect(s)
    case Giant => GiantEffect(s)
    case Freeze => FreezeEffect(s)
    case TimeSlow => TimeSlowEffect(s)
    case DoubleTrouble => DoubleTroubleEffect(s)
    case GoldRush => GoldRushEffect(s, random)
    case _ => s
  }

  /** `extraLife`: a life and invincibility below three lives, else 50 points. */
  function ExtraLifeEffect(s: GameState): GameState {
    if s.lives < 3 then s.(lives := s.lives + 1, isInvincible := true) else s.(score := s.score + 50)
  }

  /** `giant`: one and a half times the size the lives allow. */
  function GiantEffect(s: GameState): GameState {
    s.(basket := s.basket.(width := 80.0 * LifeSizeFactor(s.lives) * 1.5, height := 60.0 * LifeSizeFactor(s.lives) * 1.5))
  }

  /** `freeze`: stop every item and obstacle. */
  function FreezeEffect(s: GameState): GameState {
    s.(fallingItems := Mapped(s.fallingItems, FreezeEntity), obstacles := Mapped(s.obstacles, FreezeEntity))
  }

  /** `timeSlow`: halve every speed, unless a slow-down is already on. */
  function TimeSlowEffect(s: GameState): GameState {
    if s.timeSlowFactor.None? then
      s.(timeSlowFactor := Some(0.5), fallingItems := Mapped(s.fallingItems, Slow), obstacles := Mapped(s.obstacles, Slow))
    else s
  }

  /** `doubleTrouble`: a shadow basket of the basket's size, offset by (-30, -30). */
  function DoubleTroubleEffect(s: GameState): GameState {
    s.(shadowBasket := Some(ShadowBasket(s.basket.width, s.basket.height, -30.0, -30.0)))
  }

  /** `goldRush`: gild every item and start one more gold-rush interval. */
  function GoldRushEffect(s: GameState, random: nat -> real): GameState
    requires IsUnitStream(random)
  {
    var (items, next) := GoldFirstAll(s.fallingItems, random, s.draws);
    s.(fallingItems := items, draws := next, goldRushIntervals := s.goldRushIntervals + 1)
  }

  /** `activatePowerup(type, duration)`. */
  function ActivatePowerup(st: GameState, t: Power, duration: real, random: nat -> real): (r: GameState)
    requires IsUnitStream(random)
    ensures r.level == st.level && r.bonusItems == st.bonusItems
  {
    Effect(Engaged(st, t, duration), t, random)
  }

  // ---------------------------------------------------------------------------
  // Timeouts and intervals
  // ---------------------------------------------------------------------------

  /** The freeze timeout: thaw everything if `freeze` is still the active type. */
  function RevertFreeze(st: GameState): GameState {
    if st.activePowerupType == Some(Freeze) then
      st.(fallingItems := Mapped(st.fallingItems, ThawEntity), obstacles := Mapped(st.obstacles, ThawEntity))
    else st
  }

  /** The time-slow timeout: restore speeds if the slow-down is still on and `timeSlow` still active. */
  function RevertTimeSlow(st: GameState): GameState {
    if st.timeSlowFactor.Some? && st.activePowerupType == Some(TimeSlow) then
      st.(timeSlowFactor := None, fallingItems := Mapped(st.fallingItems, Restore), obstacles := Mapped(st.obstacles, Restore))
    else st
  }

  /** The double-trouble timeout. */
  function RemoveShadow(st: GameState): GameState {
    if st.activePowerupType == Some(DoubleTrouble) && st.shadowBasket.Some? then st.(shadowBasket := None) else st
  }

  /** The extra-life timeout. */
  function EndInvincibility(st: GameState): GameState {
    st.(isInvincible := false)
  }

  /** One tick of a running gold-rush interval (it runs paused or not). */
  function GoldRushTick(st: GameState, random: nat -> real): GameState
    requires IsUnitStream(random)
  {
    if st.goldRushIntervals == 0 then st
    else
      var (items, next) := GoldTickAll(st.fallingItems, random, st.draws);
      st.(fallingItems := items, draws := next)
  }

  function Decremented(n: nat): nat {
    if n > 0 then n - 1 else 0
  }

  /**
   * The gold-rush timeout as written: the interval is cleared only inside
   * the `activePowerupType === "goldRush"` test, so a gold rush pre-empted
   * by another power-up leaves its interval running.
   */
  function RevertGoldRushAsWritten(st: GameState, random: nat -> real): GameState
    requires IsUnitStream(random)
  {
    if st.activePowerupType == Some(GoldRush) then
      var (items, next) := GoldRevertAll(st.fallingItems, random, st.draws);
      st.(goldRushIntervals := Decremented(st.goldRushIntervals), fallingItems := items, draws := next)
    else st
  }

  /** The gold-rush timeout as intended: always clear the interval, revert only if still active. */
  function RevertGoldRush(st: GameState, random: nat -> real): GameState
    requires IsUnitStream(random)
  {
    var s := st.(goldRushIntervals := Decremented(st.goldRushIntervals));
    if st.activePowerupType == Some(GoldRush) then
      var (items, next) := GoldRevertAll(s.fallingItems, random, s.draws);
      s.(fallingItems := items, draws := next)
    else s
  }

  /** The obstacle spawner tick: spawn while unpaused and under the level's obstacle cap. */
  function SpawnObstacleTick(st: GameState, random: nat -> real): GameState
    requires st.level >= 1
  {
    if !st.isPaused && |st.obstacles| < LevelRowFor(st.level).maxObstacles then ObstacleSpawned(st, random) else st
  }

  /**
   * A tick of the obstacle interval `continueToNextLevel` starts: the cap
   * is that of `row`, the level row read when the interval was started,
   * not the row of the session's current level.
   */
  function ContinuedObstacleTick(st: GameState, row: LevelRow, random: nat -> real): GameState
    requires st.level >= 1
  {
    if !st.isPaused && |st.obstacles| < row.maxObstacles then ObstacleSpawned(st, random) else st
  }

  /** `obstacles.push(createObstacle())`. */
  function ObstacleSpawned(st: GameState, random: nat -> real): GameState
    requires st.level >= 1
  {
    var step := NewObstacle(st.level, Active(st, TimeSlow), st.obstacles, st.draws, random);
    st.(obstacles := st.obstacles + [step.0], draws := step.1)
  }

  /** The power-up spawner tick: while unpaused with no power-up falling, roll against the level's chance. */
  function SpawnPowerupTick(st: GameState, random: nat -> real): GameState
    requires st.level >= 1 && IsUnitStream(random)
  {
    if !st.isPaused && |st.bonusItems| < 1 then
      var s := st.(draws := st.draws + 1);
      if random(st.draws) < PowerupChance(st.level) then PowerupSpawned(s, random) else s
    else st
  }

  /** `bonusItems.push(createPowerup())`. */
  function PowerupSpawned(st: GameState, random: nat -> real): GameState
    requires st.level >= 1 && IsUnitStream(random)
  {
    var (p, next) := NewPowerup(st.level, st.fallingItems, st.bonusItems, st.draws, random);
    st.(bonusItems := st.bonusItems + [p], draws := next)
  }

  // ---------------------------------------------------------------------------
  // The frame
  // ---------------------------------------------------------------------------

  /** The drawing functions move entities: items and obstacles unless frozen, power-ups always. */
  function DrawPhase(st: GameState): GameState {
    st.(fallingItems := Mapped(st.fallingItems, DrawStep),
        bonusItems := Mapped(st.bonusItems, DrawMove),
        obstacles := Mapped(st.obstacles, DrawStep))
  }

  /** The power-up countdown and its expiry clean-up. */
  function CountDown(st: GameState, adjustedDeltaTime: real): GameState {
    if !st.hasActivePowerup then st
    else ExpireIfDue(Elapsed(st, adjustedDeltaTime))
  }

  /** `powerupTimeLeft -= adjustedDeltaTime * 1000`. */
  function Elapsed(st: GameState, adjustedDeltaTime: real): GameState {
    st.(powerupTimeLeft := st.powerupTimeLeft - adjustedDeltaTime * 1000.0)
  }

  /** `if (powerupTimeLeft <= 0)`: the expiry. */
  function ExpireIfDue(s: GameState): GameState {
    if s.powerupTimeLeft > 0.0 then s else Expired(s)
  }

  /** The expiry of the active power-up: its clean-up, then no power-up is active. */
  function Expired(s: GameState): GameState {
    var cleaned := ExpiryCleanup(s);
    cleaned.(hasActivePowerup := false, activePowerupType := None, basket := cleaned.basket.(powerupActive := false))
  }

  /** What the expiry of the active power-up undoes: `giant`'s size (the one the lives allow), `timeSlow`'s factor, `doubleTrouble`'s shadow. */
  function ExpiryCleanup(s: GameState): GameState {
    if s.activePowerupType == Some(Giant) then
      s.(basket := s.basket.(width := 80.0 * LifeSizeFactor(s.lives), height := 60.0 * LifeSizeFactor(s.lives)))
    else if s.activePowerupType == Some(TimeSlow) then
      if s.timeSlowFactor.Some? then s.(timeSlowFactor := None) else s
    else if s.activePowerupType == Some(DoubleTrouble) then s.(shadowBasket := None)
    else s
  }

  /** `gameLoop`'s position update. */
  function Advance(st: GameState, adjustedDeltaTime: real): GameState {
    st.(fallingItems := Mapped(st.fallingItems, e => AdvanceStep(e, adjustedDeltaTime, true)),
        bonusItems := Mapped(st.bonusItems, e => AdvanceStep(e, adjustedDeltaTime, false)),
        obstacles := Mapped(st.obstacles, e => AdvanceStep(e, adjustedDeltaTime, true)))
  }

  /** The points catching `item` is worth: double under `multiplier`. */
  function Gain(st: GameState, item: Entity): int {
    if Active(st, Multiplier) then item.points * 2 else item.points
  }

  /** A caught item scores, is spliced out, and a new item is pushed. */
  function Caught(st: GameState, i: nat, random: nat -> real): (r: GameState)
    requires i < |st.fallingItems|
  {
    var s := Spliced(st, i);
    ItemPushed(s, NewItem(s.level, s.fallingItems, s.bonusItems, s.draws, random))
  }

  /** The caught item's points are added and the item is spliced out. */
  function Spliced(st: GameState, i: nat): GameState
    requires i < |st.fallingItems|
  {
    st.(score := st.score + Gain(st, st.fallingItems[i]), fallingItems := Remove(st.fallingItems, i))
  }

  /** `fallingItems.push(item)` for the item and cursor `step` that `createFallingItem` returned. */
  function ItemPushed(st: GameState, step: (Entity, nat)): GameState {
    st.(fallingItems := st.fallingItems + [step.0], draws := step.1)
  }

  /** An item past the bottom is replaced where it is. */
  function Replaced(st: GameState, i: nat, random: nat -> real): (r: GameState)
    requires i < |st.fallingItems|
  {
    var p := NewItem(st.level, st.fallingItems, st.bonusItems, st.draws, random);
    st.(fallingItems := st.fallingItems[i := p.0], draws := p.1)
  }

  /**
   * One index of the item pass: a caught item that brings the score to
   * the current row's target levels up and stops the pass (the `true`).
   */
  function ItemStep(st: GameState, i: nat, random: nat -> real): (r: (GameState, bool))
    requires i < |st.fallingItems| && st.level >= 1
    ensures |r.0.fallingItems| == |st.fallingItems| && r.0.level >= st.level
  {
    var item := st.fallingItems[i];
    if item.frozen then (st, false)
    else if Collides(st, item) then
      var s := Caught(st, i, random);
      if s.score >= LevelRowFor(s.level).targetScore then (LevelUp(s), true) else (s, false)
    else if item.y > CanvasHeight then (Replaced(st, i, random), false)
    else (st, false)
  }

  /** The item pass from index `i` down to 0, stopping after a level-up. */
  function ItemPassFrom(st: GameState, i: int, random: nat -> real): (r: GameState)
    requires -1 <= i < |st.fallingItems| && st.level >= 1
    ensures r.level >= st.level
    decreases i + 1
  {
    if i < 0 then st
    else
      var (s, stop) := ItemStep(st, i, random);
      if stop then s else ItemPassFrom(s, i - 1, random)
  }

  /** One index of the power-up pass: a caught power-up is activated and spliced out; one past the bottom is spliced out. */
  function BonusStep(st: GameState, i: nat, random: nat -> real): (r: GameState)
    requires i < |st.bonusItems| && st.level >= 1 && IsUnitStream(random)
    ensures r.level == st.level && |r.bonusItems| >= i
    ensures r.bonusItems == st.bonusItems || r.bonusItems == Remove(st.bonusItems, i)
  {
    var item := st.bonusItems[i];
    if Collides(st, item) then
      var s := if item.kind.Bonus? then ActivatePowerup(st, item.kind.power, item.kind.duration, random) else st;
      s.(bonusItems := Remove(st.bonusItems, i))
    else if item.y > CanvasHeight then st.(bonusItems := Remove(st.bonusItems, i))
    else st
  }

  function BonusPassFrom(st: GameState, i: int, random: nat -> real): GameState
    requires -1 <= i < |st.bonusItems| && st.level >= 1 && IsUnitStream(random)
    decreases i + 1
  {
    if i < 0 then st
    else
      var s := BonusStep(st, i, random);
      BonusPassFrom(s, i - 1, random)
  }

  /**
   * One index of the obstacle pass.  Under `shield` or invincibility a hit
   * only removes the obstacle.  Otherwise it costs five times its points
   * (never below 0) and a life, resizes the basket for the lives left unless
   * `giant` is active, and shakes the screen; when no life is left the game
   * ends and the pass stops before the splice.
   */
  function ObstacleStep(st: GameState, i: nat): (r: (GameState, bool))
    requires i < |st.obstacles|
  {
    var o := st.obstacles[i];
    if o.frozen then (st, false)
    else if Collides(st, o) then
      if Active(st, Shield) || st.isInvincible then (st.(obstacles := Remove(st.obstacles, i)), false)
      else
        var (hurt, over) := Hurt(st, o);
        if over then (hurt, true)
        else (hurt.(obstacles := Remove(hurt.obstacles, i)), false)
    else if o.y > CanvasHeight then (st.(obstacles := Remove(st.obstacles, i)), false)
    else (st, false)
  }

  /** An unshielded hit by `o`, and whether it ended the game. */
  function Hurt(st: GameState, o: Entity): (r: (GameState, bool))
    ensures r.0.obstacles == st.obstacles
  {
    var lives := st.lives - 1;
    var hit := st.(score := MaxInt(0, st.score - o.points * 5), lives := lives);
    var resized :=
      if !Active(st, Giant) then
        hit.(basket := hit.basket.(width := 80.0 * HitSizeFactor(lives), height := 60.0 * HitSizeFactor(lives)))
      else hit;
    var shaken := resized.(screenShake := StartScreenShake((o.points * 3 + 3) as real, 300.0));
    if lives <= 0 then (GameOver(shaken), true) else (shaken, false)
  }

  function ObstaclePassFrom(st: GameState, i: int): GameState
    requires -1 <= i < |st.obstacles|
    decreases i + 1
  {
    if i < 0 then st
    else
      var (s, stop) := ObstacleStep(st, i);
      if stop then s else ObstaclePassFrom(s, i - 1)
  }

  /** The frame's time step: `min((now - last) / 1000, 0.1) * gameSpeed`. */
  function AdjustedDeltaTime(st: GameState, now: real): real {
    MinReal((now - st.lastUpdateTime) / 1000.0, 0.1) * st.gameSpeed
  }

  /**
   * `gameLoop(now)`: record the time; when unpaused, update the screen
   * shake, move entities as the drawing does, count the power-up down,
   * advance positions, then run the item, power-up and obstacle passes.
   */
  function Frame(st: GameState, now: real, random: nat -> real): GameState
    requires st.level >= 1 && IsUnitStream(random)
  {
    var adjusted := AdjustedDeltaTime(st, now);
    var s := st.(lastUpdateTime := now);
    if s.isPaused then s else Passes(Moved(s, adjusted), random)
  }

  /** Everything an unpaused frame does before the collision passes. */
  function Moved(st: GameState, adjustedDeltaTime: real): (r: GameState)
    ensures r.level == st.level
  {
    var shaken := st.(screenShake := UpdateScreenShake(st.screenShake, adjustedDeltaTime));
    Advance(CountDown(DrawPhase(shaken), adjustedDeltaTime), adjustedDeltaTime)
  }

  /** The item, power-up and obstacle passes, each from the last index down. */
  function Passes(st: GameState, random: nat -> real): GameState
    requires st.level >= 1 && IsUnitStream(random)
  {
    var afterItems := ItemPassFrom(st, |st.fallingItems| - 1, random);
    var afterBonus := BonusPassFrom(afterItems, |afterItems.bonusItems| - 1, random);
    ObstaclePassFrom(afterBonus, |afterBonus.obstacles| - 1)
  }

  /** One step of `ItemPassFrom`. */
  lemma ItemPassUnfold(st: GameState, i: nat, random: nat -> real)
    requires i < |st.fallingItems| && st.level >= 1
    ensures var (s, stop) := ItemStep(st, i, random);
            ItemPassFrom(st, i, random) == if stop then s else ItemPassFrom(s, i - 1, random)
  {
  }

  /** One step of `BonusPassFrom`. */
  lemma BonusPassUnfold(st: GameState, i: nat, random: nat -> real)
    requires i < |st.bonusItems| && st.level >= 1 && IsUnitStream(random)
    ensures BonusPassFrom(st, i, random) == BonusPassFrom(BonusStep(st, i, random), i - 1, random)
  {
  }

  /** One step of `ObstaclePassFrom`. */
  lemma ObstaclePassUnfold(st: GameState, i: nat)
    requires i < |st.obstacles|
    ensures var (s, stop) := ObstacleStep(st, i);
            ObstaclePassFrom(st, i) == if stop then s else ObstaclePassFrom(s, i - 1)
  {
  }
}
