/**
 * The falling entities of game.js (fruit items, power-ups, obstacles) and
 * what happens to one entity at a time: the collision test against a
 * basket, the per-frame drift and fall, freezing and thawing, slowing and
 * restoring, and the gold-rush transformation and its revert.
 *
 * In the source every entity is an object that lives in exactly one of the
 * arrays `fallingItems`, `bonusItems` and `obstacles`; nothing else holds a
 * reference to it, so an entity is a value here and the arrays are
 * sequences of values.
 */
module Entities {

  import opened Util
  import opened Catalog
  import opened Spawning

  /** The canvas is set to 400 x 600 when the page loads. */
  const CanvasWidth: real := 400.0
  const CanvasHeight: real := 600.0

  /**
   * What an entity is: a fruit item (with the gold-rush mark), a power-up
   * carrying its type and duration, or an obstacle.
   */
  datatype Kind =
    | Fruit(name: string, goldRushTransformed: bool)
    | Bonus(power: Power, duration: real)
    | Hazard(name: string)

  /**
   * The entity fields the rules read.  `originalSpeed` is 0 when the
   * property is absent: absent and 0 are both falsy and every read of it is
   * `originalSpeed || 2` or `if (originalSpeed)`.  `wobble` is absent on a
   * power-up.  `points` is the obstacle's deduction for an obstacle and 0 for
   * a power-up, which has none.
   */
  datatype Entity = Entity(
    x: real, y: real, size: real, speed: real, points: int,
    frozen: bool, originalSpeed: real, wobble: Option<real>, kind: Kind)

  /** A basket rectangle: the main basket or the shadow basket of `doubleTrouble`. */
  datatype Box = Box(x: real, y: real, width: real, height: real)

  // ---------------------------------------------------------------------------
  // Collision
  // ---------------------------------------------------------------------------

  /** `checkCollision`: the four strict comparisons of the entity square against the box. */
  predicate CheckCollision(e: Entity, b: Box) {
    e.x < b.x + b.width &&
    e.x + e.size > b.x &&
    e.y + e.size > b.y &&
    e.y < b.y + b.height
  }

  /** The point lies strictly inside the entity's square. */
  predicate InSquare(e: Entity, px: real, py: real) {
    e.x < px < e.x + e.size && e.y < py < e.y + e.size
  }

  /** The point lies strictly inside the box. */
  predicate InBox(b: Box, px: real, py: real) {
    b.x < px < b.x + b.width && b.y < py < b.y + b.height
  }

  /** The geometric meaning: some point lies inside both open rectangles. */
  ghost predicate Overlap(e: Entity, b: Box) {
    exists px: real, py: real :: InSquare(e, px, py) && InBox(b, px, py)
  }

  /**
   * For a square and a box of positive size, the collision test holds
   * exactly when they share an interior point; squares that only touch the
   * box along an edge do not collide.
   */
  lemma CollisionIsOverlap(e: Entity, b: Box)
    requires e.size > 0.0 && b.width > 0.0 && b.height > 0.0
    ensures CheckCollision(e, b) <==> Overlap(e, b)
    ensures e.x + e.size == b.x || e.x == b.x + b.width || e.y + e.size == b.y || e.y == b.y + b.height
            ==> !CheckCollision(e, b)
  {
    if CheckCollision(e, b) {
      var px := (MaxReal(e.x, b.x) + MinReal(e.x + e.size, b.x + b.width)) / 2.0;
      var py := (MaxReal(e.y, b.y) + MinReal(e.y + e.size, b.y + b.height)) / 2.0;
      assert InSquare(e, px, py) && InBox(b, px, py);
    }
  }

  // ---------------------------------------------------------------------------
  // Motion
  // ---------------------------------------------------------------------------

  /**
   * The horizontal drift the drawing code applies each drawn frame:
   * `x = max(0, min(x + wobble, canvas.width - size))`.  A missing wobble
   * counts as no drift; see `DriftAsWritten` for what the source does.
   */
  function DriftX(e: Entity): (x: real)
    ensures e.size <= CanvasWidth ==> 0.0 <= x <= CanvasWidth - e.size
  {
    var wobble := if e.wobble.Some? then e.wobble.value else 0.0;
    MaxReal(0.0, MinReal(e.x + wobble, CanvasWidth - e.size))
  }

  /** `drawFallingItems` / `drawObstacles` move a non-frozen entity: drift, then fall one speed step. */
  function DrawMove(e: Entity): Entity {
    e.(x := DriftX(e), y := e.y + e.speed)
  }

  /** The drawing pass over items and obstacles skips frozen entities; power-ups are always moved. */
  function DrawStep(e: Entity): Entity {
    if e.frozen then e else DrawMove(e)
  }

  /** `gameLoop`'s position update: `y += speed * adjustedDeltaTime * 60`, frozen entities excepted. */
  function AdvanceStep(e: Entity, adjustedDeltaTime: real, skipFrozen: bool): Entity {
    if skipFrozen && e.frozen then e else e.(y := e.y + e.speed * adjustedDeltaTime * 60.0)
  }

  /** A frozen entity stays where it is through both moves of a frame. */
  lemma FrozenStaysPut(e: Entity, adjustedDeltaTime: real)
    requires e.frozen
    ensures AdvanceStep(DrawStep(e), adjustedDeltaTime, true) == e
  {
  }

  /** Drift keeps an entity that fits the canvas on the canvas, and moves nothing but `x` and `y`. */
  lemma DrawMoveStaysOnCanvas(e: Entity)
    requires 0.0 < e.size <= CanvasWidth
    ensures 0.0 <= DrawMove(e).x <= CanvasWidth - e.size
    ensures DrawMove(e).(x := e.x, y := e.y) == e
    ensures DrawMove(e).y - e.y == e.speed
  {
  }

  // ---------------------------------------------------------------------------
  // Freeze and time slow
  // ---------------------------------------------------------------------------

  /** `freeze`: mark frozen, remember the speed, stop. */
  function FreezeEntity(e: Entity): Entity {
    e.(frozen := true, originalSpeed := e.speed, speed := 0.0)
  }

  /** The freeze timeout: a frozen entity gets `originalSpeed || 2` back; `originalSpeed` is kept. */
  function ThawEntity(e: Entity): Entity {
    if e.frozen then e.(frozen := false, speed := if e.originalSpeed != 0.0 then e.originalSpeed else 2.0)
    else e
  }

  /**
   * Thawing undoes a freeze of a moving, unfrozen entity except that the
   * remembered speed stays behind; a stationary one comes back at speed 2.
   */
  lemma ThawUndoesFreeze(e: Entity)
    requires !e.frozen
    ensures e.speed != 0.0 ==> ThawEntity(FreezeEntity(e)) == e.(originalSpeed := e.speed)
    ensures e.speed == 0.0 ==> ThawEntity(FreezeEntity(e)) == e.(originalSpeed := 0.0, speed := 2.0)
  {
  }

  /**
   * A second freeze before the first thaw overwrites the remembered speed
   * with 0, so the thaw restores speed 2 instead of the entity's own speed.
   */
  lemma RefreezeLosesSpeed(e: Entity)
    ensures ThawEntity(FreezeEntity(FreezeEntity(e))).speed == 2.0
    ensures !ThawEntity(FreezeEntity(FreezeEntity(e))).frozen
  {
  }

  /** `timeSlow`: remember the speed and halve it. */
  function Slow(e: Entity): Entity {
    e.(originalSpeed := e.speed, speed := e.speed * 0.5)
  }

  /** The time-slow timeout: `if (originalSpeed) { speed = originalSpeed; delete originalSpeed }`. */
  function Restore(e: Entity): Entity {
    if e.originalSpeed != 0.0 then e.(speed := e.originalSpeed, originalSpeed := 0.0) else e
  }

  /** Restoring undoes a slow-down of a moving entity; a stationary one was never slowed. */
  lemma RestoreUndoesSlow(e: Entity)
    ensures e.speed != 0.0 ==> Restore(Slow(e)) == e.(originalSpeed := 0.0)
    ensures e.speed == 0.0 ==> Restore(Slow(e)).speed == 0.0
  {
  }

  // ---------------------------------------------------------------------------
  // Gold rush
  // ---------------------------------------------------------------------------

  /** A fruit becomes the gold type drawn by `u`, worth double its catalog points. */
  function Gilded(e: Entity, u: real, mark: bool): (r: Entity)
    requires 0.0 <= u < 1.0 && e.kind.Fruit?
  {
    var name := GoldTypes[PickIndex(u, |GoldTypes|)];
    e.(kind := Fruit(name, mark), points := FindItem(name).points * 2)
  }

  /** `activatePowerup("goldRush")`'s first pass: gild the item but leave its mark as it was. */
  function GoldFirstPass(e: Entity, u: real): Entity
    requires 0.0 <= u < 1.0
  {
    if e.kind.Fruit? then Gilded(e, u, e.kind.goldRushTransformed) else e
  }

  /** One item in a tick of the gold-rush interval: gild and mark an unmarked item. */
  function GoldTick(e: Entity, u: real): Entity
    requires 0.0 <= u < 1.0
  {
    if e.kind.Fruit? && !e.kind.goldRushTransformed then Gilded(e, u, true) else e
  }

  /** The gold-rush timeout for one item: a marked item becomes the fruit drawn by `u`, unmarked. */
  function GoldRevert(e: Entity, u: real): Entity
    requires 0.0 <= u < 1.0
  {
    if e.kind.Fruit? && e.kind.goldRushTransformed then
      var name := NormalFruits[PickIndex(u, |NormalFruits|)];
      e.(kind := Fruit(name, false), points := FindItem(name).points)
    else e
  }

  /** Does the gold-rush step consume a draw for this item? */
  predicate TickDraws(e: Entity) {
    e.kind.Fruit? && !e.kind.goldRushTransformed
  }

  predicate RevertDraws(e: Entity) {
    e.kind.Fruit? && e.kind.goldRushTransformed
  }

  /**
   * A gilded item is a coin, gem or star worth 6 or 10; only its type,
   * mark and points change.
   */
  lemma GildedIsGold(e: Entity, u: real, mark: bool)
    requires 0.0 <= u < 1.0 && e.kind.Fruit?
    ensures Gilded(e, u, mark).kind.name in GoldTypes
    ensures Gilded(e, u, mark).points == 6 || Gilded(e, u, mark).points == 10
    ensures Gilded(e, u, mark).kind.goldRushTransformed == mark
    ensures Gilded(e, u, mark).(kind := e.kind, points := e.points) == e
  {
    GoldPoints(PickIndex(u, |GoldTypes|));
  }

  /**
   * The tick and the revert are partners: the revert turns a ticked item
   * into an unmarked plain fruit worth 1 or 2, and leaves an item the tick
   * never marked alone.
   */
  lemma RevertUndoesTick(e: Entity, u: real, v: real)
    requires 0.0 <= u < 1.0 && 0.0 <= v < 1.0 && e.kind.Fruit?
    ensures GoldTick(e, u).kind.goldRushTransformed
    ensures GoldRevert(GoldTick(e, u), v).kind.name in NormalFruits
    ensures GoldRevert(GoldTick(e, u), v).points == 1 || GoldRevert(GoldTick(e, u), v).points == 2
    ensures !GoldRevert(GoldTick(e, u), v).kind.goldRushTransformed
    ensures !e.kind.goldRushTransformed ==> GoldRevert(e, v) == e
  {
    FruitPoints(PickIndex(v, |NormalFruits|));
  }

  /**
   * The first pass does not mark: an item gilded only by the first pass and
   * never by a tick keeps its doubled points through the revert.
   */
  lemma FirstPassNotReverted(e: Entity, u: real, v: real)
    requires 0.0 <= u < 1.0 && 0.0 <= v < 1.0 && e.kind.Fruit? && !e.kind.goldRushTransformed
    ensures GoldRevert(GoldFirstPass(e, u), v) == GoldFirstPass(e, u)
    ensures GoldFirstPass(e, u).points == 6 || GoldFirstPass(e, u).points == 10
  {
    GildedIsGold(e, u, false);
  }

  // ---------------------------------------------------------------------------
  // Power-up drift as written
  // ---------------------------------------------------------------------------

  /** A JavaScript number: finite, or NaN. */
  datatype JsNumber = Finite(value: real) | NaN

  /** `x + wobble` where `wobble` may be `undefined`: adding `undefined` gives NaN. */
  function AddMaybe(x: real, wobble: Option<real>): JsNumber {
    if wobble.Some? then Finite(x + wobble.value) else NaN
  }

  /** `Math.min` / `Math.max`: a NaN argument makes the result NaN. */
  function MinJs(a: JsNumber, b: real): JsNumber {
    if a.NaN? then NaN else Finite(MinReal(a.value, b))
  }

  function MaxJs(a: real, b: JsNumber): JsNumber {
    if b.NaN? then NaN else Finite(MaxReal(a, b.value))
  }

  /** The drift exactly as the drawing code computes it, NaN included. */
  function DriftAsWritten(e: Entity): JsNumber {
    MaxJs(0.0, MinJs(AddMaybe(e.x, e.wobble), CanvasWidth - e.size))
  }

  /** `checkCollision` with a possibly-NaN x: every comparison with NaN is false. */
  predicate CheckCollisionJs(x: JsNumber, e: Entity, b: Box) {
    x.Finite? && CheckCollision(e.(x := x.value), b)
  }

  /**
   * As written, a power-up (which has no `wobble`) gets x = NaN on its
   * first drawn frame and then never collides with any basket.
   */
  lemma PowerupDriftIsNaN(e: Entity, b: Box)
    requires e.wobble.None?
    ensures DriftAsWritten(e) == NaN
    ensures !CheckCollisionJs(DriftAsWritten(e), e, b)
  {
  }

  /**
   * Where a wobble is present, the corrected drift is exactly the source's;
   * for a power-up it keeps x on the canvas, so the power-up stays catchable:
   * a basket box under it collides.
   */
  lemma DriftAgreesWithSource(e: Entity)
    ensures e.wobble.Some? ==> DriftAsWritten(e) == Finite(DriftX(e))
    ensures e.wobble.None? && 0.0 <= e.x <= CanvasWidth - e.size ==> DriftX(e) == e.x
  {
  }

  /** A power-up falling onto the basket is caught under the corrected drift. */
  lemma CorrectedPowerupCatchable(e: Entity, b: Box)
    requires e.wobble.None? && e.size > 0.0 && 0.0 <= e.x <= CanvasWidth - e.size
    requires b == Box(e.x, e.y, e.size, e.size)
    ensures CheckCollision(DrawMove(e).(y := e.y), b)
  {
    DriftAgreesWithSource(e);
  }
}
