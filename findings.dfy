/**
 * The gold-rush interval of game.js's `activatePowerup("goldRush")` is
 * cleared only by a timeout that first checks that `goldRush` is still the
 * active type.  When another power-up pre-empts it, or the frame's
 * countdown ends it first, the interval is never cleared and keeps gilding
 * every new item for the rest of the page's life (`startGame` does not
 * clear it either).  The leak is latent as written: a power-up's x becomes
 * NaN on its first drawn frame, so none is ever caught and `activatePowerup`
 * is never reached; it shows once the drift is corrected (`Entities.DriftX`).
 * This module shows the leak for the timeout as written and proves that the
 * corrected timeout, which always clears its interval, releases it.
 */
module Findings {

  import opened Util
  import opened Catalog
  import opened Spawning
  import opened Entities
  import opened Rules
  import opened Properties

  /** A gold rush pre-empted by any other power-up: its timeout, as written, changes nothing. */
  lemma GoldRushLeaksWhenPreempted(st: GameState, d1: real, d2: real, t: Power, random: nat -> real)
    requires IsUnitStream(random) && t != GoldRush
    ensures var s := ActivatePowerup(ActivatePowerup(st, GoldRush, d1, random), t, d2, random);
            s.goldRushIntervals == st.goldRushIntervals + 1 &&
            RevertGoldRushAsWritten(s, random) == s
  {
    var g := ActivatePowerup(st, GoldRush, d1, random);
    assert g.goldRushIntervals == st.goldRushIntervals + 1;
    var e := Engaged(g, t, d2);
    assert e.goldRushIntervals == g.goldRushIntervals && e.activePowerupType == Some(t);
    EffectKeepsBookkeeping(e, t, random);
  }

  /** A gold rush ended by the frame's countdown: its timeout, as written, changes nothing either. */
  lemma GoldRushLeaksAfterExpiry(st: GameState, adjustedDeltaTime: real, random: nat -> real)
    requires IsUnitStream(random) && Active(st, GoldRush)
    requires st.powerupTimeLeft - adjustedDeltaTime * 1000.0 <= 0.0
    ensures var s := CountDown(st, adjustedDeltaTime);
            s.goldRushIntervals == st.goldRushIntervals && RevertGoldRushAsWritten(s, random) == s
  {
  }

  /**
   * Each tick of a running interval gilds every fruit item not gilded yet
   * (a gold type at double points, marked) and leaves gilded ones as they are.
   */
  lemma TickGildsAll(es: seq<Entity>, random: nat -> real, c: nat)
    requires IsUnitStream(random)
    requires forall j :: 0 <= j < |es| ==> es[j].kind.Fruit?
    ensures var r := GoldTickAll(es, random, c).0;
            forall j :: 0 <= j < |r| ==>
              r[j].kind.Fruit? && r[j].kind.goldRushTransformed &&
              (es[j].kind.goldRushTransformed ==> r[j] == es[j]) &&
              (!es[j].kind.goldRushTransformed ==> r[j].kind.name in GoldTypes && (r[j].points == 6 || r[j].points == 10))
  {
    forall e: Entity, u: real | 0.0 <= u < 1.0 && TickDraws(e)
      ensures Ticked(e, GoldTick(e, u))
    {
      GildedIsGold(e, u, true);
    }
    DrawMapPointwise(GoldTick, TickDraws, (e: Entity, e': Entity) => e.kind.Fruit? ==> Ticked(e, e'), es, random, c);
  }

  /** What a tick makes of a fruit: marked, and gilded unless it was marked already. */
  predicate Ticked(before: Entity, after: Entity) {
    before.kind.Fruit? && after.kind.Fruit? && after.kind.goldRushTransformed &&
    (before.kind.goldRushTransformed ==> after == before) &&
    (!before.kind.goldRushTransformed ==> after.kind.name in GoldTypes && (after.points == 6 || after.points == 10))
  }

  // ---------------------------------------------------------------------------
  // The corrected timeout
  // ---------------------------------------------------------------------------

  /** With the corrected timeout a pre-empted gold rush releases its interval and leaves the items alone. */
  lemma GoldRushReleasedWhenPreempted(st: GameState, d1: real, d2: real, t: Power, random: nat -> real)
    requires IsUnitStream(random) && t != GoldRush
    ensures var s := ActivatePowerup(ActivatePowerup(st, GoldRush, d1, random), t, d2, random);
            RevertGoldRush(s, random) == s.(goldRushIntervals := st.goldRushIntervals)
  {
    GoldRushLeaksWhenPreempted(st, d1, d2, t, random);
  }

  /** With the corrected timeout a gold rush ended by the countdown releases its interval too. */
  lemma GoldRushReleasedAfterExpiry(st: GameState, adjustedDeltaTime: real, random: nat -> real)
    requires IsUnitStream(random) && Active(st, GoldRush) && st.goldRushIntervals > 0
    requires st.powerupTimeLeft - adjustedDeltaTime * 1000.0 <= 0.0
    ensures var s := CountDown(st, adjustedDeltaTime);
            RevertGoldRush(s, random) == s.(goldRushIntervals := st.goldRushIntervals - 1)
  {
  }

  /**
   * A gold rush whose timeout comes before any tick: the corrected timeout
   * releases the interval and leaves no item marked, but the items gilded
   * at activation were never marked, so they stay gold.
   */
  lemma GoldRushRoundTrip(st: GameState, duration: real, random: nat -> real)
    requires IsUnitStream(random) && AllFruit(st.fallingItems)
    ensures var s := RevertGoldRush(ActivatePowerup(st, GoldRush, duration, random), random);
            s.goldRushIntervals == st.goldRushIntervals && |s.fallingItems| == |st.fallingItems| &&
            AllFruit(s.fallingItems) && NoneMarked(s.fallingItems) &&
            forall j :: 0 <= j < |st.fallingItems| && !st.fallingItems[j].kind.goldRushTransformed ==>
              GoldItem(s.fallingItems[j])
  {
    var g := ActivatePowerup(st, GoldRush, duration, random);
    GoldRushActivation(st, duration, random);
    FirstPassKeepsFruit(st.fallingItems, random, st.draws);
    FirstPassGildsUnmarked(st.fallingItems, random, st.draws);
    RevertUnmarksAll(g.fallingItems, random, g.draws);
    RevertLeavesUnmarked(g.fallingItems, random, g.draws);
  }

  /**
   * A gold rush with one tick before its timeout: the tick marks every item,
   * so the corrected timeout turns every item into a plain fruit worth 1 or
   * 2 and releases the interval.
   */
  lemma GoldRushTickedRoundTrip(st: GameState, duration: real, random: nat -> real)
    requires IsUnitStream(random) && AllFruit(st.fallingItems)
    ensures var t := GoldRushTick(ActivatePowerup(st, GoldRush, duration, random), random);
            var s := RevertGoldRush(t, random);
            s.goldRushIntervals == st.goldRushIntervals && |s.fallingItems| == |st.fallingItems| &&
            forall j :: 0 <= j < |s.fallingItems| ==> PlainItem(s.fallingItems[j])
  {
    var g := ActivatePowerup(st, GoldRush, duration, random);
    GoldRushActivation(st, duration, random);
    FirstPassKeepsFruit(st.fallingItems, random, st.draws);
    TickGildsAll(g.fallingItems, random, g.draws);
    var t := GoldRushTick(g, random);
    assert t.activePowerupType == Some(GoldRush) && t.goldRushIntervals == g.goldRushIntervals;
    RevertPlainsMarked(t.fallingItems, random, t.draws);
  }

  /** Activating a gold rush gilds the items in one pass from the current cursor and starts one interval. */
  lemma GoldRushActivation(st: GameState, duration: real, random: nat -> real)
    requires IsUnitStream(random)
    ensures var g := ActivatePowerup(st, GoldRush, duration, random);
            g.fallingItems == GoldFirstAll(st.fallingItems, random, st.draws).0 &&
            g.goldRushIntervals == st.goldRushIntervals + 1 && g.activePowerupType == Some(GoldRush)
  {
    var e := Engaged(st, GoldRush, duration);
    assert e.fallingItems == st.fallingItems && e.draws == st.draws && e.activePowerupType == Some(GoldRush);
    assert e.goldRushIntervals == st.goldRushIntervals;
    assert ActivatePowerup(st, GoldRush, duration, random) == GoldRushEffect(e, random);
  }

  predicate AllFruit(es: seq<Entity>) {
    forall j :: 0 <= j < |es| ==> es[j].kind.Fruit?
  }

  predicate NoneMarked(es: seq<Entity>)
    requires AllFruit(es)
  {
    forall j :: 0 <= j < |es| ==> !es[j].kind.goldRushTransformed
  }

  /** A fruit of one of the gold types, at double points. */
  predicate GoldItem(e: Entity) {
    e.kind.Fruit? && e.kind.name in GoldTypes && (e.points == 6 || e.points == 10)
  }

  /** An unmarked fruit of one of the normal types, at its catalog points. */
  predicate PlainItem(e: Entity) {
    e.kind.Fruit? && e.kind.name in NormalFruits && !e.kind.goldRushTransformed && (e.points == 1 || e.points == 2)
  }

  /** Gilding and reverting keep a fruit a fruit, and the revert leaves it unmarked. */
  lemma GoldStepsKeepFruit(e: Entity, u: real)
    requires 0.0 <= u < 1.0 && e.kind.Fruit?
    ensures GoldFirstPass(e, u).kind.Fruit? && GoldRevert(e, u).kind.Fruit? && !GoldRevert(e, u).kind.goldRushTransformed
  {
  }

  lemma FirstPassKeepsFruit(es: seq<Entity>, random: nat -> real, c: nat)
    requires IsUnitStream(random) && AllFruit(es)
    ensures AllFruit(GoldFirstAll(es, random, c).0)
  {
    forall e: Entity, u: real | 0.0 <= u < 1.0 && e.kind.Fruit?
      ensures GoldFirstPass(e, u).kind.Fruit?
    {
      GoldStepsKeepFruit(e, u);
    }
    DrawMapPointwise(GoldFirstPass, EveryItem, (e: Entity, e': Entity) => e.kind.Fruit? ==> e'.kind.Fruit?, es, random, c);
  }

  /** The revert leaves no fruit gilded. */
  lemma RevertUnmarksAll(es: seq<Entity>, random: nat -> real, c: nat)
    requires IsUnitStream(random) && AllFruit(es)
    ensures AllFruit(GoldRevertAll(es, random, c).0) && NoneMarked(GoldRevertAll(es, random, c).0)
  {
    forall e: Entity, u: real | 0.0 <= u < 1.0 && e.kind.Fruit?
      ensures GoldRevert(e, u).kind.Fruit? && !GoldRevert(e, u).kind.goldRushTransformed
    {
      GoldStepsKeepFruit(e, u);
    }
    DrawMapPointwise(GoldRevert, RevertDraws,
                     (e: Entity, e': Entity) => e.kind.Fruit? ==> e'.kind.Fruit? && !e'.kind.goldRushTransformed, es, random, c);
  }

  /** The activation pass gilds every unmarked fruit and leaves it unmarked. */
  lemma FirstPassGildsUnmarked(es: seq<Entity>, random: nat -> real, c: nat)
    requires IsUnitStream(random)
    ensures var r := GoldFirstAll(es, random, c).0;
            forall j :: 0 <= j < |es| && es[j].kind.Fruit? && !es[j].kind.goldRushTransformed ==>
              GoldItem(r[j]) && !r[j].kind.goldRushTransformed
  {
    forall e: Entity, u: real | 0.0 <= u < 1.0 && e.kind.Fruit? && !e.kind.goldRushTransformed
      ensures GoldItem(GoldFirstPass(e, u)) && !GoldFirstPass(e, u).kind.goldRushTransformed
    {
      GildedIsGold(e, u, false);
    }
    DrawMapPointwise(GoldFirstPass, EveryItem,
                     (e: Entity, e': Entity) => e.kind.Fruit? && !e.kind.goldRushTransformed ==>
                       GoldItem(e') && !e'.kind.goldRushTransformed, es, random, c);
  }

  /** The revert leaves every item it does not draw for (unmarked fruit and non-fruit) exactly as it was. */
  lemma RevertLeavesUnmarked(es: seq<Entity>, random: nat -> real, c: nat)
    requires IsUnitStream(random)
    ensures var r := GoldRevertAll(es, random, c).0;
            forall j :: 0 <= j < |es| && !RevertDraws(es[j]) ==> r[j] == es[j]
  {
    DrawMapPointwise(GoldRevert, RevertDraws,
                     (e: Entity, e': Entity) => !RevertDraws(e) ==> e' == e, es, random, c);
  }

  /** The revert turns every marked fruit into a plain one. */
  lemma RevertPlainsMarked(es: seq<Entity>, random: nat -> real, c: nat)
    requires IsUnitStream(random)
    requires forall j :: 0 <= j < |es| ==> es[j].kind.Fruit? && es[j].kind.goldRushTransformed
    ensures var r := GoldRevertAll(es, random, c).0;
            forall j :: 0 <= j < |r| ==> PlainItem(r[j])
  {
    forall e: Entity, u: real | 0.0 <= u < 1.0 && RevertDraws(e)
      ensures PlainItem(GoldRevert(e, u))
    {
      FruitPoints(PickIndex(u, |NormalFruits|));
    }
    DrawMapPointwise(GoldRevert, RevertDraws,
                     (e: Entity, e': Entity) => RevertDraws(e) ==> PlainItem(e'), es, random, c);
  }
}
