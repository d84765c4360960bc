/**
 * The `cameraShake` object of enhanced-camera-shake.js and the
 * `createObstacleEatEffect` helper beside it.
 *
 * A shake is a small state machine over `active`, `intensity`, `duration`,
 * `timeLeft` and `shakeType`: `start` arms it unless a stronger shake is
 * already running, `update` counts it down by the frame time and switches it
 * off at zero, `reset` switches it off.  The DOM transform, the random offsets
 * and the flash overlay are not modelled; `start` returns the flash it asks
 * for instead of drawing it.
 */
module CameraShake {

  import opened Util
  import Colors

  /** The shake fields, as one value. `shakeType` is unset until the first start. */
  datatype ShakeState = ShakeState(
    active: bool,
    intensity: real,
    duration: real,
    timeLeft: real,
    shakeType: Option<string>)

  /** A request to flash the overlay: its opacity and how long it stays (ms). */
  datatype Flash = Flash(opacity: real, durationMs: real)

  /** The shake parameters `createObstacleEatEffect` passes to `start`. */
  datatype ShakeParams = ShakeParams(intensity: real, duration: real, kind: string)

  // ---------------------------------------------------------------------------
  // Specification of the transitions
  // ---------------------------------------------------------------------------

  /** The object's state right after the page loads. */
  function Initial(): ShakeState {
    ShakeState(false, 0.0, 0.0, 0.0, None)
  }

  /** `start(intensity, duration, type)`: ignored while a stronger shake runs. */
  function Started(s: ShakeState, intensity: real, duration: real, kind: string): ShakeState {
    if s.active && s.intensity > intensity then s
    else ShakeState(true, intensity, duration, duration, Some(kind))
  }

  /** The flash `start` requests for a shake it accepts. */
  function FlashFor(intensity: real): Option<Flash> {
    if intensity > 15.0 then Some(Flash(0.3, 150.0))
    else if intensity > 8.0 then Some(Flash(0.2, 100.0))
    else None
  }

  /** `update(deltaTime)`; `attached` says whether `init` found the canvas. */
  function Updated(s: ShakeState, deltaTime: real, attached: bool): ShakeState {
    if !s.active || !attached then s
    else
      var left := s.timeLeft - deltaTime * 1000.0;
      if left <= 0.0 then s.(active := false, timeLeft := left)
      else s.(timeLeft := left)
  }

  /** A running shake has some time left and no more than it started with. */
  predicate Live(s: ShakeState) {
    s.active ==> 0.0 < s.timeLeft <= s.duration
  }

  /** `intensity * (timeLeft / duration)`: the strength of the current frame. */
  function EffectiveIntensity(s: ShakeState): real
    requires s.duration != 0.0
  {
    s.intensity * (s.timeLeft / s.duration)
  }

  // ---------------------------------------------------------------------------
  // The object
  // ---------------------------------------------------------------------------

  class Shake {
    var active: bool
    var intensity: real
    var duration: real
    var timeLeft: real
    var shakeType: Option<string>
    /** Whether `targetElement` is set, i.e. `init` ran and found the canvas. */
    var attached: bool

    function State(): ShakeState
      reads this
    {
      ShakeState(active, intensity, duration, timeLeft, shakeType)
    }

    /** The object literal plus `init()`: nothing is shaking yet. */
    constructor (attached: bool)
      ensures State() == Initial() && this.attached == attached
    {
      active := false;
      intensity := 0.0;
      duration := 0.0;
      timeLeft := 0.0;
      shakeType := None;
      this.attached := attached;
    }

    /**
     * `start`, enhanced-camera-shake.js:49-66; returns the flash it triggers.
     * The source's default `type = 'normal'` is not a default here: a call
     * without a type passes `"normal"`.
     */
    method Start(intensity: real, duration: real, kind: string) returns (flash: Option<Flash>)
      modifies this`active, this`intensity, this`duration, this`timeLeft, this`shakeType
      ensures State() == Started(old(State()), intensity, duration, kind)
      ensures flash == if old(active && this.intensity > intensity) then None else FlashFor(intensity)
    {
      if this.active && this.intensity > intensity {
        return None;
      }
      this.active := true;
      this.intensity := intensity;
      this.duration := duration;
      this.timeLeft := duration;
      this.shakeType := Some(kind);
      if intensity > 15.0 {
        flash := Some(Flash(0.3, 150.0));
      } else if intensity > 8.0 {
        flash := Some(Flash(0.2, 100.0));
      } else {
        flash := None;
      }
    }

    /** `update`, enhanced-camera-shake.js:69-83, without the random offsets. */
    method Update(deltaTime: real)
      modifies this`active, this`timeLeft
      ensures State() == Updated(old(State()), deltaTime, attached)
    {
      if !active || !attached {
        return;
      }
      timeLeft := timeLeft - deltaTime * 1000.0;
      if timeLeft <= 0.0 {
        Reset();
        return;
      }
    }

    /** `reset`, enhanced-camera-shake.js:119-130, without the DOM transition. */
    method Reset()
      modifies this`active
      ensures State() == old(State()).(active := false)
    {
      active := false;
    }
  }

  // ---------------------------------------------------------------------------
  // createObstacleEatEffect
  // ---------------------------------------------------------------------------

  /** The shake each obstacle type asks for, enhanced-camera-shake.js:149-173. */
  function EatShake(obstacleType: string): ShakeParams {
    match obstacleType
    case "bomb" => ShakeParams(25.0, 500.0, "explosion")
    case "lightning" => ShakeParams(20.0, 400.0, "obstacle")
    case "spiky" => ShakeParams(15.0, 350.0, "obstacle")
    case _ => ShakeParams(10.0, 300.0, "obstacle")
  }

  /**
   * `particleColors[obstacleType] || '#e74c3c'`, for type names that are
   * not properties every JavaScript object inherits (`constructor`,
   * `toString` and the like would look up a function there).
   */
  function ParticleColor(obstacleType: string): string {
    match obstacleType
    case "bomb" => "#e74c3c"
    case "lightning" => "#f1c40f"
    case "spiky" => "#8e44ad"
    case "rock" => "#7f8c8d"
    case _ => "#e74c3c"
  }

  /**
   * `createObstacleEatEffect(x, y, obstacleType)`: starts the shake for the
   * type and returns the flash and the colour of the 15 particles it emits.
   */
  method CreateObstacleEatEffect(shake: Shake, obstacleType: string)
    returns (flash: Option<Flash>, color: string)
    modifies shake`active, shake`intensity, shake`duration, shake`timeLeft, shake`shakeType
    ensures var p := EatShake(obstacleType);
            shake.State() == Started(old(shake.State()), p.intensity, p.duration, p.kind)
    ensures color == ParticleColor(obstacleType)
  {
    var intensity := 10.0;
    var duration := 300.0;
    if obstacleType == "bomb" {
      intensity := 25.0;
      duration := 500.0;
      flash := shake.Start(intensity, duration, "explosion");
    } else if obstacleType == "lightning" {
      intensity := 20.0;
      duration := 400.0;
      flash := shake.Start(intensity, duration, "obstacle");
    } else if obstacleType == "spiky" {
      intensity := 15.0;
      duration := 350.0;
      flash := shake.Start(intensity, duration, "obstacle");
    } else {
      flash := shake.Start(intensity, duration, "obstacle");
    }
    if obstacleType == "bomb" {
      color := "#e74c3c";
    } else if obstacleType == "lightning" {
      color := "#f1c40f";
    } else if obstacleType == "spiky" {
      color := "#8e44ad";
    } else if obstacleType == "rock" {
      color := "#7f8c8d";
    } else {
      color := "#e74c3c";
    }
  }

  // ---------------------------------------------------------------------------
  // Properties
  // ---------------------------------------------------------------------------

  /**
   * After `start` a shake is running at the stronger of the old running
   * intensity and the requested one: a weaker request never overrides.
   */
  lemma StartKeepsStrongest(s: ShakeState, intensity: real, duration: real, kind: string)
    ensures var s' := Started(s, intensity, duration, kind);
            s'.active && s'.intensity == (if s.active then MaxReal(s.intensity, intensity) else intensity)
    ensures var s' := Started(s, intensity, duration, kind);
            s'.intensity == intensity ==> s'.timeLeft == s'.duration && (s' == s || s'.shakeType == Some(kind))
  {
  }

  /** An accepted start restarts the countdown from the full duration. */
  lemma StartAcceptedRestarts(s: ShakeState, intensity: real, duration: real, kind: string)
    requires !(s.active && s.intensity > intensity)
    ensures var s' := Started(s, intensity, duration, kind);
            s'.timeLeft == s'.duration == duration && s'.intensity == intensity && s'.shakeType == Some(kind)
  {
  }

  /** A flash is requested exactly above intensity 8, and a stronger shake never flashes weaker. */
  lemma FlashMonotone(i: real, j: real)
    requires i <= j
    ensures FlashFor(i).Some? <==> i > 8.0
    ensures FlashFor(i).Some? ==>
              FlashFor(j).Some? &&
              FlashFor(i).value.opacity <= FlashFor(j).value.opacity &&
              FlashFor(i).value.durationMs <= FlashFor(j).value.durationMs
  {
  }

  /** `update` never starts a shake and, for a non-negative frame time, never adds time. */
  lemma UpdateCountsDown(s: ShakeState, deltaTime: real, attached: bool)
    requires deltaTime >= 0.0
    ensures var s' := Updated(s, deltaTime, attached);
            (s'.active ==> s.active) && s'.timeLeft <= s.timeLeft &&
            s'.intensity == s.intensity && s'.duration == s.duration
    ensures s.active && attached ==>
            (Updated(s, deltaTime, attached).active <==> s.timeLeft - deltaTime * 1000.0 > 0.0)
  {
  }

  /** A shake started with a positive duration is live, and `update` keeps it live. */
  lemma LivePreserved(s: ShakeState, intensity: real, duration: real, kind: string, deltaTime: real, attached: bool)
    requires Live(s) && duration > 0.0 && deltaTime >= 0.0
    ensures Live(Started(s, intensity, duration, kind))
    ensures Live(Updated(s, deltaTime, attached))
  {
  }

  /** A shake that has been updated `n` times by a frame of `deltaTime` has lost `n` frames of time. */
  function UpdatedTimes(s: ShakeState, deltaTime: real, n: nat): ShakeState {
    if n == 0 then s else Updated(UpdatedTimes(s, deltaTime, n - 1), deltaTime, true)
  }

  /**
   * A running shake stops: once `n` frames of `deltaTime` cover its time
   * left, it is no longer active.
   */
  lemma {:induction false} ShakeEnds(s: ShakeState, deltaTime: real, n: nat)
    requires Live(s) && deltaTime > 0.0 && (n as real) * deltaTime * 1000.0 >= s.timeLeft
    ensures !UpdatedTimes(s, deltaTime, n).active
  {
    if n > 0 {
      var prev := UpdatedTimes(s, deltaTime, n - 1);
      if prev.active {
        TimeLeftAfter(s, deltaTime, n - 1);
        assert ((n - 1) as real) * deltaTime * 1000.0 + deltaTime * 1000.0 == (n as real) * deltaTime * 1000.0;
      }
    }
  }

  /** While it stays active, each update takes exactly one frame off the time left. */
  lemma {:induction false} TimeLeftAfter(s: ShakeState, deltaTime: real, n: nat)
    requires UpdatedTimes(s, deltaTime, n).active
    ensures UpdatedTimes(s, deltaTime, n).timeLeft == s.timeLeft - (n as real) * deltaTime * 1000.0
  {
    if n > 0 {
      TimeLeftAfter(s, deltaTime, n - 1);
    }
  }

  /**
   * While a shake is live its strength is positive, at most the intensity it
   * started with, and strictly weaker the less time is left.
   */
  lemma EffectiveIntensityEasesOut(s: ShakeState, later: real)
    requires s.active && Live(s) && s.intensity > 0.0
    requires 0.0 < later < s.timeLeft
    ensures 0.0 < EffectiveIntensity(s) <= s.intensity
    ensures EffectiveIntensity(s.(timeLeft := later)) < EffectiveIntensity(s)
  {
    var d := s.duration;
    assert s.timeLeft / d <= 1.0;
    assert later / d < s.timeLeft / d;
  }

  /** Bombs shake hardest and longest, then lightning, then spikes, then the rest. */
  lemma EatShakeOrdering(other: string)
    requires other !in {"bomb", "lightning", "spiky"}
    ensures EatShake("bomb").intensity > EatShake("lightning").intensity > EatShake("spiky").intensity > EatShake(other).intensity
    ensures EatShake("bomb").duration > EatShake("lightning").duration > EatShake("spiky").duration > EatShake(other).duration
    ensures EatShake(other) == ShakeParams(10.0, 300.0, "obstacle")
  {
  }

  /**
   * Every obstacle eaten on a quiet camera flashes: bombs and lightning
   * strongly, everything else lightly; only a bomb explodes.
   */
  lemma EatEffectFlashes(obstacleType: string)
    ensures FlashFor(EatShake(obstacleType).intensity) ==
            if obstacleType in {"bomb", "lightning"} then Some(Flash(0.3, 150.0)) else Some(Flash(0.2, 100.0))
    ensures EatShake(obstacleType).kind == "explosion" <==> obstacleType == "bomb"
  {
  }

  /**
   * Every particle colour is a well-formed `#RRGGBB`; unknown types get the
   * bomb red (names inherited from `Object.prototype` are not modelled).
   */
  lemma ParticleColorsWellFormed(obstacleType: string)
    ensures Colors.IsHexColor(ParticleColor(obstacleType))
    ensures obstacleType !in {"bomb", "lightning", "spiky", "rock"} ==> ParticleColor(obstacleType) == "#e74c3c"
  {
  }
}
