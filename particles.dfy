/**
 * The upkeep half of game.js's `updateParticles`: every particle moves and
 * ages by the frame's time scale, particles that died or left the canvas
 * margin are spliced out by a reverse-index loop, and the list is then cut
 * to its newest 200 entries.  The drawing half and the cosmetic `height`
 * field are not part of this model.
 */
module Particles {

  import opened Entities

  /** The particle fields the upkeep reads and writes. */
  datatype Particle = Particle(x: real, y: real, speedX: real, speedY: real, life: real)

  /** The cap `updateParticles` enforces after its loop. */
  const MaxParticles: nat := 200

  /** One particle moved and aged by `timeScale` (the frame's delta time times 60). */
  function Stepped(p: Particle, timeScale: real): Particle {
    p.(x := p.x + p.speedX * timeScale, y := p.y + p.speedY * timeScale, life := p.life - timeScale)
  }

  /** A stepped particle is kept while it lives and lies within 20 of the canvas. */
  predicate Kept(p: Particle) {
    p.life > 0.0 && -20.0 <= p.x <= CanvasWidth + 20.0 && -20.0 <= p.y <= CanvasHeight + 20.0
  }

  /** The particles that survive a step, in their original order. */
  function Survivors(ps: seq<Particle>, timeScale: real): (r: seq<Particle>)
    ensures |r| <= |ps|
  {
    if ps == [] then []
    else
      var q := Stepped(ps[0], timeScale);
      (if Kept(q) then [q] else []) + Survivors(ps[1..], timeScale)
  }

  /** `splice(0, length - 200)` when there are more than 200: keep the newest 200. */
  function Capped(ps: seq<Particle>): seq<Particle> {
    if |ps| > MaxParticles then ps[|ps| - MaxParticles..] else ps
  }

  /** Every particle left after the step is alive and near the canvas. */
  lemma {:induction false} SurvivorsAreKept(ps: seq<Particle>, timeScale: real)
    ensures forall i :: 0 <= i < |Survivors(ps, timeScale)| ==> Kept(Survivors(ps, timeScale)[i])
  {
    if ps != [] {
      SurvivorsAreKept(ps[1..], timeScale);
    }
  }

  /** Nothing is dropped without cause: when every stepped particle is kept, all of them are. */
  lemma {:induction false} SurvivorsKeepAllLiving(ps: seq<Particle>, timeScale: real)
    requires forall i :: 0 <= i < |ps| ==> Kept(Stepped(ps[i], timeScale))
    ensures Survivors(ps, timeScale) == seq(|ps|, i requires 0 <= i < |ps| => Stepped(ps[i], timeScale))
  {
    if ps != [] {
      SurvivorsKeepAllLiving(ps[1..], timeScale);
    }
  }

  /** The cap bounds the list, keeps its newest end, and leaves a short list alone. */
  lemma CappedKeepsNewest(ps: seq<Particle>)
    ensures |Capped(ps)| <= MaxParticles
    ensures |Capped(ps)| == if |ps| > MaxParticles then MaxParticles else |ps|
    ensures Capped(ps) == ps[|ps| - |Capped(ps)|..]
  {
  }

  lemma SurvivorsSplit(ps: seq<Particle>, i: nat, timeScale: real)
    requires 0 < i <= |ps|
    ensures Survivors(ps[i - 1..], timeScale) ==
            (if Kept(Stepped(ps[i - 1], timeScale)) then [Stepped(ps[i - 1], timeScale)] else []) + Survivors(ps[i..], timeScale)
  {
    assert ps[i - 1..][1..] == ps[i..];
  }

  /** The list the loop holds at index `i`: the unvisited prefix, then what survives of the rest. */
  lemma PrefixAt(ps: seq<Particle>, i: nat, rest: seq<Particle>)
    requires 0 < i <= |ps|
    ensures (ps[..i] + rest)[..i - 1] == ps[..i - 1] && (ps[..i] + rest)[i - 1] == ps[i - 1]
    ensures (ps[..i] + rest)[i..] == rest
  {
  }

  /** Overwriting index `i - 1` with the stepped particle extends the survivors by it. */
  lemma KeptAt(ps: seq<Particle>, i: nat, p: Particle, rest: seq<Particle>)
    requires 0 < i <= |ps|
    ensures (ps[..i] + rest)[i - 1 := p] == ps[..i - 1] + ([p] + rest)
  {
  }

  /** The particle list of a session. */
  class ParticleList {
    var particles: seq<Particle>

    constructor()
      ensures particles == []
    {
      particles := [];
    }

    /** `updateParticles(deltaTime)` without its drawing. */
    method Update(deltaTime: real)
      modifies this
      ensures particles == Capped(Survivors(old(particles), deltaTime * 60.0))
    {
      var timeScale := deltaTime * 60.0;
      var list := particles;
      ghost var ps := list;
      var i := |list|;
      while i > 0
        invariant 0 <= i <= |ps|
        invariant list == ps[..i] + Survivors(ps[i..], timeScale)
      {
        ghost var rest := Survivors(ps[i..], timeScale);
        SurvivorsSplit(ps, i, timeScale);
        PrefixAt(ps, i, rest);
        var p := Stepped(list[i - 1], timeScale);
        if !Kept(p) {
          list := list[..i - 1] + list[i..];
        } else {
          list := list[i - 1 := p];
          KeptAt(ps, i, p, rest);
        }
        i := i - 1;
      }
      if |list| > MaxParticles {
        list := list[|list| - MaxParticles..];
      }
      particles := list;
    }
  }
}
