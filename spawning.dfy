/**
 * The random choices the entity factories of game.js make: the
 * rarity-weighted walk of `selectItemWithIntelligence` /
 * `selectObstacleWithIntelligence`, the ten-attempt placement loop of the
 * `create*` factories, and `Math.floor(Math.random() * n)` picks.
 *
 * `Math.random` is a stream of draws `random: nat -> real` read from a
 * cursor; each operation takes the cursor and returns the next one.  Numbers
 * are exact reals: the floating-point rounding of the running subtraction is
 * not modelled.
 */
module Spawning {

  import opened Util
  import opened Catalog

  /** What `Math.random` promises: every draw lies in [0, 1). */
  ghost predicate IsUnitStream(random: nat -> real) {
    forall i: nat :: 0.0 <= random(i) < 1.0
  }

  /** `Math.floor(Math.random() * n)`: an index into an `n`-element array. */
  function PickIndex(u: real, n: nat): (k: nat)
    requires 0.0 <= u < 1.0 && n > 0
    ensures k < n
  {
    var scaled := u * (n as real);
    assert 0.0 <= scaled < n as real;
    scaled.Floor
  }

  // ---------------------------------------------------------------------------
  // Rarity-weighted selection
  // ---------------------------------------------------------------------------

  /** `1 / rarity` for every entry: rare entries weigh little. */
  function Weights(entries: seq<CatalogEntry>): (w: seq<real>)
    requires WellFormed(entries)
    ensures |w| == |entries|
    ensures forall i :: 0 <= i < |w| ==> w[i] == 1.0 / entries[i].rarity && w[i] > 0.0
  {
    seq(|entries|, i requires 0 <= i < |entries| => assert entries[i] in entries; 1.0 / entries[i].rarity)
  }

  predicate Positive(w: seq<real>) {
    forall i :: 0 <= i < |w| ==> w[i] > 0.0
  }

  /** The total of the first `k` weights. */
  function Prefix(w: seq<real>, k: nat): real
    requires k <= |w|
  {
    if k == 0 then 0.0 else Prefix(w, k - 1) + w[k - 1]
  }

  function Sum(w: seq<real>): real {
    Prefix(w, |w|)
  }

  /**
   * The selection loop from entry `i` on with `remaining` left to spend:
   * subtract each weight and stop at the first entry that brings the
   * remainder to zero or below; fall back to entry 0 when none does.
   */
  function WalkFrom(w: seq<real>, remaining: real, i: nat): (k: nat)
    requires i <= |w|
    ensures k < |w| || k == 0
    decreases |w| - i
  {
    if i == |w| then 0
    else if remaining - w[i] <= 0.0 then i
    else WalkFrom(w, remaining - w[i], i + 1)
  }

  /** The entry the walk selects for the scaled draw `r = Math.random() * total`. */
  function Walk(w: seq<real>, r: real): (k: nat)
    ensures k < |w| || k == 0
  {
    WalkFrom(w, r, 0)
  }

  lemma {:induction false} PrefixStrictlyIncreasing(w: seq<real>, a: nat, b: nat)
    requires Positive(w) && a < b <= |w|
    ensures Prefix(w, a) < Prefix(w, b)
  {
    if a < b - 1 {
      PrefixStrictlyIncreasing(w, a, b - 1);
    }
  }

  lemma {:induction false} WalkFromCovers(w: seq<real>, r: real, i: nat)
    requires Positive(w) && i <= |w|
    requires i == 0 || Prefix(w, i) < r
    ensures var k := WalkFrom(w, r - Prefix(w, i), i);
            k < |w| || |w| == 0
    ensures var k := WalkFrom(w, r - Prefix(w, i), i);
            Prefix(w, i) < r <= Sum(w) ==> i <= k < |w| && Prefix(w, k) < r <= Prefix(w, k + 1)
    ensures r > Sum(w) ==> WalkFrom(w, r - Prefix(w, i), i) == 0
    ensures i == 0 && r <= 0.0 && |w| > 0 ==> WalkFrom(w, r - Prefix(w, i), i) == 0
    decreases |w| - i
  {
    if i < |w| {
      var rest := r - Prefix(w, i);
      assert rest - w[i] == r - Prefix(w, i + 1);
      if rest - w[i] > 0.0 {
        WalkFromCovers(w, r, i + 1);
        if r <= Sum(w) && i + 1 == |w| {
          assert false;
        }
      } else if r > Sum(w) {
        PrefixStrictlyIncreasing(w, i + 1, |w|);
        assert false;
      }
    }
  }

  /**
   * For a draw inside the total weight, the walk selects the one entry whose
   * cumulative interval (Prefix(k), Prefix(k + 1)] holds it; a draw of 0 or
   * past the total falls back to entry 0.
   */
  lemma WalkSelectsCoveringEntry(w: seq<real>, r: real)
    requires Positive(w) && |w| > 0
    ensures Walk(w, r) < |w|
    ensures 0.0 < r <= Sum(w) ==> Prefix(w, Walk(w, r)) < r <= Prefix(w, Walk(w, r) + 1)
    ensures r <= 0.0 || r > Sum(w) ==> Walk(w, r) == 0
  {
    WalkFromCovers(w, r, 0);
  }

  /** At most one entry's interval holds a given draw, so the covering entry is the walk's choice. */
  lemma CoveringEntryUnique(w: seq<real>, r: real, k1: nat, k2: nat)
    requires Positive(w) && k1 < |w| && k2 < |w|
    requires Prefix(w, k1) < r <= Prefix(w, k1 + 1)
    requires Prefix(w, k2) < r <= Prefix(w, k2 + 1)
    ensures k1 == k2
  {
    if k1 + 1 < k2 + 1 && k1 + 1 != k2 {
      PrefixStrictlyIncreasing(w, k1 + 1, k2);
    } else if k2 + 1 < k1 + 1 && k2 + 1 != k1 {
      PrefixStrictlyIncreasing(w, k2 + 1, k1);
    }
  }

  /**
   * The entry the weighted walk of `select*WithIntelligence` picks for the
   * weights `w` and the draw `u`: the draw scaled by the total weight.
   */
  function Selected(w: seq<real>, u: real): (k: nat)
    ensures k < |w| || k == 0
  {
    Walk(w, u * Sum(w))
  }

  /** Names the scaled draw, so that the walk can be followed step by step. */
  lemma SelectedAt(w: seq<real>, u: real, r: real)
    requires r == u * Sum(w)
    ensures Selected(w, u) == WalkFrom(w, r, 0)
  {
  }

  /** The index the weighted selection picks from the non-empty `available` for the draw `u`. */
  function Choice(available: seq<CatalogEntry>, u: real): (k: nat)
    requires WellFormed(available) && |available| > 0
    ensures k < |available|
  {
    var w := Weights(available);
    assert Positive(w);
    WalkSelectsCoveringEntry(w, u * Sum(w));
    Selected(w, u)
  }

  /** The first loop of `select*WithIntelligence`: the total of the weights. */
  method TotalWeight(available: seq<CatalogEntry>) returns (total: real)
    requires WellFormed(available)
    ensures total == Sum(Weights(available))
  {
    ghost var w := Weights(available);
    total := 0.0;
    var i := 0;
    while i < |available|
      invariant 0 <= i <= |available|
      invariant total == Prefix(w, i)
    {
      total := total + 1.0 / available[i].rarity;
      i := i + 1;
    }
  }

  /**
   * The selection loops of `select*WithIntelligence` over `available`, for
   * the draw `u`: sum the weights, scale the draw, subtract weight by weight.
   */
  method SelectWeighted(available: seq<CatalogEntry>, u: real) returns (k: nat)
    requires WellFormed(available) && |available| > 0
    ensures k == Choice(available, u)
  {
    ghost var w := Weights(available);
    var totalWeight := TotalWeight(available);
    var random := u * totalWeight;
    SelectedAt(w, u, random);
    var i := 0;
    while i < |available|
      invariant 0 <= i <= |available|
      invariant WalkFrom(w, random, i) == Selected(w, u)
    {
      random := random - 1.0 / available[i].rarity;
      if random <= 0.0 {
        return i;
      }
      i := i + 1;
    }
    return 0;
  }

  // ---------------------------------------------------------------------------
  // Placement
  // ---------------------------------------------------------------------------

  /** How many positions a factory tries before it gives up on spacing. */
  const MaxAttempts: nat := 10

  /** `x` keeps at least `minDistance` from every occupied x position. */
  predicate Clear(occupied: seq<real>, x: real, minDistance: real)
    decreases |occupied|
  {
    occupied == [] || (AbsReal(x - occupied[0]) >= minDistance && Clear(occupied[1..], x, minDistance))
  }

  /** `Clear` holds exactly when every occupied position is at least `minDistance` away. */
  lemma {:induction false} ClearMeansApart(occupied: seq<real>, x: real, minDistance: real)
    ensures Clear(occupied, x, minDistance) <==> forall i :: 0 <= i < |occupied| ==> AbsReal(x - occupied[i]) >= minDistance
    decreases |occupied|
  {
    if occupied != [] {
      ClearMeansApart(occupied[1..], x, minDistance);
      assert forall i :: 1 <= i < |occupied| ==> occupied[i] == occupied[1..][i - 1];
    }
  }

  /**
   * The placement loop from attempt `attempt` on.  `candidate(j)` is the x
   * position draw `j` proposes (`Math.random() * (canvas.width - 40)`): try
   * the candidates from `start + attempt` on, and after ten failures take one
   * more draw unchecked.  Returns the x position and the next unread draw.
   */
  function PlaceFrom(occupied: seq<real>, minDistance: real, candidate: nat -> real, start: nat, attempt: nat): (real, nat)
    requires attempt <= MaxAttempts
    decreases MaxAttempts - attempt
  {
    if attempt == MaxAttempts then (candidate(start + MaxAttempts), start + MaxAttempts + 1)
    else if Clear(occupied, candidate(start + attempt), minDistance) then (candidate(start + attempt), start + attempt + 1)
    else PlaceFrom(occupied, minDistance, candidate, start, attempt + 1)
  }

  function Placement(occupied: seq<real>, minDistance: real, candidate: nat -> real, start: nat): (r: (real, nat))
    ensures start < r.1 <= start + MaxAttempts + 1 && r.0 == candidate(r.1 - 1)
  {
    PlaceFromSpec(occupied, minDistance, candidate, start, 0);
    PlaceFrom(occupied, minDistance, candidate, start, 0)
  }

  lemma {:induction false} PlaceFromSpec(occupied: seq<real>, minDistance: real, candidate: nat -> real, start: nat, attempt: nat)
    requires attempt <= MaxAttempts
    ensures var (x, next) := PlaceFrom(occupied, minDistance, candidate, start, attempt);
            start + attempt < next <= start + MaxAttempts + 1 && x == candidate(next - 1) &&
            (next <= start + MaxAttempts ==> Clear(occupied, x, minDistance)) &&
            (forall j :: start + attempt <= j < next - 1 && j < start + MaxAttempts ==> !Clear(occupied, candidate(j), minDistance))
    decreases MaxAttempts - attempt
  {
    if attempt < MaxAttempts && !Clear(occupied, candidate(start + attempt), minDistance) {
      PlaceFromSpec(occupied, minDistance, candidate, start, attempt + 1);
    }
  }

  /**
   * The placement takes the first of the ten tried positions that keeps its
   * distance from everything occupied; when all ten fail it takes the
   * eleventh draw without checking.
   */
  lemma PlacementFirstClear(occupied: seq<real>, minDistance: real, candidate: nat -> real, start: nat)
    ensures var (x, next) := Placement(occupied, minDistance, candidate, start);
            start < next <= start + MaxAttempts + 1 && x == candidate(next - 1) &&
            (next <= start + MaxAttempts ==> Clear(occupied, x, minDistance)) &&
            (forall j :: start <= j < next - 1 && j < start + MaxAttempts ==> !Clear(occupied, candidate(j), minDistance))
  {
    PlaceFromSpec(occupied, minDistance, candidate, start, 0);
  }

  /** With nothing to keep away from, the first candidate is taken. */
  lemma PlacementOnEmptyField(minDistance: real, candidate: nat -> real, start: nat)
    ensures Placement([], minDistance, candidate, start) == (candidate(start), start + 1)
  {
    assert Clear([], candidate(start), minDistance);
  }

  /** Every placed x is one of the candidates, so it lies wherever all candidates lie. */
  lemma PlacementInRange(occupied: seq<real>, minDistance: real, candidate: nat -> real, start: nat, low: real, high: real)
    requires forall j: nat :: low <= candidate(j) < high
    ensures low <= Placement(occupied, minDistance, candidate, start).0 < high
  {
    PlacementFirstClear(occupied, minDistance, candidate, start);
    var (x, next) := Placement(occupied, minDistance, candidate, start);
    assert x == candidate(next - 1);
  }

  /** The inner distance loops: is `x` at least `minDistance` from every occupied position? */
  method IsClear(occupied: seq<real>, x: real, minDistance: real) returns (valid: bool)
    ensures valid == Clear(occupied, x, minDistance)
  {
    valid := true;
    var i := 0;
    while i < |occupied|
      invariant 0 <= i <= |occupied|
      invariant Clear(occupied, x, minDistance) == Clear(occupied[i..], x, minDistance)
    {
      var distance := AbsReal(x - occupied[i]);
      if distance < minDistance {
        valid := false;
        break;
      }
      assert occupied[i..][1..] == occupied[i + 1..];
      i := i + 1;
    }
  }

  /** One attempt of the placement loop: take a clear candidate, or go on to the next. */
  lemma PlaceFromStep(occupied: seq<real>, minDistance: real, candidate: nat -> real, start: nat, attempt: nat)
    requires attempt < MaxAttempts
    ensures Clear(occupied, candidate(start + attempt), minDistance) ==>
              PlaceFrom(occupied, minDistance, candidate, start, attempt) == (candidate(start + attempt), start + attempt + 1)
    ensures !Clear(occupied, candidate(start + attempt), minDistance) ==>
              PlaceFrom(occupied, minDistance, candidate, start, attempt) == PlaceFrom(occupied, minDistance, candidate, start, attempt + 1)
  {
  }

  /** The `while (!validPosition && attempts < 10)` loop of the factories and its fallback draw. */
  method PlaceX(occupied: seq<real>, minDistance: real, candidate: nat -> real, start: nat)
    returns (x: real, next: nat)
    ensures (x, next) == Placement(occupied, minDistance, candidate, start)
  {
    ghost var goal := Placement(occupied, minDistance, candidate, start);
    var attempts := 0;
    var validPosition := false;
    next := start;
    x := 0.0;
    while !validPosition && attempts < MaxAttempts
      invariant 0 <= attempts <= MaxAttempts && next == start + attempts
      invariant !validPosition ==> PlaceFrom(occupied, minDistance, candidate, start, attempts) == goal
      invariant validPosition ==> x == goal.0 && next == goal.1
      decreases MaxAttempts - attempts
    {
      x := candidate(next);
      next := next + 1;
      validPosition := IsClear(occupied, x, minDistance);
      PlaceFromStep(occupied, minDistance, candidate, start, attempts);
      attempts := attempts + 1;
    }
    if !validPosition {
      x := candidate(next);
      next := next + 1;
    }
  }
}
