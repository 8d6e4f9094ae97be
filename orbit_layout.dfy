/**
 * `computeLobbyLayout`: places one bubble per player on a ring around the central "core"
 * bubble, then runs 40 relaxation sweeps that push overlapping bubbles apart, pull them
 * toward their ring and clamp them inside the container. Numbers are reals and Math.cos,
 * Math.sin, Math.hypot and Math.PI are parameters; the structure of the result and the
 * clamping are what the model establishes.
 */
module OrbitLayout {
  import opened Seeds

  datatype Player = Player(id: string, name: string)

  datatype Mode = Orbit | Cluster

  datatype Bubble = Bubble(
    id: string, left: real, top: real, size: real,
    floatX: real, floatY: real, floatScale: real, duration: real, delay: real)

  datatype Layout = Layout(coreSize: real, bubbles: seq<Bubble>)

  /** The transcendental functions of `Math` the layout calls, left uninterpreted. */
  datatype Trig = Trig(cos: real -> real, sin: real -> real, hypot: (real, real) -> real, pi: real)

  /** The quantities the layout derives from the container before placing anything. */
  datatype Frame = Frame(
    width: real, height: real, padding: real, labelSpace: real, coreSize: real,
    otherSize: real, ringBase: real, centerX: real, centerY: real, mode: Mode)

  const DegenerateCoreSize: real := 200.0
  const MaxCoreSize: real := 220.0
  const Iterations: nat := 40

  function Min(a: real, b: real): real { if a <= b then a else b }
  function Max(a: real, b: real): real { if a >= b then a else b }
  function Abs(a: real): real { if a >= 0.0 then a else -a }

  /** `clamp(value, min, max) = Math.min(Math.max(value, min), max)`. */
  function Clamp(value: real, lo: real, hi: real): (r: real)
    ensures lo <= hi ==> lo <= r <= hi
    ensures lo <= value <= hi ==> r == value
    ensures r <= hi
    ensures lo <= hi && value < lo ==> r == lo
    ensures value > hi ==> r == hi
  {
    Min(Max(value, lo), hi)
  }

  /** Clamping an already clamped value changes nothing, even when the bounds are crossed. */
  lemma ClampIdempotent(value: real, lo: real, hi: real)
    ensures Clamp(Clamp(value, lo, hi), lo, hi) == Clamp(value, lo, hi)
  {
  }

  function MakeFrame(width: real, height: real, count: nat, mode: Mode): (f: Frame)
    ensures f.coreSize <= MaxCoreSize
    ensures f.padding >= 20.0
  {
    var minDim := Min(width, height);
    var padding := Max(minDim * 0.06, 20.0);
    var coreSize := Min(MaxCoreSize, minDim * 0.52);
    var maxOther := minDim * 0.22;
    var minOther := minDim * 0.14;
    var countAdjust := (count * 6) as real;
    var otherSize := Clamp(maxOther - countAdjust, minOther, maxOther);
    var ringBase := coreSize / 2.0 + otherSize / 2.0
      + Min(minDim * (if mode == Orbit then 0.08 else 0.04), if mode == Orbit then 52.0 else 32.0);
    Frame(width, height, padding, 40.0, coreSize, otherSize, ringBase, width / 2.0, height / 2.0, mode)
  }

  /** The bubble of `players[index]` before relaxation. */
  function Place(f: Frame, trig: Trig, players: seq<Player>, index: nat): (b: Bubble)
    requires index < |players|
    ensures b.id == players[index].id && b.size == f.otherSize
    ensures 10.0 <= b.duration <= 17.0
    ensures b.duration == (10 + SeedHash(players[index].id) % 8) as real
  {
    var seed := SeedHash(players[index].id);
    var count := if |players| > 1 then |players| else 1;
    var angle := (index as real / count as real) * trig.pi * 2.0 + (seed % 30) as real * 0.03;
    var baseRadius := f.ringBase + (seed % 30) as real;
    var radius := if f.mode == Orbit then baseRadius else baseRadius * 0.7;
    var drift := if f.mode == Orbit then 0.7 else 0.5;
    Bubble(
      players[index].id,
      f.centerX + trig.cos(angle) * radius - f.otherSize / 2.0,
      f.centerY + trig.sin(angle) * radius - f.otherSize / 2.0,
      f.otherSize,
      ((seed % 16) - 8) as real * drift,
      ((seed % 18) - 9) as real * drift,
      0.08 + (seed % 5) as real * 0.02,
      (10 + seed % 8) as real,
      ((seed % 10) - 5) as real * 0.5)
  }

  /** Relaxation may move a bubble and nothing else. */
  predicate SameExceptPosition(a: Bubble, b: Bubble) {
    a.id == b.id && a.size == b.size && a.floatX == b.floatX && a.floatY == b.floatY
    && a.floatScale == b.floatScale && a.duration == b.duration && a.delay == b.delay
  }

  /** The room a bubble's float animation needs on each side. */
  function FloatPad(b: Bubble): real {
    Max(Abs(b.floatX), Abs(b.floatY)) + b.size * b.floatScale
  }

  function LeftMin(f: Frame, b: Bubble): real { f.padding + FloatPad(b) }
  function LeftMax(f: Frame, b: Bubble): real { f.width - b.size - f.padding - FloatPad(b) }
  function TopMin(f: Frame, b: Bubble): real { f.padding + FloatPad(b) }
  function TopMax(f: Frame, b: Bubble): real {
    f.height - b.size - f.labelSpace - f.padding - FloatPad(b)
  }

  /** The bubble lies within its clamp bounds wherever those bounds are not empty. */
  predicate InBounds(f: Frame, b: Bubble) {
    && (LeftMin(f, b) <= LeftMax(f, b) ==> LeftMin(f, b) <= b.left <= LeftMax(f, b))
    && (TopMin(f, b) <= TopMax(f, b) ==> TopMin(f, b) <= b.top <= TopMax(f, b))
  }

  ghost predicate HypotNonNegative(trig: Trig) {
    forall x: real, y: real :: trig.hypot(x, y) >= 0.0
  }

  /** `Math.hypot` gives the same length for opposite vectors. */
  ghost predicate HypotEven(trig: Trig) {
    forall x: real, y: real :: trig.hypot(x, y) == trig.hypot(-x, -y)
  }

  /** `Math.hypot(dx, dy) || 1`: a distance that is never 0. */
  function Distance(trig: Trig, dx: real, dy: real): (d: real)
    requires HypotNonNegative(trig)
    ensures d > 0.0
  {
    var h := trig.hypot(dx, dy);
    if h == 0.0 then 1.0 else h
  }

  /** The push away from the core when the bubble's centre is too close to it. */
  function CorePush(f: Frame, trig: Trig, b: Bubble): (real, real)
    requires HypotNonNegative(trig)
  {
    var coreDx := b.left + b.size / 2.0 - f.centerX;
    var coreDy := b.top + b.size / 2.0 - f.centerY;
    var d := Distance(trig, coreDx, coreDy);
    var coreMin := f.coreSize / 2.0 + b.size / 2.0 + f.padding * (if f.mode == Orbit then 1.15 else 0.9);
    if d < coreMin then
      var push := (coreMin - d) / coreMin;
      ((coreDx / d) * push * 26.0, (coreDy / d) * push * 26.0)
    else (0.0, 0.0)
  }

  /** The push on bubble `b` away from `other` when the two overlap too much. */
  function PairPush(f: Frame, trig: Trig, b: Bubble, other: Bubble): (real, real)
    requires HypotNonNegative(trig)
  {
    var dx := (b.left + b.size / 2.0) - (other.left + other.size / 2.0);
    var dy := (b.top + b.size / 2.0) - (other.top + other.size / 2.0);
    var d := Distance(trig, dx, dy);
    var minDist := (b.size + other.size) * (if f.mode == Orbit then 0.7 else 0.85);
    if d < minDist then
      var push := (minDist - d) / minDist;
      (Scaled(dx, d, push, 22.0), Scaled(dy, d, push, 22.0))
    else (0.0, 0.0)
  }

  function Add(p: (real, real), q: (real, real)): (real, real) {
    (p.0 + q.0, p.1 + q.1)
  }

  /** A table of pairwise forces: entry `(i, j)` is the force bubble j exerts on bubble i. */
  type Table = (nat, nat) -> (real, real)

  /** Row i of the table over `j < n`, skipping the diagonal: the forces on i from the others. */
  function RowSum(t: Table, i: nat, n: nat): (real, real) {
    if n == 0 then (0.0, 0.0)
    else if n - 1 == i then RowSum(t, i, n - 1)
    else Add(RowSum(t, i, n - 1), t(i, n - 1))
  }

  /** The pairwise pushes between the bubbles of `s`. */
  function Pushes(f: Frame, trig: Trig, s: seq<Bubble>): Table
    requires HypotNonNegative(trig)
  {
    (i: nat, j: nat) => if i < |s| && j < |s| then PairPush(f, trig, s[i], s[j]) else (0.0, 0.0)
  }

  /** The pushes on `s[i]` from `s[0..j]`, every bubble but `s[i]` itself. */
  function Repulsion(f: Frame, trig: Trig, s: seq<Bubble>, i: nat, j: nat): (real, real)
    requires HypotNonNegative(trig)
    requires i < |s| && j <= |s|
  {
    RowSum(Pushes(f, trig, s), i, j)
  }

  /** One component of a push: the unit direction `v / d` scaled by the push strength. */
  function Scaled(v: real, d: real, push: real, strength: real): real
    requires d != 0.0
  {
    (v / d) * push * strength
  }

  /** Reversing the direction negates the push. */
  lemma ScaledNegate(v: real, d: real, push: real, strength: real)
    requires d != 0.0
    ensures Scaled(-v, d, push, strength) == -Scaled(v, d, push, strength)
  {
    var q := v / d;
    assert (-v) / d == -q by {
      assert q * d == v;
      assert (-q) * d == -v;
    }
    assert (-q) * push == -(q * push);
    assert (-(q * push)) * strength == -(q * push * strength);
  }

  /**
   * Two bubbles push each other with opposite forces: swapping them negates the push,
   * whatever their sizes.
   */
  lemma PairPushAntisymmetric(f: Frame, trig: Trig, b: Bubble, other: Bubble)
    requires HypotNonNegative(trig) && HypotEven(trig)
    ensures PairPush(f, trig, other, b) == (-PairPush(f, trig, b, other).0, -PairPush(f, trig, b, other).1)
  {
    var dx := (b.left + b.size / 2.0) - (other.left + other.size / 2.0);
    var dy := (b.top + b.size / 2.0) - (other.top + other.size / 2.0);
    assert (other.left + other.size / 2.0) - (b.left + b.size / 2.0) == -dx;
    assert (other.top + other.size / 2.0) - (b.top + b.size / 2.0) == -dy;
    var d := Distance(trig, dx, dy);
    assert trig.hypot(dx, dy) == trig.hypot(-dx, -dy);
    assert Distance(trig, -dx, -dy) == d;
    var minDist := (b.size + other.size) * (if f.mode == Orbit then 0.7 else 0.85);
    assert (other.size + b.size) * (if f.mode == Orbit then 0.7 else 0.85) == minDist;
    if d < minDist {
      var push := (minDist - d) / minDist;
      ScaledNegate(dx, d, push, 22.0);
      ScaledNegate(dy, d, push, 22.0);
    }
  }

  /** A component scaled by non-negative factors keeps the sign of its direction. */
  lemma ScaledSameSign(v: real, d: real, push: real, strength: real)
    requires d > 0.0 && push >= 0.0 && strength >= 0.0
    ensures Scaled(v, d, push, strength) * v >= 0.0
  {
    var q := v / d;
    assert q * v >= 0.0 by {
      assert q * d == v;
      assert q * v == q * q * d;
      assert q * q >= 0.0;
    }
    assert q * push * strength * v == (q * v) * (push * strength);
    assert push * strength >= 0.0;
  }

  /**
   * Two bubbles whose centres are at least `minDist` apart do not push each other; closer
   * ones push `b` away from `other`, each component with the sign of the offset.
   */
  lemma PairPushAway(f: Frame, trig: Trig, b: Bubble, other: Bubble)
    requires HypotNonNegative(trig)
    ensures var dx := (b.left + b.size / 2.0) - (other.left + other.size / 2.0);
            var dy := (b.top + b.size / 2.0) - (other.top + other.size / 2.0);
            var minDist := (b.size + other.size) * (if f.mode == Orbit then 0.7 else 0.85);
            var r := PairPush(f, trig, b, other);
            && (Distance(trig, dx, dy) >= minDist ==> r == (0.0, 0.0))
            && r.0 * dx >= 0.0 && r.1 * dy >= 0.0
  {
    var dx := (b.left + b.size / 2.0) - (other.left + other.size / 2.0);
    var dy := (b.top + b.size / 2.0) - (other.top + other.size / 2.0);
    var d := Distance(trig, dx, dy);
    var minDist := (b.size + other.size) * (if f.mode == Orbit then 0.7 else 0.85);
    if d < minDist {
      var push := (minDist - d) / minDist;
      assert push > 0.0 by {
        assert push * minDist == minDist - d;
      }
      ScaledSameSign(dx, d, push, 22.0);
      ScaledSameSign(dy, d, push, 22.0);
    }
  }

  /** A table whose entries `(i, j)` and `(j, i)` are opposite forces. */
  ghost predicate Antisymmetric(t: Table) {
    forall i: nat, j: nat :: t(j, i) == (-t(i, j).0, -t(i, j).1)
  }

  /** Column k of the table over rows `i < m`: the forces bubble k exerts on the first m. */
  function ColSum(t: Table, k: nat, m: nat): (real, real) {
    if m == 0 then (0.0, 0.0) else Add(ColSum(t, k, m - 1), t(m - 1, k))
  }

  /** The rows `i < m`, each summed over `j < n`. */
  function TotalSum(t: Table, m: nat, n: nat): (real, real) {
    if m == 0 then (0.0, 0.0) else Add(TotalSum(t, m - 1, n), RowSum(t, m - 1, n))
  }

  /** What bubble n exerts on the first m bubbles cancels what they exert on it. */
  lemma {:induction false} ColumnCancelsRow(t: Table, n: nat, m: nat)
    requires Antisymmetric(t) && m <= n
    ensures Add(ColSum(t, n, m), RowSum(t, n, m)) == (0.0, 0.0)
    decreases m
  {
    if m > 0 {
      ColumnCancelsRow(t, n, m - 1);
      assert t(m - 1, n) == (-t(n, m - 1).0, -t(n, m - 1).1);
    }
  }

  /** Letting bubble n join adds column n to the first m rows. */
  lemma {:induction false} TotalSumStep(t: Table, m: nat, n: nat)
    requires m <= n
    ensures TotalSum(t, m, n + 1) == Add(TotalSum(t, m, n), ColSum(t, n, m))
    decreases m
  {
    if m > 0 {
      TotalSumStep(t, m - 1, n);
      var a, c := TotalSum(t, m - 1, n), ColSum(t, n, m - 1);
      var r, e := RowSum(t, m - 1, n), t(m - 1, n);
      assert RowSum(t, m - 1, n + 1) == Add(r, e);
      assert TotalSum(t, m, n + 1) == Add(Add(a, c), Add(r, e));
      assert Add(TotalSum(t, m, n), ColSum(t, n, m)) == Add(Add(a, r), Add(c, e));
    }
  }

  /** The rows of an antisymmetric table sum to zero. */
  lemma {:induction false} TotalSumZero(t: Table, n: nat)
    requires Antisymmetric(t)
    ensures TotalSum(t, n, n) == (0.0, 0.0)
    decreases n
  {
    if n > 0 {
      var k := n - 1;
      TotalSumZero(t, k);
      TotalSumStep(t, k, k);
      ColumnCancelsRow(t, k, k);
      assert RowSum(t, k, n) == RowSum(t, k, k);
    }
  }

  /** The repulsions on the first m bubbles from the first n. */
  function RepulsionSum(f: Frame, trig: Trig, s: seq<Bubble>, m: nat, n: nat): (real, real)
    requires HypotNonNegative(trig)
    requires m <= n <= |s|
  {
    if m == 0 then (0.0, 0.0) else Add(RepulsionSum(f, trig, s, m - 1, n), Repulsion(f, trig, s, m - 1, n))
  }

  lemma {:induction false} RepulsionSumIsTotal(f: Frame, trig: Trig, s: seq<Bubble>, m: nat, n: nat)
    requires HypotNonNegative(trig)
    requires m <= n <= |s|
    ensures RepulsionSum(f, trig, s, m, n) == TotalSum(Pushes(f, trig, s), m, n)
    decreases m
  {
    if m > 0 {
      RepulsionSumIsTotal(f, trig, s, m - 1, n);
    }
  }

  /**
   * At any one configuration the pairwise pushes cancel: the pushes are antisymmetric, so the
   * repulsions on all bubbles of `s`, each computed from the same positions, sum to zero.
   */
  lemma RepulsionCancels(f: Frame, trig: Trig, s: seq<Bubble>)
    requires HypotNonNegative(trig) && HypotEven(trig)
    ensures RepulsionSum(f, trig, s, |s|, |s|) == (0.0, 0.0)
  {
    var t := Pushes(f, trig, s);
    forall i: nat, j: nat ensures t(j, i) == (-t(i, j).0, -t(i, j).1) {
      if i < |s| && j < |s| {
        PairPushAntisymmetric(f, trig, s[i], s[j]);
      }
    }
    TotalSumZero(t, |s|);
    RepulsionSumIsTotal(f, trig, s, |s|, |s|);
  }

  /** The pull toward the bubble's ring (orbit) or toward the centre (cluster). */
  function Pull(f: Frame, trig: Trig, b: Bubble, i: nat): (real, real)
    requires HypotNonNegative(trig)
  {
    var midX := b.left + b.size / 2.0;
    var midY := b.top + b.size / 2.0;
    if f.mode == Orbit then
      var coreDx := midX - f.centerX;
      var coreDy := midY - f.centerY;
      var targetRadius := f.ringBase + (i % 3) as real * 10.0;
      var currentRadius := Distance(trig, midX - f.centerX, midY - f.centerY);
      var radialDiff := currentRadius - targetRadius;
      ((-(coreDx / currentRadius) * radialDiff) * 0.08, (-(coreDy / currentRadius) * radialDiff) * 0.08)
    else ((f.centerX - midX) * 0.01, (f.centerY - midY) * 0.01)
  }

  /** The inner `forEach` over the other bubbles, adding their pushes to `(ax, ay)`. */
  method AddRepulsion(f: Frame, trig: Trig, placed: array<Bubble>, i: nat, ax0: real, ay0: real)
    returns (ax: real, ay: real)
    requires HypotNonNegative(trig)
    requires i < placed.Length
    ensures ax == ax0 + Repulsion(f, trig, placed[..], i, placed.Length).0
    ensures ay == ay0 + Repulsion(f, trig, placed[..], i, placed.Length).1
  {
    ax, ay := ax0, ay0;
    var b := placed[i];
    for j := 0 to placed.Length
      invariant ax == ax0 + Repulsion(f, trig, placed[..], i, j).0
      invariant ay == ay0 + Repulsion(f, trig, placed[..], i, j).1
    {
      if j != i {
        var p := PairPush(f, trig, b, placed[j]);
        ax, ay := ax + p.0, ay + p.1;
      }
    }
  }

  /**
   * The end of one bubble's relaxation step: move by `(ax, ay)`, then clamp `left` and `top`
   * into the container. Only the position changes.
   */
  function Moved(f: Frame, b: Bubble, ax: real, ay: real): (r: Bubble)
    ensures SameExceptPosition(r, b)
    ensures InBounds(f, r)
  {
    var r := b.(left := Clamp(b.left + ax, LeftMin(f, b), LeftMax(f, b)),
                top := Clamp(b.top + ay, TopMin(f, b), TopMax(f, b)));
    assert FloatPad(r) == FloatPad(b) && r.size == b.size;
    assert LeftMin(f, r) == LeftMin(f, b) && LeftMax(f, r) == LeftMax(f, b);
    assert TopMin(f, r) == TopMin(f, b) && TopMax(f, r) == TopMax(f, b);
    r
  }

  /** The acceleration of bubble `i`: core push, then the other bubbles, then the pull. */
  method Acceleration(f: Frame, trig: Trig, placed: array<Bubble>, i: nat) returns (ax: real, ay: real)
    requires HypotNonNegative(trig)
    requires i < placed.Length
    ensures var core := CorePush(f, trig, placed[i]);
            var rep := Repulsion(f, trig, placed[..], i, placed.Length);
            var pull := Pull(f, trig, placed[i], i);
            ax == 0.0 + core.0 + rep.0 + pull.0 && ay == 0.0 + core.1 + rep.1 + pull.1
  {
    var b := placed[i];
    var core := CorePush(f, trig, b);
    ax, ay := 0.0 + core.0, 0.0 + core.1;
    ax, ay := AddRepulsion(f, trig, placed, i, ax, ay);
    var pull := Pull(f, trig, b, i);
    ax, ay := ax + pull.0, ay + pull.1;
  }

  /** Bubbles agreeing with the initial placement on everything but position. */
  ghost predicate PlacedAs(f: Frame, trig: Trig, players: seq<Player>, s: seq<Bubble>) {
    |s| == |players| && forall k :: 0 <= k < |s| ==> SameExceptPosition(s[k], Place(f, trig, players, k))
  }

  ghost predicate AllInBounds(f: Frame, s: seq<Bubble>) {
    forall k :: 0 <= k < |s| ==> InBounds(f, s[k])
  }

  /** The 40 relaxation sweeps, each visiting the bubbles in order and updating them in place. */
  method Relax(f: Frame, trig: Trig, players: seq<Player>, placed: array<Bubble>)
    requires HypotNonNegative(trig)
    requires placed.Length > 0
    requires PlacedAs(f, trig, players, placed[..])
    modifies placed
    ensures PlacedAs(f, trig, players, placed[..])
    ensures AllInBounds(f, placed[..])
  {
    var n := placed.Length;
    for iter := 0 to Iterations
      invariant PlacedAs(f, trig, players, placed[..])
      invariant iter > 0 ==> AllInBounds(f, placed[..])
    {
      for i := 0 to n
        invariant PlacedAs(f, trig, players, placed[..])
        invariant forall k :: 0 <= k < i ==> InBounds(f, placed[k])
        invariant iter > 0 ==> AllInBounds(f, placed[..])
      {
        var ax, ay := Acceleration(f, trig, placed, i);
        placed[i] := Moved(f, placed[i], ax, ay);
      }
    }
  }

  /**
   * `computeLobbyLayout(width, height, players, mode)`. An empty container or no players
   * gives the fixed degenerate layout; otherwise one bubble per player, in order, each
   * keeping the identity, size and animation parameters it was placed with, and each
   * clamped inside the container after the relaxation.
   */
  method ComputeLobbyLayout(width: real, height: real, players: seq<Player>, mode: Mode, trig: Trig)
    returns (r: Layout)
    requires HypotNonNegative(trig)
    ensures width == 0.0 || height == 0.0 || |players| == 0 ==> r == Layout(DegenerateCoreSize, [])
    ensures width != 0.0 && height != 0.0 && |players| > 0 ==>
      && r.coreSize == MakeFrame(width, height, |players|, mode).coreSize
      && PlacedAs(MakeFrame(width, height, |players|, mode), trig, players, r.bubbles)
      && AllInBounds(MakeFrame(width, height, |players|, mode), r.bubbles)
    ensures r.coreSize <= MaxCoreSize
    ensures |r.bubbles| == |players| || r.bubbles == []
    ensures forall k :: 0 <= k < |r.bubbles| ==> r.bubbles[k].id == players[k].id
    ensures forall k, m :: 0 <= k < |r.bubbles| && 0 <= m < |r.bubbles| ==> r.bubbles[k].size == r.bubbles[m].size
    ensures forall k :: 0 <= k < |r.bubbles| ==> 10.0 <= r.bubbles[k].duration <= 17.0
  {
    if width == 0.0 || height == 0.0 || |players| == 0 {
      return Layout(DegenerateCoreSize, []);
    }
    var f := MakeFrame(width, height, |players|, mode);
    var n := |players|;
    var placed := new Bubble[n](k requires 0 <= k < n => Place(f, trig, players, k));
    Relax(f, trig, players, placed);
    r := Layout(f.coreSize, placed[..]);
    assert forall k :: 0 <= k < n ==> r.bubbles[k].size == f.otherSize by {
      forall k | 0 <= k < n ensures r.bubbles[k].size == f.otherSize {
        assert SameExceptPosition(r.bubbles[k], Place(f, trig, players, k));
      }
    }
  }
}
