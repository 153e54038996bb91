/**
 * Mobs: the components a spawned enemy carries and the per-frame waypoint
 * motion (`movement` in src/mobs.rs). Coordinates, speed and elapsed time are
 * `real`; the length of a vector is a square root, so the caller hands the
 * motion step the distance to the next waypoint, constrained by `IsLength`.
 */
module Mobs {

  datatype Vec2 = Vec2(x: real, y: real)

  datatype Vec3 = Vec3(x: real, y: real, z: real) {
    /** The x/y part of a translation. */
    function Truncate(): (v: Vec2)
      ensures v.x == x && v.y == y
    {
      Vec2(x, y)
    }
  }

  type U8 = n: nat | n < 0x100
  type I32 = n: int | -0x8000_0000 <= n < 0x8000_0000

  /** Hit points, as declared in src/tdcomponents.rs. */
  datatype HP = HP(current: nat, max: nat)

  datatype MobKind = Air | Ice | Fire | Wizard | Posion | Normal

  datatype MobRank = Normal | Captain | General

  datatype MobStats = MobStats(hp: HP, armor: I32, speed: real)

  /** The polyline a mob follows, the side it came from and the waypoint it last reached. */
  datatype MobPath = MobPath(path: seq<Vec2>, side: U8, pathIndex: nat)

  datatype MobBundle = MobBundle(kind: MobKind, stats: MobStats, rank: MobRank, path: MobPath)

  /** The translation and path component of one mob: what `movement` may change. */
  datatype Pose = Pose(translation: Vec3, path: MobPath)

  lemma SquareSign(a: real)
    ensures a * a >= 0.0
    ensures a != 0.0 ==> a * a > 0.0
  {}

  /** `dist` is the Euclidean length of the vector from `a` to `b`. */
  predicate IsLength(dist: real, a: Vec2, b: Vec2) {
    dist >= 0.0 && dist * dist == (b.x - a.x) * (b.x - a.x) + (b.y - a.y) * (b.y - a.y)
  }

  /** The nonnegative root of a sum of squares that are not both zero is positive. */
  lemma PositiveRoot(dist: real, dx: real, dy: real)
    requires dist >= 0.0 && dist * dist == dx * dx + dy * dy
    requires dx != 0.0 || dy != 0.0
    ensures dist > 0.0
  {
    SquareSign(dx);
    SquareSign(dy);
    if dx != 0.0 {
      calc {
        dist * dist;
      ==
        dx * dx + dy * dy;
      >=
        dx * dx;
      >
        0.0;
      }
    } else {
      calc {
        dist * dist;
      ==
        dx * dx + dy * dy;
      >=
        dy * dy;
      >
        0.0;
      }
    }
  }

  /** Two distinct points are a positive distance apart. */
  lemma PositiveLength(dist: real, a: Vec2, b: Vec2)
    requires IsLength(dist, a, b) && a != b
    ensures dist > 0.0
  {
    PositiveRoot(dist, b.x - a.x, b.y - a.y);
  }

  /** The mob stands at (or past) the last waypoint of its path. */
  predicate AtGoal(p: MobPath)
    requires |p.path| > 0
  {
    p.pathIndex >= |p.path| - 1
  }

  /** `dist` is the distance from `t` to the next waypoint, whenever there is one. */
  predicate DistanceToNext(t: Vec3, p: MobPath, dist: real) {
    && |p.path| > 0
    && (!AtGoal(p) ==> IsLength(dist, t.Truncate(), p.path[p.pathIndex + 1]))
  }

  /**
   * One mob's step of `movement` for a frame of `dt` seconds. A mob that is
   * at its goal does not move. Otherwise, with `step = speed * dt`, it moves
   * the fraction `step / dist` of the way from where it stands to the next
   * waypoint, or, if the step reaches the waypoint, lands exactly on it and
   * counts it as reached; excess step is dropped.
   */
  function Advance(t: Vec3, p: MobPath, speed: real, dt: real, dist: real): (r: Pose)
    requires speed >= 0.0 && dt >= 0.0
    requires DistanceToNext(t, p, dist)
    ensures r.path.path == p.path && r.path.side == p.side && r.translation.z == t.z
    ensures r.path.pathIndex == p.pathIndex || r.path.pathIndex == p.pathIndex + 1
    ensures p.pathIndex <= |p.path| - 1 ==> r.path.pathIndex <= |p.path| - 1
    ensures AtGoal(p) ==> r == Pose(t, p)
    ensures !AtGoal(p) ==> (r.path.pathIndex == p.pathIndex + 1 <==> speed * dt >= dist)
    ensures r.path.pathIndex == p.pathIndex + 1 ==>
      r.translation.Truncate() == p.path[r.path.pathIndex]
  {
    if p.pathIndex >= |p.path| - 1 then
      Pose(t, p)
    else
      var next := p.path[p.pathIndex + 1];
      var step := speed * dt;
      if step < dist then
        Pose(t.(x := t.x + step / dist * (next.x - t.x),
                y := t.y + step / dist * (next.y - t.y)), p)
      else
        Pose(t.(x := next.x, y := next.y), p.(pathIndex := p.pathIndex + 1))
  }

  /**
   * A step that falls short of the waypoint leaves the mob on the line
   * towards it, exactly `dist - step` away, so with a positive step the
   * distance strictly decreases and stays positive.
   */
  lemma ShortStepDistance(t: Vec3, p: MobPath, speed: real, dt: real, dist: real)
    requires speed >= 0.0 && dt >= 0.0
    requires DistanceToNext(t, p, dist) && !AtGoal(p)
    requires speed * dt < dist
    ensures Advance(t, p, speed, dt, dist).path == p
    ensures
      var next, f := p.path[p.pathIndex + 1], speed * dt / dist;
      Advance(t, p, speed, dt, dist).translation ==
      Vec3(t.x + f * (next.x - t.x), t.y + f * (next.y - t.y), t.z)
    ensures IsLength(dist - speed * dt,
                     Advance(t, p, speed, dt, dist).translation.Truncate(),
                     p.path[p.pathIndex + 1])
    ensures 0.0 < dist - speed * dt <= dist
    ensures speed * dt > 0.0 ==> dist - speed * dt < dist
  {
    var next := p.path[p.pathIndex + 1];
    var step := speed * dt;
    var f := step / dist;
    var n := Advance(t, p, speed, dt, dist).translation;
    var dx, dy := next.x - t.x, next.y - t.y;
    assert f * dist == step;
    assert next.x - n.x == (1.0 - f) * dx;
    assert next.y - n.y == (1.0 - f) * dy;
    calc {
      (next.x - n.x) * (next.x - n.x) + (next.y - n.y) * (next.y - n.y);
      (1.0 - f) * (1.0 - f) * (dx * dx + dy * dy);
      (1.0 - f) * (1.0 - f) * (dist * dist);
      ((1.0 - f) * dist) * ((1.0 - f) * dist);
      { assert (1.0 - f) * dist == dist - step; }
      (dist - step) * (dist - step);
    }
  }

  /**
   * A zero distance always takes the snapping branch, so the step never
   * divides by zero.
   */
  lemma ZeroDistanceSnaps(t: Vec3, p: MobPath, speed: real, dt: real)
    requires speed >= 0.0 && dt >= 0.0
    requires DistanceToNext(t, p, 0.0) && !AtGoal(p)
    ensures
      var next := p.path[p.pathIndex + 1];
      Advance(t, p, speed, dt, 0.0) ==
      Pose(t.(x := next.x, y := next.y), p.(pathIndex := p.pathIndex + 1))
  {}

  /** A frame of zero length leaves a mob that is not exactly on its next waypoint where it is. */
  lemma ZeroFrameAtRest(t: Vec3, p: MobPath, speed: real, dist: real)
    requires speed >= 0.0
    requires DistanceToNext(t, p, dist)
    requires !AtGoal(p) ==> t.Truncate() != p.path[p.pathIndex + 1]
    ensures Advance(t, p, speed, 0.0, dist) == Pose(t, p)
  {
    if !AtGoal(p) {
      PositiveLength(dist, t.Truncate(), p.path[p.pathIndex + 1]);
    }
  }

  /** Half of a 10-unit segment at speed 10 in 0.5 seconds. */
  lemma HalfwayAlongSegment()
    ensures
      var p := MobPath([Vec2(0.0, 0.0), Vec2(10.0, 0.0)], 0, 0);
      Advance(Vec3(0.0, 0.0, 5.0), p, 10.0, 0.5, 10.0) == Pose(Vec3(5.0, 0.0, 5.0), p)
  {}

  /** The whole 10-unit segment at speed 10 in one second reaches the end of the path. */
  lemma ReachesLastWaypoint()
    ensures
      var p := MobPath([Vec2(0.0, 0.0), Vec2(10.0, 0.0)], 0, 0);
      var r := Advance(Vec3(0.0, 0.0, 5.0), p, 10.0, 1.0, 10.0);
      r == Pose(Vec3(10.0, 0.0, 5.0), p.(pathIndex := 1)) && AtGoal(r.path)
  {}

  /**
   * A mob entity: the translation and path the engine updates in place, and
   * the components `movement` only reads.
   */
  class Mob {
    var translation: Vec3
    var path: MobPath
    const kind: MobKind
    const stats: MobStats
    const rank: MobRank

    /** The entity the host creates for a spawn request. */
    constructor (translation: Vec3, bundle: MobBundle)
      ensures this.translation == translation && path == bundle.path
      ensures kind == bundle.kind && stats == bundle.stats && rank == bundle.rank
    {
      this.translation := translation;
      path := bundle.path;
      kind := bundle.kind;
      stats := bundle.stats;
      rank := bundle.rank;
    }

    /** The body of the `movement` loop for this mob. */
    method Step(dt: real, dist: real)
      requires stats.speed >= 0.0 && dt >= 0.0
      requires DistanceToNext(translation, path, dist)
      modifies this
      ensures Pose(translation, path) == Advance(old(translation), old(path), stats.speed, dt, dist)
    {
      if path.pathIndex >= |path.path| - 1 {
        return;
      }
      var next := path.path[path.pathIndex + 1];
      var step := stats.speed * dt;
      if step < dist {
        var x := translation.x + step / dist * (next.x - translation.x);
        var y := translation.y + step / dist * (next.y - translation.y);
        translation := translation.(x := x, y := y);
      } else {
        translation := translation.(x := next.x, y := next.y);
        path := path.(pathIndex := path.pathIndex + 1);
      }
    }
  }

  /** No mob appears twice: the engine's query yields each entity once. */
  predicate Distinct(mobs: array<Mob>)
    reads mobs
  {
    forall i, j :: 0 <= i < j < mobs.Length ==> mobs[i] != mobs[j]
  }

  /**
   * `movement`: every mob takes one step of the same frame length. `dists[i]`
   * is the distance from mob i to its next waypoint at the start of the frame.
   * Each mob changes by exactly its own step; nothing else changes.
   */
  method Movement(mobs: array<Mob>, dt: real, dists: seq<real>)
    requires dt >= 0.0 && Distinct(mobs) && |dists| == mobs.Length
    requires forall i :: 0 <= i < mobs.Length ==>
      mobs[i].stats.speed >= 0.0 && DistanceToNext(mobs[i].translation, mobs[i].path, dists[i])
    modifies set i | 0 <= i < mobs.Length :: mobs[i]
    ensures forall i :: 0 <= i < mobs.Length ==>
      Pose(mobs[i].translation, mobs[i].path) ==
      Advance(old(mobs[i].translation), old(mobs[i].path), mobs[i].stats.speed, dt, dists[i])
  {
    for k := 0 to mobs.Length
      invariant forall i :: 0 <= i < k ==>
        Pose(mobs[i].translation, mobs[i].path) ==
        Advance(old(mobs[i].translation), old(mobs[i].path), mobs[i].stats.speed, dt, dists[i])
      invariant forall i :: k <= i < mobs.Length ==>
        mobs[i].translation == old(mobs[i].translation) && mobs[i].path == old(mobs[i].path)
    {
      mobs[k].Step(dt, dists[k]);
    }
  }
}
