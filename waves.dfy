/**
 * Waves: building a wave from the map's paths, the per-wave counters, the
 * wave list with its cursor, and the per-frame spawning system
 * (`spawn_mobs` in src/waves.rs).
 *
 * The pure function `SpawnTick` is the meaning of one frame of the system;
 * the class `WaveWorld` holds the two resources the plugin installs and its
 * method `SpawnMobs` performs the frame step by step and is proved to agree
 * with `SpawnTick`.
 */
module Waves {
  import opened Wrappers
  import opened Timers
  import opened Mobs

  /** Seconds between spawns and before the first spawn of a wave built by `NewWave`. */
  const SpawnInterval: real := 1.5
  const SpawnDelay: real := 1.0
  /** Mobs a wave spawns, as seeded by `StatsFrom`. */
  const UnitsPerWave: nat := 10
  /** The depth at which spawned mobs are placed. */
  const SpawnDepth: real := 5.0

  datatype Wave = Wave(path: seq<Vec2>, enemy: MobBundle, interval: real, delay: real)

  datatype WaveError = EmptyPaths | MissingPath(key: I32)

  /** `usize as i32`: keep the low 32 bits, read as two's complement. */
  function AsI32(n: nat): (k: I32)
    ensures n < 0x8000_0000 ==> k == n
    ensures (k - n) % 0x1_0000_0000 == 0
  {
    var m := n % 0x1_0000_0000;
    if m < 0x8000_0000 then m else m - 0x1_0000_0000
  }

  /** `usize as u8`: keep the low 8 bits. */
  function AsU8(n: nat): (k: U8)
    ensures n < 0x100 ==> k == n
    ensures (n - k) % 0x100 == 0
  {
    n % 0x100
  }

  /** The mob every wave built by `NewWave` sends: an ice mob on `path`, starting at its first point. */
  function Enemy(path: seq<Vec2>, side: U8): (b: MobBundle)
    ensures b.path == MobPath(path, side, 0)
    ensures b.stats == MobStats(HP(10, 10), 1, 50.0)
    ensures b.kind == Ice && b.rank == MobRank.Normal
  {
    MobBundle(Ice, MobStats(HP(10, 10), 1, 50.0), MobRank.Normal, MobPath(path, side, 0))
  }

  /**
   * `Wave::new`: the wave on the path whose key is one less than the number
   * of paths. The source panics when the map is empty (the subtraction
   * underflows) or has no such key (the lookup is unwrapped); both are `Err`.
   */
  function NewWave(paths: map<I32, seq<Vec2>>): (r: Result<Wave, WaveError>)
    ensures |paths| == 0 ==> r == Err(EmptyPaths)
    ensures r.Ok? <==> |paths| > 0 && AsI32(|paths| - 1) in paths
    ensures r.Ok? ==>
      var side := |paths| - 1;
      && r.value.path == paths[AsI32(side)]
      && r.value.enemy == Enemy(r.value.path, AsU8(side))
      && r.value.interval == SpawnInterval && r.value.delay == SpawnDelay
  {
    if |paths| == 0 then
      Err(EmptyPaths)
    else
      var side := |paths| - 1;
      var key := AsI32(side);
      if key !in paths then
        Err(MissingPath(key))
      else
        var path := paths[key];
        Ok(Wave(path, Enemy(path, AsU8(side)), SpawnInterval, SpawnDelay))
  }

  /** A wave built by `NewWave` spawns its mobs on the first point of the path they follow. */
  lemma NewWaveSpawnsOnOwnPath(paths: map<I32, seq<Vec2>>)
    requires NewWave(paths).Ok?
    ensures var w := NewWave(paths).value;
      w.enemy.path.path == w.path && w.enemy.path.pathIndex == 0
  {}

  /** The runtime counters of the active wave. */
  datatype WaveStats = WaveStats(delayTimer: Timer, spawnTimer: Timer, remaining: nat)

  /** `WaveStats::default`, installed by the plugin: one-second timers and nothing left to spawn. */
  function DefaultStats(): (s: WaveStats)
    ensures s.remaining == 0
    ensures s.delayTimer == FromSeconds(1.0, Once)
    ensures s.spawnTimer == FromSeconds(1.0, Repeating)
  {
    WaveStats(FromSeconds(1.0, Once), FromSeconds(1.0, Repeating), 0)
  }

  /**
   * `WaveStats::from(&wave)`: the wave's delay as a one-shot timer, its
   * interval as a repeating timer, and always ten mobs to spawn, whatever
   * the wave.
   */
  function StatsFrom(w: Wave): (s: WaveStats)
    requires w.delay >= 0.0 && w.interval >= 0.0
    ensures s.remaining == UnitsPerWave
    ensures s.delayTimer == FromSeconds(w.delay, Once)
    ensures s.spawnTimer == FromSeconds(w.interval, Repeating)
  {
    WaveStats(FromSeconds(w.delay, Once), FromSeconds(w.interval, Repeating), UnitsPerWave)
  }

  /** `Vec::get`: the element at `i`, if there is one. */
  function WaveAt(list: seq<Wave>, i: nat): (r: Option<Wave>)
    ensures r.Some? <==> i < |list|
    ensures r.Some? ==> r.value == list[i]
  {
    if i < |list| then Some(list[i]) else None
  }

  /** The wave list and its cursor; the cursor only moves forward. */
  class Waves {
    var list: seq<Wave>
    var current: nat

    /** `Waves::default`: no waves. */
    constructor ()
      ensures list == [] && current == 0
    {
      list := [];
      current := 0;
    }

    /** `Waves::current`: the wave under the cursor, or None past the end. */
    function Current(): (r: Option<Wave>)
      reads this
      ensures r == WaveAt(list, current)
    {
      WaveAt(list, current)
    }

    /** `Waves::advance`: move the cursor one wave on and return the wave there. */
    method Advance() returns (r: Option<Wave>)
      modifies this
      ensures current == old(current) + 1 && list == old(list)
      ensures r == Current()
      ensures r.Some? <==> old(current) + 1 < |list|
    {
      current := current + 1;
      r := Current();
    }
  }

  /** What the host is asked to create: a mob at `position` with a copy of the wave's enemy. */
  datatype SpawnRequest = SpawnRequest(position: Vec3, mob: MobBundle)

  /** The abstract state of the system: the wave list, its cursor and the counters. */
  datatype Scheduler = Scheduler(list: seq<Wave>, current: nat, stats: WaveStats)

  /** One frame: the next state and the spawn request issued, if any. */
  datatype Frame = Frame(next: Scheduler, spawn: Option<SpawnRequest>)

  /** Waves the system can run: a start point, and timers it can build. */
  predicate WaveOk(w: Wave) {
    |w.path| > 0 && w.interval >= 0.0 && w.delay >= 0.0
  }

  /**
   * The states the system can be in between frames. The last conjunct is
   * what keeps `remaining -= 1` from underflowing: while a wave is current
   * there is still a mob to spawn.
   */
  predicate Consistent(s: Scheduler) {
    && (forall i :: 0 <= i < |s.list| ==> WaveOk(s.list[i]))
    && s.current <= |s.list|
    && Timers.Valid(s.stats.delayTimer) && Timers.Valid(s.stats.spawnTimer)
    && (s.current < |s.list| ==> s.stats.remaining >= 1)
  }

  /** The spawn request for a wave: at the first point of its path, with its enemy. */
  function SpawnFor(w: Wave): (req: SpawnRequest)
    requires |w.path| > 0
    ensures req.position.Truncate() == w.path[0] && req.position.z == SpawnDepth
    ensures req.mob == w.enemy
  {
    SpawnRequest(Vec3(w.path[0].x, w.path[0].y, SpawnDepth), w.enemy)
  }

  /**
   * One frame of `spawn_mobs` after `delta` seconds. Without a current wave
   * nothing happens. Otherwise the delay timer is ticked; once it has
   * finished, the spawn timer is ticked too, and when it has just finished
   * a mob is requested and `remaining` drops by one. When that empties the
   * wave, the cursor moves on and, if there is a next wave, the counters are
   * replaced by fresh ones for it.
   */
  function SpawnTick(s: Scheduler, delta: real): (r: Frame)
    requires Consistent(s) && delta >= 0.0
    ensures Consistent(r.next)
    ensures r.next.list == s.list
    ensures r.next.current == s.current || r.next.current == s.current + 1
    ensures r.next.current == s.current + 1 ==> r.spawn.Some? && s.stats.remaining == 1
    ensures s.current >= |s.list| ==> r == Frame(s, None)
    ensures r.spawn.Some? ==> s.current < |s.list| && r.spawn.value == SpawnFor(s.list[s.current])
  {
    match WaveAt(s.list, s.current)
    case None => Frame(s, None)
    case Some(w) =>
      var delay := Tick(s.stats.delayTimer, delta);
      if !delay.finished then
        Frame(s.(stats := s.stats.(delayTimer := delay)), None)
      else
        var spawn := Tick(s.stats.spawnTimer, delta);
        var ticked := s.stats.(delayTimer := delay, spawnTimer := spawn);
        if !spawn.justFinished then
          Frame(s.(stats := ticked), None)
        else
          var left := ticked.(remaining := ticked.remaining - 1);
          var req := SpawnFor(w);
          if left.remaining != 0 then
            Frame(s.(stats := left), Some(req))
          else
            match WaveAt(s.list, s.current + 1)
            case Some(next) => Frame(Scheduler(s.list, s.current + 1, StatsFrom(next)), Some(req))
            case None => Frame(Scheduler(s.list, s.current + 1, left), Some(req))
  }

  /**
   * The spawn timer only runs on frames where the delay timer has finished:
   * until then the frame only advances the delay timer.
   */
  lemma DelayGatesSpawning(s: Scheduler, delta: real)
    requires Consistent(s) && delta >= 0.0 && s.current < |s.list|
    requires !Tick(s.stats.delayTimer, delta).finished
    ensures SpawnTick(s, delta) ==
      Frame(s.(stats := s.stats.(delayTimer := Tick(s.stats.delayTimer, delta))), None)
  {}

  /**
   * A spawn is requested exactly on the frames where a wave is current, the
   * delay timer is finished and the spawn timer has just finished.
   */
  lemma SpawnOnEdge(s: Scheduler, delta: real)
    requires Consistent(s) && delta >= 0.0
    ensures SpawnTick(s, delta).spawn.Some? <==>
      && s.current < |s.list|
      && Tick(s.stats.delayTimer, delta).finished
      && Tick(s.stats.spawnTimer, delta).justFinished
  {}

  /**
   * Once the delay timer has finished, a frame that does not empty the wave
   * ticks both timers (the spawn timer wrapping on the frame it finishes),
   * takes one from `remaining` for each mob it requests, and keeps the wave.
   */
  lemma DelayFinishedTicksBoth(s: Scheduler, delta: real)
    requires Consistent(s) && delta >= 0.0 && s.current < |s.list|
    requires Tick(s.stats.delayTimer, delta).finished
    requires !(Tick(s.stats.spawnTimer, delta).justFinished && s.stats.remaining == 1)
    ensures SpawnTick(s, delta).next ==
      s.(stats := s.stats.(
        delayTimer := Tick(s.stats.delayTimer, delta),
        spawnTimer := Tick(s.stats.spawnTimer, delta),
        remaining := s.stats.remaining - |OptionToSeq(SpawnTick(s, delta).spawn)|))
  {}

  /**
   * With frames no longer than the wave's interval, a spawn carries the
   * time the spawn timer overshot into the next interval, so spawns keep to
   * the interval instead of drifting by the frame length.
   */
  lemma SpawnKeepsPace(s: Scheduler, delta: real)
    requires Consistent(s) && s.current < |s.list| && s.stats.remaining > 1
    requires 0.0 <= delta <= s.stats.spawnTimer.duration
    requires s.stats.spawnTimer.mode == Repeating && s.stats.spawnTimer.duration > 0.0
    requires SpawnTick(s, delta).spawn.Some?
    ensures SpawnTick(s, delta).next.stats.spawnTimer.elapsed ==
      s.stats.spawnTimer.elapsed + delta - s.stats.spawnTimer.duration
  {
    RepeatingCarriesOvershoot(s.stats.spawnTimer, delta);
  }

  /** A spawn that does not empty the wave takes exactly one from `remaining` and keeps the wave. */
  lemma SpawnCountsDown(s: Scheduler, delta: real)
    requires Consistent(s) && delta >= 0.0
    requires SpawnTick(s, delta).spawn.Some? && s.stats.remaining > 1
    ensures SpawnTick(s, delta).next.current == s.current
    ensures SpawnTick(s, delta).next.stats.remaining == s.stats.remaining - 1
  {}

  /**
   * The spawn that empties a wave moves the cursor on; the next wave, if
   * there is one, starts with fresh counters; otherwise the counters are
   * left as this frame made them (both timers ticked, nothing remaining) and
   * the system is idle.
   */
  lemma LastSpawnAdvances(s: Scheduler, delta: real)
    requires Consistent(s) && delta >= 0.0
    requires SpawnTick(s, delta).spawn.Some? && s.stats.remaining == 1
    ensures var n := SpawnTick(s, delta).next;
      && n.current == s.current + 1
      && (n.current < |s.list| ==> n.stats == StatsFrom(s.list[n.current]))
      && (n.current == |s.list| ==>
            && n.stats == s.stats.(delayTimer := Tick(s.stats.delayTimer, delta),
                                   spawnTimer := Tick(s.stats.spawnTimer, delta),
                                   remaining := 0)
            && SpawnTick(n, delta) == Frame(n, None))
  {}

  /**
   * Mobs still to come: what is left of the current wave and ten for each
   * wave after it.
   */
  function Budget(s: Scheduler): nat {
    if s.current < |s.list| then
      s.stats.remaining + UnitsPerWave * (|s.list| - s.current - 1)
    else 0
  }

  /** Every spawn uses up exactly one unit of the budget; other frames keep it. */
  lemma SpawnTickBudget(s: Scheduler, delta: real)
    requires Consistent(s) && delta >= 0.0
    ensures Budget(SpawnTick(s, delta).next) + |OptionToSeq(SpawnTick(s, delta).spawn)| == Budget(s)
  {
    var r := SpawnTick(s, delta);
    if r.spawn.Some? && s.stats.remaining == 1 {
      if s.current + 1 < |s.list| {
        calc {
          Budget(r.next);
          UnitsPerWave + UnitsPerWave * (|s.list| - s.current - 2);
          UnitsPerWave * (|s.list| - s.current - 1);
          Budget(s) - 1;
        }
      }
    }
  }

  /** Frames of the given lengths, one after another: the final state and every request issued. */
  function Run(s: Scheduler, deltas: seq<real>): (r: (Scheduler, seq<SpawnRequest>))
    requires Consistent(s)
    requires forall i :: 0 <= i < |deltas| ==> deltas[i] >= 0.0
    ensures Consistent(r.0) && r.0.list == s.list && r.0.current >= s.current
    decreases |deltas|
  {
    if |deltas| == 0 then
      (s, [])
    else
      var f := SpawnTick(s, deltas[0]);
      var rest := Run(f.next, deltas[1..]);
      (rest.0, OptionToSeq(f.spawn) + rest.1)
  }

  /** Over any run, the mobs requested are exactly the budget used up. */
  lemma {:induction false} RunBudget(s: Scheduler, deltas: seq<real>)
    requires Consistent(s)
    requires forall i :: 0 <= i < |deltas| ==> deltas[i] >= 0.0
    ensures |Run(s, deltas).1| + Budget(Run(s, deltas).0) == Budget(s)
    decreases |deltas|
  {
    if |deltas| > 0 {
      SpawnTickBudget(s, deltas[0]);
      RunBudget(SpawnTick(s, deltas[0]).next, deltas[1..]);
    }
  }

  /** The state the system is in when wave 0 has just been made current with its own counters. */
  function Start(list: seq<Wave>): (s: Scheduler)
    requires |list| > 0 && forall i :: 0 <= i < |list| ==> WaveOk(list[i])
    ensures Consistent(s) && Budget(s) == UnitsPerWave * |list|
  {
    assert WaveOk(list[0]);
    Scheduler(list, 0, StatsFrom(list[0]))
  }

  /**
   * From the start of a wave list, no run requests more than ten mobs per
   * wave, and a run that gets through the whole list requests exactly ten
   * per wave.
   */
  lemma TenPerWave(list: seq<Wave>, deltas: seq<real>)
    requires |list| > 0 && forall i :: 0 <= i < |list| ==> WaveOk(list[i])
    requires forall i :: 0 <= i < |deltas| ==> deltas[i] >= 0.0
    ensures |Run(Start(list), deltas).1| <= UnitsPerWave * |list|
    ensures Run(Start(list), deltas).0.current == |list| ==>
      |Run(Start(list), deltas).1| == UnitsPerWave * |list|
  {
    RunBudget(Start(list), deltas);
  }

  /** Once the list is exhausted, every later frame is a no-op: nothing is ever spawned again. */
  lemma {:induction false} IdleForever(s: Scheduler, deltas: seq<real>)
    requires Consistent(s) && s.current >= |s.list|
    requires forall i :: 0 <= i < |deltas| ==> deltas[i] >= 0.0
    ensures Run(s, deltas) == (s, [])
    decreases |deltas|
  {
    if |deltas| > 0 {
      var f := SpawnTick(s, deltas[0]);
      assert f == Frame(s, None);
      IdleForever(s, deltas[1..]);
      assert Run(s, deltas) == (Run(f.next, deltas[1..]).0, OptionToSeq(f.spawn) + Run(f.next, deltas[1..]).1);
      assert OptionToSeq(f.spawn) + Run(f.next, deltas[1..]).1 == [];
    }
  }

  /**
   * A one-wave list with a 1 s delay, a 1.5 s interval and two mobs left,
   * run for frames of 1.0 s, 1.5 s and 1.5 s: the first frame only finishes
   * the delay, the next two each spawn, and the second spawn exhausts the list.
   */
  lemma TwoMobWave(w: Wave)
    requires WaveOk(w) && w.delay == 1.0 && w.interval == 1.5
    ensures var s := Scheduler([w], 0, StatsFrom(w).(remaining := 2));
      var r := Run(s, [1.0, 1.5, 1.5]);
      r.1 == [SpawnFor(w), SpawnFor(w)] && r.0.current == 1
  {
    var s0 := Scheduler([w], 0, StatsFrom(w).(remaining := 2));
    var f1 := SpawnTick(s0, 1.0);
    assert f1.spawn.None? && f1.next.stats.spawnTimer.elapsed == 1.0;
    var f2 := SpawnTick(f1.next, 1.5);
    assert f2.spawn.Some? && f2.next.stats.remaining == 1;
    var f3 := SpawnTick(f2.next, 1.5);
    assert f3.spawn.Some? && f3.next.current == 1;
    assert [1.0, 1.5, 1.5][1..] == [1.5, 1.5];
    assert [1.5, 1.5][1..] == [1.5];
    assert [1.5][1..] == [];
  }

  /** The plugin's initial resources: no waves, default counters. */
  lemma InstalledIsConsistent()
    ensures Consistent(Scheduler([], 0, DefaultStats()))
    ensures Budget(Scheduler([], 0, DefaultStats())) == 0
  {}

  /**
   * A wave made current while the default counters are still installed has
   * nothing left to spawn: the first spawn would underflow `remaining`. Who
   * fills the list must also install `StatsFrom` of its first wave.
   */
  lemma DefaultStatsCannotRun(w: Wave)
    ensures !Consistent(Scheduler([w], 0, DefaultStats()))
  {}

  /** The two resources the plugin installs, and the spawn requests issued so far. */
  class WaveWorld {
    const waves: Waves
    var stats: WaveStats
    var spawned: seq<SpawnRequest>

    /** `WavePlugin::build`: `Waves::default()` and `WaveStats::default()`. */
    constructor ()
      ensures fresh(waves) && waves.list == [] && waves.current == 0
      ensures stats == DefaultStats() && spawned == []
      ensures Consistent(State())
    {
      waves := new Waves();
      stats := DefaultStats();
      spawned := [];
    }

    ghost function State(): Scheduler
      reads this, waves
    {
      Scheduler(waves.list, waves.current, stats)
    }

    /**
     * `spawn_mobs` for a frame of `delta` seconds, changing the resources in
     * place; a spawn is appended to `spawned`.
     */
    method SpawnMobs(delta: real)
      requires delta >= 0.0 && Consistent(State())
      modifies this, waves
      ensures State() == SpawnTick(old(State()), delta).next
      ensures spawned == old(spawned) + OptionToSeq(SpawnTick(old(State()), delta).spawn)
      ensures Consistent(State())
    {
      var wave := waves.Current();
      if wave.None? {
        return;
      }
      stats := stats.(delayTimer := Tick(stats.delayTimer, delta));
      if !stats.delayTimer.finished {
        return;
      }
      stats := stats.(spawnTimer := Tick(stats.spawnTimer, delta));
      if !stats.spawnTimer.justFinished {
        return;
      }
      var point := wave.value.path[0];
      spawned := spawned + [SpawnRequest(Vec3(point.x, point.y, SpawnDepth), wave.value.enemy)];
      stats := stats.(remaining := stats.remaining - 1);
      if stats.remaining == 0 {
        var next := waves.Advance();
        if next.Some? {
          stats := StatsFrom(next.value);
        }
      }
    }
  }
}
