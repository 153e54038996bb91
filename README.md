# Tower-defense waves and waypoint motion, in Dafny

This project models the game logic of a small Bevy tower-defense game:

- the **wave scheduler** (`src/waves.rs`): building a `Wave` from the map's
  paths, the per-wave counters `WaveStats` (a one-shot delay timer, a
  repeating spawn timer and the number of mobs `remaining`), the wave list
  `Waves` with its cursor, and the per-frame system `spawn_mobs`;
- the **waypoint motion** (`src/mobs.rs`, `movement`): each mob walks along
  its polyline at `speed`. It moves the fraction `step / dist` of the way
  from where it stands to the next waypoint. When the step reaches the
  waypoint, it lands exactly on it and counts it as reached.

Files and modules:

- `wrappers.dfy`, module `Wrappers`: `Option`, `Result`, and `OptionToSeq`.
- `timers.dfy`, module `Timers`: the engine's `Timer`, reduced to an
  accumulator. This is an assumption about the library, whose code is not part
  of this model:
  - a Once timer has `elapsed := min(elapsed + delta, duration)` and is
    finished exactly when `elapsed >= duration`;
  - a Repeating timer is "just finished" on a tick exactly when
    `elapsed + delta >= duration`; `elapsed` then wraps to the remainder.
- `mobs.dfy`, module `Mobs`: the component shapes (`MobBundle`, `MobStats`,
  `MobPath`, `MobKind`, `MobRank`, and `HP` from `src/tdcomponents.rs`).
  It also holds the pure one-mob step `Advance`, the class `Mob` whose
  translation and path are updated in place by `Mob.Step`, and
  `Movement`, the loop over an array of mobs.
- `waves.dfy`, module `Waves`: `NewWave`, `DefaultStats`, `StatsFrom`, the
  class `Waves`, and the pure one-frame meaning of `spawn_mobs`
  (`SpawnTick`, and `Run` over many frames).
  - It also holds the class `WaveWorld`: the two resources the plugin
    installs, plus the log of spawn requests.
  - `WaveWorld.SpawnMobs` updates these resources step by step, as the
    system does, and is proved to agree with `SpawnTick`.

Numbers: `f32` coordinates, speeds and durations are `real`. `usize` is `nat`,
and `u8`/`i32` are subset types. The source's casts `side as i32` and
`side as u8` are written out as wrap-arounds (`AsI32`, `AsU8`). A vector's
length is a square root, so the motion step is given the distance `dist` as a
parameter together with `dist >= 0 && dist*dist == dx*dx + dy*dy`.

Panics are modelled as follows:

- `Wave::new` on an empty map or a map without the key `len-1` returns `Err`.
- The two panics in `spawn_mobs` are kept out by the state invariant
  `Consistent`, which `SpawnTick` preserves:
  - the `usize` underflow of `remaining -= 1`;
  - the out-of-bounds `path[0]` of a wave with an empty path.
- The underflow of `path.len() - 1` for a mob with an empty path is a
  precondition of the motion step.

The model follows the code also where its behaviour may be unexpected:

- a frame of length zero is not a no-op for a mob standing exactly on its
  next waypoint: the distance is 0, so the step snaps and `path_index`
  increases (`Mobs.ZeroDistanceSnaps`, `Mobs.ZeroFrameAtRest` needs the mob
  off the waypoint);
- every wave after the first spawns ten mobs, because `WaveStats::from`
  ignores the wave; the first wave spawns ten when it starts from `StatsFrom`
  (`Waves.Start`), but its count depends on whoever fills the list;
- the wave's path is the one under the key `len - 1`, not the largest key;
- paths with a single point are not rejected.

## Model

| member | source | states |
|---|---|---|
| Timers.FromSeconds | src/waves.rs:81-82 | a fresh timer has the given duration and mode, nothing elapsed, not finished |
| Timers.Wrap | src/waves.rs:121 | the repeating timer keeps what is left after whole durations: within `[0, duration)`, a whole number of durations removed; 0 for a zero duration (a modelling choice) |
| Timers.Tick | src/waves.rs:116-124 | Once: `elapsed = min(elapsed + delta, duration)`, finished iff `elapsed >= duration`, just finished only on the finishing tick; Repeating: just finished iff `elapsed + delta >= duration`, then wraps; the timer stays valid |
| Timers.WrapOnce | src/waves.rs:121 | between one and two whole durations, the wrap removes exactly one duration |
| Timers.RepeatingCarriesOvershoot | src/waves.rs:121-122 | a repeating timer ticked by at most its duration finishes iff it reaches the duration, and then keeps exactly the overshoot, so it does not drift |
| Timers.OnceStaysFinished | src/waves.rs:116-119 | a finished delay timer stays finished and further ticks change nothing |
| Mobs.Vec3.Truncate | src/mobs.rs:70 | the x/y part of a translation |
| Mobs.PositiveLength | src/mobs.rs:70-71 | two distinct points are a positive distance apart |
| Mobs.Advance | src/mobs.rs:64-83 | path, side and z never change; the index stays or grows by exactly one and never passes the last waypoint; a mob at its goal is unchanged; the index grows iff `step >= dist`, and then the mob stands exactly on the waypoint it reached |
| Mobs.ShortStepDistance | src/mobs.rs:74-78 | a step short of the waypoint keeps the index, moves the mob to `pos + (step/dist)*(waypoint - pos)` and leaves it exactly `dist - step > 0` from the waypoint, so the distance strictly decreases when `step > 0` |
| Mobs.ZeroDistanceSnaps | src/mobs.rs:73-83 | at distance 0 the step always snaps onto the waypoint and counts it, so there is no division by zero |
| Mobs.ZeroFrameAtRest | src/mobs.rs:73-78 | with `dt == 0` a mob not standing on its next waypoint is left unchanged |
| Mobs.HalfwayAlongSegment | src/mobs.rs:74-78 | path (0,0)-(10,0), speed 10, 0.5 s: the mob is at (5,0), index 0 |
| Mobs.ReachesLastWaypoint | src/mobs.rs:79-83 | same path, 1 s: the mob is at (10,0), index 1, at its goal |
| Mobs.Mob.constructor | src/waves.rs:129-136 | a spawned entity has the requested translation and a copy of the wave's enemy components |
| Mobs.Mob.Step | src/mobs.rs:65-83 | the in-place loop body changes translation and path exactly as `Advance` says; kind, stats and rank cannot change |
| Mobs.Movement | src/mobs.rs:60-85 | every mob in the query moves by exactly its own `Advance` step for the same frame length; no other object changes |
| Waves.AsI32 | src/waves.rs:31 | `usize as i32`: identity below 2^31, otherwise congruent modulo 2^32 |
| Waves.AsU8 | src/waves.rs:46 | `usize as u8`: identity below 256, otherwise congruent modulo 256 |
| Waves.Enemy | src/waves.rs:33-50 | the enemy template: ice kind, normal rank, hp 10/10, armor 1, speed 50, on the given path at index 0 |
| Waves.NewWave | src/waves.rs:29-58 | over a map with `i32` keys: succeeds iff the map is non-empty and has the key `(len-1) as i32`; then the wave's path is that entry, its enemy follows the same path from index 0 with side `len-1`, interval 1.5, delay 1.0 |
| Waves.NewWaveSpawnsOnOwnPath | src/waves.rs:44-53 | a built wave's mobs follow the wave's own path from its first point |
| Waves.DefaultStats | src/waves.rs:68-76 | the default counters: one-second Once and Repeating timers, `remaining = 0` |
| Waves.StatsFrom | src/waves.rs:78-86 | fresh counters for a wave: its delay as a Once timer, its interval as a Repeating timer, and `remaining = 10` whatever the wave |
| Waves.WaveAt | src/waves.rs:95-97 | the wave at the index when it is in range, None otherwise |
| Waves.Waves.constructor | src/waves.rs:88-92 | the default wave list is empty with the cursor at 0 |
| Waves.Waves.Current | src/waves.rs:95-97 | reads the wave under the cursor, changes nothing |
| Waves.Waves.Advance | src/waves.rs:99-102 | the cursor grows by exactly one, the list is untouched, and the result is the wave at the new cursor |
| Waves.SpawnFor | src/waves.rs:126-136 | a spawn request stands on the wave's first path point at depth 5 and carries a copy of the wave's enemy |
| Waves.SpawnTick | src/waves.rs:105-145 | one frame keeps the state consistent (no underflow, no empty path), keeps the list, moves the cursor by at most one and only on the frame that spawns the last mob; without a current wave it is a no-op; at most one request, for the current wave |
| Waves.DelayGatesSpawning | src/waves.rs:116-119 | until the delay timer has finished, a frame only advances the delay timer: the spawn timer, `remaining` and the cursor stay |
| Waves.SpawnOnEdge | src/waves.rs:112-124 | a spawn happens iff a wave is current, the delay timer is finished and the spawn timer has just finished |
| Waves.DelayFinishedTicksBoth | src/waves.rs:116-138 | once the delay timer has finished, a frame that does not empty the wave ticks both timers (the spawn timer wrapping when it finishes), takes one from `remaining` per request and keeps the cursor and the list |
| Waves.SpawnKeepsPace | src/waves.rs:121-138 | with frames no longer than the interval, a spawn leaves the spawn timer at the time it overshot the interval, so the next spawn is due one interval after the previous one was |
| Waves.SpawnCountsDown | src/waves.rs:138 | a spawn that does not empty the wave takes exactly one from `remaining` and keeps the cursor |
| Waves.LastSpawnAdvances | src/waves.rs:140-144 | the spawn that empties the wave advances the cursor; a next wave gets `StatsFrom` of it, otherwise the counters are the ones this frame left (both timers ticked, `remaining = 0`) and the next frame is a no-op |
| Waves.SpawnTickBudget | src/waves.rs:126-144 | each spawn uses up exactly one of the mobs still to come (`remaining` plus ten per later wave); other frames keep that number |
| Waves.Run | src/waves.rs:105-145 | any sequence of frames keeps the state consistent, the list unchanged and the cursor non-decreasing |
| Waves.RunBudget | src/waves.rs:138-144 | over any run, the number of spawn requests equals the number of mobs to come that were used up |
| Waves.Start | src/waves.rs:78-86 | the first wave made current with its own counters is a consistent state with ten mobs to come per wave |
| Waves.TenPerWave | src/waves.rs:83 | from the start of a wave list no run spawns more than ten times the number of waves in total, and a run through the whole list spawns exactly ten per wave |
| Waves.IdleForever | src/waves.rs:112-114 | once the cursor is past the list, any run changes nothing and spawns nothing |
| Waves.TwoMobWave | src/waves.rs:116-144 | delay 1 s, interval 1.5 s, two mobs left, frames 1.0, 1.5, 1.5: exactly two requests at the path start and the list is exhausted |
| Waves.InstalledIsConsistent | src/waves.rs:12-15 | the resources the plugin installs form a consistent state with nothing to spawn |
| Waves.DefaultStatsCannotRun | src/waves.rs:73 | a wave made current under the default counters (`remaining = 0`) is not a consistent state: its first spawn would underflow |
| Waves.WaveWorld.constructor | src/waves.rs:12-15 | the plugin installs the default wave list and the default counters |
| Waves.WaveWorld.SpawnMobs | src/waves.rs:105-145 | the step-by-step system leaves the resources as `SpawnTick` says and appends its spawn request, if any, to the log |

## Left out

- Waves.StatsFrom: the panic of `Timer::from_seconds` on a negative duration (src/waves.rs:81-82) is excluded by preconditions, not modelled: `StatsFrom` and `FromSeconds` require nonnegative durations, and `WaveOk` demands them of every wave in the list.
- Timers.Wrap: a zero duration wraps `elapsed` to 0, which is a modelling choice; the library instead leaves it growing. `spawn_mobs` cannot observe the difference, since the timer is "just finished" on every tick either way.
- Waves.SpawnTick: the two panics of `spawn_mobs` are excluded by the precondition `Consistent`, not modelled. One is `path[0]` on a wave whose path is empty (src/waves.rs:127), which `NewWave` accepts. The other is the underflow of `remaining -= 1` (src/waves.rs:138) when a wave is current with `remaining = 0`, as under the installed default counters.
- Plugin and schedule wiring (`WavePlugin::build`'s `add_system`, `OnUpdate`, `Res`/`ResMut`, `Query`, `Commands`): framework plumbing.
  - `Commands::spawn` is modelled as the appended `SpawnRequest`.
  - `insert_resource` is modelled as replacing the counters at once. The engine applies it after the system; nothing in the system reads the counters afterwards.
- Sprites and assets (`SpriteBundle`, `asset_server.load`, `MobAnimationTimer`, `spawn_mob`/`FakeMob`): rendering only.
- `src/main.rs` and `src/loading.rs`: window, application and asset bootstrap. The `tiled` module they use is not part of this model.
- The code that fills `Waves.list` is not part of this model. The invariant `Consistent` shows what it must do: install `WaveStats::from` of the first wave (`Waves.DefaultStatsCannotRun`).
- Timers.Tick: the engine's pause state and the exact count of finishes in one tick are not modelled; only "just finished" is.
- Durations are `real` seconds, not the engine's nanosecond `Duration`s.
- `f32` rounding and the square root of `Vec2::length` are not modelled; the distance is an input.
- Mobs.Advance: negative speeds are excluded (`speed >= 0`). The game only builds mobs with speed 50. With a negative speed and distance 0, the `f32` code would compute NaN, which `real` cannot express.
- Mobs.Movement: the distances are given per mob for the start of the frame. The loop reads each mob once, so that is the distance the code computes.
- Mobs.ZeroDistanceSnaps: states where the mob lands (on the waypoint), not that it was already there.
- Waves.TwoMobWave: shortened to two mobs instead of the ten that `WaveStats::from` installs. `Waves.TenPerWave` covers the ten-mob count for all runs.
- The tower, bullet, score, gold and goal declarations of `src/tdcomponents.rs`: they have no behaviour.
