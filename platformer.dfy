/** The integer logic of the single-player platformer, shape/game.js:
    the tech catalogue and `applyTech`, damage and the lives/respawn rule,
    the Q-key weapon cycle, the fixed particle pool and the right edge of
    the generated terrain. The game keeps one global `state`; here it is
    the class `Game`. Float physics, rendering and input are not part of
    this model. */
module Platformer {
  import opened Mulberry

  const PlayerBaseMaxHp := 10
  const PlayerBaseLives := 3
  const PlayerInvulnSec: real := 1.0
  const RespawnInvulnSec: real := 2.0
  const CheckpointStart: real := 100.0

  /** `PARTICLE_POOL` holds 120 particles. */
  const PoolSize := 120
  /** `damagePlayer` asks for 8 particles. */
  const HitParticles := 8
  /** Each spawned particle draws four numbers: angle, speed, life, hue. */
  const DrawsPerParticle := 4

  /** The keys of `TECH_CATALOG`. */
  const TechIds: set<string> := {"hp_boost", "regen_boost", "invuln_ext", "damage_amp", "extra_life"}

  /** `Object.keys(WEAPON_CONFIG)`, in declaration order. */
  const WeaponIds: seq<string> := ["basic", "laser", "spread"]

  /** The integer fields of `state.player` the techs and deaths change. */
  datatype Stats = Stats(hp: int, maxHp: int, lives: int)

  /** The applied techs (`state.techs`) with the player's stats. */
  datatype Loadout = Loadout(techs: set<string>, stats: Stats)

  function Max(a: int, b: int): int {
    if a < b then b else a
  }

  function Min(a: int, b: int): int {
    if a < b then a else b
  }

  // ---------------------------------------------------------------------
  // Techs

  /** `TECH_CATALOG[id].apply(state)` on the integer stats. `regen_boost`,
      `invuln_ext` and `damage_amp` change only float fields. */
  function ApplyEffect(id: string, s: Stats): Stats {
    if id == "hp_boost" then s.(maxHp := s.maxHp + 4, hp := s.hp + 4)
    else if id == "extra_life" then s.(lives := s.lives + 1)
    else s
  }

  /** `TECH_CATALOG[id].revert(state)` on the integer stats. */
  function RevertEffect(id: string, s: Stats): Stats {
    if id == "hp_boost" then
      var maxHp := s.maxHp - 4;
      s.(maxHp := maxHp, hp := if s.hp > maxHp then maxHp else s.hp)
    else if id == "extra_life" then s.(lives := Max(0, s.lives - 1))
    else s
  }

  /** `extra_life` adds exactly one life; its revert takes one away but
      never goes below zero, and so undoes the apply on any count of
      lives that is not negative. */
  lemma ExtraLife(s: Stats)
    ensures ApplyEffect("extra_life", s) == s.(lives := s.lives + 1)
    ensures RevertEffect("extra_life", s).lives == Max(0, s.lives - 1) >= 0
    ensures s.lives >= 0 ==> RevertEffect("extra_life", ApplyEffect("extra_life", s)) == s
  {
  }

  /** `hp_boost` adds 4 to both maximum and current hp; its revert only
      clamps the current hp, so it restores hp only when the player was at
      the maximum; otherwise up to 4 of the bonus stays. */
  lemma HpBoost(s: Stats)
    requires s.hp <= s.maxHp
    ensures ApplyEffect("hp_boost", s).hp <= ApplyEffect("hp_boost", s).maxHp
    ensures RevertEffect("hp_boost", ApplyEffect("hp_boost", s)) == s.(hp := Min(s.hp + 4, s.maxHp))
    ensures RevertEffect("hp_boost", ApplyEffect("hp_boost", s)).hp == s.hp <==> s.hp == s.maxHp
  {
  }

  /** `applyTech`: unknown ids and ids already applied are ignored;
      otherwise the effect is applied once and the id recorded. */
  function WithTech(id: string, l: Loadout): Loadout {
    if id !in TechIds || id in l.techs then l
    else Loadout(l.techs + {id}, ApplyEffect(id, l.stats))
  }

  /** Applying a tech twice is applying it once; an unknown id changes
      nothing; a known new id is recorded and its effect applied. */
  lemma ApplyTechIdempotent(id: string, l: Loadout)
    ensures WithTech(id, WithTech(id, l)) == WithTech(id, l)
    ensures id !in TechIds ==> WithTech(id, l) == l
    ensures id in TechIds ==> WithTech(id, l).techs == l.techs + {id}
    ensures id in TechIds && id !in l.techs ==> WithTech(id, l).stats == ApplyEffect(id, l.stats)
  {
  }

  /** However often `extra_life` is picked up, it adds one life in all. */
  lemma {:induction false} ExtraLifeOnce(l: Loadout, n: nat)
    requires "extra_life" !in l.techs
    ensures RepeatTech("extra_life", l, n + 1).stats.lives == l.stats.lives + 1
  {
    if n > 0 {
      ExtraLifeOnce(l, n - 1);
      ApplyTechIdempotent("extra_life", RepeatTech("extra_life", l, n));
    }
  }

  /** `n` calls of `applyTech(id)`. */
  function RepeatTech(id: string, l: Loadout, n: nat): Loadout {
    if n == 0 then l else WithTech(id, RepeatTech(id, l, n - 1))
  }

  // ---------------------------------------------------------------------
  // Death and respawn

  /** The stats after `handlePlayerDeath`: one life lost, floored at 0;
      at 0 the lives are reset to `playerBaseLives`; hp back to the
      maximum. */
  function AfterDeath(s: Stats): (r: Stats)
    ensures r.lives >= 1
    ensures s.lives >= 2 ==> r.lives == s.lives - 1
    ensures s.lives <= 1 ==> r.lives == PlayerBaseLives
    ensures r.hp == r.maxHp == s.maxHp
  {
    var lives := Max(0, s.lives - 1);
    Stats(s.maxHp, s.maxHp, if lives <= 0 then PlayerBaseLives else lives)
  }

  /** The stats after `damagePlayer(amount)` when not invulnerable. */
  function AfterHit(s: Stats, amount: int): (r: Stats)
    ensures s.hp - amount > 0 ==> r == s.(hp := s.hp - amount)
    ensures s.hp - amount <= 0 ==> r == AfterDeath(s) && r.hp == s.maxHp && r.lives >= 1
  {
    var hurt := s.(hp := s.hp - amount);
    if hurt.hp <= 0 then AfterDeath(hurt) else hurt
  }

  /** No sequence of hits leaves the player without lives. */
  lemma {:induction false} LivesStayPositive(s: Stats, hits: seq<int>)
    requires s.lives >= 1
    ensures HitAll(s, hits).lives >= 1
    decreases hits
  {
    if hits != [] {
      LivesStayPositive(AfterHit(s, hits[0]), hits[1..]);
    }
  }

  /** Hits taken one after another, each when not invulnerable. */
  function HitAll(s: Stats, hits: seq<int>): Stats
    decreases hits
  {
    if hits == [] then s else HitAll(AfterHit(s, hits[0]), hits[1..])
  }

  // ---------------------------------------------------------------------
  // Weapons

  /** `Array.prototype.indexOf`: the first index holding `x`, or -1. */
  function IndexOf(s: seq<string>, x: string): (r: int)
    ensures -1 <= r < |s|
    ensures r == -1 <==> x !in s
    ensures r >= 0 ==> s[r] == x && x !in s[..r]
  {
    if s == [] then -1
    else if s[0] == x then 0
    else
      var k := IndexOf(s[1..], x);
      assert k >= 0 ==> s[..k + 1] == [s[0]] + s[1..][..k];
      if k == -1 then -1 else k + 1
  }

  /** The Q key: `keys[(keys.indexOf(equippedGun) + 1) % keys.length]`. */
  function NextWeapon(gun: string): string {
    WeaponIds[(IndexOf(WeaponIds, gun) + 1) % |WeaponIds|]
  }

  /** Q always selects a catalogued weapon, goes basic, laser, spread and
      back to basic, and turns an unknown weapon into basic. */
  lemma WeaponCycle(gun: string)
    ensures NextWeapon(gun) in WeaponIds
    ensures gun !in WeaponIds ==> NextWeapon(gun) == "basic"
    ensures NextWeapon("basic") == "laser" && NextWeapon("laser") == "spread" && NextWeapon("spread") == "basic"
    ensures gun in WeaponIds ==> NextWeapon(NextWeapon(NextWeapon(gun))) == gun
  {
    assert WeaponIds[0] == "basic" && WeaponIds[1] == "laser" && WeaponIds[2] == "spread";
    assert IndexOf(WeaponIds, "basic") == 0;
    assert IndexOf(WeaponIds, "laser") == 1;
    assert IndexOf(WeaponIds, "spread") == 2;
  }

  // ---------------------------------------------------------------------
  // Particle pool

  /** The number of inactive slots. */
  function Inactive(s: seq<bool>): (r: nat)
    ensures r <= |s|
  {
    if s == [] then 0 else Inactive(s[..|s| - 1]) + (if s[|s| - 1] then 0 else 1)
  }

  /** The pool after `spawnParticles(x, y, count)`: scanning from slot 0,
      a slot is switched on exactly when it was off and fewer than
      `count` off slots came before it. */
  function Spawned(s: seq<bool>, count: int): (r: seq<bool>)
    ensures |r| == |s|
    ensures forall i :: 0 <= i < |s| && s[i] ==> r[i]
  {
    seq(|s|, i requires 0 <= i < |s| => s[i] || Inactive(s[..i]) < count)
  }

  lemma {:induction false} InactiveMonotone(s: seq<bool>, i: nat, j: nat)
    requires i <= j <= |s|
    ensures Inactive(s[..i]) <= Inactive(s[..j])
    decreases j - i
  {
    if i < j {
      InactiveMonotone(s, i, j - 1);
      assert s[..j][..j - 1] == s[..j - 1];
    }
  }

  /** Slot `i` of the spawned pool, and how the count of inactive slots
      grows by one slot. */
  lemma SpawnStep(s: seq<bool>, count: int, i: nat)
    requires i < |s|
    ensures Spawned(s, count)[i] == (s[i] || Inactive(s[..i]) < count)
    ensures Inactive(s[..i + 1]) == Inactive(s[..i]) + (if s[i] then 0 else 1)
    ensures Spawned(s, count)[..i + 1] == Spawned(s, count)[..i] + [s[i] || Inactive(s[..i]) < count]
  {
    assert s[..i + 1][..i] == s[..i];
  }

  /** Once `count` inactive slots lie before `i`, the rest of the pool is
      left as it was. */
  lemma SpawnTail(s: seq<bool>, count: int, i: nat)
    requires i <= |s| && (i == |s| || Inactive(s[..i]) >= count)
    ensures Spawned(s, count)[i..] == s[i..]
  {
    forall k | i <= k < |s| ensures Spawned(s, count)[k] == s[k] {
      InactiveMonotone(s, i, k);
    }
  }

  /** Only `count` particles at most are switched on, and fewer only when
      the pool runs out of inactive slots. */
  lemma {:induction false} SpawnedCount(s: seq<bool>, count: int, n: nat)
    requires n <= |s|
    ensures var r := Spawned(s, count);
      Inactive(r[..n]) <= Inactive(s[..n]) &&
      Inactive(s[..n]) - Inactive(r[..n]) == Min(Max(count, 0), Inactive(s[..n]))
  {
    if n > 0 {
      SpawnedCount(s, count, n - 1);
      var r := Spawned(s, count);
      assert s[..n][..n - 1] == s[..n - 1];
      assert r[..n][..n - 1] == r[..n - 1];
    }
  }

  /** The number of particles a call switches on. */
  function Activated(s: seq<bool>, count: int): (k: nat)
    ensures k == Min(Max(count, 0), Inactive(s))
  {
    SpawnedCount(s, count, |s|);
    assert s[..|s|] == s;
    assert Spawned(s, count)[..|s|] == Spawned(s, count);
    Inactive(s) - Inactive(Spawned(s, count))
  }

  /** Where the spawn loop stops, the slots it switched on are all there
      are to switch on. */
  lemma SpawnedAtExit(s: seq<bool>, count: int, i: nat)
    requires i <= |s|
    requires (count <= 0 && i == 0) || (count > 0 && Inactive(s[..i]) <= count && (i == |s| || Inactive(s[..i]) == count))
    ensures Activated(s, count) == Inactive(s[..i])
  {
    InactiveMonotone(s, i, |s|);
    assert s[..|s|] == s;
  }

  /** One more particle is four more draws. */
  lemma ParticleDraws(a: U32, n: nat)
    ensures StateAfter(StateAfter(a, DrawsPerParticle * n), DrawsPerParticle) == StateAfter(a, DrawsPerParticle * (n + 1))
  {
    StateAfterAdd(a, DrawsPerParticle * n, DrawsPerParticle);
  }

  // ---------------------------------------------------------------------
  // Terrain

  /** A platform's box; every platform of the game has integer
      coordinates. */
  datatype Platform = Platform(x: int, y: int, w: int, h: int)

  /** `generatePlatforms` makes ten platforms per call. */
  const PlatformCount := 10
  /** `resetWorld` sets `terrainEndX` to 960. */
  const InitialTerrainEnd := 960
  /** The right edge of the floor platform, `-10000 + 20000`. */
  const FloorEnd := 10000

  const FloorWidth := 20000

  /** The floor: `new Platform(-10000, canvas.height - 40, 20000, 40)`. */
  function Floor(canvasHeight: int): Platform {
    Platform(-10000, canvasHeight - 40, FloorWidth, 40)
  }

  /** The value `computeTerrainEnd` returns for `ps`. */
  function RightEdge(ps: seq<Platform>): (r: int)
    ensures r >= 0
    ensures forall p :: p in ps ==> p.x + p.w <= r
    ensures r == 0 || exists p :: p in ps && p.x + p.w == r
  {
    if ps == [] then 0
    else
      var rest := ps[..|ps| - 1];
      assert ps == rest + [ps[|ps| - 1]];
      Max(RightEdge(rest), ps[|ps| - 1].x + ps[|ps| - 1].w)
  }

  /** The terrain end of two runs of platforms is the larger of theirs. */
  lemma {:induction false} RightEdgeAppend(xs: seq<Platform>, ys: seq<Platform>)
    ensures RightEdge(xs + ys) == Max(RightEdge(xs), RightEdge(ys))
    decreases |ys|
  {
    if ys == [] {
      assert xs + ys == xs;
    } else {
      var init := ys[..|ys| - 1];
      assert (xs + ys)[..|xs + ys| - 1] == xs + init;
      RightEdgeAppend(xs, init);
    }
  }

  /** A right edge that bounds every platform's and is not negative
      bounds `RightEdge`. */
  lemma RightEdgeAtMost(ps: seq<Platform>, bound: int)
    requires bound >= 0 && forall p :: p in ps ==> p.x + p.w <= bound
    ensures RightEdge(ps) <= bound
  {
  }

  lemma RightEdgeBetween(ps: seq<Platform>, lo: int, hi: int)
    requires |ps| > 0 && ps[|ps| - 1].x + ps[|ps| - 1].w >= lo
    requires hi >= 0 && forall i :: 0 <= i < |ps| ==> ps[i].x + ps[i].w <= hi
    ensures lo <= RightEdge(ps) <= hi
  {
    assert ps[|ps| - 1] in ps;
    RightEdgeAtMost(ps, hi);
  }

  /** `computeTerrainEnd`: the largest right edge `x + w`, at least 0. */
  method ComputeTerrainEnd(platforms: seq<Platform>) returns (maxX: int)
    ensures maxX == RightEdge(platforms)
    ensures maxX >= 0
    ensures forall p :: p in platforms ==> p.x + p.w <= maxX
    ensures maxX == 0 || exists p :: p in platforms && p.x + p.w == maxX
  {
    maxX := 0;
    for i := 0 to |platforms|
      invariant maxX == RightEdge(platforms[..i])
    {
      assert platforms[..i + 1][..i] == platforms[..i];
      maxX := Max(maxX, platforms[i].x + platforms[i].w);
    }
    assert platforms[..|platforms|] == platforms;
  }

  /** `Math.floor(rng() * n)` for a draw whose 32-bit integer is `u`: the
      double `u / 2^32` times a small integer is exact, so the floor is an
      integer division. */
  function Scale(u: int, n: nat): (r: nat)
    requires 0 <= u < Modulus
    ensures n > 0 ==> r < n
  {
    if n > 0 then DivBelow(u, n, Modulus); (u * n) / Modulus else 0
  }

  lemma DivBelow(x: nat, n: nat, m: nat)
    requires x < m && n > 0
    ensures (x * n) / m < n
  {
    var q := (x * n) / m;
    assert q * m <= x * n;
    assert x * n < m * n;
  }

  /** Draws as `rng()` produces them: 32-bit integers. */
  ghost predicate Draws32(ds: seq<int>) {
    forall k :: 0 <= k < |ds| ==> 0 <= ds[k] < Modulus
  }

  lemma DrawsAre32(a: U32, n: nat)
    ensures Draws32(Draws(a, n))
  {
  }

  /** Platform `i` of a `generatePlatforms(startX)` call whose draws are
      `ds`: it uses draws `2i` and `2i + 1`. */
  function PlatformFrom(ds: seq<int>, startX: int, i: nat): Platform
    requires Draws32(ds) && 2 * i + 1 < |ds|
  {
    NewPlatform(startX, i, ds[2 * i], ds[2 * i + 1])
  }

  /** The body of the `generatePlatforms` loop for draws `dx` and `dy`. */
  function NewPlatform(startX: int, i: int, dx: int, dy: int): Platform
    requires 0 <= dx < Modulus && 0 <= dy < Modulus
  {
    Platform(startX + i * 96 + Scale(dx, 48), 380 + Scale(dy, 180), 88, 18)
  }

  /** The first `n` platforms of a `generatePlatforms(startX)` call. */
  function Generated(ds: seq<int>, startX: int, n: nat): (r: seq<Platform>)
    requires Draws32(ds) && 2 * n <= |ds|
    ensures |r| == n
  {
    seq(n, i requires 0 <= i < n => PlatformFrom(ds, startX, i))
  }

  lemma GeneratedSnoc(ds: seq<int>, startX: int, n: nat)
    requires Draws32(ds) && 2 * (n + 1) <= |ds|
    ensures Generated(ds, startX, n + 1) == Generated(ds, startX, n) + [PlatformFrom(ds, startX, n)]
  {
  }

  /** Whatever the draws, platform `i` starts in
      `[startX + 96i, startX + 96i + 48)` at a height in `[380, 560)`, is
      88 by 18, and lies right of the ones before it. */
  lemma GeneratedLayout(ds: seq<int>, startX: int, n: nat)
    requires Draws32(ds) && 2 * n <= |ds|
    ensures forall i :: 0 <= i < n ==>
      var p := Generated(ds, startX, n)[i];
      && startX + 96 * i <= p.x < startX + 96 * i + 48
      && 380 <= p.y < 560 && p.w == 88 && p.h == 18
    ensures forall i, j :: 0 <= i < j < n ==> Generated(ds, startX, n)[i].x < Generated(ds, startX, n)[j].x
  {
  }

  /** The last platform a call generates ends between 952 and 999 pixels
      after `startX`, and none ends later. */
  lemma {:induction false} GeneratedEnd(ds: seq<int>, startX: int)
    requires Draws32(ds) && 2 * PlatformCount <= |ds| && startX >= 0
    ensures startX + 952 <= RightEdge(Generated(ds, startX, PlatformCount)) < startX + 1000
  {
    var ps := Generated(ds, startX, PlatformCount);
    GeneratedLayout(ds, startX, PlatformCount);
    RightEdgeBetween(ps, startX + 952, startX + 999);
  }

  /** `terrainEndX` after the first extension, as written: the floor is
      part of `platforms`, so its right edge 10000 is the maximum whatever
      the draws, although the generated platforms end before 1960. */
  lemma {:induction false} FloorCapsTerrainEnd(canvasHeight: int, ds1: seq<int>, ds2: seq<int>)
    requires Draws32(ds1) && 2 * PlatformCount <= |ds1|
    requires Draws32(ds2) && 2 * PlatformCount <= |ds2|
    ensures RightEdge([Floor(canvasHeight)] + Generated(ds1, 0, PlatformCount)
                      + Generated(ds2, InitialTerrainEnd, PlatformCount)) == FloorEnd
    ensures RightEdge(Generated(ds1, 0, PlatformCount) + Generated(ds2, InitialTerrainEnd, PlatformCount)) < 1960
  {
    var floor := Floor(canvasHeight);
    var first, second := Generated(ds1, 0, PlatformCount), Generated(ds2, InitialTerrainEnd, PlatformCount);
    GeneratedEnd(ds1, 0);
    GeneratedEnd(ds2, InitialTerrainEnd);
    RightEdgeAppend(first, second);
    RightEdgeAppend([floor], first);
    RightEdgeAppend([floor] + first, second);
    assert [floor][..0] == [];
  }

  /** The end of the terrain generated so far, the floor left out. */
  function GeneratedTerrainEnd(ps: seq<Platform>, floor: Platform): (r: int)
    ensures r >= 0
    ensures forall p :: p in ps && p != floor ==> p.x + p.w <= r
  {
    WithoutFloorKeeps(ps, floor);
    RightEdge(WithoutFloor(ps, floor))
  }

  function WithoutFloor(ps: seq<Platform>, floor: Platform): (r: seq<Platform>)
    ensures forall p :: p in r ==> p in ps && p != floor
  {
    if ps == [] then []
    else (if ps[0] == floor then [] else [ps[0]]) + WithoutFloor(ps[1..], floor)
  }

  lemma {:induction false} WithoutFloorKeeps(ps: seq<Platform>, floor: Platform)
    ensures forall p :: p in ps && p != floor ==> p in WithoutFloor(ps, floor)
  {
    if ps != [] {
      WithoutFloorKeeps(ps[1..], floor);
      assert forall p :: p in ps ==> p == ps[0] || p in ps[1..];
    }
  }

  /** With the floor left out, the first extension starts at 960 and ends
      where its own platforms end, so the next one starts right after it. */
  lemma {:induction false} CorrectedTerrainEnd(canvasHeight: int, ds1: seq<int>, ds2: seq<int>)
    requires Draws32(ds1) && 2 * PlatformCount <= |ds1|
    requires Draws32(ds2) && 2 * PlatformCount <= |ds2|
    ensures var next := GeneratedTerrainEnd([Floor(canvasHeight)] + Generated(ds1, 0, PlatformCount)
                                            + Generated(ds2, InitialTerrainEnd, PlatformCount), Floor(canvasHeight));
      InitialTerrainEnd + 952 <= next < InitialTerrainEnd + 1000
  {
    var floor := Floor(canvasHeight);
    var first, second := Generated(ds1, 0, PlatformCount), Generated(ds2, InitialTerrainEnd, PlatformCount);
    GeneratedLayout(ds1, 0, PlatformCount);
    GeneratedLayout(ds2, InitialTerrainEnd, PlatformCount);
    WithoutFloorAbsent(first, floor);
    WithoutFloorAbsent(second, floor);
    WithoutFloorAppend([floor], first + second, floor);
    WithoutFloorAppend(first, second, floor);
    assert WithoutFloor([floor], floor) == [];
    assert [floor] + first + second == [floor] + (first + second);
    GeneratedEnd(ds1, 0);
    GeneratedEnd(ds2, InitialTerrainEnd);
    RightEdgeAppend(first, second);
  }

  /** The terrain end the extension evidently intends: the loop of
      `computeTerrainEnd` with the floor skipped, as `spawnEnemiesOn`
      skips it. */
  method ComputeGeneratedTerrainEnd(platforms: seq<Platform>, floor: Platform) returns (maxX: int)
    ensures maxX == GeneratedTerrainEnd(platforms, floor)
  {
    maxX := 0;
    for i := 0 to |platforms|
      invariant maxX == RightEdge(WithoutFloor(platforms[..i], floor))
    {
      WithoutFloorStep(platforms, i, floor);
      if platforms[i] != floor {
        maxX := Max(maxX, platforms[i].x + platforms[i].w);
      }
    }
    assert platforms[..|platforms|] == platforms;
  }

  lemma WithoutFloorStep(ps: seq<Platform>, i: nat, floor: Platform)
    requires i < |ps|
    ensures var before := RightEdge(WithoutFloor(ps[..i], floor));
      RightEdge(WithoutFloor(ps[..i + 1], floor))
        == if ps[i] == floor then before else Max(before, ps[i].x + ps[i].w)
  {
    var p := ps[i];
    assert ps[..i + 1] == ps[..i] + [p];
    WithoutFloorAppend(ps[..i], [p], floor);
    assert [p][1..] == [];
    assert WithoutFloor([p], floor) == if p == floor then [] else [p];
    RightEdgeAppend(WithoutFloor(ps[..i], floor), WithoutFloor([p], floor));
    assert RightEdge([p]) == Max(0, p.x + p.w) by { assert [p][..0] == []; }
  }

  /** The corrected extension in general: if every platform but the floor
      ends less than 40 pixels past `startX`, as after `resetWorld` and
      after every corrected extension, then the terrain end after ten new
      platforms from `startX` is where those platforms end. */
  lemma ExtensionEnd(ps: seq<Platform>, floor: Platform, ds: seq<int>, startX: int)
    requires Draws32(ds) && 2 * PlatformCount <= |ds| && startX >= 0 && floor.w == FloorWidth
    requires forall p :: p in ps && p != floor ==> p.x + p.w < startX + 40
    ensures var next := GeneratedTerrainEnd(ps + Generated(ds, startX, PlatformCount), floor);
      startX + 952 <= next < startX + 1000
  {
    var g := Generated(ds, startX, PlatformCount);
    GeneratedLayout(ds, startX, PlatformCount);
    WithoutFloorAbsent(g, floor);
    WithoutFloorAppend(ps, g, floor);
    var rest := WithoutFloor(ps, floor);
    RightEdgeAtMost(rest, startX + 39);
    RightEdgeAppend(rest, g);
    GeneratedEnd(ds, startX);
  }

  /** After `resetWorld` every platform but the floor ends before 1000,
      less than 40 pixels past the terrain end 960. */
  lemma InitialTerrain(initial: seq<Platform>, floor: Platform, ds: seq<int>)
    requires Draws32(ds) && 2 * PlatformCount <= |ds| && floor.w == FloorWidth
    requires initial == Generated(ds, 0, PlatformCount)
    ensures forall p :: p in [floor] + initial && p != floor ==> p.x + p.w < InitialTerrainEnd + 40
  {
    GeneratedLayout(ds, 0, PlatformCount);
    forall p | p in [floor] + initial && p != floor
      ensures p.x + p.w < InitialTerrainEnd + 40
    {
      var i :| 0 <= i < |initial| && initial[i] == p;
    }
  }

  lemma {:induction false} WithoutFloorAppend(xs: seq<Platform>, ys: seq<Platform>, floor: Platform)
    ensures WithoutFloor(xs + ys, floor) == WithoutFloor(xs, floor) + WithoutFloor(ys, floor)
  {
    if xs != [] {
      assert (xs + ys)[1..] == xs[1..] + ys;
      WithoutFloorAppend(xs[1..], ys, floor);
    } else {
      assert xs + ys == ys;
    }
  }

  lemma {:induction false} WithoutFloorAbsent(ps: seq<Platform>, floor: Platform)
    requires forall i :: 0 <= i < |ps| ==> ps[i].w != floor.w
    ensures WithoutFloor(ps, floor) == ps
  {
    if ps != [] {
      WithoutFloorAbsent(ps[1..], floor);
    }
  }

  // ---------------------------------------------------------------------
  // The game state

  class Game {
    var hp: int
    var maxHp: int
    var lives: int
    var invuln: real
    var x: real
    var y: real
    var vx: real
    var vy: real
    var checkpointX: real
    var checkpointY: real
    var techs: set<string>
    var equippedGun: string
    /** The global `seed`, a signed 32-bit value. */
    var seed: int
    /** The closure variable `a` of the current `rng`, as a bit pattern. */
    var rng: U32
    /** `PARTICLE_POOL[i].active`. */
    var pool: array<bool>
    /** The floor platform, fixed at page load. */
    var floor: Platform
    var platforms: seq<Platform>
    /** `terrainEndX`. */
    var terrainEnd: int

    ghost predicate PoolSized()
      reads this
    {
      pool.Length == PoolSize
    }

    function PlayerStats(): Stats
      reads this
    {
      Stats(hp, maxHp, lives)
    }

    function TechState(): Loadout
      reads this
    {
      Loadout(techs, PlayerStats())
    }

    /** What the corrected extension needs and keeps: the terrain end is
        not negative and every platform but the floor ends less than 40
        pixels past it. */
    ghost predicate TerrainInv()
      reads this
    {
      && terrainEnd >= 0 && floor.w == FloorWidth
      && forall p :: p in platforms && p != floor ==> p.x + p.w < terrainEnd + 40
    }

    /** Page load: the initial `state`, an inactive pool, then
        `reseed(seed)` and `resetWorld()`. `initialSeed` stands for
        `Math.floor(Math.random() * 1e9)` and `enemyDraws` for the number
        of draws the first `spawnEnemiesOn` makes. */
    constructor (initialSeed: int, canvasHeight: int, enemyDraws: nat)
      ensures PoolSized() && fresh(pool)
      ensures forall i :: 0 <= i < pool.Length ==> !pool[i]
      ensures PlayerStats() == Stats(PlayerBaseMaxHp, PlayerBaseMaxHp, PlayerBaseLives)
      ensures techs == {} && equippedGun == "basic" && invuln == 0.0
      ensures seed == ToInt32(initialSeed) && floor == Floor(canvasHeight)
      ensures platforms == [floor] + Generated(Draws(ToU32(seed), 2 * PlatformCount), 0, PlatformCount)
      ensures terrainEnd == InitialTerrainEnd && TerrainInv()
      ensures rng == StateAfter(ToU32(seed), 2 * PlatformCount + enemyDraws)
    {
      hp, maxHp, lives := PlayerBaseMaxHp, PlayerBaseMaxHp, PlayerBaseLives;
      invuln := 0.0;
      x, y, vx, vy := CheckpointStart, CheckpointStart, 0.0, 0.0;
      checkpointX, checkpointY := CheckpointStart, CheckpointStart;
      techs, equippedGun := {}, "basic";
      seed := ToInt32(initialSeed);
      rng := ToU32(ToInt32(initialSeed));
      pool := new bool[PoolSize](_ => false);
      floor := Floor(canvasHeight);
      platforms, terrainEnd := [], 0;
      new;
      ResetWorld(enemyDraws);
    }

    /** One call of `rng()`; the result is the 32-bit integer that the
        source then divides by 2^32. */
    method Random() returns (draw: int)
      modifies this`rng
      ensures rng == NextState(old(rng)) && draw == Output(rng)
    {
      rng := NextState(rng);
      draw := Output(rng);
    }

    /** `reseed(newSeed)`: `seed = newSeed | 0; rng = mulberry32(seed)`. */
    method Reseed(newSeed: int)
      modifies this`seed, this`rng
      ensures seed == ToInt32(newSeed) && rng == ToU32(seed)
    {
      seed := ToInt32(newSeed);
      rng := ToU32(seed);
    }

    /** `generatePlatforms(startX)`: ten 88-by-18 platforms, two draws
        each. */
    method GeneratePlatforms(startX: int) returns (ret: seq<Platform>)
      modifies this`rng
      ensures ret == Generated(Draws(old(rng), 2 * PlatformCount), startX, PlatformCount)
      ensures rng == StateAfter(old(rng), 2 * PlatformCount)
    {
      ghost var a := rng;
      ghost var ds := Draws(a, 2 * PlatformCount);
      DrawsAre32(a, 2 * PlatformCount);
      ghost var k := 0;
      ret := [];
      for i := 0 to PlatformCount
        invariant k == 2 * i && rng == StateAfter(a, k)
        invariant ret == Generated(ds, startX, i)
      {
        var p := NextPlatform(startX, i, a, k);
        GeneratedSnoc(ds, startX, i);
        ret := ret + [p];
        k := k + 2;
      }
    }

    /** One pass of the `generatePlatforms` loop: draws `k + 1` and
        `k + 2` of the generator that started at state `a`. */
    method NextPlatform(startX: int, i: nat, ghost a: U32, ghost k: nat) returns (p: Platform)
      requires i < PlatformCount && k == 2 * i && rng == StateAfter(a, k)
      modifies this`rng
      ensures rng == StateAfter(a, k + 2)
      ensures p == PlatformFrom(Draws(a, 2 * PlatformCount), startX, i)
    {
      ghost var ds := Draws(a, 2 * PlatformCount);
      DrawsAre32(a, 2 * PlatformCount);
      NextDraw(a, 2 * PlatformCount, k);
      var dx := Random();
      assert dx == ds[k];
      NextDraw(a, 2 * PlatformCount, k + 1);
      var dy := Random();
      assert dy == ds[k + 1];
      p := NewPlatform(startX, i, dx, dy);
      assert p == NewPlatform(startX, i, ds[2 * i], ds[2 * i + 1]);
    }

    /** `resetWorld`: the generator restarts from `seed`, the platforms
        are the floor and ten new ones, `terrainEndX` is 960, and the
        player and techs are back to their defaults. `spawnEnemiesOn`
        is represented only by the `enemyDraws` draws it makes. */
    method ResetWorld(enemyDraws: nat)
      modifies this`rng, this`platforms, this`terrainEnd
      modifies this`hp, this`maxHp, this`lives, this`invuln, this`techs
      modifies this`x, this`y, this`vx, this`vy, this`checkpointX, this`checkpointY
      ensures platforms == [floor] + Generated(Draws(ToU32(seed), 2 * PlatformCount), 0, PlatformCount)
      ensures terrainEnd == InitialTerrainEnd
      ensures rng == StateAfter(ToU32(seed), 2 * PlatformCount + enemyDraws)
      ensures floor.w == FloorWidth ==> TerrainInv()
      ensures techs == {} && invuln == 0.0 && vx == 0.0 && vy == 0.0
      ensures PlayerStats() == Stats(PlayerBaseMaxHp, PlayerBaseMaxHp, PlayerBaseLives)
      ensures x == checkpointX == CheckpointStart && y == checkpointY == CheckpointStart
    {
      RestartTerrain(enemyDraws);
      ResetPlayer();
    }

    /** The world half of `resetWorld`. */
    method RestartTerrain(enemyDraws: nat)
      modifies this`rng, this`platforms, this`terrainEnd
      ensures platforms == [floor] + Generated(Draws(ToU32(seed), 2 * PlatformCount), 0, PlatformCount)
      ensures terrainEnd == InitialTerrainEnd
      ensures rng == StateAfter(ToU32(seed), 2 * PlatformCount + enemyDraws)
      ensures floor.w == FloorWidth ==> TerrainInv()
    {
      rng := ToU32(seed);
      DrawsAre32(rng, 2 * PlatformCount);
      platforms := [floor];
      terrainEnd := InitialTerrainEnd;
      var initial := GeneratePlatforms(0);
      platforms := platforms + initial;
      if floor.w == FloorWidth {
        InitialTerrain(initial, floor, Draws(ToU32(seed), 2 * PlatformCount));
      }
      StateAfterAdd(ToU32(seed), 2 * PlatformCount, enemyDraws);
      rng := StateAfter(rng, enemyDraws);
    }

    /** The player half of `resetWorld`. */
    method ResetPlayer()
      modifies this`hp, this`maxHp, this`lives, this`invuln, this`techs
      modifies this`x, this`y, this`vx, this`vy, this`checkpointX, this`checkpointY
      ensures techs == {} && invuln == 0.0 && vx == 0.0 && vy == 0.0
      ensures PlayerStats() == Stats(PlayerBaseMaxHp, PlayerBaseMaxHp, PlayerBaseLives)
      ensures x == checkpointX == CheckpointStart && y == checkpointY == CheckpointStart
    {
      x, checkpointX := CheckpointStart, CheckpointStart;
      y, checkpointY := CheckpointStart, CheckpointStart;
      vx, vy := 0.0, 0.0;
      maxHp := PlayerBaseMaxHp;
      hp := maxHp;
      invuln := 0.0;
      lives := PlayerBaseLives;
      techs := {};
    }

    /** The terrain extension of the frame update, once its guard (a
        float comparison with the camera) holds: ten platforms from
        `terrainEndX` on, enemies on them, then `computeTerrainEnd()` over
        all platforms, the floor included (see `FloorCapsTerrainEnd`). */
    method ExtendTerrain(enemyDraws: nat)
      modifies this`rng, this`platforms, this`terrainEnd
      ensures platforms == old(platforms) + Generated(Draws(old(rng), 2 * PlatformCount), old(terrainEnd), PlatformCount)
      ensures terrainEnd == RightEdge(platforms)
      ensures rng == StateAfter(old(rng), 2 * PlatformCount + enemyDraws)
    {
      AppendBatch(enemyDraws);
      terrainEnd := ComputeTerrainEnd(platforms);
    }

    /** The extension with the terrain end computed without the floor:
        each batch then starts where the previous one ended, 952 to 999
        pixels further on. */
    method ExtendTerrainCorrected(enemyDraws: nat)
      requires TerrainInv()
      modifies this`rng, this`platforms, this`terrainEnd
      ensures TerrainInv()
      ensures platforms == old(platforms) + Generated(Draws(old(rng), 2 * PlatformCount), old(terrainEnd), PlatformCount)
      ensures terrainEnd == GeneratedTerrainEnd(platforms, floor)
      ensures old(terrainEnd) + 952 <= terrainEnd < old(terrainEnd) + 1000
      ensures rng == StateAfter(old(rng), 2 * PlatformCount + enemyDraws)
    {
      DrawsAre32(rng, 2 * PlatformCount);
      ExtensionEnd(platforms, floor, Draws(rng, 2 * PlatformCount), terrainEnd);
      AppendBatch(enemyDraws);
      terrainEnd := ComputeGeneratedTerrainEnd(platforms, floor);
    }

    /** `generatePlatforms(terrainEndX)`, pushed onto `platforms`, then
        `spawnEnemiesOn` with its draws. */
    method AppendBatch(enemyDraws: nat)
      modifies this`rng, this`platforms
      ensures platforms == old(platforms) + Generated(Draws(old(rng), 2 * PlatformCount), terrainEnd, PlatformCount)
      ensures rng == StateAfter(old(rng), 2 * PlatformCount + enemyDraws)
    {
      DrawsAre32(rng, 2 * PlatformCount);
      var newP := GeneratePlatforms(terrainEnd);
      platforms := platforms + newP;
      StateAfterAdd(old(rng), 2 * PlatformCount, enemyDraws);
      rng := StateAfter(rng, enemyDraws);
    }

    /** `applyTech(techId)`. */
    method ApplyTech(id: string)
      modifies this`hp, this`maxHp, this`lives, this`techs
      ensures TechState() == WithTech(id, old(TechState()))
    {
      if id !in TechIds || id in techs {
        return;
      }
      if id == "hp_boost" {
        maxHp := maxHp + 4;
        hp := hp + 4;
      } else if id == "extra_life" {
        lives := lives + 1;
      }
      techs := techs + {id};
    }

    /** The Q key handler. */
    method CycleWeapon()
      modifies this`equippedGun
      ensures equippedGun == NextWeapon(old(equippedGun))
    {
      var idx := IndexOf(WeaponIds, equippedGun);
      idx := (idx + 1) % |WeaponIds|;
      equippedGun := WeaponIds[idx];
    }

    /** `handlePlayerDeath`; `newSeed` stands for
        `Math.floor(Math.random() * 1e9)`, used when the lives run out. */
    method HandlePlayerDeath(newSeed: int)
      modifies this`lives, this`hp, this`x, this`y, this`vx, this`vy, this`invuln, this`seed, this`rng
      ensures PlayerStats() == AfterDeath(old(PlayerStats()))
      ensures x == checkpointX && y == checkpointY && vx == 0.0 && vy == 0.0
      ensures invuln == RespawnInvulnSec
      ensures old(lives) <= 1 ==> seed == ToInt32(newSeed) && rng == ToU32(seed)
      ensures old(lives) > 1 ==> seed == old(seed) && rng == old(rng)
    {
      lives := Max(0, lives - 1);
      if lives <= 0 {
        lives := PlayerBaseLives;
        Reseed(newSeed);
      }
      hp := maxHp;
      x, y := checkpointX, checkpointY;
      vx, vy := 0.0, 0.0;
      invuln := RespawnInvulnSec;
    }

    /** `spawnParticles(x, y, count)`: switches on at most `count`
        inactive slots, lowest index first, drawing four numbers from
        `rng` for each. Positions, velocities, life and colour of the
        particles are floats and are not modelled. */
    method SpawnParticles(count: int)
      requires PoolSized()
      modifies this`rng, pool
      ensures pool[..] == Spawned(old(pool[..]), count)
      ensures rng == StateAfter(old(rng), DrawsPerParticle * Activated(old(pool[..]), count))
    {
      ghost var s := pool[..];
      ghost var start := rng;
      var left := count;
      var i := 0;
      while i < pool.Length && left > 0
        invariant 0 <= i <= pool.Length
        invariant left == count - Inactive(s[..i])
        invariant count > 0 ==> left >= 0
        invariant count <= 0 ==> i == 0
        invariant pool[..i] == Spawned(s, count)[..i]
        invariant pool[i..] == s[i..]
        invariant rng == StateAfter(start, DrawsPerParticle * Inactive(s[..i]))
      {
        SpawnStep(s, count, i);
        if !pool[i] {
          pool[i] := true;
          DrawParticle();
          ParticleDraws(start, Inactive(s[..i]));
          left := left - 1;
        }
        i := i + 1;
      }
      SpawnTail(s, count, i);
      assert pool[..] == pool[..i] + pool[i..];
      SpawnedAtExit(s, count, i);
    }

    /** The four `rng()` calls that give one particle its angle, speed,
        life and hue. */
    method DrawParticle()
      modifies this`rng
      ensures rng == StateAfter(old(rng), DrawsPerParticle)
    {
      ghost var a := rng;
      var angle := Random();
      var speed := Random();
      var life := Random();
      var hue := Random();
      assert rng == NextState(NextState(NextState(NextState(a))));
      assert StateAfter(a, 1) == NextState(a);
      assert StateAfter(a, 2) == NextState(StateAfter(a, 1));
      assert StateAfter(a, 3) == NextState(StateAfter(a, 2));
      assert StateAfter(a, 4) == NextState(StateAfter(a, 3));
    }

    /** `damagePlayer(amount, sourceVx)`; `newSeed` is used if the hit
        ends the last life. While invulnerable nothing happens. */
    method DamagePlayer(amount: int, sourceVx: real, newSeed: int)
      requires PoolSized()
      modifies this`hp, this`invuln, this`vx, this`vy, this`x, this`y, this`lives, this`seed, this`rng, pool
      ensures PoolSized() && pool == old(pool)
      ensures old(invuln) > 0.0 ==> unchanged(this) && unchanged(pool)
      ensures old(invuln) <= 0.0 ==>
        && PlayerStats() == AfterHit(old(PlayerStats()), amount)
        && pool[..] == Spawned(old(pool[..]), HitParticles)
        && invuln == (if old(hp) - amount <= 0 then RespawnInvulnSec else PlayerInvulnSec)
      ensures old(invuln) <= 0.0 && old(hp) - amount > 0 ==>
        vx == old(vx) + (if sourceVx > 0.0 then 200.0 else -200.0) && x == old(x) && y == old(y) && vy == old(vy)
      ensures old(invuln) <= 0.0 && old(hp) - amount <= 0 ==>
        x == checkpointX && y == checkpointY && vx == 0.0 && vy == 0.0
      ensures old(invuln) <= 0.0 && (old(hp) - amount > 0 || old(lives) > 1) ==>
        rng == StateAfter(old(rng), DrawsPerParticle * Activated(old(pool[..]), HitParticles))
      ensures old(invuln) <= 0.0 && old(hp) - amount <= 0 && old(lives) <= 1 ==>
        seed == ToInt32(newSeed) && rng == ToU32(seed)
      ensures !(old(invuln) <= 0.0 && old(hp) - amount <= 0 && old(lives) <= 1) ==> seed == old(seed)
      ensures platforms == old(platforms) && terrainEnd == old(terrainEnd) && floor == old(floor)
      ensures techs == old(techs) && equippedGun == old(equippedGun) && maxHp == old(maxHp)
      ensures checkpointX == old(checkpointX) && checkpointY == old(checkpointY)
    {
      if invuln > 0.0 {
        return;
      }
      hp := hp - amount;
      invuln := PlayerInvulnSec;
      vx := vx + (if sourceVx > 0.0 then 200.0 else -200.0);
      SpawnParticles(HitParticles);
      if hp <= 0 {
        HandlePlayerDeath(newSeed);
      }
    }
  }
}
