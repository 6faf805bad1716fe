/** The drifting ground fog of fog.js: a fixed pool of 150 billboard particles kept as
    a structure of arrays (flat per-instance channels plus the `info` side arrays),
    stepped once per frame through a fade-in / fade-out lifecycle.

    Numbers are exact reals (no `Float32Array` rounding). `Math.random()` is an oracle:
    `rand(k)` is the k-th number it returns, and every operation that draws says from
    which position on it reads and where the next caller continues. */
module FogParticles {

  import opened Options
  import opened Instancing

  const ParticleCount: nat := 150
  const FogRadius: real := 2000.0
  /** `Math.PI` as the double the source uses. */
  const Pi: real := 3.141592653589793
  /** Every respawn calls `Math.random()` this many times. */
  const DrawsPerRespawn: nat := 11

  datatype Vec3 = Vec3(x: real, y: real, z: real)
  {
    function Plus(v: Vec3): (r: Vec3)
      ensures r.x - x == v.x && r.y - y == v.y && r.z - z == v.z
    {
      Vec3(x + v.x, y + v.y, z + v.z)
    }
  }

  const Zero: Vec3 := Vec3(0.0, 0.0, 0.0)

  /** One pool slot, gathered from the channels and side arrays that hold it. */
  datatype Slot = Slot(
    scale: Vec3,
    position: Vec3,
    opacity: real,
    textureRotation: real,
    velocity: Vec3,
    fadeOut: bool,
    maxOp: real,
    rotateDir: Option<real>)

  /** The `n` draws from position `at` on are what `Math.random()` promises: in [0, 1). */
  ghost predicate UnitDraws(rand: nat -> real, at: nat, n: nat)
  {
    forall k | at <= k < at + n :: 0.0 <= rand(k) < 1.0
  }

  ghost predicate AllUnitDraws(rand: nat -> real)
  {
    forall k :: 0.0 <= rand(k) < 1.0
  }

  /** What a slot looks like once it has been respawned at least once: the ranges the
      respawn branch draws its state from. */
  ghost predicate Spawned(s: Slot)
  {
    && 0.5 <= s.maxOp < 1.0
    && s.rotateDir.Some? && 0.0 <= s.rotateDir.value < 1.0
    && s.velocity.x == s.velocity.z && -1.1 < s.velocity.x <= -0.1
    && 0.0 <= s.velocity.y < 0.01
    && 1.0 <= s.scale.x < 4.0 && 1.0 <= s.scale.y < 2.0 && 1.0 <= s.scale.z < 4.0
  }

  /** The per-slot invariant: a visible slot has been spawned and stays below its
      ceiling plus one fade-in step. */
  ghost predicate SlotInv(s: Slot)
  {
    s.opacity > 0.0 ==> Spawned(s) && s.opacity < s.maxOp + 0.01
  }

  /** The respawn branch (fog.js:86-109): everything the slot held is replaced by fresh
      draws, taken in source order from position `at`. */
  function Respawn(rand: nat -> real, at: nat): Slot
  {
    var speed := rand(at + 6);
    Slot(
      scale := Vec3(1.0 + rand(at) * 3.0, 1.0 + rand(at + 1) * 1.0, 1.0 + rand(at + 2) * 3.0),
      position := Vec3((rand(at + 3) - 0.5) * FogRadius, 20.0 + rand(at + 4) * 20.0, (rand(at + 5) - 0.5) * FogRadius),
      opacity := 0.0,
      textureRotation := rand(at + 10) * 2.0 * Pi,
      velocity := Vec3(-0.1 - speed, rand(at + 7) * 0.01, -0.1 - speed),
      fadeOut := false,
      maxOp := 0.5 + rand(at + 8) * 0.5,
      rotateDir := Some(rand(at + 9)))
  }

  /** The sign of the texture rotation (fog.js:127); a `rotateDir` that was never
      written is JavaScript's `undefined`, and `undefined > 0.5` is false. */
  function RotationStep(rotateDir: Option<real>): (d: real)
    ensures d == 0.005 || d == -0.005
    ensures d > 0.0 <==> rotateDir.Some? && rotateDir.value > 0.5
  {
    if rotateDir.Some? && rotateDir.value > 0.5 then 0.005 else -0.005
  }

  /** Whether the slot respawns this tick. */
  predicate Respawns(s: Slot)
  {
    s.opacity <= 0.0
  }

  /** How many draws a tick of `s` takes. */
  function DrawsUsed(s: Slot): nat
  {
    if Respawns(s) then DrawsPerRespawn else 0
  }

  /** The part of a tick every slot goes through (fog.js:111-128): the fadeOut latch,
      the opacity step, the move by its velocity and the texture turn. */
  function Advance(t: Slot): Slot
  {
    Move(Fade(t))
  }

  /** The lifecycle part (fog.js:111-119): latch fadeOut at the ceiling, then rise by
      0.01 or fade by 0.001. */
  function Fade(t: Slot): Slot
  {
    var fadeOut := if t.opacity >= t.maxOp then true else t.fadeOut;
    t.(fadeOut := fadeOut, opacity := if !fadeOut then t.opacity + 0.01 else t.opacity - 0.001)
  }

  /** The motion part (fog.js:121-128): one velocity step and one turn step. */
  function Move(t: Slot): Slot
  {
    t.(position := t.position.Plus(t.velocity), textureRotation := t.textureRotation + RotationStep(t.rotateDir))
  }

  /** One tick of one slot (fog.js:86-128), drawing from position `at` if it respawns. */
  function Tick(s: Slot, rand: nat -> real, at: nat): Slot
  {
    Advance(if Respawns(s) then Respawn(rand, at) else s)
  }

  // ---------------------------------------------------------------------------
  // Properties of one tick

  /** A respawned slot is at opacity zero and rising, and with draws in [0, 1) every
      field lies in the range its draw is scaled to. */
  lemma RespawnRanges(rand: nat -> real, at: nat)
    requires UnitDraws(rand, at, DrawsPerRespawn)
    ensures var s := Respawn(rand, at);
      && s.opacity == 0.0 && !s.fadeOut
      && Spawned(s)
      && 0.0 <= s.textureRotation < 2.0 * Pi
      && -1000.0 <= s.position.x < 1000.0 && 20.0 <= s.position.y < 40.0
      && -1000.0 <= s.position.z < 1000.0
  {
    assert 0.0 <= rand(at + 10) < 1.0;
  }

  /** A slot observed at opacity <= 0 respawns and ends the tick rising, one step
      above zero, one velocity step away from its spawn point. */
  lemma RespawnTick(s: Slot, rand: nat -> real, at: nat)
    requires Respawns(s) && UnitDraws(rand, at, DrawsPerRespawn)
    ensures var r, n := Tick(s, rand, at), Respawn(rand, at);
      && !r.fadeOut && r.opacity == 0.01
      && r.maxOp == n.maxOp && r.rotateDir == n.rotateDir && r.velocity == n.velocity && r.scale == n.scale
      && r.position == n.position.Plus(n.velocity)
      && r.textureRotation == n.textureRotation + RotationStep(n.rotateDir)
      && Spawned(r)
  {
  }

  /** A respawned velocity drifts toward negative x and z by the same amount. */
  lemma RespawnVelocity(rand: nat -> real, at: nat)
    requires UnitDraws(rand, at, DrawsPerRespawn)
    ensures var v := Respawn(rand, at).velocity;
      v.x == v.z && -1.1 < v.x <= -0.1 && 0.0 <= v.y < 0.01
  {
  }

  /** A slot that respawns ticks from its fresh draws alone. */
  lemma RespawnTickIs(s: Slot, rand: nat -> real, at: nat)
    requires Respawns(s)
    ensures Tick(s, rand, at) == Advance(Respawn(rand, at))
  {
  }

  /** Which state a tick reads does not matter for a slot that respawns: maxOp,
      rotateDir, fadeOut and velocity are overwritten before they are read. */
  lemma RespawnForgetsSlot(s: Slot, u: Slot, rand: nat -> real, at: nat)
    requires Respawns(s) && Respawns(u)
    ensures Tick(s, rand, at) == Tick(u, rand, at)
  {
  }

  /** fadeOut latches when opacity reaches maxOp and is otherwise kept: outside a
      respawn it never goes back to false. */
  lemma FadeOutLatch(s: Slot, rand: nat -> real, at: nat)
    requires !Respawns(s)
    ensures Tick(s, rand, at).fadeOut <==> s.fadeOut || s.opacity >= s.maxOp
  {
  }

  /** Opacity moves by exactly +0.01 while rising and -0.001 while fading. */
  lemma OpacityStep(s: Slot, rand: nat -> real, at: nat)
    requires !Respawns(s)
    ensures var r := Tick(s, rand, at);
      r.opacity == if r.fadeOut then s.opacity - 0.001 else s.opacity + 0.01
  {
  }

  /** Every slot moves by its own velocity, and its texture turns by its own step,
      whether or not it respawned. */
  lemma MotionStep(s: Slot, rand: nat -> real, at: nat)
    ensures var t, r := (if Respawns(s) then Respawn(rand, at) else s), Tick(s, rand, at);
      && r.position == t.position.Plus(t.velocity)
      && r.velocity == t.velocity
      && r.textureRotation - t.textureRotation == (if t.rotateDir.Some? && t.rotateDir.value > 0.5 then 0.005 else -0.005)
  {
  }

  /** The tick keeps the per-slot invariant, and after it the slot has been spawned. */
  lemma TickKeepsInvariant(s: Slot, rand: nat -> real, at: nat)
    requires SlotInv(s) && UnitDraws(rand, at, DrawsPerRespawn)
    ensures SlotInv(Tick(s, rand, at)) && Spawned(Tick(s, rand, at))
    ensures Tick(s, rand, at).opacity < Tick(s, rand, at).maxOp + 0.01
  {
    if !Respawns(s) {
      assert Spawned(s);
    }
  }

  // ---------------------------------------------------------------------------
  // Draw positions across the pool

  /** The indices of the slots that respawn when a tick reaches them. */
  ghost function RespawnIndices(slots: seq<Slot>): set<nat>
  {
    set j: nat | j < |slots| && Respawns(slots[j])
  }

  /** How many of the slots respawn when a tick reaches them. */
  function CountRespawns(slots: seq<Slot>): (n: nat)
    ensures n <= |slots|
  {
    if slots == [] then 0
    else CountRespawns(slots[..|slots| - 1]) + (if Respawns(slots[|slots| - 1]) then 1 else 0)
  }

  /** The count is the number of slots that respawn. */
  lemma {:induction false} CountRespawnsCounts(slots: seq<Slot>)
    ensures CountRespawns(slots) == |RespawnIndices(slots)|
    decreases |slots|
  {
    if slots != [] {
      CountRespawnsCounts(slots[..|slots| - 1]);
      RespawnIndicesSnoc(slots);
    }
  }

  /** The respawning indices of a pool are those of all but its last slot, plus the
      last index if that slot respawns. */
  lemma RespawnIndicesSnoc(slots: seq<Slot>)
    requires slots != []
    ensures var last := |slots| - 1;
      && last !in RespawnIndices(slots[..last])
      && RespawnIndices(slots) == RespawnIndices(slots[..last]) + (if Respawns(slots[last]) then {last} else {})
  {
  }

  /** The draws the respawns among slots `0..j-1` take before slot `j` is reached. */
  function DrawsBefore(slots: seq<Slot>, j: nat): nat
    requires j <= |slots|
  {
    DrawsPerRespawn * CountRespawns(slots[..j])
  }

  /** One `update` of the whole pool: slot `j` is ticked with its own state only,
      drawing where the respawns of slots `0..j-1` left off. */
  function TickAll(slots: seq<Slot>, rand: nat -> real, at: nat): (r: seq<Slot>)
  {
    seq(|slots|, j requires 0 <= j < |slots| => Tick(slots[j], rand, at + DrawsBefore(slots, j)))
  }

  /** Slot `j` of an updated pool. */
  lemma TickAllAt(slots: seq<Slot>, rand: nat -> real, at: nat, j: nat)
    requires j < |slots|
    ensures |TickAll(slots, rand, at)| == |slots|
    ensures TickAll(slots, rand, at)[j] == Tick(slots[j], rand, at + DrawsBefore(slots, j))
  {
  }

  /** Slot `i` moves the draw position on by what its own tick takes. */
  lemma DrawsBeforeNext(slots: seq<Slot>, i: nat)
    requires i < |slots|
    ensures DrawsBefore(slots, i + 1) == DrawsBefore(slots, i) + DrawsUsed(slots[i])
  {
    assert slots[..i + 1][..i] == slots[..i];
  }

  /** A pool in which every slot keeps the invariant still does after an update, and
      every slot has then been spawned. */
  lemma TickAllKeepsInvariant(slots: seq<Slot>, rand: nat -> real, at: nat)
    requires forall k | 0 <= k < |slots| :: SlotInv(slots[k])
    requires AllUnitDraws(rand)
    ensures forall k | 0 <= k < |slots| :: SlotInv(TickAll(slots, rand, at)[k]) && Spawned(TickAll(slots, rand, at)[k])
  {
    forall k | 0 <= k < |slots|
      ensures SlotInv(TickAll(slots, rand, at)[k]) && Spawned(TickAll(slots, rand, at)[k])
    {
      TickAllAt(slots, rand, at, k);
      TickKeepsInvariant(slots[k], rand, at + DrawsBefore(slots, k));
    }
  }

  /** Slots at opacity zero all respawn. */
  lemma {:induction false} AllRespawn(slots: seq<Slot>)
    requires forall k | 0 <= k < |slots| :: slots[k].opacity == 0.0
    ensures CountRespawns(slots) == |slots|
    decreases |slots|
  {
    if slots != [] {
      AllRespawn(slots[..|slots| - 1]);
    }
  }

  /** Opacities start at zero, so the first update respawns every slot: slot `j` takes
      draws `at + 11 j` to `at + 11 j + 10`, and whatever else the slot held (the
      `maxOp` and `rotateDir` of the constructor) is never read. */
  lemma FirstUpdateRespawnsAll(slots: seq<Slot>, rand: nat -> real, at: nat)
    requires forall k | 0 <= k < |slots| :: slots[k].opacity == 0.0
    ensures CountRespawns(slots) == |slots|
    ensures forall j | 0 <= j < |slots| :: TickAll(slots, rand, at)[j] == Advance(Respawn(rand, at + DrawsPerRespawn * j))
  {
    AllRespawn(slots);
    forall j | 0 <= j < |slots|
      ensures TickAll(slots, rand, at)[j] == Advance(Respawn(rand, at + DrawsPerRespawn * j))
    {
      FirstUpdateSlot(slots, rand, at, j);
    }
  }

  /** Slot `j` of the first update. */
  lemma FirstUpdateSlot(slots: seq<Slot>, rand: nat -> real, at: nat, j: nat)
    requires forall k | 0 <= k < |slots| :: slots[k].opacity == 0.0
    requires j < |slots|
    ensures TickAll(slots, rand, at)[j] == Advance(Respawn(rand, at + DrawsPerRespawn * j))
  {
    AllRespawn(slots[..j]);
    TickAllAt(slots, rand, at, j);
    RespawnTickIs(slots[j], rand, at + DrawsPerRespawn * j);
  }

  // ---------------------------------------------------------------------------
  // Several updates of the pool

  /** A slot that does not respawn reads no draws: its tick is the same whatever the
      draw position. */
  lemma TickWithoutRespawnReadsNoDraws(s: Slot, rand: nat -> real, a: nat, b: nat)
    requires !Respawns(s)
    ensures Tick(s, rand, a) == Tick(s, rand, b)
  {
  }

  /** `n` calls of `update` on the pool, each reading the draws from where the previous
      one stopped: the position `Fog.Update` returns. */
  function Frames(slots: seq<Slot>, rand: nat -> real, at: nat, n: nat): (r: seq<Slot>)
    ensures |r| == |slots|
    decreases n
  {
    if n == 0 then slots
    else Frames(TickAll(slots, rand, at), rand, at + DrawsPerRespawn * CountRespawns(slots), n - 1)
  }

  /** One more update of the pool is the first update followed by the rest. */
  lemma FramesStep(slots: seq<Slot>, rand: nat -> real, at: nat, n: nat)
    requires n > 0
    ensures Frames(slots, rand, at, n) == Frames(TickAll(slots, rand, at), rand, at + DrawsPerRespawn * CountRespawns(slots), n - 1)
  {
  }

  /** A fading slot of the pool that starts high enough keeps fading for `n` updates,
      0.001 per update, however the other slots respawn around it. */
  lemma {:induction false} FadingContinues(slots: seq<Slot>, rand: nat -> real, at: nat, n: nat, j: nat)
    requires j < |slots| && slots[j].fadeOut && slots[j].opacity > 0.001 * n as real
    ensures Frames(slots, rand, at, n)[j].fadeOut
    ensures Frames(slots, rand, at, n)[j].opacity == slots[j].opacity - 0.001 * n as real
    ensures Frames(slots, rand, at, n)[j].maxOp == slots[j].maxOp
    decreases n
  {
    if n > 0 {
      var next, at' := TickAll(slots, rand, at), at + DrawsPerRespawn * CountRespawns(slots);
      TickAllAt(slots, rand, at, j);
      assert next[j].fadeOut && next[j].opacity == slots[j].opacity - 0.001 && next[j].maxOp == slots[j].maxOp;
      assert next[j].opacity - 0.001 * (n - 1) as real == slots[j].opacity - 0.001 * n as real;
      FadingContinues(next, rand, at', n - 1, j);
      FramesStep(slots, rand, at, n);
    }
  }

  /** A rising spawned slot of the pool latches fadeOut within the updates it needs to
      pass 1.0 (from a fresh respawn at opacity 0.01, 100 updates) and, fading from a
      ceiling of at least 0.5, is still fading up to update 499. */
  lemma {:induction false} RisingSlotLatches(slots: seq<Slot>, rand: nat -> real, at: nat, n: nat, j: nat)
    requires j < |slots| && Spawned(slots[j]) && !slots[j].fadeOut && slots[j].opacity > 0.0
    requires 1 <= n <= 499 && slots[j].opacity + 0.01 * (n - 1) as real >= 1.0
    ensures Frames(slots, rand, at, n)[j].fadeOut
    decreases n
  {
    var s, next := slots[j], TickAll(slots, rand, at);
    var at' := at + DrawsPerRespawn * CountRespawns(slots);
    TickAllAt(slots, rand, at, j);
    FramesStep(slots, rand, at, n);
    if s.opacity >= s.maxOp {
      assert next[j].fadeOut && next[j].opacity == s.opacity - 0.001;
      FadingContinues(next, rand, at', n - 1, j);
    } else {
      assert n > 1;
      assert !next[j].fadeOut && next[j].opacity == s.opacity + 0.01 && Spawned(next[j]);
      RisingSlotLatches(next, rand, at', n - 1, j);
    }
  }

  /** The end-to-end scenario: a slot of the pool that respawns in one update has
      latched fadeOut 100 updates later and is still fading at update 500, so no
      slot stays stuck below its ceiling. */
  lemma FadeOutWithin100Ticks(slots: seq<Slot>, rand: nat -> real, at: nat, j: nat, n: nat)
    requires j < |slots| && Respawns(slots[j]) && AllUnitDraws(rand)
    requires 101 <= n <= 500
    ensures Frames(slots, rand, at, n)[j].fadeOut
  {
    var next := TickAll(slots, rand, at);
    var at' := at + DrawsPerRespawn * CountRespawns(slots);
    RespawnedSlotRises(slots, rand, at, j);
    RisingSlotLatches(next, rand, at', n - 1, j);
    FramesStep(slots, rand, at, n);
  }

  /** After the update in which it respawns, a slot of the pool is spawned, rising and
      at opacity 0.01. */
  lemma RespawnedSlotRises(slots: seq<Slot>, rand: nat -> real, at: nat, j: nat)
    requires j < |slots| && Respawns(slots[j]) && AllUnitDraws(rand)
    ensures |TickAll(slots, rand, at)| == |slots|
    ensures var t := TickAll(slots, rand, at)[j];
      Spawned(t) && !t.fadeOut && t.opacity == 0.01
  {
    TickAllAt(slots, rand, at, j);
    RespawnTick(slots[j], rand, at + DrawsBefore(slots, j));
  }

  /** The attribute specs of fog.js:42-46 give these channels and item sizes. */
  lemma FogSpecs(specs: seq<AttributeSpec>)
    requires specs == [AttributeSpec("scales", 3), AttributeSpec("opacity", 1),
                       AttributeSpec("distortion", 1), AttributeSpec("textureRotation", 1)]
    ensures Names(specs) == {"scales", "opacity", "distortion", "textureRotation"}
    ensures {"positions"} + Names(specs) == {"positions", "scales", "opacity", "distortion", "textureRotation"}
    ensures ItemSizeOf(specs, "positions") == 3 && ItemSizeOf(specs, "scales") == 3
    ensures ItemSizeOf(specs, "opacity") == 1 && ItemSizeOf(specs, "distortion") == 1
    ensures ItemSizeOf(specs, "textureRotation") == 1
  {
    var s0: seq<AttributeSpec> := [];
    SpecsSnoc(s0, specs[0]);
    SpecsSnoc(s0 + [specs[0]], specs[1]);
    SpecsSnoc(s0 + [specs[0]] + [specs[1]], specs[2]);
    SpecsSnoc(s0 + [specs[0]] + [specs[1]] + [specs[2]], specs[3]);
    assert s0 + [specs[0]] + [specs[1]] + [specs[2]] + [specs[3]] == specs;
  }

  /** `_getGeometry` as fog.js:42-47 calls it, with the five channels it creates picked
      out by name: fresh, zero-filled, of the item sizes the specs give, none sharing
      storage. */
  method FogGeometry(plane: SourceGeometry)
    returns (g: InstancedGeometry, scales: Channel, positions: Channel, opacity: Channel,
             distortion: Channel, textureRotation: Channel)
    ensures fresh(g) && g.position == plane.position && g.normal == plane.normal
    ensures g.uv == plane.uv && g.index == plane.index
    ensures g.instanced.Keys == {"positions", "scales", "opacity", "distortion", "textureRotation"}
    ensures g.instanced["positions"] == positions && g.instanced["scales"] == scales
    ensures g.instanced["opacity"] == opacity && g.instanced["distortion"] == distortion
    ensures g.instanced["textureRotation"] == textureRotation
    ensures fresh(scales) && fresh(positions) && fresh(opacity) && fresh(distortion) && fresh(textureRotation)
    ensures fresh(scales.data) && fresh(positions.data) && fresh(opacity.data) && fresh(distortion.data)
    ensures fresh(textureRotation.data)
    ensures scales.itemSize == 3 && scales.data.Length == 3 * ParticleCount
    ensures positions.itemSize == 3 && positions.data.Length == 3 * ParticleCount
    ensures opacity.itemSize == 1 && opacity.data.Length == ParticleCount
    ensures distortion.itemSize == 1 && distortion.data.Length == ParticleCount
    ensures textureRotation.itemSize == 1 && textureRotation.data.Length == ParticleCount
    ensures scales.Zeroed() && positions.Zeroed() && opacity.Zeroed() && distortion.Zeroed() && textureRotation.Zeroed()
    ensures !scales.needsUpdate && !positions.needsUpdate && !opacity.needsUpdate && !textureRotation.needsUpdate
    ensures DistinctChannels(g.instanced)
  {
    var specs := [AttributeSpec("scales", 3), AttributeSpec("opacity", 1),
                  AttributeSpec("distortion", 1), AttributeSpec("textureRotation", 1)];
    FogSpecs(specs);
    g := new InstancedGeometry(plane, specs, ParticleCount);
    scales, positions, opacity, distortion, textureRotation :=
      g.instanced["scales"], g.instanced["positions"], g.instanced["opacity"],
      g.instanced["distortion"], g.instanced["textureRotation"];
  }

  /** The `info` side arrays as fog.js:62-67 creates them: each is the JavaScript
      literal `[PARTICLE_COUNT]`, a one-element array holding 150, so slot 0 holds 150
      and every later slot is `undefined`. Only `rotateDir` keeps that shape (as
      `Some(150)` and `None`); `initialFogInfo` overwrites every slot of the other
      three before anything reads them, so their placeholders here are not stated. */
  method NewInfo() returns (velocity: array<Vec3>, fadeOut: array<bool>, maxOp: array<real>, rotateDir: array<Option<real>>)
    ensures fresh(velocity) && fresh(fadeOut) && fresh(maxOp) && fresh(rotateDir)
    ensures velocity.Length == ParticleCount && fadeOut.Length == ParticleCount
    ensures maxOp.Length == ParticleCount && rotateDir.Length == ParticleCount
    ensures maxOp[0] == ParticleCount as real
    ensures forall i | 0 <= i < ParticleCount :: rotateDir[i] == if i == 0 then Some(ParticleCount as real) else None
  {
    velocity := new Vec3[ParticleCount](_ => Zero);
    fadeOut := new bool[ParticleCount](_ => false);
    maxOp := new real[ParticleCount](i => if i == 0 then ParticleCount as real else 0.0);
    rotateDir := new Option<real>[ParticleCount](i => if i == 0 then Some(ParticleCount as real) else None);
  }

  /** The `Fog` instanced mesh: its geometry's channels and its `info` side arrays. */
  class Fog {
    const geometry: InstancedGeometry
    const scales: Channel
    const positions: Channel
    const opacity: Channel
    const distortion: Channel
    const textureRotation: Channel
    const velocity: array<Vec3>
    const fadeOut: array<bool>
    const maxOp: array<real>
    const rotateDir: array<Option<real>>
    const fogRadius: real
    /** The draw position `initialFogInfo` leaves for the first `update`. */
    ghost const nextDraw: nat

    /** The pool's fixed shape: 150 slots, the item sizes of fog.js:43-46, and no two
        channels or side arrays sharing storage. */
    ghost predicate Shape()
    {
      && scales.itemSize == 3 && scales.data.Length == 3 * ParticleCount
      && positions.itemSize == 3 && positions.data.Length == 3 * ParticleCount
      && opacity.itemSize == 1 && opacity.data.Length == ParticleCount
      && distortion.itemSize == 1 && distortion.data.Length == ParticleCount
      && textureRotation.itemSize == 1 && textureRotation.data.Length == ParticleCount
      && velocity.Length == ParticleCount && fadeOut.Length == ParticleCount
      && maxOp.Length == ParticleCount && rotateDir.Length == ParticleCount
      && scales != positions && scales != opacity && scales != distortion && scales != textureRotation
      && positions != opacity && positions != distortion && positions != textureRotation
      && opacity != distortion && opacity != textureRotation && distortion != textureRotation
      && scales.data != positions.data && scales.data != opacity.data && scales.data != distortion.data
      && scales.data != textureRotation.data && scales.data != maxOp
      && positions.data != opacity.data && positions.data != distortion.data
      && positions.data != textureRotation.data && positions.data != maxOp
      && opacity.data != distortion.data && opacity.data != textureRotation.data && opacity.data != maxOp
      && distortion.data != textureRotation.data && distortion.data != maxOp
      && textureRotation.data != maxOp
    }

    /** Slot `i` as the arrays hold it now: the instance the shader draws as number `i`,
        three numbers each for scale and position, one for the rest. */
    ghost function SlotAt(i: nat): Slot
      requires Shape() && i < ParticleCount
      reads scales.data, positions.data, opacity.data, textureRotation.data, velocity, fadeOut, maxOp, rotateDir
    {
      Slot(ScaleAt(i), PositionAt(i), opacity.data[i], textureRotation.data[i], velocity[i], fadeOut[i], maxOp[i], rotateDir[i])
    }

    /** Instance `i` of the three-wide `scales` channel. */
    ghost function ScaleAt(i: nat): Vec3
      requires Shape() && i < ParticleCount
      reads scales.data
    {
      Vec3(scales.data[3 * i], scales.data[3 * i + 1], scales.data[3 * i + 2])
    }

    /** Instance `i` of the three-wide `positions` channel. */
    ghost function PositionAt(i: nat): Vec3
      requires Shape() && i < ParticleCount
      reads positions.data
    {
      Vec3(positions.data[3 * i], positions.data[3 * i + 1], positions.data[3 * i + 2])
    }

    /** Slots `0..n-1`, in index order. */
    ghost function SlotsUpTo(n: nat): (r: seq<Slot>)
      requires Shape() && n <= ParticleCount
      reads scales.data, positions.data, opacity.data, textureRotation.data, velocity, fadeOut, maxOp, rotateDir
      ensures |r| == n && forall j | 0 <= j < n :: r[j] == SlotAt(j)
    {
      if n == 0 then [] else SlotsUpTo(n - 1) + [SlotAt(n - 1)]
    }

    /** The whole pool, slot by slot. */
    ghost function Slots(): (r: seq<Slot>)
      requires Shape()
      reads scales.data, positions.data, opacity.data, textureRotation.data, velocity, fadeOut, maxOp, rotateDir
      ensures |r| == ParticleCount && forall j | 0 <= j < ParticleCount :: r[j] == SlotAt(j)
    {
      SlotsUpTo(opacity.data.Length)
    }

    /** The geometry's instanced attributes are exactly the five channels, by name. */
    ghost predicate Wired()
    {
      && geometry.instanced.Keys == {"positions", "scales", "opacity", "distortion", "textureRotation"}
      && geometry.instanced["positions"] == positions && geometry.instanced["scales"] == scales
      && geometry.instanced["opacity"] == opacity && geometry.instanced["distortion"] == distortion
      && geometry.instanced["textureRotation"] == textureRotation
    }

    /** Every slot keeps the per-slot invariant. */
    ghost predicate SlotsKeepInvariant()
      requires Shape()
      reads scales.data, positions.data, opacity.data, textureRotation.data, velocity, fadeOut, maxOp, rotateDir
    {
      forall i | 0 <= i < ParticleCount :: SlotInv(SlotAt(i))
    }

    ghost predicate Valid()
      reads scales.data, positions.data, opacity.data, textureRotation.data
      reads velocity, fadeOut, maxOp, rotateDir
    {
      Shape() && Wired() && SlotsKeepInvariant()
    }

    /** The constructor (fog.js:41-72): the instanced plane with its four extra channels,
        the side arrays as JavaScript's `[PARTICLE_COUNT]` literals leave them, then
        `initialFogInfo`, which reads draws `at` to `at + 149`. */
    constructor (plane: SourceGeometry, rand: nat -> real, at: nat)
      ensures Valid()
      ensures geometry.position == plane.position && geometry.normal == plane.normal
      ensures geometry.uv == plane.uv && geometry.index == plane.index
      ensures fresh(scales) && fresh(positions) && fresh(opacity) && fresh(distortion) && fresh(textureRotation)
      ensures fresh(scales.data) && fresh(positions.data) && fresh(opacity.data) && fresh(distortion.data)
      ensures fresh(textureRotation.data) && fresh(velocity) && fresh(fadeOut) && fresh(maxOp) && fresh(rotateDir)
      ensures distortion.Zeroed() && fogRadius == FogRadius && nextDraw == at + ParticleCount
      ensures !scales.needsUpdate && !positions.needsUpdate && !opacity.needsUpdate && !textureRotation.needsUpdate
      ensures forall i | 0 <= i < ParticleCount :: SlotAt(i) == Slot(Zero, Zero, 0.0, 0.0, Zero, false, 0.7 + rand(at + i),
                                                                      if i == 0 then Some(ParticleCount as real) else None)
    {
      var g, sc, po, op, di, tr := FogGeometry(plane);
      geometry := g;
      scales, positions, opacity, distortion, textureRotation := sc, po, op, di, tr;
      var ve, fa, ma, ro := NewInfo();
      velocity, fadeOut, maxOp, rotateDir := ve, fa, ma, ro;
      fogRadius := FogRadius;
      nextDraw := at + ParticleCount;
      new;
      InitialFogInfo(rand, at);
      forall i | 0 <= i < ParticleCount
        ensures SlotAt(i) == Slot(Zero, Zero, 0.0, 0.0, Zero, false, 0.7 + rand(at + i),
                                  if i == 0 then Some(ParticleCount as real) else None)
      {
        InitialSlot(i, rand, at);
      }
    }

    /** Slot `i` as the constructor leaves it: zeroed channels, the state
        `initialFogInfo` sets, and the array literal's `rotateDir`. */
    lemma InitialSlot(i: nat, rand: nat -> real, at: nat)
      requires Shape() && i < ParticleCount
      requires scales.Zeroed() && positions.Zeroed() && opacity.Zeroed() && textureRotation.Zeroed()
      requires velocity[i] == Zero && !fadeOut[i] && maxOp[i] == 0.7 + rand(at + i)
      requires rotateDir[i] == if i == 0 then Some(ParticleCount as real) else None
      ensures SlotAt(i) == Slot(Zero, Zero, 0.0, 0.0, Zero, false, 0.7 + rand(at + i),
                                if i == 0 then Some(ParticleCount as real) else None)
    {
      assert ScaleAt(i) == Zero && PositionAt(i) == Zero;
    }

    /** `initialFogInfo` (fog.js:73-79): zero velocity, rising, ceiling 0.7 + a draw. */
    method InitialFogInfo(rand: nat -> real, at: nat)
      requires Shape()
      modifies velocity, fadeOut, maxOp
      ensures forall i | 0 <= i < ParticleCount ::
        velocity[i] == Zero && !fadeOut[i] && maxOp[i] == 0.7 + rand(at + i)
    {
      for i := 0 to ParticleCount
        invariant forall j | 0 <= j < i :: velocity[j] == Zero && !fadeOut[j] && maxOp[j] == 0.7 + rand(at + j)
      {
        velocity[i] := Zero;
        fadeOut[i] := false;
        maxOp[i] := 0.7 + rand(at + i);
      }
    }

    /** The respawn branch of the loop in `update` (fog.js:86-109) for slot `i`, in
        place, drawing from position `at`. */
    method SpawnSlot(i: nat, rand: nat -> real, at: nat)
      requires Shape() && i < ParticleCount
      modifies scales.data, positions.data, opacity.data, textureRotation.data, velocity, fadeOut, maxOp, rotateDir
      ensures SlotAt(i) == Respawn(rand, at)
      ensures forall j | 0 <= j < ParticleCount && j != i :: SlotAt(j) == old(SlotAt(j))
    {
      SpawnPlacement(i, rand, at);
      SpawnInfo(i, rand, at);
    }

    /** The scale and position writes of the respawn branch (fog.js:87-98). */
    method SpawnPlacement(i: nat, rand: nat -> real, at: nat)
      requires Shape() && i < ParticleCount
      modifies scales.data, positions.data
      ensures SlotAt(i) == old(SlotAt(i)).(scale := Respawn(rand, at).scale, position := Respawn(rand, at).position)
      ensures forall j | 0 <= j < ParticleCount && j != i :: SlotAt(j) == old(SlotAt(j))
    {
      scales.data[3 * i] := 1.0 + rand(at) * 3.0;
      scales.data[3 * i + 1] := 1.0 + rand(at + 1) * 1.0;
      scales.data[3 * i + 2] := 1.0 + rand(at + 2) * 3.0;
      positions.data[3 * i] := (rand(at + 3) - 0.5) * FogRadius;
      positions.data[3 * i + 1] := 20.0 + rand(at + 4) * 20.0;
      positions.data[3 * i + 2] := (rand(at + 5) - 0.5) * FogRadius;
    }

    /** The remaining writes of the respawn branch (fog.js:99-109): motion, ceiling,
        turn direction and angle, and opacity back to zero. */
    method SpawnInfo(i: nat, rand: nat -> real, at: nat)
      requires Shape() && i < ParticleCount
      modifies opacity.data, textureRotation.data, velocity, fadeOut, maxOp, rotateDir
      ensures SlotAt(i) == Respawn(rand, at).(scale := old(SlotAt(i)).scale, position := old(SlotAt(i)).position)
      ensures forall j | 0 <= j < ParticleCount && j != i :: SlotAt(j) == old(SlotAt(j))
    {
      SpawnMotion(i, rand, at);
      SpawnTurn(i, rand, at);
      SpawnLook(i, rand, at);
    }

    /** Velocity and the cleared latch (fog.js:99-105). */
    method SpawnMotion(i: nat, rand: nat -> real, at: nat)
      requires Shape() && i < ParticleCount
      modifies velocity, fadeOut
      ensures var r := Respawn(rand, at);
        SlotAt(i) == old(SlotAt(i)).(velocity := r.velocity, fadeOut := r.fadeOut)
      ensures forall j | 0 <= j < ParticleCount && j != i :: SlotAt(j) == old(SlotAt(j))
    {
      var speed := rand(at + 6);
      velocity[i] := Vec3(-0.1 - speed, rand(at + 7) * 0.01, -0.1 - speed);
      fadeOut[i] := false;
    }

    /** Ceiling and turn direction (fog.js:106-107). */
    method SpawnTurn(i: nat, rand: nat -> real, at: nat)
      requires Shape() && i < ParticleCount
      modifies maxOp, rotateDir
      ensures var r := Respawn(rand, at);
        SlotAt(i) == old(SlotAt(i)).(maxOp := r.maxOp, rotateDir := r.rotateDir)
      ensures forall j | 0 <= j < ParticleCount && j != i :: SlotAt(j) == old(SlotAt(j))
    {
      maxOp[i] := 0.5 + rand(at + 8) * 0.5;
      rotateDir[i] := Some(rand(at + 9));
    }

    /** Texture angle and opacity back to zero (fog.js:108-109). */
    method SpawnLook(i: nat, rand: nat -> real, at: nat)
      requires Shape() && i < ParticleCount
      modifies opacity.data, textureRotation.data
      ensures var r := Respawn(rand, at);
        SlotAt(i) == old(SlotAt(i)).(textureRotation := r.textureRotation, opacity := r.opacity)
      ensures forall j | 0 <= j < ParticleCount && j != i :: SlotAt(j) == old(SlotAt(j))
    {
      textureRotation.data[i] := rand(at + 10) * 2.0 * Pi;
      opacity.data[i] := 0.0;
    }

    /** The rest of the loop body (fog.js:111-128) for slot `i`, in place. */
    method AdvanceSlot(i: nat)
      requires Shape() && i < ParticleCount
      modifies positions.data, opacity.data, textureRotation.data, fadeOut
      ensures SlotAt(i) == Advance(old(SlotAt(i)))
      ensures forall j | 0 <= j < ParticleCount && j != i :: SlotAt(j) == old(SlotAt(j))
    {
      FadeSlot(i);
      MoveSlot(i);
    }

    /** fog.js:111-119 for slot `i`: the fadeOut latch and the opacity step. */
    method FadeSlot(i: nat)
      requires Shape() && i < ParticleCount
      modifies opacity.data, fadeOut
      ensures SlotAt(i) == Fade(old(SlotAt(i)))
      ensures forall j | 0 <= j < ParticleCount && j != i :: SlotAt(j) == old(SlotAt(j))
    {
      if opacity.data[i] >= maxOp[i] {
        fadeOut[i] := true;
      }
      if !fadeOut[i] {
        opacity.data[i] := opacity.data[i] + 0.01;
      } else {
        opacity.data[i] := opacity.data[i] - 0.001;
      }
    }

    /** fog.js:121-128 for slot `i`: the velocity step and the turn step. */
    method MoveSlot(i: nat)
      requires Shape() && i < ParticleCount
      modifies positions.data, textureRotation.data
      ensures SlotAt(i) == Move(old(SlotAt(i)))
      ensures forall j | 0 <= j < ParticleCount && j != i :: SlotAt(j) == old(SlotAt(j))
    {
      var v := velocity[i];
      positions.data[3 * i] := positions.data[3 * i] + v.x;
      positions.data[3 * i + 1] := positions.data[3 * i + 1] + v.y;
      positions.data[3 * i + 2] := positions.data[3 * i + 2] + v.z;
      var rotDir := if rotateDir[i].Some? && rotateDir[i].value > 0.5 then 0.005 else -0.005;
      textureRotation.data[i] := textureRotation.data[i] + rotDir;
    }

    /** The body of the loop in `update` (fog.js:86-128) for slot `i`, in place, drawing
        from position `at`. It touches slot `i` and no other. */
    method StepSlot(i: nat, rand: nat -> real, at: nat) returns (next: nat)
      requires Shape() && i < ParticleCount
      modifies scales.data, positions.data, opacity.data, textureRotation.data, velocity, fadeOut, maxOp, rotateDir
      ensures SlotAt(i) == Tick(old(SlotAt(i)), rand, at)
      ensures next == at + DrawsUsed(old(SlotAt(i)))
      ensures forall j | 0 <= j < ParticleCount && j != i :: SlotAt(j) == old(SlotAt(j))
    {
      next := at;
      if opacity.data[i] <= 0.0 {
        SpawnSlot(i, rand, at);
        next := at + DrawsPerRespawn;
      }
      AdvanceSlot(i);
    }

    /** The loop of `update` (fog.js:85-129): every slot, once, in index order. */
    method StepAll(rand: nat -> real, at: nat) returns (next: nat)
      requires Shape() && SlotsKeepInvariant() && AllUnitDraws(rand)
      modifies scales.data, positions.data, opacity.data, textureRotation.data, velocity, fadeOut, maxOp, rotateDir
      ensures Slots() == TickAll(old(Slots()), rand, at)
      ensures next == at + DrawsPerRespawn * CountRespawns(old(Slots()))
      ensures SlotsKeepInvariant() && forall i | 0 <= i < ParticleCount :: Spawned(SlotAt(i))
    {
      ghost var before := Slots();
      ghost var after := TickAll(before, rand, at);
      next := at;
      for i := 0 to ParticleCount
        invariant next == at + DrawsBefore(before, i)
        invariant StepsDone(before, after, i)
      {
        next := StepNext(i, rand, next, at, before, after);
      }
      assert before[..ParticleCount] == before;
      TickAllKeepsInvariant(before, rand, at);
    }

    /** Slots `0..i-1` hold their updated state and the rest their state before the
        update. */
    ghost predicate StepsDone(before: seq<Slot>, after: seq<Slot>, i: nat)
      requires Shape() && |before| == ParticleCount && |after| == ParticleCount && i <= ParticleCount
      reads scales.data, positions.data, opacity.data, textureRotation.data, velocity, fadeOut, maxOp, rotateDir
    {
      && (forall j | 0 <= j < i :: SlotAt(j) == after[j])
      && (forall j | i <= j < ParticleCount :: SlotAt(j) == before[j])
    }

    /** One turn of the loop of `update`: slot `i` is stepped from the draw position the
        slots before it left, and moves from `before` to `after`. */
    method StepNext(i: nat, rand: nat -> real, next: nat, ghost at: nat, ghost before: seq<Slot>, ghost after: seq<Slot>)
      returns (next': nat)
      requires Shape() && i < ParticleCount && |before| == ParticleCount && after == TickAll(before, rand, at)
      requires StepsDone(before, after, i) && next == at + DrawsBefore(before, i)
      modifies scales.data, positions.data, opacity.data, textureRotation.data, velocity, fadeOut, maxOp, rotateDir
      ensures StepsDone(before, after, i + 1) && next' == at + DrawsBefore(before, i + 1)
    {
      DrawsBeforeNext(before, i);
      TickAllAt(before, rand, at, i);
      next' := StepSlot(i, rand, next);
    }

    /** `update` (fog.js:80-134): one tick of the whole pool, after which every slot has
        been spawned and keeps the invariant; four channels are flagged for upload while
        `distortion` is left as it was. */
    method Update(rand: nat -> real, at: nat) returns (next: nat)
      requires Valid() && AllUnitDraws(rand)
      modifies scales, positions, opacity, textureRotation
      modifies scales.data, positions.data, opacity.data, textureRotation.data, velocity, fadeOut, maxOp, rotateDir
      ensures Valid()
      ensures Slots() == TickAll(old(Slots()), rand, at)
      ensures forall i | 0 <= i < ParticleCount :: Spawned(SlotAt(i))
      ensures next == at + DrawsPerRespawn * CountRespawns(old(Slots()))
      ensures scales.needsUpdate && positions.needsUpdate && opacity.needsUpdate && textureRotation.needsUpdate
      ensures unchanged(distortion, distortion.data)
    {
      next := StepAll(rand, at);
      FlagUploads();
    }

    /** fog.js:130-133: the four channels `update` writes are flagged for upload. */
    method FlagUploads()
      modifies scales, positions, opacity, textureRotation
      ensures scales.needsUpdate && positions.needsUpdate && opacity.needsUpdate && textureRotation.needsUpdate
    {
      scales.needsUpdate := true;
      positions.needsUpdate := true;
      opacity.needsUpdate := true;
      textureRotation.needsUpdate := true;
    }
  }
}
