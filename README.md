# Floating treehouse scene: verified model of its instanced effects

This project models, in Dafny, the self-contained parts of the floating treehouse scene:

- **Fog** (`fog.js`). A pool of 150 billboard particles. Their per-instance state sits in flat attribute channels plus an `info` record of side arrays. Each `update` steps every slot through a fixed lifecycle:
  - a slot whose opacity has dropped to zero or below respawns from eleven `Math.random()` draws;
  - it fades in by 0.01 per frame until it reaches its ceiling `maxOp`;
  - then it fades out by 0.001 per frame;
  - every frame it moves by its velocity and turns its texture by ±0.005.
- **Trees** (`tree.js`). Two instances placed from the `treeInfo` table. The loaded model's vertex colours are copied into a 16-bit array.
- **Instanced geometry** (`_getGeometry`, defined identically in `fog.js` and `tree.js`). It shares the source mesh's attributes by reference and adds zero-filled per-instance channels.
- **Shader hook** (`custom-homespace.js`). It prepends declarations to both shader sources and replaces the first occurrence of a marker in each. It also wires two uniforms.
- **Cloud depth pass** (`cloud-mesh.js`). Each frame it renders the scene into a depth target with a caller-supplied list of objects, and the cloud itself, hidden. `resize` keeps that target and the material's `resolution` uniform in step.
- **Cloud shader helpers** (`cloud-material.js`):
  - the depth fade;
  - the alpha selection;
  - the two-phase flow-map weights;
  - `remap`;
  - the distance colouring.

Each source file keeps its own form:

- **Code that updates state in place** becomes classes with `modifies` clauses and loops with invariants: the fog pool, the tree mesh, the geometry builder, the shader hook's effect on the shader object, and the depth pass.
- **Each such method is proved against a specification function.** Examples:
  - `Fog.Update` leaves the pool equal to `TickAll` of the pool before it;
  - `TreeMesh.InitialTreeAttribute` leaves instance `i` equal to row `i` of the table.
- **The lifecycle properties are lemmas about those functions.**
- **The GLSL helpers are pure functions over reals**, with their bounds and identities proved as lemmas.

External inputs are parameters:

- **`Math.random()`** is an oracle `rand: nat -> real` read from a cursor `at`. Each operation that draws says where it starts reading and where the next caller continues: `Update` returns the next position, and the `Fog` constructor records it in `nextDraw`.
- **The renderer** is abstract. It holds its current target and its pixel ratio, and keeps a log of set-target, clear and draw events. Each draw records the target, the override material and which listed objects, and whether the cloud, were visible.
- **Whether `renderer.render` throws** is a parameter.

The code has no `try`/`finally` around the draw in `renderDepth`, so nothing after a throwing draw runs: the listed objects and the cloud stay hidden, and the override material and the target stay set. The model states exactly that.

## Model

| member | source | states |
|---|---|---|
| Instancing.Channel.constructor | fog.js:32-33 | A new channel is a fresh array of `count * itemSize` zeros, not flagged for upload. |
| Instancing.ItemSizeOf | fog.js:23-34 | The last spec with a given name decides that channel's item size, as repeated `setAttribute` calls do; `positions` is three wide unless a spec replaces it. |
| Instancing.Names | fog.js:27-34 | Every spec's name becomes an attribute name. |
| Instancing.ItemSizeOfSnoc | fog.js:27-34 | Extending the specs by one decides the item size of that spec's name and leaves every other name's as it was. |
| Instancing.SpecsSnoc | fog.js:27-34 | Appending a spec adds exactly its name and decides its channel's size, leaving the other names' sizes unchanged. |
| Instancing.NewChannels | fog.js:23-34 | The channels are exactly `positions` plus one per spec name. Each is fresh, zero-filled and `count` times its item size long, and no two share a channel object or an array. |
| Instancing.AddChannel | fog.js:32-33 | One `setAttribute` in the loop: a fresh channel for the spec replaces any channel of that name, and every other channel is kept. |
| Instancing.InstancedGeometry.constructor | fog.js:16-37 | `_getGeometry` (identical at tree.js:21-42) shares the index, and `position`, `normal` and `uv` unless a spec of that name replaces them in the one attribute table, with the source mesh by reference, and holds the channels `NewChannels` describes. |
| FogParticles.RotationStep | fog.js:127 | The texture turns by +0.005 exactly when `rotateDir` is defined and above 0.5, otherwise by -0.005 (an undefined entry compares false). |
| FogParticles.Respawn | fog.js:86-110 | The respawn branch as a value: every field of the slot from the eleven draws at `at` .. `at + 10`, in source order, opacity 0 and fadeOut false. |
| FogParticles.Fade | fog.js:111-119 | The latch of fadeOut at the ceiling, then the opacity step of +0.01 or -0.001. |
| FogParticles.Move | fog.js:121-128 | One velocity step of the position and one ±0.005 turn of the texture. |
| FogParticles.Tick | fog.js:86-128 | One frame of one slot: respawn if opacity <= 0, then fade and move. |
| FogParticles.TickAll | fog.js:85-129 | One `update` of the pool: slot j ticked from its own state, drawing where the respawns of slots 0..j-1 left off. |
| FogParticles.Respawns | fog.js:86 | A slot respawns exactly when its opacity is at most 0. |
| FogParticles.Advance | fog.js:111-128 | The part of the loop body every slot runs, respawned or not: `Fade`, then `Move`. |
| FogParticles.Frames | fog.js:80-134 | n successive calls of `update` on the whole pool, each drawing from the position where the previous one stopped (the position `Update` returns: 11 further per respawning slot). |
| FogParticles.FramesStep | fog.js:80-134 | n > 0 frames of the pool are one `update` from the current draw position, then n - 1 frames from the next one. |
| FogParticles.TickWithoutRespawnReadsNoDraws | fog.js:86-109 | A slot that does not respawn reads no draw: its frame is the same whatever position the draws are read from. |
| FogParticles.RespawnRanges | fog.js:86-109 | A respawned slot has opacity 0 and is rising; with draws in [0, 1) its scale, position, velocity, ceiling, turn direction and angle lie in the ranges their draws are scaled to. |
| FogParticles.RespawnTick | fog.js:86-128 | A slot seen at opacity <= 0 ends the frame rising at opacity 0.01, one velocity step from its spawn point, with its new draws in place. |
| FogParticles.RespawnVelocity | fog.js:99-104 | A respawned velocity has equal x and z components in (-1.1, -0.1] and a y component in [0, 0.01). |
| FogParticles.RespawnTickIs | fog.js:86-110 | A respawning slot's frame depends on its fresh draws alone. |
| FogParticles.RespawnForgetsSlot | fog.js:86-109 | Two slots that both respawn with the same draws end the frame equal: maxOp, rotateDir, fadeOut and velocity are overwritten before they are read. |
| FogParticles.FadeOutLatch | fog.js:111-113 | Outside a respawn, fadeOut after the frame is true exactly when it was already true or opacity had reached maxOp; it never goes back to false. |
| FogParticles.OpacityStep | fog.js:114-119 | Outside a respawn, opacity moves by exactly +0.01 while rising and -0.001 while fading. |
| FogParticles.MotionStep | fog.js:121-128 | Every slot moves by its own velocity and turns by ±0.005 chosen by its rotateDir, whether or not it respawned. |
| FogParticles.TickKeepsInvariant | fog.js:86-128 | The per-slot invariant (a visible slot has been spawned and is below maxOp + 0.01) survives a frame, and afterwards the slot has been spawned. |
| FogParticles.FadingContinues | fog.js:111-119 | Slot j of the pool, fading above 0.001·n, keeps fading through n updates of the whole pool, losing exactly 0.001 per update, with its ceiling unchanged, whatever the other slots draw. |
| FogParticles.RisingSlotLatches | fog.js:111-119 | Slot j of the pool, spawned and rising, has latched fadeOut after n updates of the pool (n <= 499) once n - 1 rises of 0.01 take it to 1.0, whatever the other slots draw. |
| FogParticles.FadeOutWithin100Ticks | fog.js:80-134 | With draws in [0, 1), slot j of the pool respawning in the first of n updates of the whole pool has latched fadeOut after every n from 101 to 500: no slot stays below its ceiling forever. |
| FogParticles.RespawnedSlotRises | fog.js:85-128 | With draws in [0, 1), slot j of the pool respawning in an update ends it spawned, rising, at opacity 0.01. |
| FogParticles.CountRespawnsCounts | fog.js:85-86 | `CountRespawns` is the number of slots of the pool whose opacity is at most 0, the slots that take the respawn branch in one update. |
| FogParticles.RespawnIndicesSnoc | fog.js:85-86 | The respawning slots of a pool are those of all but its last slot, plus the last one when it respawns. |
| FogParticles.TickAllAt | fog.js:85-129 | In one update, slot j is stepped from its own state, drawing where the respawns of slots 0..j-1 left off. |
| FogParticles.DrawsBeforeNext | fog.js:85-109 | Each slot moves the draw position on by 11 if it respawns and by 0 otherwise. |
| FogParticles.TickAllKeepsInvariant | fog.js:85-129 | An update of a pool whose slots all keep the invariant leaves every slot keeping it and spawned. |
| FogParticles.AllRespawn | fog.js:86 | Slots at opacity zero all respawn. |
| FogParticles.FirstUpdateRespawnsAll | fog.js:62-109 | The first update respawns all 150 slots, slot j from draws 11j to 11j+10. The placeholder `rotateDir` and `maxOp` left by the constructor are never read. |
| FogParticles.FirstUpdateSlot | fog.js:85-110 | Slot j of the first update is the respawn from draw 11j, advanced one frame. |
| FogParticles.FogSpecs | fog.js:42-46 | The four specs name exactly scales, opacity, distortion and textureRotation, so the channels are those plus positions, with item sizes 3, 3, 1, 1, 1; no shared mesh attribute is replaced. |
| FogParticles.FogGeometry | fog.js:42-48 | The fog geometry has exactly those five channels, fresh, zero-filled, sized for 150 instances and sharing no storage. |
| FogParticles.NewInfo | fog.js:62-67 | `maxOp[0]` and `rotateDir[0]` hold 150, the value of the `[PARTICLE_COUNT]` literal, and `rotateDir` is undefined at every later index; the `velocity` and `fadeOut` placeholders are not stated, because `initialFogInfo` and the first `update` overwrite them before any read. |
| FogParticles.Fog.constructor | fog.js:41-72 | The new fog is valid and every slot is zero apart from a rising ceiling of 0.7 plus draw `at + i` and the literal's `rotateDir`; distortion is zeroed, `fogRadius` is 2000, and the next draw position is `at + 150`. |
| FogParticles.Fog.InitialSlot | fog.js:62-79 | A slot of the freshly built fog reads as zero scale, position, opacity, angle and velocity, rising, with the ceiling `initialFogInfo` drew. |
| FogParticles.Fog.InitialFogInfo | fog.js:73-79 | Every slot gets zero velocity, fadeOut false and ceiling 0.7 + its draw, reading draws `at` to `at + 149`. |
| FogParticles.Fog.SpawnSlot | fog.js:86-109 | The respawn branch in place: slot i becomes `Respawn(rand, at)` and no other slot changes. |
| FogParticles.Fog.SpawnPlacement | fog.js:87-98 | The scale and position writes: slot i takes the respawn's scale and position, everything else is kept. |
| FogParticles.Fog.SpawnInfo | fog.js:99-109 | The remaining writes: slot i takes every other field of the respawn, keeping its scale and position. |
| FogParticles.Fog.SpawnMotion | fog.js:99-105 | Velocity and the cleared latch of slot i are the respawn's; other slots are unchanged. |
| FogParticles.Fog.SpawnTurn | fog.js:106-107 | Ceiling and turn direction of slot i are the respawn's; other slots are unchanged. |
| FogParticles.Fog.SpawnLook | fog.js:108-109 | Texture angle and opacity of slot i are the respawn's; other slots are unchanged. |
| FogParticles.Fog.AdvanceSlot | fog.js:111-128 | The unconditional part of the loop body applies `Advance` to slot i and no other. |
| FogParticles.Fog.FadeSlot | fog.js:111-119 | The latch and opacity step in place equal `Fade` of slot i. |
| FogParticles.Fog.MoveSlot | fog.js:121-128 | The position and angle step in place equal `Move` of slot i. |
| FogParticles.Fog.StepSlot | fog.js:86-128 | The loop body leaves slot i equal to `Tick` of its old state, advances the draw cursor by 11 exactly when it respawned, and touches no other slot. |
| FogParticles.Fog.StepAll | fog.js:85-129 | The loop leaves the pool equal to `TickAll` of the old pool and keeps the per-slot invariant. It returns the cursor moved by 11 per respawn. |
| FogParticles.Fog.StepNext | fog.js:85-129 | One turn of the loop moves slot i from its old to its updated state and the cursor past slot i's draws. |
| FogParticles.Fog.Update | fog.js:80-134 | `update` keeps the fog valid and leaves the pool equal to `TickAll` of the old pool, with every slot spawned. It flags scales, positions, opacity and textureRotation for upload and leaves distortion untouched. |
| FogParticles.Fog.FlagUploads | fog.js:130-133 | The four written channels are flagged for upload. |
| TreeInstances.ParticleCountIsTableLength | tree.js:14-19 | `PARTICLE_COUNT` is the table's length, 2. |
| TreeInstances.Truncate | tree.js:57-59 | The truncation toward zero of a typed-array store: the integer between zero and the number, within one of it. |
| TreeInstances.ToUint16 | tree.js:54-59 | A stored number becomes its truncation reduced modulo 2^16, a value in [0, 65535]. |
| TreeInstances.Uint16Exact | tree.js:57-59 | Integers in [0, 65535] are stored exactly. |
| TreeInstances.Uint16Wraps | tree.js:57-59 | Any integer is stored as its residue modulo 2^16. |
| TreeInstances.Uint16DropsFraction | tree.js:57-59 | A fractional part is dropped. |
| TreeInstances.ColorAttribute.constructor | tree.js:52-55 | The colour attribute starts as zeros of the requested length and item size, not normalized. |
| TreeInstances.CopyColor | tree.js:57-59 | After the copy loop, every element of the 16-bit array is the 16-bit store of the model's element at the same index. |
| TreeInstances.CopyIsExact | tree.js:57-59 | A model colour array of integers in [0, 65535] is copied exactly. |
| TreeInstances.VertexColors | tree.js:52-61 | The colour attribute is fresh, four wide, as long as the model's array, holds its 16-bit copy, and is flagged for upload and normalized. |
| TreeInstances.TreeSpecs | tree.js:47-50 | The three specs name exactly scales, rotation and leafType, so the channels are those plus positions, with item sizes 3, 3, 1, 1; no shared mesh attribute is replaced. |
| TreeInstances.TreeGeometry | tree.js:47-51 | The tree geometry has exactly those four channels, fresh, zero-filled and sized for 2 instances. |
| TreeInstances.TreeMesh.constructor | tree.js:46-76 | After construction instance i reads as row i of `treeInfo`, the unwritten Y and Z scale components are 0, the four channels are flagged, and the colour attribute holds the model's colours; the model's array is not modified. |
| TreeInstances.TreeMesh.InitialTreeAttribute | tree.js:78-93 | Instance i becomes row i of the table, only the X component of each scale is written, and the four channels are flagged. |
| TreeInstances.TreeMesh.WriteInstance | tree.js:83-88 | One loop turn writes row i into instance i and leaves every other instance, and every Y/Z scale, as it was. |
| ShaderPatch.IndexOf | custom-homespace.js:9-15 | The search `replace` performs finds the first position at or after `from` where the pattern occurs, or reports that there is none. |
| ShaderPatch.Substitution | custom-homespace.js:9-21 | The replacement-pattern expansion of `String.prototype.replace` (`$$`, `$&`, `` $` ``, `$'`; other `$` kept). |
| ShaderPatch.JsReplace | custom-homespace.js:9-21 | `replace` with a string pattern: the first occurrence, if any, replaced by the expanded replacement. |
| ShaderPatch.ReplaceFirst | custom-homespace.js:9-21 | The literal replace-first that `replace` reduces to for a `$`-free replacement. |
| ShaderPatch.SubstitutionLiteral | custom-homespace.js:9-21 | A replacement without `$` is inserted verbatim by the replacement-pattern expansion of `String.prototype.replace`. |
| ShaderPatch.JsReplaceLiteral | custom-homespace.js:9-21 | So `replace` with such a replacement is a literal replace-first. |
| ShaderPatch.ReplaceFirstAbsent | custom-homespace.js:9-21 | A source without the pattern is returned unchanged. |
| ShaderPatch.ReplaceFirstAt | custom-homespace.js:9-21 | Only the first occurrence is replaced; everything before it and after it, later occurrences included, is kept. |
| ShaderPatch.IndexOfFinds | custom-homespace.js:9-15 | The search stops at the first occurrence at or after its start. |
| ShaderPatch.FirstCharAbsent | custom-homespace.js:16-21 | A prefix without the pattern's first character cannot hold or start an occurrence. |
| ShaderPatch.FirstTwoCharsAbsent | custom-homespace.js:5-15 | Nor can a prefix in which that character is never followed by the pattern's second. |
| ShaderPatch.OccursAfterPrefix | custom-homespace.js:5-15 | An occurrence after a prefix is an occurrence in the original source, shifted. |
| ShaderPatch.OverlapAt | custom-homespace.js:5-15 | An occurrence that starts inside a prefix overlaps the prefix's tail. |
| ShaderPatch.NotInPrefix | custom-homespace.js:5-15 | No occurrence starts inside a prefix that cannot overlap the pattern. |
| ShaderPatch.PrefixCommutes | custom-homespace.js:5-21 | Prefixing then replacing equals the prefix followed by the replaced source. |
| ShaderPatch.PrefixCommutesAbsent | custom-homespace.js:5-21 | The same, for a source without the pattern. |
| ShaderPatch.PrefixCommutesAt | custom-homespace.js:5-21 | The same, for a source whose first occurrence is at p. |
| ShaderPatch.PatternKept | custom-homespace.js:9-15 | A replacement that starts with the pattern leaves the pattern where it was, followed by the rest of the replacement. |
| ShaderPatch.PrefixThenReplace | custom-homespace.js:5-21 | With a non-overlapping prefix and a `$`-free replacement, the edit is the prefix followed by a literal replace-first. |
| ShaderPatch.VertexLiterals | custom-homespace.js:5-14 | The vertex prefix cannot overlap `void main() {` and its replacement has no `$`. |
| ShaderPatch.VertexPatch | custom-homespace.js:5-15 | The patched vertex shader is the prefix followed by the source with its first `void main() {` replaced. |
| ShaderPatch.NormalLineFollowsMain | custom-homespace.js:9-15 | Where the source has `void main() {`, `vNor = normal;` lands right after it and the marker is kept. |
| ShaderPatch.VertexWithoutMain | custom-homespace.js:5-15 | A vertex shader without `void main() {` only gets the prefix. |
| ShaderPatch.FragmentPatch | custom-homespace.js:16-21 | The patched fragment shader is `fragmentSetup` followed by the source with its first `#include <map_fragment>` replaced by `customMapShader`. |
| ShaderPatch.CustomHomespace | custom-homespace.js:1-2 | `customHomespace` only installs the hook, closed over the caller's uniforms object. |
| ShaderPatch.RunHook | custom-homespace.js:2-22 | The hook sets `uTime` and `lightPos` to the caller's current uniform objects and keeps every other uniform; each source gets its prefix and then its `replace`. |
| CloudDepth.ObjectList.Push | index.js:69 | Pushing onto the list appends to the very list the cloud mesh holds. |
| CloudDepth.RenderTarget.SetSize | cloud-mesh.js:71-74 | `setSize` sets both dimensions. |
| CloudDepth.Shown | cloud-mesh.js:51-58 | The snapshot of a draw holds exactly the listed objects that are visible. |
| CloudDepth.Draws | cloud-mesh.js:58 | A log has at most as many draws as events. |
| CloudDepth.DrawsAppend | cloud-mesh.js:58 | Draws of a concatenated log add up. |
| CloudDepth.Renderer.SetRenderTarget | cloud-mesh.js:48 | Setting the target is logged and changes nothing else. |
| CloudDepth.Renderer.ClearTarget | cloud-mesh.js:49 | Clearing is logged against the current target. |
| CloudDepth.Renderer.Render | cloud-mesh.js:58 | A draw is logged with the current target, the override material and the visibility at that moment. |
| CloudDepth.CloudUniforms.constructor | cloud-material.js:5-30 | The uniforms start with null textures, zero clip planes and a zero resolution. |
| CloudDepth.CloudUniforms.SetResolution | cloud-mesh.js:75-78 | `resolution.set` changes the resolution and nothing else. |
| CloudDepth.ConstructionSizesAgree | cloud-mesh.js:16-42 | On a window of positive width, the target size (renderer pixel ratio) and the resolution (window pixel ratio) agree exactly when the two ratios do. |
| CloudDepth.SetAllVisible | cloud-mesh.js:51-53 | Each loop sets `visible` on every listed object to the same value. |
| CloudDepth.CloudMesh.constructor | cloud-mesh.js:9-43 | The mesh keeps the caller's list by reference. The target is the window size times the renderer's ratio, the resolution the window size times the device ratio. The mask and depth uniforms point at the depth and colour textures, and the clip planes come from the camera. |
| CloudDepth.CloudMesh.Resize | cloud-mesh.js:69-79 | After `resize`, target size and resolution are the same pair (width·ratio, height·ratio); the other uniforms are kept. |
| CloudDepth.CloudMesh.InStep | cloud-mesh.js:69-79 | The depth target's size and the `resolution` uniform are the same pair, the state `resize` establishes. |
| CloudDepth.CloudMesh.RenderDepth | cloud-mesh.js:47-68 | The log gains exactly the events of one depth pass. If the draw returns, target and override are null and every listed object and the mesh are visible, whatever they were before. If it throws, they stay hidden and the override and target stay set. |
| CloudDepth.CloudMesh.DrawHidden | cloud-mesh.js:48-58 | Up to the draw: the log gains set-target and clear on the depth target and one draw with the depth material, no listed object and not the mesh visible; afterwards everything listed and the mesh are hidden and the override and target are set. |
| CloudDepth.DepthPassAddsOneDraw | cloud-mesh.js:47-68 | Every pass, completed or not, adds exactly one draw to the log. |
| CloudDepth.DepthPass | cloud-mesh.js:48-59 | A pass is set-target and clear on the depth target, one draw into it with the depth material and nothing visible, then (if it returned) the target reset to null. |
| CloudShading.Clamp | cloud-material.js:138 | `clamp` lands in its range: values inside it are kept, values below give the lower bound and values above give the upper bound. |
| CloudShading.Saturate | cloud-material.js:127 | `saturate` lands in [0, 1]: values inside it are kept, negatives give 0 and values above 1 give 1. |
| CloudShading.Fract | cloud-material.js:47 | `fract` lies in [0, 1) and differs from its argument by a whole number. |
| CloudShading.Pow | cloud-material.js:127 | `pow` for the whole-number exponents the shader passes. |
| CloudShading.PowUnit | cloud-material.js:127 | A power of a number in [0, 1] stays in [0, 1]. |
| CloudShading.PowMonotone | cloud-material.js:127 | Powers are monotone on non-negative numbers. |
| CloudShading.PowEnds | cloud-material.js:127 | Powers of 1 are 1 and positive powers of 0 are 0. |
| CloudShading.RemapAffine | cloud-material.js:42-44 | `remap` sends InMin to OutMin and InMax to OutMax, and changes by a fixed slope times the change of its argument. |
| CloudShading.SlopeForm | cloud-material.js:42-44 | `remap` is OutMin plus the slope times the distance from InMin. |
| CloudShading.Remap | cloud-material.js:42-44 | `remap`: OutMin plus the position of the argument between InMin and InMax, scaled to the output range. |
| CloudShading.FlowWeightShape | cloud-material.js:53 | The weight lies in [0, 1]. It is 0 exactly at progress 0 and 1 exactly at progress 0.5. |
| CloudShading.HalfPeriodShift | cloud-material.js:46-47 | Sample B's progress is sample A's shifted by half a period, wrapping into [0, 1). |
| CloudShading.FlowWeightsSumToOne | cloud-material.js:74-75 | The weights of the two samples sum to exactly 1 at every time. |
| CloudShading.FlowSampleA | cloud-material.js:45-55 | With tiling 1 and offset 0, sample A is the point pushed back along the flow by its progress plus the jump times a whole number. |
| CloudShading.FlowWeight | cloud-material.js:53 | The sample weight `1 - abs(1 - 2 progress)`. |
| CloudShading.PhaseOffset | cloud-material.js:46 | The second flow sample (`flowB`) is shifted by half a period, 0.5; the first by 0. |
| CloudShading.FlowUVW | cloud-material.js:45-55 | `FlowUVW`: the sample point pushed back along the flow by its progress and offset, tiled, shifted by the phase and the jump, with the weight in z. |
| CloudShading.DepthFadeRange | cloud-material.js:126-128 | The depth fade lies in [0, 1]. |
| CloudShading.DepthFade | cloud-material.js:126-128 | `getDepthFade`: the saturated relative gap raised to the falloff. |
| CloudShading.SceneFade | cloud-material.js:149-151 | The fade the fragment shader uses: scale 25, falloff 3. |
| CloudShading.SceneFadeShape | cloud-material.js:149-151 | With scale 25 and falloff 3 the fade is 1 where the gap is <= 0, 0 where it is >= 25, and never grows as the gap widens. |
| CloudShading.AlphaRange | cloud-material.js:155 | Alpha is exactly 1 where the mask reaches 1 and 1 - fade elsewhere, so always in [0, 1]. |
| CloudShading.Alpha | cloud-material.js:155 | One minus the fade where the mask is below 1, else 1. |
| CloudShading.DistanceLerpShape | cloud-material.js:136-138 | The half width is 1250. The lerp lies in [0, 1], equals distance/1250 inside the half width and 1 beyond it. |
| CloudShading.DistanceLerp | cloud-material.js:136-138 | The distance from the centre over the half width, clamped to [0, 1]. |
| CloudShading.CloudColorShape | cloud-material.js:139-142 | The colour is the valley colour (blue turning white with the distance lerp) mixed toward the all-white peak colour by the noise; beyond the half width the whole cloud is white, and at the centre it is the blue mixed toward white by the noise. |
| CloudShading.Mix | cloud-material.js:139-142 | GLSL `mix`, componentwise. |
| CloudShading.CloudColor | cloud-material.js:139-142 | The fragment colour: valley and peak colours by the distance lerp, blended by the noise. |

## Left out

- Float32 storage: every channel holds exact reals, so the rounding of `Float32Array` is not modelled. The fade steps 0.01 and 0.001 are exact here.
- `Math.random()` is an oracle parameter. Properties that need its [0, 1) range assume it (`UnitDraws`, `AllUnitDraws`).
- FogParticles.Fog.Update: requires `AllUnitDraws(rand)`, the range `Math.random()` guarantees. Without it the per-slot invariant is not claimed.
- `velocity[i].set(...)` mutates a `Vector3` in place. The model stores a `Vec3` value, which is the same as long as no one else holds that vector, and nothing in the code does.
- The fog and tree shaders, materials and uniforms (fog.js:50-59 and 137 onward, tree.js:64-72 and 96 onward) are GLSL and rendering configuration. The shaders are not part of this model.
- The texture filters, depth texture type, depth packing and blending set in cloud-mesh.js:21-33, and the cloud plane geometry at cloud-mesh.js:10, are rendering configuration.
- The `resize` listener registration (cloud-mesh.js:44) is event wiring. `Resize` is a method the caller invokes.
- CloudDepth.CloudMesh.RenderDepth: listed objects are `Object3D`s and the mesh is a separate class, so the model does not cover a list that contains the mesh itself.
- What the renderer draws is abstracted to the log. Pixel sizes are exact reals.
- `getDepth`, `getViewZ` and `readDepth` (cloud-material.js:120-133) unpack depth textures through three.js shader chunks. Their results are inputs to the fade and the alpha.
- The vertex shader's noise displacement (cloud-material.js:57-101) is left out, apart from `FlowUVW`. Texture reads, `uTime` scaling and the displacement are GPU work.
- CloudShading.DepthFadeRange: the falloff is a whole number, as the shader's `3.` is; `pow` with a fractional exponent is not modelled. It also requires a positive depth scale; the shader passes 25.
- CloudShading.RemapAffine: requires InMin ≠ InMax, because GLSL leaves division by zero undefined. `remap` is declared but never called in the shader.
- ShaderPatch.FragmentPatch: takes two facts about the long GLSL literals as hypotheses: `fragmentSetup` has no `#`, and `customMapShader` has no `$`. Both can be read off the text but are not proved here.
- TreeInstances.ToUint16: NaN and infinities, which a `Uint16Array` stores as 0, are not modelled, since the model's numbers are reals.
- The `normalized` flag of the colour attribute is recorded, but what it means to the GPU (division by 65535) is not modelled.
- index.js is not part of this model. It is host orchestration: frame callbacks, asset loading, physics and post-processing registration. Only its push onto the depth-invisible list (index.js:69) appears, as `ObjectList.Push`.
