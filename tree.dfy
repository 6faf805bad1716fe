/** The two hand-placed trees of tree.js: one instanced mesh whose per-instance
    channels (`positions`, `scales`, `rotation`, `leafType`) are filled once from the
    `treeInfo` table, plus a 16-bit copy of the loaded model's vertex colours.

    Numbers are exact reals; the colour copy models the conversion a `Uint16Array`
    applies to every number stored into it. */
module TreeInstances {

  import opened Instancing

  /** One row of `treeInfo` (tree.js:14-17). */
  datatype TreeRow = TreeRow(x: real, y: real, z: real, scale: real, rotation: real, leafType: real)

  /** The table of trees (tree.js:14-17). */
  const TreeInfo: seq<TreeRow> := [
    TreeRow(0.0, -4.7, 23.0, 0.35, 0.1, 2.0),
    TreeRow(-10.0, -3.0, -12.0, 0.25, 1.7, 1.0)
  ]

  /** `PARTICLE_COUNT` (tree.js:19): one instance per row of the table. */
  const ParticleCount: nat := 2

  /** `PARTICLE_COUNT` is the length of the table, so the init loop reads only rows
      that exist. */
  lemma ParticleCountIsTableLength()
    ensures ParticleCount == |TreeInfo|
  {
  }

  // ---------------------------------------------------------------------------
  // The 16-bit colour copy

  /** JavaScript's truncation toward zero (the `ToIntegerOrInfinity` step of a
      typed-array store). */
  function Truncate(r: real): (n: int)
    ensures r >= 0.0 ==> 0 <= n && n as real <= r < n as real + 1.0
    ensures r < 0.0 ==> n <= 0 && n as real - 1.0 < r <= n as real
  {
    if r >= 0.0 then r.Floor else -((-r).Floor)
  }

  /** The value a `Uint16Array` element holds after a number is stored into it:
      truncated toward zero, then reduced modulo 2^16 into [0, 65535]. */
  function ToUint16(r: real): (n: int)
    ensures 0 <= n < 65536
    ensures (n - Truncate(r)) % 65536 == 0
  {
    Truncate(r) % 65536
  }

  /** Integers in [0, 65535] are stored exactly. */
  lemma Uint16Exact(v: int)
    requires 0 <= v < 65536
    ensures ToUint16(v as real) == v
  {
    assert Truncate(v as real) == v;
  }

  /** Any integer is stored as its residue modulo 2^16: -1 becomes 65535 and 65536
      becomes 0. */
  lemma Uint16Wraps(v: int)
    ensures ToUint16(v as real) == v % 65536
  {
    assert Truncate(v as real) == v;
  }

  /** A fraction is dropped toward zero: 1.5 and 1.9 store as 1, -0.5 as 0. */
  lemma Uint16DropsFraction(v: int, f: real)
    requires 0 <= v < 65536 && 0.0 <= f < 1.0
    ensures ToUint16(v as real + f) == v
  {
    assert Truncate(v as real + f) == v;
  }

  /** The `color` attribute the tree geometry gets (tree.js:52-55): four `Uint16`
      numbers per vertex, and the flags the constructor sets on it. */
  class ColorAttribute {
    const values: array<int>
    const itemSize: nat
    var needsUpdate: bool
    var normalized: bool

    /** `new BufferAttribute(new Uint16Array(length), itemSize)`. */
    constructor (length: nat, itemSize: nat)
      ensures fresh(values) && values.Length == length && this.itemSize == itemSize
      ensures forall m | 0 <= m < length :: values[m] == 0
      ensures !needsUpdate && !normalized
    {
      values := new int[length](_ => 0);
      this.itemSize := itemSize;
      needsUpdate := false;
      normalized := false;
    }
  }

  /** The copy loop of tree.js:57-59: element `m` of the model's colour array is
      stored into element `m` of the 16-bit array. */
  method CopyColor(target: array<int>, source: array<real>)
    requires target.Length == source.Length
    modifies target
    ensures forall m | 0 <= m < target.Length :: target[m] == ToUint16(source[m])
  {
    for m := 0 to source.Length
      invariant forall k | 0 <= k < m :: target[k] == ToUint16(source[k])
    {
      target[m] := ToUint16(source[m]);
    }
  }

  /** A colour array whose entries are integers in [0, 65535] is copied exactly. */
  lemma CopyIsExact(target: seq<int>, source: seq<real>)
    requires |target| == |source|
    requires forall m | 0 <= m < |source| :: target[m] == ToUint16(source[m])
    requires forall m | 0 <= m < |source| :: source[m] == source[m].Floor as real && 0.0 <= source[m] < 65536.0
    ensures forall m | 0 <= m < |source| :: target[m] as real == source[m]
  {
    forall m | 0 <= m < |source| ensures target[m] as real == source[m] {
      Uint16Exact(source[m].Floor);
    }
  }

  /** tree.js:52-61: a fresh four-wide 16-bit `color` attribute as long as the model's
      colour array, filled from it and flagged for upload as normalized values. */
  method VertexColors(modelColor: array<real>) returns (c: ColorAttribute)
    ensures fresh(c) && fresh(c.values) && c.itemSize == 4
    ensures c.values.Length == modelColor.Length
    ensures forall m | 0 <= m < modelColor.Length :: c.values[m] == ToUint16(modelColor[m])
    ensures c.needsUpdate && c.normalized
  {
    c := new ColorAttribute(modelColor.Length, 4);
    CopyColor(c.values, modelColor);
    c.needsUpdate := true;
    c.normalized := true;
  }

  // ---------------------------------------------------------------------------
  // The geometry

  /** The attribute specs of tree.js:47-50 give these channels and item sizes. */
  lemma TreeSpecs(specs: seq<AttributeSpec>)
    requires specs == [AttributeSpec("scales", 3), AttributeSpec("rotation", 1), AttributeSpec("leafType", 1)]
    ensures Names(specs) == {"scales", "rotation", "leafType"}
    ensures {"positions"} + Names(specs) == {"positions", "scales", "rotation", "leafType"}
    ensures ItemSizeOf(specs, "positions") == 3 && ItemSizeOf(specs, "scales") == 3
    ensures ItemSizeOf(specs, "rotation") == 1 && ItemSizeOf(specs, "leafType") == 1
  {
    var s0: seq<AttributeSpec> := [];
    SpecsSnoc(s0, specs[0]);
    SpecsSnoc(s0 + [specs[0]], specs[1]);
    SpecsSnoc(s0 + [specs[0]] + [specs[1]], specs[2]);
    assert s0 + [specs[0]] + [specs[1]] + [specs[2]] == specs;
  }

  /** `_getGeometry` as tree.js:51 calls it, with the four channels it creates picked
      out by name: fresh, zero-filled, of the item sizes the specs give, none sharing
      storage. */
  method TreeGeometry(model: SourceGeometry)
    returns (g: InstancedGeometry, positions: Channel, scales: Channel, rotation: Channel, leafType: Channel)
    ensures fresh(g) && g.position == model.position && g.normal == model.normal
    ensures g.uv == model.uv && g.index == model.index
    ensures g.instanced.Keys == {"positions", "scales", "rotation", "leafType"}
    ensures g.instanced["positions"] == positions && g.instanced["scales"] == scales
    ensures g.instanced["rotation"] == rotation && g.instanced["leafType"] == leafType
    ensures fresh(positions) && fresh(scales) && fresh(rotation) && fresh(leafType)
    ensures fresh(positions.data) && fresh(scales.data) && fresh(rotation.data) && fresh(leafType.data)
    ensures positions.itemSize == 3 && positions.data.Length == 3 * ParticleCount
    ensures scales.itemSize == 3 && scales.data.Length == 3 * ParticleCount
    ensures rotation.itemSize == 1 && rotation.data.Length == ParticleCount
    ensures leafType.itemSize == 1 && leafType.data.Length == ParticleCount
    ensures positions.Zeroed() && scales.Zeroed() && rotation.Zeroed() && leafType.Zeroed()
    ensures !positions.needsUpdate && !scales.needsUpdate && !rotation.needsUpdate && !leafType.needsUpdate
    ensures DistinctChannels(g.instanced)
  {
    var specs := [AttributeSpec("scales", 3), AttributeSpec("rotation", 1), AttributeSpec("leafType", 1)];
    TreeSpecs(specs);
    g := new InstancedGeometry(model, specs, ParticleCount);
    positions, scales, rotation, leafType :=
      g.instanced["positions"], g.instanced["scales"], g.instanced["rotation"], g.instanced["leafType"];
  }

  /** The `TreeMesh` instanced mesh: its geometry, the four channels picked out of it,
      the colour attribute and the instance count. */
  class TreeMesh {
    const geometry: InstancedGeometry
    const positions: Channel
    const scales: Channel
    const rotation: Channel
    const leafType: Channel
    const color: ColorAttribute
    const count: nat

    /** The item sizes of tree.js:28 and 48-50 over `PARTICLE_COUNT` instances, and no
        two channels sharing storage. */
    ghost predicate Shape()
    {
      && positions.itemSize == 3 && positions.data.Length == 3 * ParticleCount
      && scales.itemSize == 3 && scales.data.Length == 3 * ParticleCount
      && rotation.itemSize == 1 && rotation.data.Length == ParticleCount
      && leafType.itemSize == 1 && leafType.data.Length == ParticleCount
      && positions != scales && positions != rotation && positions != leafType
      && scales != rotation && scales != leafType && rotation != leafType
      && positions.data != scales.data && positions.data != rotation.data && positions.data != leafType.data
      && scales.data != rotation.data && scales.data != leafType.data && rotation.data != leafType.data
    }

    /** Instance `i` as the shader reads it, as a row of the table: x, y, z from
        `positions`, the X component of `scales`, and one number each from `rotation`
        and `leafType`. */
    ghost function InstanceAt(i: nat): TreeRow
      requires Shape() && i < ParticleCount
      reads positions.data, scales.data, rotation.data, leafType.data
    {
      TreeRow(positions.data[3 * i], positions.data[3 * i + 1], positions.data[3 * i + 2],
               scales.data[3 * i], rotation.data[i], leafType.data[i])
    }

    /** The Y and Z components of instance `i`'s scale, which nothing writes. */
    ghost function ScaleYZ(i: nat): (real, real)
      requires Shape() && i < ParticleCount
      reads scales.data
    {
      (scales.data[3 * i + 1], scales.data[3 * i + 2])
    }

    /** The constructor (tree.js:46-76): the instanced model with its three extra
        channels, the 16-bit copy of the model's colour array (`modelColor` is
        `glbGeometry.attributes.color.array`), then `initialTreeAttribute`. */
    constructor (model: SourceGeometry, modelColor: array<real>)
      ensures Shape() && count == ParticleCount
      ensures geometry.position == model.position && geometry.normal == model.normal
      ensures geometry.uv == model.uv && geometry.index == model.index
      ensures geometry.instanced.Keys == {"positions", "scales", "rotation", "leafType"}
      ensures geometry.instanced["positions"] == positions && geometry.instanced["scales"] == scales
      ensures geometry.instanced["rotation"] == rotation && geometry.instanced["leafType"] == leafType
      ensures forall i | 0 <= i < ParticleCount :: InstanceAt(i) == TreeInfo[i]
      ensures forall i | 0 <= i < ParticleCount :: ScaleYZ(i) == (0.0, 0.0)
      ensures positions.needsUpdate && scales.needsUpdate && rotation.needsUpdate && leafType.needsUpdate
      ensures fresh(color) && fresh(color.values) && color.itemSize == 4
      ensures color.values.Length == modelColor.Length
      ensures forall m | 0 <= m < modelColor.Length :: color.values[m] == ToUint16(modelColor[m])
      ensures color.needsUpdate && color.normalized
      ensures unchanged(modelColor)
    {
      var g, po, sc, ro, le := TreeGeometry(model);
      var c := VertexColors(modelColor);
      geometry := g;
      positions, scales, rotation, leafType := po, sc, ro, le;
      color := c;
      count := ParticleCount;
      new;
      InitialTreeAttribute();
    }

    /** `initialTreeAttribute` (tree.js:78-93): instance `i` gets row `i` of the
        table; only the X component of each scale is written. */
    method InitialTreeAttribute()
      requires Shape()
      modifies positions.data, scales.data, rotation.data, leafType.data
      modifies positions, scales, rotation, leafType
      ensures forall i | 0 <= i < ParticleCount :: InstanceAt(i) == TreeInfo[i]
      ensures forall i | 0 <= i < ParticleCount :: ScaleYZ(i) == old(ScaleYZ(i))
      ensures positions.needsUpdate && scales.needsUpdate && rotation.needsUpdate && leafType.needsUpdate
    {
      for i := 0 to ParticleCount
        invariant forall j | 0 <= j < i :: InstanceAt(j) == TreeInfo[j]
        invariant forall j | 0 <= j < ParticleCount :: ScaleYZ(j) == old(ScaleYZ(j))
      {
        WriteInstance(i);
      }
      positions.needsUpdate := true;
      scales.needsUpdate := true;
      rotation.needsUpdate := true;
      leafType.needsUpdate := true;
    }

    /** The loop body of tree.js:84-87 for instance `i`: `setXYZ` on `positions` and
        `setX` on the other three. */
    method WriteInstance(i: nat)
      requires Shape() && i < ParticleCount
      modifies positions.data, scales.data, rotation.data, leafType.data
      ensures InstanceAt(i) == TreeInfo[i]
      ensures forall j | 0 <= j < ParticleCount && j != i :: InstanceAt(j) == old(InstanceAt(j))
      ensures forall j | 0 <= j < ParticleCount :: ScaleYZ(j) == old(ScaleYZ(j))
    {
      var row := TreeInfo[i];
      positions.data[3 * i] := row.x;
      positions.data[3 * i + 1] := row.y;
      positions.data[3 * i + 2] := row.z;
      scales.data[3 * i] := row.scale;
      rotation.data[i] := row.rotation;
      leafType.data[i] := row.leafType;
    }
  }
}
