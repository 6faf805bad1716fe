/** The instanced geometry shared by the fog pool and the trees: `_getGeometry`,
    defined identically in fog.js and tree.js. It copies the mesh attributes of a
    source geometry by reference and adds one zero-filled, per-instance channel
    (an `InstancedBufferAttribute` over a fresh `Float32Array`) per attribute spec,
    after a fixed three-wide `positions` channel. */
module Instancing {

  import opened Options

  /** A non-instanced attribute of a source geometry, shared by reference and never
      inspected here. */
  class BufferAttribute {
    constructor () {}
  }

  /** The mesh the instances are drawn with (a plane for the fog, a loaded model for
      the trees): the attributes `_getGeometry` shares with the new geometry. */
  class SourceGeometry {
    const position: BufferAttribute
    const normal: BufferAttribute
    const uv: BufferAttribute
    const index: BufferAttribute?

    constructor (position: BufferAttribute, normal: BufferAttribute, uv: BufferAttribute, index: BufferAttribute?)
      ensures this.position == position && this.normal == normal && this.uv == uv && this.index == index
    {
      this.position := position;
      this.normal := normal;
      this.uv := uv;
      this.index := index;
    }
  }

  datatype AttributeSpec = AttributeSpec(name: string, itemSize: nat)

  /** A per-instance attribute channel: `itemSize` numbers per instance in one flat
      array, plus the flag that asks for a re-upload. */
  class Channel {
    const data: array<real>
    const itemSize: nat
    var needsUpdate: bool

    ghost predicate Zeroed()
      reads data
    {
      forall m | 0 <= m < data.Length :: data[m] == 0.0
    }

    /** `new InstancedBufferAttribute(new Float32Array(count * itemSize), itemSize)`. */
    constructor (count: nat, itemSize: nat)
      ensures fresh(data) && data.Length == count * itemSize && Zeroed()
      ensures this.itemSize == itemSize && !needsUpdate
    {
      data := new real[count * itemSize](_ => 0.0);
      this.itemSize := itemSize;
      needsUpdate := false;
    }
  }

  /** The item size the channel called `name` ends up with: a later spec with the same
      name replaces an earlier one, as `setAttribute` does, and `positions` is three wide
      unless a spec replaces it. */
  function ItemSizeOf(specs: seq<AttributeSpec>, name: string): (n: nat)
    ensures specs != [] && specs[|specs| - 1].name == name ==> n == specs[|specs| - 1].itemSize
    ensures name == "positions" && (forall k | 0 <= k < |specs| :: specs[k].name != name) ==> n == 3
  {
    if specs == [] then 3
    else if specs[|specs| - 1].name == name then specs[|specs| - 1].itemSize
    else ItemSizeOf(specs[..|specs| - 1], name)
  }

  function Names(specs: seq<AttributeSpec>): (names: set<string>)
    ensures forall k | 0 <= k < |specs| :: specs[k].name in names
  {
    if specs == [] then {} else Names(specs[..|specs| - 1]) + {specs[|specs| - 1].name}
  }

  ghost predicate FreshZeroed(attributes: map<string, Channel>, specs: seq<AttributeSpec>, count: nat)
    reads set n | n in attributes :: attributes[n]
    reads set n | n in attributes :: attributes[n].data
  {
    forall n | n in attributes ::
      && attributes[n].itemSize == ItemSizeOf(specs, n)
      && attributes[n].data.Length == count * attributes[n].itemSize
      && attributes[n].Zeroed() && !attributes[n].needsUpdate
  }

  ghost predicate DistinctChannels(attributes: map<string, Channel>)
  {
    forall n1, n2 | n1 in attributes && n2 in attributes && n1 != n2 ::
      attributes[n1] != attributes[n2] && attributes[n1].data != attributes[n2].data
  }

  lemma {:induction false} ItemSizeOfSnoc(specs: seq<AttributeSpec>, k: nat, n: string)
    requires k < |specs|
    ensures ItemSizeOf(specs[..k + 1], n) == if specs[k].name == n then specs[k].itemSize else ItemSizeOf(specs[..k], n)
  {
    assert specs[..k + 1][..k] == specs[..k];
  }

  /** Appending one spec adds its name and decides its channel's item size. */
  lemma SpecsSnoc(specs: seq<AttributeSpec>, spec: AttributeSpec)
    ensures Names(specs + [spec]) == Names(specs) + {spec.name}
    ensures forall n :: ItemSizeOf(specs + [spec], n) == if spec.name == n then spec.itemSize else ItemSizeOf(specs, n)
  {
    assert (specs + [spec])[..|specs|] == specs;
  }

  /** `attributes` holds `positions` and one channel per named spec, each fresh-looking
      and sized for `count` instances, no two sharing a channel or an array. */
  ghost predicate ChannelsFor(attributes: map<string, Channel>, specs: seq<AttributeSpec>, count: nat)
    reads set n | n in attributes :: attributes[n]
    reads set n | n in attributes :: attributes[n].data
  {
    && attributes.Keys == {"positions"} + Names(specs)
    && FreshZeroed(attributes, specs, count)
    && DistinctChannels(attributes)
  }

  /** The channel-creating part of `_getGeometry`: `positions` first, then one channel
      per spec, in order, each a fresh zero-filled array. */
  method NewChannels(specs: seq<AttributeSpec>, count: nat) returns (attributes: map<string, Channel>)
    ensures ChannelsFor(attributes, specs, count)
    ensures forall n | n in attributes :: fresh(attributes[n]) && fresh(attributes[n].data)
  {
    var positions := new Channel(count, 3);
    attributes := map["positions" := positions];
    assert specs[..0] == [];
    for k := 0 to |specs|
      invariant ChannelsFor(attributes, specs[..k], count)
      invariant forall n | n in attributes :: fresh(attributes[n]) && fresh(attributes[n].data)
    {
      attributes := AddChannel(attributes, specs, k, count);
    }
    assert specs[..|specs|] == specs;
  }

  /** One `setAttribute` of the loop: a fresh channel for `spec`, replacing any
      channel of the same name. */
  method AddChannel(attributes: map<string, Channel>, specs: seq<AttributeSpec>, k: nat, count: nat)
    returns (next: map<string, Channel>)
    requires k < |specs| && ChannelsFor(attributes, specs[..k], count)
    ensures ChannelsFor(next, specs[..k + 1], count)
    ensures specs[k].name in next && fresh(next[specs[k].name]) && fresh(next[specs[k].name].data)
    ensures forall n | n in next && n != specs[k].name :: n in attributes && next[n] == attributes[n]
  {
    var channel := new Channel(count, specs[k].itemSize);
    next := attributes[specs[k].name := channel];
    assert specs[..k + 1] == specs[..k] + [specs[k]];
    SpecsSnoc(specs[..k], specs[k]);
  }

  /** The geometry `_getGeometry` returns. Its one attribute table is held in two
      parts: the shared mesh attributes `position`, `normal` and `uv`, each `null` once
      a spec of the same name has replaced it, and the per-instance channels in
      `instanced`. */
  class InstancedGeometry {
    const position: BufferAttribute?
    const normal: BufferAttribute?
    const uv: BufferAttribute?
    const index: BufferAttribute?
    const instanced: map<string, Channel>

    /** `_getGeometry(geometry, specs, count)`. A shared attribute stays in the table
        unless a spec's `setAttribute` of the same name replaces it with a channel. */
    constructor (geometry: SourceGeometry, specs: seq<AttributeSpec>, count: nat)
      ensures position == if "position" in Names(specs) then null else geometry.position
      ensures normal == if "normal" in Names(specs) then null else geometry.normal
      ensures uv == if "uv" in Names(specs) then null else geometry.uv
      ensures index == geometry.index
      ensures instanced.Keys == {"positions"} + Names(specs)
      ensures forall n | n in instanced :: fresh(instanced[n]) && fresh(instanced[n].data)
      ensures FreshZeroed(instanced, specs, count)
      ensures DistinctChannels(instanced)
    {
      var names := Names(specs);
      position := if "position" in names then null else geometry.position;
      normal := if "normal" in names then null else geometry.normal;
      uv := if "uv" in names then null else geometry.uv;
      index := geometry.index;
      var channels := NewChannels(specs, count);
      instanced := channels;
    }
  }
}
