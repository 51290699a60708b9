/** The eight quads of the textured-quad demo (src/test/index.ts): one sampler
    per filter combination, one bind group per texture, and a 2 x 4 grid of
    positions. */
module QuadScene {
  import opened Gpu

  const QuadCount: nat := 8

  function FilterIf(linear: bool): Filter { if linear then Linear else Nearest }

  /** The sampler of quad i: bit 0 of i selects magFilter, bit 1 minFilter and
      bit 2 mipmapFilter ('linear' when set, 'nearest' otherwise). */
  function SamplerFor(i: nat): (desc: SamplerDesc)
    ensures desc.addressModeUV == Repeat
  {
    SamplerDesc(Repeat, FilterIf(i % 2 == 1), FilterIf((i / 2) % 2 == 1), FilterIf((i / 4) % 2 == 1))
  }

  function Bit(f: Filter): nat { if f == Linear then 1 else 0 }

  /** The index a filter combination is stored under, read back from the
      sampler: its three filter choices as the bits of a 3-bit number. */
  function FilterIndex(desc: SamplerDesc): nat
  {
    Bit(desc.magFilter) + 2 * Bit(desc.minFilter) + 4 * Bit(desc.mipmapFilter)
  }

  /** Reading the bits back gives the quad's index: no two quads share a
      filter combination. */
  lemma FilterIndexOfSampler(i: nat)
    requires i < QuadCount
    ensures FilterIndex(SamplerFor(i)) == i
  {
    assert i == i % 2 + 2 * ((i / 2) % 2) + 4 * (i / 4);
  }

  /** Every repeat-addressed filter combination is the sampler of exactly the
      quad whose index encodes it, so the eight quads cover all eight. */
  lemma SamplerOfFilterIndex(desc: SamplerDesc)
    requires desc.addressModeUV == Repeat
    ensures FilterIndex(desc) < QuadCount
    ensures SamplerFor(FilterIndex(desc)) == desc
  {
  }

  lemma SamplersDistinct(i: nat, j: nat)
    requires i < QuadCount && j < QuadCount && SamplerFor(i) == SamplerFor(j)
    ensures i == j
  {
    FilterIndexOfSampler(i);
    FilterIndexOfSampler(j);
  }

  /** A bind group of the quad pipeline: the quad's sampler and one of the
      loaded textures (by its index in `textures`). */
  datatype BindGroup = BindGroup(sampler: SamplerDesc, texture: nat)

  /** What the setup loop saves per quad. The uniform buffer and its matrix
      view are not modelled. */
  datatype ObjectInfo = ObjectInfo(sampler: SamplerDesc, bindGroups: seq<BindGroup>)

  /** `textures.map(...)`: one bind group per texture, in texture order. */
  function BindGroupsFor(sampler: SamplerDesc, textureCount: nat): (groups: seq<BindGroup>)
    ensures |groups| == textureCount
    ensures forall t :: 0 <= t < textureCount ==> groups[t] == BindGroup(sampler, t)
  {
    seq(textureCount, (t: int) requires 0 <= t < textureCount => BindGroup(sampler, t))
  }

  /** The `for (let i = 0; i < 8; ++i)` loop that fills objectInfos. */
  method BuildObjectInfos(textureCount: nat) returns (objectInfos: seq<ObjectInfo>)
    ensures |objectInfos| == QuadCount
    ensures forall i :: 0 <= i < QuadCount ==>
              objectInfos[i].sampler == SamplerFor(i) &&
              |objectInfos[i].bindGroups| == textureCount &&
              forall t :: 0 <= t < textureCount ==>
                objectInfos[i].bindGroups[t] == BindGroup(SamplerFor(i), t)
  {
    objectInfos := [];
    var i := 0;
    while i < QuadCount
      invariant 0 <= i <= QuadCount && |objectInfos| == i
      invariant forall j :: 0 <= j < i ==>
                  objectInfos[j] == ObjectInfo(SamplerFor(j), BindGroupsFor(SamplerFor(j), textureCount))
    {
      var sampler := SamplerFor(i);
      var bindGroups := BindGroupsFor(sampler, textureCount);
      objectInfos := objectInfos + [ObjectInfo(sampler, bindGroups)];
      i := i + 1;
    }
  }

  /** Grid column offset of quad i: `(i % 4) - 1.5`. */
  function GridX(i: nat): real { (i % 4) as real - 1.5 }

  /** Grid row of quad i: `i < 4 ? 1 : -1`. */
  function GridY(i: nat): real { if i < 4 then 1.0 else -1.0 }

  /** The eight quads occupy eight different cells of a 4-column, 2-row grid,
      centred on the origin. */
  lemma GridPlacement(i: nat, j: nat)
    requires i < QuadCount && j < QuadCount
    ensures GridX(i) == -1.5 || GridX(i) == -0.5 || GridX(i) == 0.5 || GridX(i) == 1.5
    ensures GridY(i) == 1.0 || GridY(i) == -1.0
    ensures GridX(i) == GridX(j) && GridY(i) == GridY(j) ==> i == j
  {
    if GridX(i) == GridX(j) && GridY(i) == GridY(j) {
      assert i % 4 == j % 4;
      assert (i < 4) == (j < 4);
    }
  }
}
