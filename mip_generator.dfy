/** generateMips and createTextureFromSource of the textured-quad demo
    (src/test/index.ts): a generator that lazily creates its shader module and
    sampler, keeps one pipeline per texture format, and records one render pass
    for every mip level after level 0, each filling that level from the one
    before. */
module MipGeneration {
  import opened Gpu
  import opened Mips
  import opened Options

  const MipShaderLabel := "textured quad shaders for mip level generation"

  /** `device.createSampler({ minFilter: 'linear' })`: every other field keeps
      its WebGPU default. */
  const MipSampler := SamplerDesc(ClampToEdge, Nearest, Linear, Nearest)

  /** The command buffer generateMips submits: one pipeline and one sampler used
      by every pass, and the passes in order. */
  datatype CommandBuffer = CommandBuffer(pipeline: Handle, sampler: Handle, passes: seq<Pass>)

  /** The while loop of generateMips: halve width and height (never below 1)
      and move baseMipLevel on by one until both sizes are 1. */
  method RecordMipPasses(textureWidth: nat, textureHeight: nat) returns (passes: seq<Pass>)
    ensures passes == MipChain(textureWidth, textureHeight, 0)
    ensures Max(textureWidth, textureHeight) >= 1 ==>
              |passes| == NumMipLevels(textureWidth, textureHeight) - 1
    ensures forall p :: p in passes ==>
              p.targetLevel == p.sourceLevel + 1 &&
              p.targetLevel < NumMipLevels(textureWidth, textureHeight)
  {
    var width, height := textureWidth, textureHeight;
    var baseMipLevel := 0;
    passes := [];
    while width > 1 || height > 1
      invariant passes + MipChain(width, height, baseMipLevel) == MipChain(textureWidth, textureHeight, 0)
      decreases Max(width, height)
    {
      width := Halve(width);
      height := Halve(height);
      var source := baseMipLevel;
      baseMipLevel := baseMipLevel + 1;
      passes := passes + [Pass(source, baseMipLevel, width, height)];
    }
    if Max(textureWidth, textureHeight) >= 1 {
      MipChainShape(textureWidth, textureHeight, 0);
      forall p | p in passes
        ensures p.targetLevel == p.sourceLevel + 1
        ensures p.targetLevel < NumMipLevels(textureWidth, textureHeight)
      {
        var k :| 0 <= k < |passes| && passes[k] == p;
        assert MipChain(textureWidth, textureHeight, 0)[k] == Pass(k, k + 1, HalveN(textureWidth, k + 1), HalveN(textureHeight, k + 1));
      }
    } else {
      assert passes == [];
    }
  }

  class MipGenerator {
    var shaderModule: Option<Handle>
    var sampler: Option<Handle>
    var pipelineByFormat: map<Format, Handle>

    /** The handles held by the generator name objects of the right kind on the
        device, and the pipeline cached under a format renders to that format
        with the generator's shaderModule. */
    ghost predicate Valid(device: Device)
      reads this, device
    {
      && (shaderModule.Some? <==> sampler.Some?)
      && (shaderModule.Some? ==>
            shaderModule.value < |device.created| &&
            device.created[shaderModule.value] == ShaderModule(MipShaderLabel))
      && (sampler.Some? ==>
            sampler.value < |device.created| &&
            device.created[sampler.value] == Sampler(MipSampler))
      && (forall f :: f in pipelineByFormat ==>
            shaderModule.Some? && pipelineByFormat[f] < |device.created| &&
            device.created[pipelineByFormat[f]] == RenderPipeline(f, shaderModule.value))
    }

    /** The closure's state before the first call: nothing created, empty cache. */
    constructor ()
      ensures shaderModule == None && sampler == None && pipelineByFormat == map[]
    {
      shaderModule, sampler, pipelineByFormat := None, None, map[];
    }

    method GenerateMips(device: Device, texture: Texture) returns (submitted: CommandBuffer)
      requires Valid(device)
      modifies this, device
      ensures Valid(device)
      // the module and the sampler are created on the first call only
      ensures old(shaderModule).Some? ==> shaderModule == old(shaderModule) && sampler == old(sampler)
      ensures old(shaderModule).None? ==>
                shaderModule == Some(|old(device.created)|) && sampler == Some(|old(device.created)| + 1)
      // a pipeline is created for a format not yet in the cache, and only then
      ensures device.created ==
                old(device.created)
                + (if old(shaderModule).None? then [ShaderModule(MipShaderLabel), Sampler(MipSampler)] else [])
                + (if texture.format in old(pipelineByFormat) then []
                   else [RenderPipeline(texture.format, shaderModule.value)])
      ensures texture.format in old(pipelineByFormat) ==> pipelineByFormat == old(pipelineByFormat)
      ensures texture.format !in old(pipelineByFormat) ==>
                pipelineByFormat == old(pipelineByFormat)[texture.format := |device.created| - 1]
      // every pass uses the cached pipeline and the shared sampler
      ensures submitted == CommandBuffer(pipelineByFormat[texture.format], sampler.value,
                                         MipChain(texture.width, texture.height, 0))
    {
      if shaderModule.None? {
        var m := device.Create(ShaderModule(MipShaderLabel));
        var s := device.Create(Sampler(MipSampler));
        shaderModule, sampler := Some(m), Some(s);
      }
      if texture.format !in pipelineByFormat {
        var p := device.Create(RenderPipeline(texture.format, shaderModule.value));
        pipelineByFormat := pipelineByFormat[texture.format := p];
      }
      var pipeline := pipelineByFormat[texture.format];
      var passes := RecordMipPasses(texture.width, texture.height);
      submitted := CommandBuffer(pipeline, sampler.value, passes);
    }
  }

  /** An image as createImageBitmap delivers it. */
  datatype ImageSource = ImageSource(width: nat, height: nat)

  /** createTextureFromSource followed by copySourceToTexture: the texture gets
      the full mip chain when `mips` is set and one level otherwise, and mips are
      generated exactly when it has more than one level. */
  method CreateTextureFromSource(device: Device, generator: MipGenerator, source: ImageSource, mips: bool)
    returns (texture: Texture, mipWork: Option<CommandBuffer>)
    requires generator.Valid(device)
    modifies device, generator
    ensures generator.Valid(device)
    ensures texture == Texture(Rgba8Unorm, source.width, source.height,
                               MipLevelCount(mips, source.width, source.height))
    ensures mipWork.Some? <==> texture.mipLevelCount > 1
    ensures mipWork.None? ==>
              unchanged(generator) && device.created == old(device.created) + [TextureObject(texture)]
    // with mips, the generateMips call: module and sampler on its first call only
    ensures mipWork.Some? && old(generator.shaderModule).Some? ==>
              generator.shaderModule == old(generator.shaderModule) &&
              generator.sampler == old(generator.sampler)
    ensures mipWork.Some? && old(generator.shaderModule).None? ==>
              generator.shaderModule == Some(|old(device.created)| + 1) &&
              generator.sampler == Some(|old(device.created)| + 2)
    // a pipeline only when rgba8unorm is not cached yet, nothing else created
    ensures mipWork.Some? ==>
              device.created ==
                old(device.created) + [TextureObject(texture)]
                + (if old(generator.shaderModule).None?
                   then [ShaderModule(MipShaderLabel), Sampler(MipSampler)] else [])
                + (if Rgba8Unorm in old(generator.pipelineByFormat) then []
                   else [RenderPipeline(Rgba8Unorm, generator.shaderModule.value)])
    ensures mipWork.Some? && Rgba8Unorm in old(generator.pipelineByFormat) ==>
              generator.pipelineByFormat == old(generator.pipelineByFormat)
    ensures mipWork.Some? && Rgba8Unorm !in old(generator.pipelineByFormat) ==>
              generator.pipelineByFormat ==
                old(generator.pipelineByFormat)[Rgba8Unorm := |device.created| - 1]
    ensures mipWork.Some? ==>
              mipWork.value == CommandBuffer(generator.pipelineByFormat[Rgba8Unorm], generator.sampler.value,
                                             MipChain(source.width, source.height, 0))
  {
    texture := Texture(Rgba8Unorm, source.width, source.height,
                       MipLevelCount(mips, source.width, source.height));
    var _ := device.Create(TextureObject(texture));
    if texture.mipLevelCount > 1 {
      var work := generator.GenerateMips(device, texture);
      mipWork := Some(work);
    } else {
      mipWork := None;
    }
  }
}
