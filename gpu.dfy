/** The slice of the WebGPU device the demos use, reduced to what the model
    needs: a device remembers, in order, the shader modules, samplers,
    pipelines and textures the model creates on it, and a handle is the
    position of an object in that record. */
module Gpu {

  type Handle = nat

  /** A texture format name such as "rgba8unorm". */
  type Format = string

  const Rgba8Unorm: Format := "rgba8unorm"

  datatype Filter = Nearest | Linear

  datatype AddressMode = ClampToEdge | Repeat

  /** A sampler descriptor. The demos set at most addressModeU and
      addressModeV, always to the same value, so one field stands for both;
      addressModeW keeps its default, clamp-to-edge, and is not modelled. */
  datatype SamplerDesc = SamplerDesc(
    addressModeUV: AddressMode,
    magFilter: Filter,
    minFilter: Filter,
    mipmapFilter: Filter)

  datatype Texture = Texture(format: Format, width: nat, height: nat, mipLevelCount: nat)

  datatype GpuObject =
    | ShaderModule(name: string)
    | Sampler(desc: SamplerDesc)
    | RenderPipeline(targetFormat: Format, shaderModule: Handle)
    | TextureObject(texture: Texture)

  class Device {
    var created: seq<GpuObject>

    constructor ()
      ensures created == []
    {
      created := [];
    }

    /** Any of the `device.createX(...)` calls: the new object is appended and
        its handle returned. */
    method Create(obj: GpuObject) returns (h: Handle)
      modifies this
      ensures created == old(created) + [obj]
      ensures h == |old(created)| && created[h] == obj
    {
      h := |created|;
      created := created + [obj];
    }
  }
}
