# WebGPU demos: mip chains, sampler grid and colour table

A verified Dafny model of the few pieces of real logic inside a collection of
WebGPU tutorial demos. Everything else in those demos is a fixed sequence of
graphics-API calls and is not modelled.

- **Textured quads** (`src/test/index.ts`). The mip level count of a texture is
  `1 + floor(log2(max(width, height)))`. `generateMips` creates its shader
  module and sampler lazily, keeps one render pipeline per texture format, and
  with a halving loop records one render pass for every mip level after
  level 0 (mipLevelCount - 1 passes), each filling a level from the one before. Eight quads each
  use one of the eight sampler filter combinations and sit on a 2 x 4 grid. A
  click moves the shown texture on cyclically. The canvas size is clamped to
  the device limit.
- **Colour table** (`src/vertexSlot/index.ts` and `src/resourceBinding/index.ts`,
  where the code is the same). A 3 x 4 table of RGBA rows is updated in place
  from a colour input's `#rrggbb` value and flattened row-major into a 48-byte
  GPU buffer.

Files, one module each:

| file | module | models |
|---|---|---|
| `options.dfy` | `Options` | the `Option` datatype |
| `gpu.dfy` | `Gpu` | a device that records the shader modules, samplers, pipelines and textures the model creates; filter, sampler and texture descriptors |
| `mips.dfy` | `Mips` | `numMipLevels`, the mip count choice, the halving step and the pass sequence of the loop |
| `mip_generator.dfy` | `MipGeneration` | the `generateMips` closure (class `MipGenerator`), its loop, `createTextureFromSource` |
| `quad_scene.dfy` | `QuadScene` | the sampler filter bits, the `objectInfos` setup loop, the grid placement |
| `quad_viewer.dfy` | `QuadViewer` | `texNdx` and the click handler, `render`'s draws, the resize clamp |
| `color_picker.dfy` | `ColorPicker` | hex parsing, the `color_data` table (class `ColorTable`), flattening, the listeners |
| `vertex_slot.dfy` | `VertexSlot` | the vertex-buffer layout that hands row v to vertex v |

A JavaScript number that can be NaN is the datatype `Num = Finite(real) | NaN`.
Colour text is a sequence of UTF-16 code units, as a JavaScript string is, so
`slice` positions count code units. Malformed colour text therefore gives NaN
channels where the browser does (except for the whitespace case under
"## Left out"); it is not excluded by a precondition. A colour input
(`<input type="color">`) always delivers a lower-case `#rrggbb` value, the
well-formed case.

## Model

| member | source | states |
|---|---|---|
| `Mips.Log2Floor` | src/test/index.ts:78-81 | for n >= 1 the result k satisfies 2^k <= n < 2^(k+1), which is the floor of log2 |
| `Mips.Log2FloorUnique` | src/test/index.ts:78-81 | any k with 2^k <= n < 2^(k+1) is the value of `Log2Floor(n)`, so the bounds fix it |
| `Mips.NumMipLevels` | src/test/index.ts:78-81 | a largest size of 0 gives 0 levels (`(1 + -Infinity) \| 0`); otherwise levels >= 1 and 2^(levels-1) <= max(w,h) < 2^levels |
| `Mips.MipLevelCount` | src/test/index.ts:104-106 | `numMipLevels(w, h)` when `options.mips` is set, 1 otherwise; at least 1 for a non-empty image |
| `Mips.GeneratesMipsIff` | src/test/index.ts:96-106 | the level count is `numMipLevels` with `mips` and 1 without; for a non-empty image it is >= 1, and it is > 1 (so `generateMips` runs) iff mips were requested and the larger side is >= 2 |
| `Mips.Halve` | src/test/index.ts:191-192 | `Math.max(1, (size / 2) \| 0)`: the result is >= 1, is 1 for sizes 0 and 1, and is floor(size / 2) (2r <= size < 2r + 2) from 2 up |
| `Mips.MipChain` | src/test/index.ts:187-223 | the passes the loop records from a given size and `baseMipLevel`: while a side exceeds 1, halve both and render level l into l + 1; every pass has target = source + 1, no level below the start, and sizes >= 1 |
| `Mips.MipChainShape` | src/test/index.ts:187-223 | the loop runs floor(log2(max(w,h))) times; pass k reads level k and writes level k+1, which is sized by k+1 halvings; the last pass writes a 1x1 level |
| `Mips.MipPassesInsideTexture` | src/test/index.ts:187-211 | when the texture has more than one level, the loop runs mipLevelCount - 1 times; each target view level is source + 1 and below mipLevelCount; every pass size is >= 1; the chain ends at 1x1 |
| `Mips.HalveN` | src/test/index.ts:191-192 | the size after k halvings: >= 1 once halved, never above max(size, 1) |
| `MipGeneration.RecordMipPasses` | src/test/index.ts:187-223 | the while loop records exactly the pass sequence `MipChain(w, h, 0)`; that is numMipLevels - 1 passes, each with target = source + 1 < numMipLevels |
| `MipGeneration.MipGenerator.constructor` | src/test/index.ts:117-120 | the closure starts with no module, no sampler and an empty pipeline cache |
| `MipGeneration.MipGenerator.GenerateMips` | src/test/index.ts:117-227 | module and sampler are created on the first call only; a pipeline is created only for a format missing from the cache, and the other cache entries are untouched; the cached pipeline renders to the texture's own format; the submitted passes are the mip chain |
| `MipGeneration.CreateTextureFromSource` | src/test/index.ts:89-115 | the texture is `rgba8unorm` with the source's size and the chosen level count; mips are generated iff the count is > 1; then the new device record is the texture plus the module and sampler (first call only) plus an `rgba8unorm` pipeline (only if not cached), the cache changes only by that entry, and the submitted passes are the mip chain; otherwise the generator is untouched and only the texture is created |
| `Gpu.Device.Create` | src/test/index.ts:123-179 | a `device.createX` call: the object is appended to the device's record and its position is the returned handle |
| `QuadScene.SamplerFor` | src/test/index.ts:257-264 | sampler i: address mode `repeat` on U and V; mag, min and mipmap filter `linear` when bit 0, 1, 2 of i is set, `nearest` otherwise |
| `QuadScene.FilterIndexOfSampler` | src/test/index.ts:257-264 | for i < 8, reading bit 0 from magFilter, bit 1 from minFilter and bit 2 from mipmapFilter gives back i |
| `QuadScene.SamplerOfFilterIndex` | src/test/index.ts:257-264 | every repeat-addressed filter combination is the sampler of quad `FilterIndex(desc)` < 8, so the eight samplers cover all eight combinations |
| `QuadScene.SamplersDistinct` | src/test/index.ts:257-264 | two of the eight quads with the same sampler are the same quad |
| `QuadScene.BindGroupsFor` | src/test/index.ts:278-287 | one bind group per texture, in texture order, each pairing the quad's sampler with that texture |
| `QuadScene.BuildObjectInfos` | src/test/index.ts:256-296 | the setup loop pushes 8 object infos; info i has sampler i and one bind group per texture |
| `QuadScene.GridX` | src/test/index.ts:345 | the column offset `(i % 4) - 1.5` |
| `QuadScene.GridY` | src/test/index.ts:346 | the row `i < 4 ? 1 : -1` |
| `QuadScene.GridPlacement` | src/test/index.ts:345-346 | x is one of -1.5, -0.5, 0.5, 1.5 and y is 1 or -1; two of the eight quads in the same cell are the same quad |
| `QuadViewer.NextTexNdx` | src/test/index.ts:390 | `(texNdx + 1) % textures.length`, always below textures.length |
| `QuadViewer.AfterClicks` | src/test/index.ts:389-391 | texNdx after k clicks from a start index: k applications of the click step |
| `QuadViewer.AfterClicksSteps` | src/test/index.ts:389-391 | while no wrap happens, k clicks from texNdx s give s + k |
| `QuadViewer.AfterClicksInRange` | src/test/index.ts:389-391 | from a valid index, any number of clicks keeps texNdx inside [0, textures.length) |
| `QuadViewer.AfterClicksCompose` | src/test/index.ts:389-391 | a + b clicks equal a clicks followed by b clicks |
| `QuadViewer.ClicksCycle` | src/test/index.ts:389-391 | starting from 0, textures.length clicks return to 0, and the sequence of indices repeats with that period |
| `QuadViewer.ClampDimension` | src/test/index.ts:376-383 | the result is >= 1 and, when the limit is >= 1, <= maxTextureDimension2D; an in-range size is kept, a larger one becomes the limit, one below 1 becomes 1 |
| `QuadViewer.ClampIdempotent` | src/test/index.ts:376-383 | clamping a clamped size changes nothing |
| `QuadViewer.Canvas.OnResize` | src/test/index.ts:371-386 | the canvas width and height become the clamped content-box sizes |
| `QuadViewer.Viewer.constructor` | src/test/index.ts:310 | texNdx starts at 0 and the object infos are those of the setup loop |
| `QuadViewer.Viewer.OnClick` | src/test/index.ts:389-392 | texNdx becomes (texNdx + 1) mod textures.length and stays in range; the object infos are unchanged |
| `QuadViewer.Viewer.Render` | src/test/index.ts:337-363 | eight draws of 6 vertices; draw i uses sampler i with the selected texture and sits at grid cell i |
| `ColorPicker.Slice` | src/vertexSlot/index.ts:125-127 | `slice` on UTF-16 code units clamps indices past the end: at most end - start code units, the plain subsequence when the string is long enough |
| `ColorPicker.HexNumber` | src/vertexSlot/index.ts:125-127 | `+('0x' + s)`: the hex value of s when s is a non-empty run of hex digits (either case), NaN otherwise |
| `ColorPicker.Channel` | src/vertexSlot/index.ts:125-127 | one channel: the hex number of the two code units at start, start + 1 (clamped to the string) divided by 255, or NaN |
| `ColorPicker.ParseColor` | src/vertexSlot/index.ts:124-128 | the row `[r, g, b, 1]` from slices (1, 3), (3, 5), (5, 7): four entries, alpha 1 |
| `ColorPicker.SlicesCountCodeUnits` | src/vertexSlot/index.ts:125-127 | in `"#\u{1F600}ffff"` the surrogate pair takes two positions: red is NaN, green and blue are 1 |
| `ColorPicker.ChannelInUnitRange` | src/vertexSlot/index.ts:125-127 | for any input, a channel that is a number lies in [0, 1] |
| `ColorPicker.ChannelOfPair` | src/vertexSlot/index.ts:125-127 | for well-formed input, the channel read at position 2k+1 is hex pair k divided by 255 |
| `ColorPicker.ParseWellFormed` | src/vertexSlot/index.ts:124-128 | for well-formed input the row is [pair0/255, pair1/255, pair2/255, 1], every entry a number in [0, 1] |
| `ColorPicker.ParseFormatted` | src/vertexSlot/index.ts:124-127 | the `#rrggbb` text of three bytes is well-formed and parses back to those bytes over 255 |
| `ColorPicker.FormatParsed` | src/vertexSlot/index.ts:124-127 | a lower-case `#rrggbb` is the text of the three bytes it parses to |
| `ColorPicker.InitialRowsShape` | src/vertexSlot/index.ts:103-108 | the initial table is red, green, blue, with 4 entries and alpha 1 in each row |
| `ColorPicker.Flatten` | src/vertexSlot/index.ts:114 | `color_data.flat(2)`: the rows concatenated in order |
| `ColorPicker.FlattenRowMajor` | src/vertexSlot/index.ts:114 | flattening rows of four gives 4 * rows values; entry k is row k div 4, column k mod 4 |
| `ColorPicker.FlattenFillsBuffer` | src/resourceBinding/index.ts:101-104 | a well-formed table flattens to 12 floats, 48 bytes, the size of the buffer at line 54; vec4 k of the buffer is row k |
| `ColorPicker.PickerIndex` | src/vertexSlot/index.ts:133-147 | the three listeners pass indices below 3 only |
| `ColorPicker.ApplyInputs` | src/vertexSlot/index.ts:133-147 | the table after a sequence of listener events, each replacing its picker's row with the parsed colour; it keeps 3 rows |
| `ColorPicker.ApplyInputsLastWins` | src/resourceBinding/index.ts:111-129 | after any sequence of input events the table has 3 rows of 4 entries with alpha 1; each row holds the last colour its picker sent, or its initial colour if that picker never fired |
| `ColorPicker.ColorTable.constructor` | src/vertexSlot/index.ts:103-121 | the table starts as the initial rows and the first `setBuffer2Draw` writes it to the buffer |
| `ColorPicker.ColorTable.SetBuffer2Draw` | src/vertexSlot/index.ts:113-119 | the buffer receives the flattened table, exactly 48 bytes |
| `ColorPicker.ColorTable.GetData2Draw` | src/vertexSlot/index.ts:123-131 | row `index` becomes the parsed colour with alpha 1; every other row is unchanged; the buffer holds the new flattened table |
| `ColorPicker.ColorTable.OnInput` | src/resourceBinding/index.ts:121-129 | a listener event is one step of `ApplyInputs`, so the table invariant is kept |
| `VertexSlot.VertexReadsRow` | src/vertexSlot/index.ts:45-52 | 3 vertices x stride 16 = 48 bytes = the buffer size (line 68) = 12 floats; vertex v's `float32x4` attribute is colour row v |

## Left out

- Device, adapter and canvas-context acquisition and their error paths: browser API negotiation.
- Shader code, the shader and pipeline descriptors beyond the format and module they name, bind-group layouts, command encoders, `writeBuffer`, `queue.submit` and `draw`: calls into the graphics API. The model keeps only what they are given: the recorded passes, the written buffer contents and the per-quad draws.
- `requestAnimationFrame`, `ResizeObserver` and DOM event wiring, and the `render()` call that follows a click or a resize: browser plumbing.
- The bind group created for every pass of the mip loop, and the per-quad sampler, uniform buffer and bind groups of the setup loop: they are not recorded on the device. The mip passes and object infos still say which sampler, pipeline and levels each uses.
- `fetch`, `createImageBitmap` and `copyExternalImageToTexture` (with `flipY`): I/O. An image is only its width and height.
- All `mat4` calls, the spacing and depth constants that scale the grid offsets, and the 64-byte per-quad uniform buffers: external library code and floating-point maths.
- `Mips.NumMipLevels`: uses an integer floor-log2 instead of the floating-point `Math.log2` and `| 0`. The two agree for texture sizes far below 2^31; the 32-bit truncation of `| 0` for larger sizes is not modelled.
- `Mips.Halve`: models `(size / 2) | 0` as integer division and does not model 32-bit truncation.
- `ColorPicker.HexNumber`: `Number()` trims surrounding whitespace, so a pair like `"f "` is 15 in JavaScript and NaN here. A colour input's value never contains whitespace.
- `ColorPicker.ColorTable.SetBuffer2Draw`: float32 rounding of the `Float32Array` and of the division by 255 is not modelled; channels are exact reals.
- `ColorPicker.ColorTable.GetData2Draw`: requires `index < 3`. In JavaScript a larger index would grow the table, but the three listeners only pass 0, 1 and 2.
- `QuadViewer.ClampDimension`: sizes are integers. Content-box sizes are fractional CSS pixels, and the truncation done when assigning `canvas.width` is not modelled.
- `QuadViewer.Viewer.Render`: states the bind group and grid cell of each draw. The matrix built from the cell is not modelled.
- `QuadViewer.Viewer.constructor`: takes the texture count as a parameter of at least 1. The demo always loads three textures, so `% textures.length` never divides by zero.
- The other demos (triangle, matrix, the other textured-quad demos, the entry page) and the build configuration: they contain only API call sequences and fixed data.
