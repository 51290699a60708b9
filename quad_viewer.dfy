/** The interactive state of the textured-quad demo (src/test/index.ts): which
    texture the quads show, the canvas size kept inside the device limit, and
    the draws one frame issues. */
module QuadViewer {
  import opened QuadScene

  /** The click handler's step: `(texNdx + 1) % textures.length`. */
  function NextTexNdx(texNdx: nat, textureCount: nat): (next: nat)
    requires textureCount >= 1
    ensures next < textureCount
  {
    (texNdx + 1) % textureCount
  }

  /** texNdx after `clicks` clicks starting from `start`. */
  function AfterClicks(start: nat, textureCount: nat, clicks: nat): nat
    requires textureCount >= 1
    decreases clicks
  {
    if clicks == 0 then start else NextTexNdx(AfterClicks(start, textureCount, clicks - 1), textureCount)
  }

  /** Clicks that do not pass the last texture step one texture forward each. */
  lemma {:induction false} AfterClicksSteps(start: nat, textureCount: nat, clicks: nat)
    requires start + clicks < textureCount
    ensures AfterClicks(start, textureCount, clicks) == start + clicks
    decreases clicks
  {
    if clicks > 0 {
      AfterClicksSteps(start, textureCount, clicks - 1);
      ModSmall(start + clicks, textureCount);
    }
  }

  /** The index stays inside [0, textures.length) whatever happens: every
      click ends in a remainder modulo textures.length. */
  lemma AfterClicksInRange(start: nat, textureCount: nat, clicks: nat)
    requires start < textureCount
    ensures AfterClicks(start, textureCount, clicks) < textureCount
  {
  }

  /** Clicking a + b times is clicking a times and then b times. */
  lemma {:induction false} AfterClicksCompose(start: nat, textureCount: nat, a: nat, b: nat)
    requires textureCount >= 1
    ensures AfterClicks(start, textureCount, a + b)
            == AfterClicks(AfterClicks(start, textureCount, a), textureCount, b)
    decreases b
  {
    if b > 0 {
      AfterClicksCompose(start, textureCount, a, b - 1);
    }
  }

  /** After textures.length clicks the first texture is shown again, and from
      then on the same textures come round in the same order. */
  lemma ClicksCycle(textureCount: nat, clicks: nat)
    requires textureCount >= 1
    ensures AfterClicks(0, textureCount, textureCount) == 0
    ensures AfterClicks(0, textureCount, textureCount + clicks) == AfterClicks(0, textureCount, clicks)
  {
    AfterClicksSteps(0, textureCount, textureCount - 1);
    assert textureCount % textureCount == 0;
    AfterClicksCompose(0, textureCount, textureCount, clicks);
  }

  lemma ModSmall(x: nat, n: nat)
    requires x < n
    ensures x % n == x
  {
    var q := x / n;
    if q > 0 { assert q * n >= n; }
  }

  /** The ResizeObserver's rule for one canvas dimension:
      `Math.max(1, Math.min(size, device.limits.maxTextureDimension2D))`. */
  function ClampDimension(size: int, maxTextureDimension2D: int): (r: int)
    ensures r >= 1
    ensures maxTextureDimension2D >= 1 ==> r <= maxTextureDimension2D
    ensures 1 <= size <= maxTextureDimension2D ==> r == size
    ensures size > maxTextureDimension2D >= 1 ==> r == maxTextureDimension2D
    ensures size < 1 ==> r == 1
  {
    var limited := if size < maxTextureDimension2D then size else maxTextureDimension2D;
    if limited > 1 then limited else 1
  }

  /** Clamping an already clamped size changes nothing. */
  lemma ClampIdempotent(size: int, maxTextureDimension2D: int)
    ensures ClampDimension(ClampDimension(size, maxTextureDimension2D), maxTextureDimension2D)
            == ClampDimension(size, maxTextureDimension2D)
  {
  }

  class Canvas {
    var width: int
    var height: int

    constructor (width: int, height: int)
      ensures this.width == width && this.height == height
    {
      this.width, this.height := width, height;
    }

    /** The ResizeObserver callback for one entry (the render it triggers is
        not modelled here). */
    method OnResize(inlineSize: int, blockSize: int, maxTextureDimension2D: int)
      modifies this
      ensures width == ClampDimension(inlineSize, maxTextureDimension2D)
      ensures height == ClampDimension(blockSize, maxTextureDimension2D)
    {
      width := ClampDimension(inlineSize, maxTextureDimension2D);
      height := ClampDimension(blockSize, maxTextureDimension2D);
    }
  }

  /** One `pass.draw(6)` of a frame: the bind group set before it and the grid
      cell the quad's matrix is translated to. */
  datatype Draw = Draw(bindGroup: BindGroup, x: real, y: real, vertexCount: nat)

  class Viewer {
    const textureCount: nat
    var texNdx: nat
    var objectInfos: seq<ObjectInfo>

    ghost predicate Valid()
      reads this
    {
      && textureCount >= 1
      && texNdx < textureCount
      && |objectInfos| == QuadCount
      && forall i :: 0 <= i < QuadCount ==>
           objectInfos[i].sampler == SamplerFor(i) &&
           |objectInfos[i].bindGroups| == textureCount &&
           forall t :: 0 <= t < textureCount ==>
             objectInfos[i].bindGroups[t] == BindGroup(SamplerFor(i), t)
    }

    /** `let texNdx = 0` after the setup loop has filled objectInfos. */
    constructor (textureCount: nat)
      requires textureCount >= 1
      ensures Valid() && this.textureCount == textureCount && texNdx == 0
    {
      var infos := BuildObjectInfos(textureCount);
      this.textureCount := textureCount;
      texNdx := 0;
      objectInfos := infos;
    }

    /** The canvas click listener (the render it triggers is not modelled here). */
    method OnClick()
      requires Valid()
      modifies this
      ensures Valid() && objectInfos == old(objectInfos)
      ensures texNdx == NextTexNdx(old(texNdx), textureCount)
    {
      texNdx := (texNdx + 1) % textureCount;
    }

    /** The `objectInfos.forEach` of render(): quad i is drawn with sampler i
        and the currently selected texture, at grid cell i. */
    method Render() returns (draws: seq<Draw>)
      requires Valid()
      ensures |draws| == QuadCount
      ensures forall i :: 0 <= i < QuadCount ==>
                draws[i] == Draw(BindGroup(SamplerFor(i), texNdx), GridX(i), GridY(i), 6)
    {
      draws := [];
      var i := 0;
      while i < |objectInfos|
        invariant 0 <= i <= |objectInfos| && |draws| == i
        invariant forall j :: 0 <= j < i ==>
                    draws[j] == Draw(BindGroup(SamplerFor(j), texNdx), GridX(j), GridY(j), 6)
      {
        var bindGroup := objectInfos[i].bindGroups[texNdx];
        draws := draws + [Draw(bindGroup, GridX(i), GridY(i), 6)];
        i := i + 1;
      }
    }
  }
}
