/** Mip-chain arithmetic of the textured-quad demo (src/test/index.ts): how many
    mip levels a texture is given, and which render passes generateMips records
    to fill them. */
module Mips {

  function Max(a: nat, b: nat): nat { if a < b then b else a }

  /** 2 to the power k. */
  function Pow2(k: nat): (r: nat)
    ensures r >= 1
  {
    if k == 0 then 1 else 2 * Pow2(k - 1)
  }

  lemma {:induction false} Pow2Monotone(i: nat, j: nat)
    requires i <= j
    ensures Pow2(i) <= Pow2(j)
  {
    if i < j { Pow2Monotone(i, j - 1); }
  }

  /** floor(log2(n)): the unique k with 2^k <= n < 2^(k+1). */
  function Log2Floor(n: nat): (k: nat)
    requires n >= 1
    ensures Pow2(k) <= n < Pow2(k + 1)
    decreases n
  {
    if n == 1 then 0 else 1 + Log2Floor(n / 2)
  }

  /** The bounds of Log2Floor pin it down: no other exponent satisfies them. */
  lemma Log2FloorUnique(n: nat, k: nat)
    requires Pow2(k) <= n < Pow2(k + 1)
    ensures Log2Floor(n) == k
  {
    var l := Log2Floor(n);
    if l < k {
      Pow2Monotone(l + 1, k);
    } else if k < l {
      Pow2Monotone(k + 1, l);
    }
  }

  /** numMipLevels(...sizes): `(1 + Math.log2(Math.max(...sizes))) | 0`.
      For a largest size of 0, log2 is -Infinity and `| 0` turns the sum into 0. */
  function NumMipLevels(width: nat, height: nat): (levels: nat)
    ensures Max(width, height) == 0 ==> levels == 0
    ensures Max(width, height) >= 1 ==>
              levels >= 1 && Pow2(levels - 1) <= Max(width, height) < Pow2(levels)
  {
    var largest := Max(width, height);
    if largest == 0 then 0 else 1 + Log2Floor(largest)
  }

  /** The mip level count createTextureFromSource asks for: the full chain when
      `options.mips` is set, a single level otherwise. */
  function MipLevelCount(mips: bool, width: nat, height: nat): (count: nat)
    ensures width >= 1 && height >= 1 ==> count >= 1
  {
    if mips then NumMipLevels(width, height) else 1
  }

  /** copySourceToTexture calls generateMips exactly when the texture has more
      than one level, which for a non-empty image happens exactly when mips were
      requested and the image is larger than 1x1. */
  lemma GeneratesMipsIff(mips: bool, width: nat, height: nat)
    requires width >= 1 && height >= 1
    ensures MipLevelCount(mips, width, height) >= 1
    ensures MipLevelCount(mips, width, height) > 1 <==> mips && Max(width, height) >= 2
  {
    if mips && Max(width, height) >= 2 {
      assert Log2Floor(Max(width, height)) >= 1;
    }
  }

  /** One step of the generateMips loop: `Math.max(1, (size / 2) | 0)`. */
  function Halve(size: nat): (r: nat)
    ensures r >= 1
    ensures size <= 1 ==> r == 1
    ensures size >= 2 ==> 2 * r <= size < 2 * r + 2
  {
    if size / 2 > 1 then size / 2 else 1
  }

  /** The size of a mip level after k halvings: never below 1 once halved. */
  function HalveN(size: nat, k: nat): (r: nat)
    ensures k >= 1 ==> r >= 1
    ensures r <= Max(size, 1)
    decreases k
  {
    if k == 0 then size else HalveN(Halve(size), k - 1)
  }

  /** One iteration of the generateMips loop: render from the view at
      `sourceLevel` into the view at `targetLevel`, whose size is width x height. */
  datatype Pass = Pass(sourceLevel: nat, targetLevel: nat, width: nat, height: nat)

  /** The passes recorded by the loop when it is entered with the given size and
      `baseMipLevel == level`. */
  function MipChain(width: nat, height: nat, level: nat): (chain: seq<Pass>)
    ensures forall p :: p in chain ==>
              level <= p.sourceLevel && p.targetLevel == p.sourceLevel + 1 &&
              p.width >= 1 && p.height >= 1
    decreases Max(width, height)
  {
    if width > 1 || height > 1 then
      var w, h := Halve(width), Halve(height);
      [Pass(level, level + 1, w, h)] + MipChain(w, h, level + 1)
    else
      []
  }

  lemma HalveMax(width: nat, height: nat)
    ensures Max(Halve(width), Halve(height)) == Halve(Max(width, height))
  {
  }

  /** The loop runs floor(log2(max(width, height))) times; pass k reads level
      level+k and writes level level+k+1, sized by k+1 halvings; the last pass
      writes a 1x1 level. */
  lemma {:induction false} MipChainShape(width: nat, height: nat, level: nat)
    requires Max(width, height) >= 1
    ensures |MipChain(width, height, level)| == Log2Floor(Max(width, height))
    ensures forall k :: 0 <= k < |MipChain(width, height, level)| ==>
              MipChain(width, height, level)[k] ==
              Pass(level + k, level + k + 1, HalveN(width, k + 1), HalveN(height, k + 1))
    ensures |MipChain(width, height, level)| > 0 ==>
              var last := MipChain(width, height, level)[|MipChain(width, height, level)| - 1];
              last.width == 1 && last.height == 1
    decreases Max(width, height)
  {
    var chain := MipChain(width, height, level);
    var m := Max(width, height);
    if width > 1 || height > 1 {
      var w, h := Halve(width), Halve(height);
      HalveMax(width, height);
      assert m >= 2 && Max(w, h) == m / 2;
      MipChainShape(w, h, level + 1);
      var tail := MipChain(w, h, level + 1);
      assert chain == [Pass(level, level + 1, w, h)] + tail;
      forall k | 0 <= k < |chain|
        ensures chain[k] == Pass(level + k, level + k + 1, HalveN(width, k + 1), HalveN(height, k + 1))
      {
        if k > 0 {
          assert chain[k] == tail[k - 1];
        }
      }
      if tail == [] {
        assert w <= 1 && h <= 1;
      }
    } else {
      assert m == 1;
    }
  }

  /** The key link between the loop and the allocation: for a texture whose
      level count makes copySourceToTexture call generateMips, the loop runs
      exactly mipLevelCount - 1 times, every pass reads a level and writes the
      next one, both inside [0, mipLevelCount), and the chain ends at 1x1. */
  lemma MipPassesInsideTexture(mips: bool, width: nat, height: nat)
    requires width >= 1 && height >= 1
    requires MipLevelCount(mips, width, height) > 1
    ensures |MipChain(width, height, 0)| == MipLevelCount(mips, width, height) - 1
    ensures forall p :: p in MipChain(width, height, 0) ==>
              p.targetLevel == p.sourceLevel + 1 &&
              p.targetLevel < MipLevelCount(mips, width, height) &&
              p.width >= 1 && p.height >= 1
    ensures MipChain(width, height, 0)[|MipChain(width, height, 0)| - 1].width == 1
    ensures MipChain(width, height, 0)[|MipChain(width, height, 0)| - 1].height == 1
  {
    GeneratesMipsIff(mips, width, height);
    MipChainShape(width, height, 0);
    var chain := MipChain(width, height, 0);
    forall p | p in chain
      ensures p.targetLevel == p.sourceLevel + 1 && p.targetLevel < MipLevelCount(mips, width, height)
      ensures p.width >= 1 && p.height >= 1
    {
      var k :| 0 <= k < |chain| && chain[k] == p;
    }
  }
}
