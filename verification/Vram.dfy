/**
 * The memory estimate and the fit check. The estimate is computed in floating
 * point: `fl` stands for rounding to a double, so every result below holds of
 * the rounded computation and not of an idealised one.
 */
module Vram {
  import opened Wrappers
  import opened Gguf

  /** Bytes per element of a KV cache type, in 32nds. */
  const KV_TYPE_COST: map<string, nat> :=
    map["f32" := 128, "f16" := 64, "bf16" := 64, "q8_0" := 34, "q5_1" := 24, "q5_0" := 22, "q4_1" := 20, "q4_0" := 18]

  const OVERHEAD_BYTES := 805306368  // three quarters of a GiB

  const TWO_53 := 9007199254740992

  /** Python's `int()` of a float: the fraction is dropped. */
  function Truncate(x: real): int {
    if x >= 0.0 then x.Floor else -((-x).Floor)
  }

  function Geometry(info: Info): Option<int> {
    if info.layers.Some? && info.kvHeads.Some? && info.headDim.Some?
       && info.layers.value != 0 && info.kvHeads.value != 0 && info.headDim.value != 0
    then Some(info.layers.value * info.kvHeads.value * info.headDim.value)
    else None
  }

  function Cost(kvTypeK: string, kvTypeV: string): Option<nat> {
    if kvTypeK in KV_TYPE_COST && kvTypeV in KV_TYPE_COST
    then Some(KV_TYPE_COST[kvTypeK] + KV_TYPE_COST[kvTypeV])
    else None
  }

  function Times(x: real, y: real): real {
    x * y
  }

  /** A float multiplication of two numbers that are first rounded themselves. */
  function RoundedProduct(x: real, y: real, fl: real -> real): real {
    fl(Times(fl(x), fl(y)))
  }

  /** The float computation: an integer times the sum of two table entries. */
  function Product(perType: int, k: nat, v: nat, fl: real -> real): real {
    RoundedProduct(perType as real, k as real / 32.0 + v as real / 32.0, fl)
  }

  function KvCache(info: Info, ctx: int, kvTypeK: string, kvTypeV: string, fl: real -> real): Option<int> {
    if Geometry(info).Some? && Cost(kvTypeK, kvTypeV).Some?
    then Some(Truncate(Product(Geometry(info).value * ctx, KV_TYPE_COST[kvTypeK], KV_TYPE_COST[kvTypeV], fl)))
    else None
  }

  function TotalEstimate(info: Info, ctx: int, kvTypeK: string, kvTypeV: string, fl: real -> real): int {
    var kv := KvCache(info, ctx, kvTypeK, kvTypeV, fl);
    info.fileSize + (if kv.Some? then kv.value else 0) + OVERHEAD_BYTES
  }

  datatype Basis = Measured | Estimate
  datatype Verdict = Verdict(basis: Basis, required: Option<int>, headroom: Option<int>, fits: Option<bool>)

  /** The fit check: a measured peak wins over the estimate. */
  function Preflight(measured: Option<int>, estimate: Option<int>, totalVram: Option<int>): Verdict {
    var basis := if measured.Some? then Measured else Estimate;
    var required := if measured.Some? then measured else estimate;
    if required.Some? && totalVram.Some? then
      var headroom := totalVram.value - required.value;
      Verdict(basis, required, Some(headroom), Some(headroom >= 0))
    else Verdict(basis, required, None, None)
  }

  /** The fit check, whatever is measured, estimated or known of the card. */
  lemma VerdictSays(measured: Option<int>, estimate: Option<int>, totalVram: Option<int>)
    ensures var v := Preflight(measured, estimate, totalVram);
      && v.required == (if measured.Some? then measured else estimate)
      && (v.basis == Measured <==> measured.Some?)
      && (v.headroom.Some? <==> v.required.Some? && totalVram.Some?)
      && (v.headroom.Some? ==> v.required.value + v.headroom.value == totalVram.value)
      && (v.fits == Some(true) <==> v.required.Some? && totalVram.Some? && v.required.value <= totalVram.value)
      && (v.fits == Some(false) <==> v.required.Some? && totalVram.Some? && v.required.value > totalVram.value)
  {
  }

  /** The bytes of a block of 32 elements: so many bits each, and 16-bit scales beside them. */
  function BlockBytes(bits: nat, scales: nat): nat {
    32 * bits / 8 + 2 * scales
  }

  lemma CostsAreBlocks()
    ensures KV_TYPE_COST.Keys == {"f32", "f16", "bf16", "q8_0", "q5_1", "q5_0", "q4_1", "q4_0"}
    ensures KV_TYPE_COST["f32"] == BlockBytes(32, 0) && KV_TYPE_COST["f16"] == KV_TYPE_COST["bf16"] == BlockBytes(16, 0)
    ensures KV_TYPE_COST["q8_0"] == BlockBytes(8, 1) && KV_TYPE_COST["q5_0"] == BlockBytes(5, 1) && KV_TYPE_COST["q5_1"] == BlockBytes(5, 2)
    ensures KV_TYPE_COST["q4_0"] == BlockBytes(4, 1) && KV_TYPE_COST["q4_1"] == BlockBytes(4, 2)
  {
  }

  // ---------------------------------------------------------------- rounding

  function Pow2(e: nat): (p: nat)
    ensures p >= 1
  {
    if e == 0 then 1 else 2 * Pow2(e - 1)
  }

  /** x is m times a power of two, up or down. */
  predicate Scaled(x: real, m: int, e: nat) {
    x == m as real * Pow2(e) as real || x * Pow2(e) as real == m as real
  }

  /** x has a 53-bit significand (exponents are not bounded here). */
  ghost predicate IsDouble(x: real) {
    exists m: int, e: nat :: -TWO_53 <= m <= TWO_53 && Scaled(x, m, e)
  }

  function Distance(x: real, y: real): real {
    if x <= y then y - x else x - y
  }

  /** Rounding picks a double, and none lies closer. */
  ghost predicate RoundsToNearest(fl: real -> real) {
    forall x: real :: IsDouble(fl(x)) && forall y: real :: IsDouble(y) ==> Distance(x, fl(x)) <= Distance(x, y)
  }

  lemma ThirtySecondsAreDoubles(n: int)
    requires -TWO_53 <= n <= TWO_53
    ensures IsDouble(n as real / 32.0)
  {
    assert Pow2(5) == 32;
    assert Scaled(n as real / 32.0, n, 5);
  }

  lemma IntegersAreDoubles(n: int)
    requires -TWO_53 <= n <= TWO_53
    ensures IsDouble(n as real)
  {
    assert Scaled(n as real, n, 0);
  }

  lemma DoublesAreExact(x: real, fl: real -> real)
    requires RoundsToNearest(fl) && IsDouble(x)
    ensures fl(x) == x
  {
    assert Distance(x, fl(x)) <= Distance(x, x);
  }

  lemma RoundingMonotone(x: real, y: real, fl: real -> real)
    requires RoundsToNearest(fl) && x <= y
    ensures fl(x) <= fl(y)
  {
    assert IsDouble(fl(x)) && IsDouble(fl(y));
    assert Distance(x, fl(x)) <= Distance(x, fl(y));
    assert Distance(y, fl(y)) <= Distance(y, fl(x));
  }

  // ---------------------------------------------------------------- the estimate

  lemma CostPositive(kvTypeK: string, kvTypeV: string)
    requires Cost(kvTypeK, kvTypeV).Some?
    ensures 36 <= Cost(kvTypeK, kvTypeV).value <= 256
  {
    assert forall t | t in KV_TYPE_COST :: 18 <= KV_TYPE_COST[t] <= 128;
  }

  /** Below 2^53, rounding never shows: the estimate is the exact quotient, fraction dropped. */
  lemma KvCacheExact(info: Info, ctx: int, kvTypeK: string, kvTypeV: string, fl: real -> real)
    requires RoundsToNearest(fl) && Geometry(info).Some? && Cost(kvTypeK, kvTypeV).Some?
    requires var n := Geometry(info).value * ctx * Cost(kvTypeK, kvTypeV).value; -TWO_53 <= n <= TWO_53
    ensures var n := Geometry(info).value * ctx * Cost(kvTypeK, kvTypeV).value;
      KvCache(info, ctx, kvTypeK, kvTypeV, fl) == Some(if n >= 0 then n / 32 else -(-n / 32))
  {
    CostPositive(kvTypeK, kvTypeV);
    var p := Geometry(info).value * ctx;
    var k, v := KV_TYPE_COST[kvTypeK], KV_TYPE_COST[kvTypeV];
    hide Geometry, RoundsToNearest, Product, Truncate, KV_TYPE_COST;
    ProductExact(p, k, v, fl);
    TruncateThirtySeconds(p * (k + v));
  }

  /**
   * Below 2^53 a profile is said to fit if and only if the file, the cache of
   * layers, heads, head dimension and context at both types' costs, and three
   * quarters of a GiB fit into the card.
   */
  lemma FitsExactly(info: Info, ctx: nat, kvTypeK: string, kvTypeV: string, totalVram: int, fl: real -> real)
    requires RoundsToNearest(fl) && KV_TYPE_COST.Keys >= {kvTypeK, kvTypeV}
    requires info.layers.Some? && info.kvHeads.Some? && info.headDim.Some?
    requires info.layers.value > 0 && info.kvHeads.value > 0 && info.headDim.value > 0
    requires info.layers.value * info.kvHeads.value * info.headDim.value * ctx
             * (KV_TYPE_COST[kvTypeK] + KV_TYPE_COST[kvTypeV]) <= TWO_53
    ensures var cache := info.layers.value * info.kvHeads.value * info.headDim.value * ctx
                         * (KV_TYPE_COST[kvTypeK] + KV_TYPE_COST[kvTypeV]) / 32;
      Preflight(None, Some(TotalEstimate(info, ctx, kvTypeK, kvTypeV, fl)), Some(totalVram)).fits == Some(true)
      <==> info.fileSize + cache + 3 * 0x1000_0000 <= totalVram
  {
    var cost := KV_TYPE_COST[kvTypeK] + KV_TYPE_COST[kvTypeV];
    var g := info.layers.value * info.kvHeads.value * info.headDim.value;
    assert g != 0 && g * ctx * cost >= 0 by {
      NonNegative4(info.layers.value, info.kvHeads.value, info.headDim.value, ctx);
      NonNegative4(g, ctx, cost, 1);
    }
    hide RoundsToNearest, Product, Truncate, KV_TYPE_COST;
    KvCacheExact(info, ctx, kvTypeK, kvTypeV, fl);
    VerdictSays(None, Some(TotalEstimate(info, ctx, kvTypeK, kvTypeV, fl)), Some(totalVram));
  }

  /** A geometry or a cache type that is not known, or zero, leaves the cache out of the estimate. */
  lemma UnknownCacheIsFree(info: Info, ctx: int, kvTypeK: string, kvTypeV: string, fl: real -> real)
    requires info.layers in {None, Some(0)} || info.kvHeads in {None, Some(0)} || info.headDim in {None, Some(0)}
             || !(KV_TYPE_COST.Keys >= {kvTypeK, kvTypeV})
    ensures TotalEstimate(info, ctx, kvTypeK, kvTypeV, fl) == info.fileSize + 3 * 0x1000_0000
  {
    hide Product, Truncate, KV_TYPE_COST;
  }

  lemma ProductExact(p: int, k: nat, v: nat, fl: real -> real)
    requires RoundsToNearest(fl) && 1 <= k + v <= TWO_53 && -TWO_53 <= p * (k + v) <= TWO_53
    ensures Product(p, k, v, fl) == (p * (k + v)) as real / 32.0
  {
    hide RoundsToNearest, RoundedProduct;
    RoundedProductExact(p, k, v, fl);
  }

  lemma RoundedProductExact(p: int, k: nat, v: nat, fl: real -> real)
    requires RoundsToNearest(fl) && 1 <= k + v <= TWO_53 && -TWO_53 <= p * (k + v) <= TWO_53
    ensures RoundedProduct(p as real, k as real / 32.0 + v as real / 32.0, fl) == (p * (k + v)) as real / 32.0
  {
    hide *;
    var c := k + v;
    ScalingGrows(p, c);
    IntegersAreDoubles(p);
    ThirtySecondsAreDoubles(c);
    ThirtySecondsAreDoubles(p * c);
    MultiplyThirtySeconds(p, c);
    var x, y := p as real, k as real / 32.0 + v as real / 32.0;
    assert y == c as real / 32.0;
    ExactProduct(x, y, fl);
  }

  lemma ExactProduct(x: real, y: real, fl: real -> real)
    requires RoundsToNearest(fl) && IsDouble(x) && IsDouble(y) && IsDouble(Times(x, y))
    ensures RoundedProduct(x, y, fl) == Times(x, y)
  {
    hide RoundsToNearest, IsDouble, Times;
    DoublesAreExact(x, fl);
    DoublesAreExact(y, fl);
    DoublesAreExact(Times(x, y), fl);
  }

  lemma MultiplyThirtySeconds(p: int, c: int)
    ensures Times(p as real, c as real / 32.0) == (p * c) as real / 32.0
  {
  }

  lemma ScalingGrows(p: int, c: int)
    requires c >= 1
    ensures p >= 0 ==> p <= p * c
    ensures p <= 0 ==> p * c <= p
  {
  }

  lemma FloorThirtySeconds(n: nat)
    ensures (n as real / 32.0).Floor == n / 32
  {
    var q, r := n / 32, n % 32;
    assert n == 32 * q + r;
    assert n as real / 32.0 == q as real + r as real / 32.0;
  }

  lemma TruncateThirtySeconds(n: int)
    ensures Truncate(n as real / 32.0) == if n >= 0 then n / 32 else -(-n / 32)
  {
    if n >= 0 {
      FloorThirtySeconds(n);
    } else {
      FloorThirtySeconds(-n);
      assert -(n as real / 32.0) == (-n) as real / 32.0;
    }
  }

  lemma ProductMonotone(p: int, q: int, k: nat, v: nat, fl: real -> real)
    requires RoundsToNearest(fl) && p <= q
    ensures Truncate(Product(p, k, v, fl)) <= Truncate(Product(q, k, v, fl))
  {
    hide RoundsToNearest, RoundedProduct, Truncate;
    var s := k as real / 32.0 + v as real / 32.0;
    MonotoneProduct(p as real, q as real, s, fl);
    TruncateMonotone(Product(p, k, v, fl), Product(q, k, v, fl));
  }

  lemma MonotoneProduct(x: real, y: real, s: real, fl: real -> real)
    requires RoundsToNearest(fl) && x <= y && 0.0 <= s
    ensures RoundedProduct(x, s, fl) <= RoundedProduct(y, s, fl)
  {
    IntegersAreDoubles(0);
    hide RoundsToNearest, IsDouble, Times;
    DoublesAreExact(0.0, fl);
    RoundingMonotone(0.0, s, fl);
    RoundingMonotone(x, y, fl);
    ScaleMonotone(fl(x), fl(y), fl(s));
    RoundingMonotone(Times(fl(x), fl(s)), Times(fl(y), fl(s)), fl);
  }

  lemma TruncateMonotone(x: real, y: real)
    requires x <= y
    ensures Truncate(x) <= Truncate(y)
  {
    assert x.Floor as real <= x < x.Floor as real + 1.0;
    assert (-y).Floor as real <= -y < (-y).Floor as real + 1.0;
  }

  lemma ScaleMonotone(a: real, b: real, c: real)
    requires a <= b && c >= 0.0
    ensures Times(a, c) <= Times(b, c)
  {
    assert (b - a) * c >= 0.0;
  }

  lemma IntScaleMonotone(a: int, b: int, c: int)
    requires a <= b && c >= 0
    ensures c * a <= c * b
  {
    assert c * (b - a) >= 0;
  }

  lemma NegateScale(g: int, a: int, b: int)
    requires -g * a <= -g * b
    ensures g * b <= g * a
  {
  }

  /**
   * The estimate-based verdict only gets worse as the context grows, at any size
   * and whatever the rounding, unless a header claims a negative geometry; then
   * it only gets better.
   */
  lemma EstimateVerdictAntitone(info: Info, small: int, large: int, kvTypeK: string, kvTypeV: string,
                                totalVram: Option<int>, fl: real -> real)
    requires RoundsToNearest(fl) && small <= large
    ensures var atSmall := Preflight(None, Some(TotalEstimate(info, small, kvTypeK, kvTypeV, fl)), totalVram).fits;
      var atLarge := Preflight(None, Some(TotalEstimate(info, large, kvTypeK, kvTypeV, fl)), totalVram).fits;
      && (Geometry(info).None? || Geometry(info).value >= 0 ==> atLarge == Some(true) ==> atSmall == Some(true))
      && (Geometry(info).Some? && Geometry(info).value <= 0 ==> atSmall == Some(true) ==> atLarge == Some(true))
  {
    hide RoundsToNearest, Product, Truncate, KV_TYPE_COST, Geometry;
    if Geometry(info).Some? && Cost(kvTypeK, kvTypeV).Some? {
      var g, k, v := Geometry(info).value, KV_TYPE_COST[kvTypeK], KV_TYPE_COST[kvTypeV];
      if g >= 0 {
        IntScaleMonotone(small, large, g);
        ProductMonotone(g * small, g * large, k, v, fl);
      }
      if g <= 0 {
        IntScaleMonotone(small, large, -g);
        NegateScale(g, small, large);
        ProductMonotone(g * large, g * small, k, v, fl);
      }
    }
  }

  /** What one layer's cache needs for c tokens, in 32nds of a byte. */
  function LayerCost(info: Info, cost: nat, c: nat): int
    requires Geometry(info).Some?
  {
    info.kvHeads.value * info.headDim.value * c * cost
  }

  /** A cache in which layer i keeps contexts[i] tokens. */
  function LayersCost(info: Info, cost: nat, contexts: seq<nat>): int
    requires Geometry(info).Some?
  {
    if contexts == [] then 0 else LayerCost(info, cost, contexts[0]) + LayersCost(info, cost, contexts[1..])
  }

  lemma {:induction false} LayersCostBound(info: Info, cost: nat, contexts: seq<nat>, ctx: nat)
    requires Geometry(info).Some? && info.kvHeads.value > 0 && info.headDim.value > 0
    requires forall i | 0 <= i < |contexts| :: contexts[i] <= ctx
    ensures LayersCost(info, cost, contexts) <= |contexts| * LayerCost(info, cost, ctx)
  {
    if contexts != [] {
      LayersCostBound(info, cost, contexts[1..], ctx);
      var w := info.kvHeads.value * info.headDim.value;
      assert contexts[0] <= ctx;
      IntScaleMonotone(contexts[0], ctx, w);
      IntScaleMonotone(w * contexts[0], w * ctx, cost);
      var per := LayerCost(info, cost, ctx);
      assert |contexts| * per == per + |contexts[1..]| * per;
    }
  }

  /** Models in which only some layers keep a cache, or keep shorter ones, need no more than the estimate. */
  lemma EstimateBoundsHybrids(info: Info, ctx: nat, contexts: seq<nat>, kvTypeK: string, kvTypeV: string, fl: real -> real)
    requires RoundsToNearest(fl) && Geometry(info).Some? && Cost(kvTypeK, kvTypeV).Some?
    requires info.layers.value > 0 && info.kvHeads.value > 0 && info.headDim.value > 0
    requires Geometry(info).value * ctx * Cost(kvTypeK, kvTypeV).value <= TWO_53
    requires |contexts| <= info.layers.value && forall i | 0 <= i < |contexts| :: contexts[i] <= ctx
    ensures LayersCost(info, Cost(kvTypeK, kvTypeV).value, contexts) / 32 <= KvCache(info, ctx, kvTypeK, kvTypeV, fl).value
  {
    var cost := Cost(kvTypeK, kvTypeV).value;
    LayersCostBound(info, cost, contexts, ctx);
    var h, d := info.kvHeads.value, info.headDim.value;
    var per := LayerCost(info, cost, ctx);
    NonNegative4(h, d, ctx, cost);
    IntScaleMonotone(|contexts|, info.layers.value, per);
    Regroup(info.layers.value, h, d, ctx, cost);
    assert LayersCost(info, cost, contexts) <= Geometry(info).value * ctx * cost;
    assert Geometry(info).value * ctx * cost >= 0 by {
      assert info.layers.value * per >= 0;
    }
    KvCacheExact(info, ctx, kvTypeK, kvTypeV, fl);
  }

  lemma NonNegative4(a: nat, b: nat, c: nat, d: nat)
    ensures a * b >= 0 && a * b * c >= 0 && a * b * c * d >= 0
  {
  }

  lemma Regroup(l: int, h: int, d: int, c: int, cost: int)
    ensures l * (h * d * c * cost) == l * h * d * c * cost
  {
    assert l * (h * d * c * cost) == l * (h * d * c) * cost;
    assert l * (h * d * c) == l * (h * d) * c;
    assert l * (h * d) == l * h * d;
  }

  /** Splitting a context into equal slots loses less than one byte a slot. */
  lemma EstimateOfSlots(info: Info, slot: nat, parallel: nat, kvTypeK: string, kvTypeV: string, fl: real -> real)
    requires RoundsToNearest(fl) && Geometry(info).Some? && Cost(kvTypeK, kvTypeV).Some?
    requires Geometry(info).value > 0 && parallel >= 1
    requires Geometry(info).value * (parallel * slot) * Cost(kvTypeK, kvTypeV).value <= TWO_53
    ensures var whole := KvCache(info, parallel * slot, kvTypeK, kvTypeV, fl).value;
      var each := KvCache(info, slot, kvTypeK, kvTypeV, fl).value;
      parallel * each <= whole < parallel * each + parallel
  {
    var g, cost := Geometry(info).value, Cost(kvTypeK, kvTypeV).value;
    var n := g * slot * cost;
    hide Geometry, Cost, RoundsToNearest, KvCache;
    NonNegative4(g, slot, cost, parallel);
    RegroupSlots(g, parallel, slot, cost);
    ScalingGrows(n, parallel);
    KvCacheExact(info, slot, kvTypeK, kvTypeV, fl);
    KvCacheExact(info, parallel * slot, kvTypeK, kvTypeV, fl);
    DivideParts(n, parallel);
  }

  lemma RegroupSlots(g: int, parallel: int, slot: int, cost: int)
    ensures g * (parallel * slot) * cost == g * slot * cost * parallel
  {
    assert g * (parallel * slot) == g * slot * parallel;
    assert g * slot * parallel * cost == g * slot * cost * parallel;
  }

  lemma DivideParts(n: nat, parallel: nat)
    requires parallel >= 1
    ensures parallel * (n / 32) <= n * parallel / 32 < parallel * (n / 32) + parallel
  {
    var q, r := n / 32, n % 32;
    assert n * parallel == 32 * (parallel * q) + r * parallel by {
      assert n == 32 * q + r;
      assert (32 * q + r) * parallel == 32 * q * parallel + r * parallel;
    }
    IntScaleMonotone(r, 31, parallel);
  }
}
