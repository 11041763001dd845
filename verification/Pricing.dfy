// Cost arithmetic: an int64-safe partition of token counts, and an estimate
// in floating point under any monotone rounding.
module Pricing {
  import opened Types

  datatype PriceableUsage = PriceableUsage(nonCached: int64, output: int64, cacheRead: int64, cacheWrite: int64)

  // Succeeds exactly if all counts are non-negative and the two cache counts
  // together are at most the input, as unbounded integers; then the three
  // parts sum to the input. No intermediate result leaves the int64 range.
  function Normalize(input: int64, output: int64, cacheRead: int64, cacheWrite: int64): (r: Option<PriceableUsage>)
    ensures r.Some? <==> input >= 0 && output >= 0 && cacheRead >= 0 && cacheWrite >= 0 && cacheRead as int + cacheWrite as int <= input as int
    ensures r.Some? ==>
              && r.value.nonCached as int + r.value.cacheRead as int + r.value.cacheWrite as int == input as int
              && r.value.nonCached >= 0 && r.value.output == output
              && r.value.cacheRead == cacheRead && r.value.cacheWrite == cacheWrite
  {
    if input < 0 || output < 0 || cacheRead < 0 || cacheWrite < 0 then None
    else if cacheRead > input then None
    else
      var remaining := input - cacheRead;
      if cacheWrite > remaining then None
      else Some(PriceableUsage(remaining - cacheWrite, output, cacheRead, cacheWrite))
  }

  // ---- Floating point ----

  // The values of a binary floating-point format; the sign of zero plays no
  // part here.
  datatype Float = Finite(r: real) | PosInf | NegInf | NaN

  predicate Le(a: Float, b: Float) {
    match (a, b)
    case (Finite(x), Finite(y)) => x <= y
    case (NegInf, Finite(_)) => true
    case (NegInf, NegInf) => true
    case (NegInf, PosInf) => true
    case (Finite(_), PosInf) => true
    case (PosInf, PosInf) => true
    case _ => false
  }

  const ZERO := Finite(0.0)

  // How an exact result becomes a value of the format.
  type Rounding = real -> Float

  function FromInt(round: Rounding, n: int64): Float {
    round(n as int as real)
  }

  // Rounding is monotone, keeps zero, never makes a NaN, and does not
  // overflow on a 64-bit integer (IEEE 754-2019 sections 4.3 and 7.4).
  ghost predicate Monotone(round: Rounding) {
    && (forall x, y | x <= y :: Le(round(x), round(y)))
    && round(0.0) == ZERO
    && (forall n: int64 :: FromInt(round, n).Finite?)
  }

  // Products and sums of IEEE 754-2019 sections 5.4.1, 6.1 and 7.2.
  function Mul(round: Rounding, a: Float, b: Float): Float {
    if a.NaN? || b.NaN? then NaN
    else if a.Finite? && b.Finite? then round(a.r * b.r)
    else if a == ZERO || b == ZERO then NaN
    else if Negative(a) == Negative(b) then PosInf
    else NegInf
  }

  predicate Negative(a: Float) {
    a.NegInf? || (a.Finite? && a.r < 0.0)
  }

  function Add(round: Rounding, a: Float, b: Float): Float {
    if a.NaN? || b.NaN? || (a.PosInf? && b.NegInf?) || (a.NegInf? && b.PosInf?) then NaN
    else if a.Finite? && b.Finite? then round(a.r + b.r)
    else if a.Finite? then b
    else a
  }

  // a * b + c with one rounding.
  function Fma(round: Rounding, a: Float, b: Float, c: Float): Float {
    if a.Finite? && b.Finite? && c.Finite? then round(a.r * b.r + c.r)
    else if a.Finite? && b.Finite? then c
    else Add(round, Mul(round, a, b), c)
  }

  // ---- The estimate ----

  datatype Price = Price(input: Float, output: Float, cacheRead: Float, cacheWrite: Float)

  // x >= 0, as the hardware compares.
  predicate AtLeastZero(x: Float) {
    Le(ZERO, x)
  }

  predicate IsInf(x: Float) {
    x.PosInf? || x.NegInf?
  }

  predicate ValidatePrice(p: Price) {
    && AtLeastZero(p.input) && AtLeastZero(p.output) && AtLeastZero(p.cacheRead) && AtLeastZero(p.cacheWrite)
    && !p.input.NaN? && !p.output.NaN? && !p.cacheRead.NaN? && !p.cacheWrite.NaN?
    && !IsInf(p.input) && !IsInf(p.output) && !IsInf(p.cacheRead) && !IsInf(p.cacheWrite)
  }

  predicate ValidCost(cost: Float) {
    AtLeastZero(cost) && !cost.NaN? && !IsInf(cost)
  }

  // The compiler may fuse a product into the sum it goes into: the product
  // just added, or, in the first sum, the one before.
  datatype Fusing = Separate | FuseNew | FuseFirst

  datatype Code = Code(first: Fusing, second: Fusing, third: Fusing)

  // sum + n * price
  function Accumulate(round: Rounding, fusing: Fusing, sum: Float, n: int64, price: Float): Float {
    if fusing.FuseNew? then Fma(round, FromInt(round, n), price, sum)
    else Add(round, sum, Mul(round, FromInt(round, n), price))
  }

  function FirstSum(round: Rounding, fusing: Fusing, u: PriceableUsage, p: Price): Float {
    var input := FromInt(round, u.nonCached);
    if fusing.FuseFirst? then Fma(round, input, p.input, Mul(round, FromInt(round, u.output), p.output))
    else Accumulate(round, fusing, Mul(round, input, p.input), u.output, p.output)
  }

  function Estimate(round: Rounding, code: Code, u: PriceableUsage, p: Price): Float {
    var withRead := Accumulate(round, code.second, FirstSum(round, code.first, u, p), u.cacheRead, p.cacheRead);
    Accumulate(round, code.third, withRead, u.cacheWrite, p.cacheWrite)
  }

  lemma ProductGrows(x: real, y: real, p: real)
    requires 0.0 <= x <= y && 0.0 <= p
    ensures 0.0 <= x * p <= y * p
  {
  }

  predicate FinitePrice(p: Float) {
    p.Finite? && p.r >= 0.0
  }

  lemma FromIntGrows(round: Rounding, m: int64, n: int64)
    requires Monotone(round) && 0 <= m <= n
    ensures FinitePrice(FromInt(round, m)) && FinitePrice(FromInt(round, n))
    ensures FromInt(round, m).r <= FromInt(round, n).r
  {
    assert round(0.0) == ZERO && 0.0 <= m as int as real <= n as int as real;
    assert Le(round(0.0), round(m as int as real));
    assert Le(round(m as int as real), round(n as int as real));
  }

  lemma RoundGrows(round: Rounding, x: real, y: real)
    requires Monotone(round) && 0.0 <= x <= y
    ensures AtLeastZero(round(x)) && Le(round(x), round(y))
  {
    assert Le(round(0.0), round(x));
  }

  lemma MulGrows(round: Rounding, a: Float, b: Float, p: Float)
    requires Monotone(round) && FinitePrice(a) && FinitePrice(b) && a.r <= b.r && FinitePrice(p)
    ensures AtLeastZero(Mul(round, a, p)) && Le(Mul(round, a, p), Mul(round, b, p))
  {
    ProductGrows(a.r, b.r, p.r);
    RoundGrows(round, a.r * p.r, b.r * p.r);
  }

  lemma AddGrows(round: Rounding, a: Float, b: Float, c: Float, d: Float)
    requires Monotone(round) && AtLeastZero(a) && AtLeastZero(c) && Le(a, b) && Le(c, d)
    ensures AtLeastZero(Add(round, a, c)) && Le(Add(round, a, c), Add(round, b, d))
  {
    if a.Finite? && c.Finite? {
      assert Le(round(0.0), round(a.r + c.r));
    }
  }

  lemma FmaGrows(round: Rounding, a: Float, b: Float, p: Float, c: Float, d: Float)
    requires Monotone(round) && FinitePrice(a) && FinitePrice(b) && a.r <= b.r && FinitePrice(p)
    requires AtLeastZero(c) && Le(c, d)
    ensures AtLeastZero(Fma(round, a, p, c)) && Le(Fma(round, a, p, c), Fma(round, b, p, d))
  {
    ProductGrows(a.r, b.r, p.r);
    if c.Finite? {
      var least := a.r * p.r + c.r;
      RoundGrows(round, least, least);
      if d.Finite? {
        RoundGrows(round, least, b.r * p.r + d.r);
      }
    }
  }

  lemma AccumulateGrows(round: Rounding, fusing: Fusing, c: Float, d: Float, m: int64, n: int64, p: Float)
    requires Monotone(round) && 0 <= m <= n && FinitePrice(p) && AtLeastZero(c) && Le(c, d)
    ensures var x, y := Accumulate(round, fusing, c, m, p), Accumulate(round, fusing, d, n, p); AtLeastZero(x) && Le(x, y)
  {
    var a, b := FromInt(round, m), FromInt(round, n);
    FromIntGrows(round, m, n);
    if fusing.FuseNew? {
      FmaGrows(round, a, b, p, c, d);
    } else {
      MulGrows(round, a, b, p);
      AddGrows(round, c, d, Mul(round, a, p), Mul(round, b, p));
    }
  }

  predicate NoMoreThan(u: PriceableUsage, v: PriceableUsage) {
    && 0 <= u.nonCached <= v.nonCached && 0 <= u.output <= v.output
    && 0 <= u.cacheRead <= v.cacheRead && 0 <= u.cacheWrite <= v.cacheWrite
  }

  // For any validated price, any monotone rounding and any fusing: the
  // estimate is never NaN or negative, it grows with every count, and so the
  // check on the cost rejects positive infinity only.
  lemma EstimateGrows(round: Rounding, code: Code, u: PriceableUsage, v: PriceableUsage, p: Price)
    requires Monotone(round) && ValidatePrice(p) && NoMoreThan(u, v)
    ensures var x, y := Estimate(round, code, u, p), Estimate(round, code, v, p);
            && AtLeastZero(x) && Le(x, y)
            && (ValidCost(x) <==> x != PosInf)
  {
    var input, more := FromInt(round, u.nonCached), FromInt(round, v.nonCached);
    FromIntGrows(round, u.nonCached, v.nonCached);
    MulGrows(round, input, more, p.input);
    var a, b := Mul(round, input, p.input), Mul(round, more, p.input);
    if code.first.FuseFirst? {
      var c, d := Mul(round, FromInt(round, u.output), p.output), Mul(round, FromInt(round, v.output), p.output);
      FromIntGrows(round, u.output, v.output);
      MulGrows(round, FromInt(round, u.output), FromInt(round, v.output), p.output);
      FmaGrows(round, input, more, p.input, c, d);
      a := Fma(round, input, p.input, c);
      b := Fma(round, more, p.input, d);
    } else {
      AccumulateGrows(round, code.first, a, b, u.output, v.output, p.output);
      a := Accumulate(round, code.first, a, u.output, p.output);
      b := Accumulate(round, code.first, b, v.output, p.output);
    }
    AccumulateGrows(round, code.second, a, b, u.cacheRead, v.cacheRead, p.cacheRead);
    a := Accumulate(round, code.second, a, u.cacheRead, p.cacheRead);
    b := Accumulate(round, code.second, b, v.cacheRead, p.cacheRead);
    AccumulateGrows(round, code.third, a, b, u.cacheWrite, v.cacheWrite, p.cacheWrite);
  }

  // The rounding that loses nothing.
  const EXACT: Rounding := r => Finite(r)

  lemma AccumulateExact(fusing: Fusing, sum: real, n: int64, price: Float)
    requires FinitePrice(price)
    ensures Accumulate(EXACT, fusing, Finite(sum), n, price) == Finite(sum + n as int as real * price.r)
  {
    assert FromInt(EXACT, n) == Finite(n as int as real);
  }

  // Without rounding, each count is charged at its own price, whatever the
  // compiler fuses.
  lemma EstimateExact(code: Code, u: PriceableUsage, p: Price)
    requires FinitePrice(p.input) && FinitePrice(p.output) && FinitePrice(p.cacheRead) && FinitePrice(p.cacheWrite)
    ensures Estimate(EXACT, code, u, p) ==
            Finite(u.nonCached as int as real * p.input.r + u.output as int as real * p.output.r
                   + u.cacheRead as int as real * p.cacheRead.r + u.cacheWrite as int as real * p.cacheWrite.r)
  {
    var both := FirstSum(EXACT, code.first, u, p);
    FirstSumExact(code.first, u, p);
    AccumulateExact(code.second, both.r, u.cacheRead, p.cacheRead);
    AccumulateExact(code.third, Accumulate(EXACT, code.second, both, u.cacheRead, p.cacheRead).r, u.cacheWrite, p.cacheWrite);
  }

  lemma FirstSumExact(fusing: Fusing, u: PriceableUsage, p: Price)
    requires FinitePrice(p.input) && FinitePrice(p.output)
    ensures FirstSum(EXACT, fusing, u, p) ==
            Finite(u.nonCached as int as real * p.input.r + u.output as int as real * p.output.r)
  {
    assert FromInt(EXACT, u.nonCached) == Finite(u.nonCached as int as real);
    assert FromInt(EXACT, u.output) == Finite(u.output as int as real);
    if !fusing.FuseFirst? {
      AccumulateExact(fusing, u.nonCached as int as real * p.input.r, u.output, p.output);
    }
  }

  // ---- The cost attribute ----

  // What the pricing resolver does, if one is configured.
  datatype Resolution = NoResolver | Panics | Unknown | Known(price: Price)

  function CostAttribute(round: Rounding, code: Code, resolution: Resolution,
                         input: int64, output: int64, cacheRead: int64, cacheWrite: int64): Option<Float> {
    if !resolution.Known? then None
    else
      var usage := Normalize(input, output, cacheRead, cacheWrite);
      if usage.None? || !ValidatePrice(resolution.price) then None
      else
        var cost := Estimate(round, code, usage.value, resolution.price);
        if ValidCost(cost) && Le(ZERO, cost) && cost != ZERO then Some(cost) else None
  }

  // A cost is only ever reported as a finite positive number; and with
  // consistent counts and a validated price it is left out only if the
  // estimate is zero or overflows.
  lemma CostReported(round: Rounding, code: Code, resolution: Resolution, input: int64, output: int64, cacheRead: int64, cacheWrite: int64)
    requires Monotone(round)
    ensures var cost := CostAttribute(round, code, resolution, input, output, cacheRead, cacheWrite);
            var usage := Normalize(input, output, cacheRead, cacheWrite);
            && (cost.Some? ==> cost.value.Finite? && cost.value.r > 0.0)
            && (cost.Some? <==>
                  && resolution.Known? && ValidatePrice(resolution.price) && usage.Some?
                  && Estimate(round, code, usage.value, resolution.price) !in {ZERO, PosInf})
  {
    var usage := Normalize(input, output, cacheRead, cacheWrite);
    if resolution.Known? && ValidatePrice(resolution.price) && usage.Some? {
      EstimateGrows(round, code, usage.value, usage.value, resolution.price);
    }
  }
}
