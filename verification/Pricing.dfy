/** The cost of a model call in paise: three floor divisions, and what they add up to. */
module Pricing {

  const INPUT_PRICE: map<string, nat> := map[
    "claude-sonnet-4-6" := 25_500,
    "claude-haiku-4-5-20251001" := 6_800,
    "claude-opus-4-7" := 127_500,
    "gpt-4o" := 21_250,
    "gpt-4o-mini" := 1_275,
    "text-embedding-3-small" := 17,
    "sarvam-v1" := 17_000]

  const OUTPUT_PRICE: map<string, nat> := map[
    "claude-sonnet-4-6" := 127_500,
    "claude-haiku-4-5-20251001" := 34_000,
    "claude-opus-4-7" := 637_500,
    "gpt-4o" := 85_000,
    "gpt-4o-mini" := 5_100,
    "text-embedding-3-small" := 0,
    "sarvam-v1" := 68_000]

  const CACHED_INPUT_DISCOUNT_PCT := 90
  const MILLION := 1_000_000

  function Rate(prices: map<string, nat>, model: string): nat {
    if model in prices then prices[model] else 0
  }

  /** Input tokens that were not read from the cache. */
  function Fresh(input: nat, cached: nat): nat {
    if input >= cached then input - cached else 0
  }

  function CostAtRates(inRate: nat, outRate: nat, input: nat, output: nat, cached: nat): nat {
    (cached * inRate * (100 - CACHED_INPUT_DISCOUNT_PCT)) / (100 * MILLION)
    + (Fresh(input, cached) * inRate) / MILLION
    + (output * outRate) / MILLION
  }

  function CostPaise(model: string, input: nat, output: nat, cached: nat): nat {
    CostAtRates(Rate(INPUT_PRICE, model), Rate(OUTPUT_PRICE, model), input, output, cached)
  }

  /** The exact price in units of one ten-millionth of a paisa. */
  function Exact(inRate: nat, outRate: nat, input: nat, output: nat, cached: nat): nat {
    cached * inRate + 10 * (Fresh(input, cached) * inRate) + 10 * (output * outRate)
  }

  const UNIT := 10_000_000

  // ----- one call -----

  lemma CachedPart(cached: nat, rate: nat)
    ensures (cached * rate * (100 - CACHED_INPUT_DISCOUNT_PCT)) / (100 * MILLION) == (cached * rate) / UNIT
  {
    var p := cached * rate;
    assert p * 10 / (100 * MILLION) == p / UNIT;
  }

  /** The three floors on the prices of the cached, fresh and output tokens. */
  function Floors(c: nat, f: nat, o: nat): nat {
    c / UNIT + f / MILLION + o / MILLION
  }

  lemma CostParts(inRate: nat, outRate: nat, input: nat, output: nat, cached: nat)
    ensures CostAtRates(inRate, outRate, input, output, cached)
      == Floors(cached * inRate, Fresh(input, cached) * inRate, output * outRate)
  {
    CachedPart(cached, inRate);
  }

  lemma Distribute(a: int, b: int, r: int)
    ensures (a + b) * r == a * r + b * r && (a - b) * r == a * r - b * r
  {
  }

  lemma MulMonotone(a: nat, b: nat, r: nat)
    requires a <= b
    ensures a * r <= b * r
  {
  }

  /** The cost is below the exact price by less than three paise, and never above it. */
  lemma WithinThree(inRate: nat, outRate: nat, input: nat, output: nat, cached: nat)
    ensures var cost := CostAtRates(inRate, outRate, input, output, cached);
      var exact := Exact(inRate, outRate, input, output, cached);
      cost * UNIT <= exact < (cost + 3) * UNIT
  {
    CachedPart(cached, inRate);
    var c, f, o := cached * inRate, Fresh(input, cached) * inRate, output * outRate;
    assert c == UNIT * (c / UNIT) + c % UNIT;
    assert f == MILLION * (f / MILLION) + f % MILLION;
    assert o == MILLION * (o / MILLION) + o % MILLION;
  }

  lemma FloorMonotone(a: nat, b: nat)
    requires a <= b
    ensures a / MILLION <= b / MILLION
  {
  }

  /** More tokens in or out never cost less. */
  lemma Monotone(inRate: nat, outRate: nat, input: nat, input': nat, output: nat, output': nat, cached: nat)
    requires input <= input' && output <= output'
    ensures CostAtRates(inRate, outRate, input, output, cached) <= CostAtRates(inRate, outRate, input', output', cached)
  {
    MulMonotone(Fresh(input, cached), Fresh(input', cached), inRate);
    MulMonotone(output, output', outRate);
    FloorMonotone(Fresh(input, cached) * inRate, Fresh(input', cached) * inRate);
    FloorMonotone(output * outRate, output' * outRate);
  }

  // ----- reading fresh input from the cache instead -----

  /** Moving a price of `p` from the fresh to the cached part, with the parts at `c` and `f`. */
  lemma MoveFloors(c: nat, f: nat, p: nat)
    requires p <= f
    ensures var before, after := c / UNIT + f / MILLION, (c + p) / UNIT + (f - p) / MILLION;
      && after <= before + 1
      && (after > before <==> p < MILLION && c % UNIT + p >= UNIT && f % MILLION >= p)
  {
    var qc, rc := c / UNIT, c % UNIT;
    var qf, rf := f / MILLION, f % MILLION;
    var qp, rp := p / MILLION, p % MILLION;
    assert c == UNIT * qc + rc && f == MILLION * qf + rf && p == MILLION * qp + rp;
    var up, down := (c + p) / UNIT - qc, qf - (f - p) / MILLION;
    QuotientOfUnit(c + p, qc + (rc + p) / UNIT, (rc + p) % UNIT);
    assert up == (rc + p) / UNIT;
    if rf >= rp {
      QuotientOfMillion(f - p, qf - qp, rf - rp);
      assert down == qp;
    } else {
      QuotientOfMillion(f - p, qf - qp - 1, rf - rp + MILLION);
      assert down == qp + 1;
    }
    if p >= MILLION {
      assert (rc + p) / UNIT <= qp;
    }
  }

  lemma QuotientOfUnit(n: int, q: int, r: int)
    requires n == UNIT * q + r && 0 <= r < UNIT
    ensures n / UNIT == q
  {
  }

  lemma QuotientOfMillion(n: int, q: int, r: int)
    requires n == MILLION * q + r && 0 <= r < MILLION
    ensures n / MILLION == q
  {
  }

  /** The same with all three parts. */
  lemma MoveCost(c: nat, f: nat, o: nat, p: nat)
    requires p <= f
    ensures Floors(c + p, f - p, o) <= Floors(c, f, o) + 1
    ensures Floors(c + p, f - p, o) > Floors(c, f, o) <==> p < MILLION && c % UNIT + p >= UNIT && f % MILLION >= p
  {
    MoveFloors(c, f, p);
  }

  /** The prices of the parts when `x` tokens move to the cached one. */
  lemma MovedProducts(rate: nat, input: nat, cached: nat, x: nat)
    requires cached + x <= input
    ensures Fresh(input, cached) * rate == (input - cached) * rate
    ensures Fresh(input, cached + x) * rate == (input - cached) * rate - x * rate
    ensures (cached + x) * rate == cached * rate + x * rate
    ensures 0 <= x * rate <= (input - cached) * rate
  {
    Distribute(cached, x, rate);
    Distribute(input - cached, x, rate);
    MulMonotone(x, input - cached, rate);
    assert Fresh(input, cached + x) == (input - cached) - x;
  }

  /** Reading `x` more input tokens from the cache raises the cost exactly when their price is
      below one paisa, completes a paisa of the cached part and saves none of the fresh part;
      then by one paisa. */
  lemma CachingExact(inRate: nat, outRate: nat, input: nat, output: nat, cached: nat, x: nat)
    requires cached + x <= input
    ensures var before, after := CostAtRates(inRate, outRate, input, output, cached),
                                 CostAtRates(inRate, outRate, input, output, cached + x);
      && after <= before + 1
      && (after > before <==>
          && x * inRate < MILLION
          && (cached * inRate) % UNIT + x * inRate >= UNIT
          && ((input - cached) * inRate) % MILLION >= x * inRate)
  {
    hide CostAtRates, Floors, Fresh;
    CostParts(inRate, outRate, input, output, cached);
    CostParts(inRate, outRate, input, output, cached + x);
    MovedProducts(inRate, input, cached, x);
    MoveCost(cached * inRate, (input - cached) * inRate, output * outRate, x * inRate);
  }

  /** One more cached token of a 394-token prompt costs a paisa more. */
  lemma CachingCanCostMore()
    ensures CostPaise("claude-sonnet-4-6", 394, 0, 392) == 0
    ensures CostPaise("claude-sonnet-4-6", 394, 0, 393) == 1
  {
    assert Rate(INPUT_PRICE, "claude-sonnet-4-6") == 25_500;
  }

  // ----- many calls -----

  datatype Usage = Usage(input: nat, output: nat, cached: nat)

  function SumCost(inRate: nat, outRate: nat, us: seq<Usage>): nat {
    if us == [] then 0
    else CostAtRates(inRate, outRate, us[0].input, us[0].output, us[0].cached) + SumCost(inRate, outRate, us[1..])
  }

  function Total(us: seq<Usage>): Usage {
    if us == [] then Usage(0, 0, 0)
    else
      var t := Total(us[1..]);
      Usage(us[0].input + t.input, us[0].output + t.output, us[0].cached + t.cached)
  }

  function ExactOf(inRate: nat, outRate: nat, u: Usage): nat {
    Exact(inRate, outRate, u.input, u.output, u.cached)
  }

  predicate CacheWithinInput(us: seq<Usage>) {
    forall i :: 0 <= i < |us| ==> us[i].cached <= us[i].input
  }

  lemma TotalCache(us: seq<Usage>)
    requires CacheWithinInput(us)
    ensures Total(us).cached <= Total(us).input
  {
  }

  lemma FloorsAdd(a: nat, b: nat)
    ensures a / MILLION + b / MILLION <= (a + b) / MILLION
    ensures a / UNIT + b / UNIT <= (a + b) / UNIT
  {
  }

  lemma FloorsJoin(c: nat, f: nat, o: nat, c': nat, f': nat, o': nat)
    ensures Floors(c, f, o) + Floors(c', f', o') <= Floors(c + c', f + f', o + o')
  {
    FloorsAdd(c, c');
    FloorsAdd(f, f');
    FloorsAdd(o, o');
  }

  lemma CostsAdd(inRate: nat, outRate: nat, u: Usage, v: Usage)
    requires u.cached <= u.input && v.cached <= v.input
    ensures CostAtRates(inRate, outRate, u.input, u.output, u.cached)
      + CostAtRates(inRate, outRate, v.input, v.output, v.cached)
      <= CostAtRates(inRate, outRate, u.input + v.input, u.output + v.output, u.cached + v.cached)
    ensures ExactOf(inRate, outRate, u) + ExactOf(inRate, outRate, v)
      == Exact(inRate, outRate, u.input + v.input, u.output + v.output, u.cached + v.cached)
  {
    hide CostAtRates, Floors;
    CostParts(inRate, outRate, u.input, u.output, u.cached);
    CostParts(inRate, outRate, v.input, v.output, v.cached);
    CostParts(inRate, outRate, u.input + v.input, u.output + v.output, u.cached + v.cached);
    var fu, fv := Fresh(u.input, u.cached), Fresh(v.input, v.cached);
    assert Fresh(u.input + v.input, u.cached + v.cached) == fu + fv;
    Distribute(u.cached, v.cached, inRate);
    Distribute(fu, fv, inRate);
    Distribute(u.output, v.output, outRate);
    FloorsJoin(u.cached * inRate, fu * inRate, u.output * outRate, v.cached * inRate, fv * inRate, v.output * outRate);
  }

  /** The costs of n calls sum to at most the cost of their total, and to less than 3n paise
      below its exact price. */
  lemma {:induction false} SplitCalls(inRate: nat, outRate: nat, us: seq<Usage>)
    requires CacheWithinInput(us)
    ensures var t := Total(us);
      && SumCost(inRate, outRate, us) <= CostAtRates(inRate, outRate, t.input, t.output, t.cached)
      && ExactOf(inRate, outRate, t) <= (SumCost(inRate, outRate, us) + 3 * |us|) * UNIT
      && (us != [] ==> ExactOf(inRate, outRate, t) < (SumCost(inRate, outRate, us) + 3 * |us|) * UNIT)
  {
    hide CostAtRates, Exact;
    if us == [] {
      NothingUsed(inRate, outRate);
    } else {
      var rest := us[1..];
      assert CacheWithinInput(rest);
      SplitCalls(inRate, outRate, rest);
      TotalCache(rest);
      CostsAdd(inRate, outRate, us[0], Total(rest));
      WithinThree(inRate, outRate, us[0].input, us[0].output, us[0].cached);
    }
  }

  lemma NothingUsed(inRate: nat, outRate: nat)
    ensures Exact(inRate, outRate, 0, 0, 0) == 0
  {
  }
}
