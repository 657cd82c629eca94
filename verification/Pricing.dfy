/**
  Model prices and cost estimates (backend/src/doda/infrastructure/ai_pricing.py).  Prices are whole
  cents per million tokens and costs are exact fractions rounded half to even.
*/
module Pricing {
  import opened Wrappers

  datatype Provider = OpenAI | Gemini | Claude

  datatype ModelPricing = ModelPricing(input: nat, output: nat)

  const TOKENS_PER_PRICING_UNIT: nat := 1_000_000

  // MODEL_PRICING
  function PricingOf(provider: Provider, model: string): Option<ModelPricing> {
    match provider
    case OpenAI =>
      if model == "gpt-5-mini" then Some(ModelPricing(25, 200))
      else if model == "gpt-5-nano" then Some(ModelPricing(5, 40))
      else if model == "gpt-4.1-mini" then Some(ModelPricing(40, 160))
      else None
    case Claude => if model == "claude-sonnet-5" then Some(ModelPricing(200, 1000)) else None
    case Gemini => if model == "gemini-3.1-flash-lite" then Some(ModelPricing(25, 150)) else None
  }

  // Python's round() of n / d.
  function RoundHalfEven(n: nat, d: nat): nat
    requires d > 0
  {
    var q, r := n / d, n % d;
    if 2 * r < d || (2 * r == d && q % 2 == 0) then q else q + 1
  }

  // The result is within half a unit, and on a tie it is even: that determines it.
  lemma RoundHalfEvenIff(n: nat, d: nat, k: nat)
    requires d > 0
    ensures RoundHalfEven(n, d) == k <==>
      && 2 * n - d <= 2 * (d * k) <= 2 * n + d
      && (2 * n - d == 2 * (d * k) || 2 * (d * k) == 2 * n + d ==> k % 2 == 0)
  {
    var q, r := n / d, n % d;
    assert n == d * q + r;
    Multiples(d, q, k);
  }

  // Where the multiple d * k lies, seen from d * q.
  lemma Multiples(d: nat, q: nat, k: nat)
    ensures k < q ==> d * k <= d * q - d
    ensures k == q + 1 ==> d * k == d * q + d
    ensures k > q + 1 ==> d * k >= d * q + 2 * d
  {
    if k < q { MulMonotone(d, k, q - 1); }
    if k > q + 1 { MulMonotone(d, q + 2, k); }
  }

  lemma MulMonotone(d: nat, a: int, b: int)
    requires a <= b
    ensures d * a <= d * b
  {
  }

  function CostCents(p: ModelPricing, inputTokens: nat, outputTokens: nat): nat {
    RoundHalfEven(inputTokens * p.input + outputTokens * p.output, TOKENS_PER_PRICING_UNIT)
  }

  // Cents are nearest to n millionths of a cent, and even on a tie.
  predicate IsNearestCents(n: int, cents: nat) {
    && 2 * n - 1_000_000 <= 2_000_000 * cents <= 2 * n + 1_000_000
    && (2_000_000 * cents == 2 * n - 1_000_000 || 2_000_000 * cents == 2 * n + 1_000_000 ==> cents % 2 == 0)
  }

  lemma CostCentsIff(p: ModelPricing, inputTokens: nat, outputTokens: nat, cents: nat)
    ensures CostCents(p, inputTokens, outputTokens) == cents <==>
        IsNearestCents(inputTokens * p.input + outputTokens * p.output, cents)
  {
    RoundHalfEvenIff(inputTokens * p.input + outputTokens * p.output, TOKENS_PER_PRICING_UNIT, cents);
  }

  // estimate_cost_cents; None is UnknownModelPricingError.
  function EstimateCostCents(provider: Provider, model: string, inputTokens: nat, outputTokens: nat): Option<nat> {
    match PricingOf(provider, model)
    case None => None
    case Some(p) => Some(CostCents(p, inputTokens, outputTokens))
  }

  // The list prices: what a million input and a million output tokens cost.
  lemma PricePerMillion()
    ensures EstimateCostCents(OpenAI, "gpt-5-mini", 1_000_000, 0) == Some(25)
    ensures EstimateCostCents(OpenAI, "gpt-5-mini", 0, 1_000_000) == Some(200)
    ensures EstimateCostCents(OpenAI, "gpt-5-nano", 1_000_000, 0) == Some(5)
    ensures EstimateCostCents(OpenAI, "gpt-5-nano", 0, 1_000_000) == Some(40)
    ensures EstimateCostCents(OpenAI, "gpt-4.1-mini", 1_000_000, 0) == Some(40)
    ensures EstimateCostCents(OpenAI, "gpt-4.1-mini", 0, 1_000_000) == Some(160)
    ensures EstimateCostCents(Claude, "claude-sonnet-5", 1_000_000, 0) == Some(200)
    ensures EstimateCostCents(Claude, "claude-sonnet-5", 0, 1_000_000) == Some(1000)
    ensures EstimateCostCents(Gemini, "gemini-3.1-flash-lite", 1_000_000, 0) == Some(25)
    ensures EstimateCostCents(Gemini, "gemini-3.1-flash-lite", 0, 1_000_000) == Some(150)
  {
    assert "gpt-5-mini"[6] == 'm' && "gpt-5-nano"[6] == 'n' && "gpt-4.1-mini"[4] == '4' && "gpt-5-mini"[4] == '5' == "gpt-5-nano"[4];
  }

  function EstimateInputTokensFromChars(chars: nat): nat {
    var ceiling := (chars + 2) / 3;
    if ceiling < 1 then 1 else ceiling
  }

  // The least positive number of three-character tokens that cover the text.
  lemma InputTokensIff(chars: nat, t: nat)
    ensures EstimateInputTokensFromChars(chars) == t <==>
        t >= 1 && 3 * t >= chars && (t == 1 || 3 * (t - 1) < chars)
  {
  }

  // ---------- Rounding slack over several rounds ----------

  lemma RoundingSlack(n: nat, one: nat, rounds: nat)
    requires n <= rounds * one
    ensures 2 * RoundHalfEven(n, TOKENS_PER_PRICING_UNIT)
        <= 2 * (rounds * RoundHalfEven(one, TOKENS_PER_PRICING_UNIT)) + rounds + 1
  {
    var d := TOKENS_PER_PRICING_UNIT;
    var a, b := RoundHalfEven(n, d), RoundHalfEven(one, d);
    RoundHalfEvenIff(n, d, a);
    RoundHalfEvenIff(one, d, b);
    assert 2 * one <= 2 * (d * b) + d;
    calc {
      2 * (d * a);
    <=
      2 * n + d;
    <=
      rounds * (2 * one) + d;
    <=  { MulMonotone(rounds, 2 * one, 2 * (d * b) + d); }
      rounds * (2 * (d * b) + d) + d;
    ==
      d * (2 * (rounds * b) + rounds + 1);
    }
  }

  // A turn that uses no more tokens than it was estimated for, over all its rounds, costs at most
  // (rounds + 1) / 2 cents more than the estimate.
  lemma TurnOvershoot(p: ModelPricing, inputEstimate: nat, outputEstimate: nat, rounds: nat, input: nat, output: nat)
    requires input <= rounds * inputEstimate && output <= rounds * outputEstimate
    ensures 2 * CostCents(p, input, output) <= 2 * (rounds * CostCents(p, inputEstimate, outputEstimate)) + rounds + 1
  {
    var one := inputEstimate * p.input + outputEstimate * p.output;
    WithinRounds(p, inputEstimate, outputEstimate, rounds, input, output);
    RoundingSlack(input * p.input + output * p.output, one, rounds);
  }

  // ---------- The same in floating point ----------

  // Python's round() of a float.
  function RoundReal(x: real): int {
    var q := x.Floor;
    var r := x - q as real;
    if 2.0 * r < 1.0 || (2.0 * r == 1.0 && q % 2 == 0) then q else q + 1
  }

  lemma RoundRealNearest(x: real)
    ensures x - 0.5 <= RoundReal(x) as real <= x + 0.5
  {
  }

  // On an exact quotient the two agree.
  lemma RoundRealExact(n: nat, d: nat)
    requires d > 0
    ensures RoundReal(n as real / d as real) == RoundHalfEven(n, d)
  {
    var q, r := n / d, n % d;
    var x, part := n as real / d as real, r as real / d as real;
    assert n == q * d + r;
    assert n as real == q as real * d as real + r as real;
    assert x == q as real + part;
    Quotient(r as real, d as real);
    FractionBelow(r, d, part);
    assert x.Floor == q;
  }

  lemma Quotient(a: real, d: real)
    requires d > 0.0
    ensures a / d * d == a
  {
  }

  lemma Scaled(x: real, y: real, d: real)
    requires d > 0.0
    ensures x < y <==> x * d < y * d
  {
    if x < y {
      assert (y - x) * d > 0.0;
    } else {
      assert (x - y) * d >= 0.0;
    }
  }

  lemma DoubleTimes(y: real, e: real)
    ensures 2.0 * y * e == 2.0 * (y * e)
  {
  }

  lemma FractionBelow(r: nat, d: nat, y: real)
    requires r < d && y * d as real == r as real
    ensures 0.0 <= y < 1.0
    ensures 2.0 * y < 1.0 <==> 2 * r < d
    ensures 2.0 * y == 1.0 <==> 2 * r == d
  {
    DoubleTimes(y, d as real);
    Compare(y, 0.0, d, r, 0);
    Compare(y, 1.0, d, r, d);
    Compare(2.0 * y, 1.0, d, 2 * r, d);
  }

  lemma Compare(x: real, y: real, d: nat, xd: int, yd: int)
    requires d > 0 && x * d as real == xd as real && y * d as real == yd as real
    ensures (x < y <==> xd < yd) && (x == y <==> xd == yd)
  {
    Scaled(x, y, d as real);
    Scaled(y, x, d as real);
  }

  // The hypothesis on floating point: the cents the code rounds are within `off` millionths of a cent of
  // the exact quotient.
  predicate NearExact(cents: real, p: ModelPricing, inputTokens: nat, outputTokens: nat, off: nat) {
    var exact := inputTokens * p.input + outputTokens * p.output;
    (exact - off) as real <= 1_000_000.0 * cents <= (exact + off) as real
  }

  lemma RoundedAbove(cents: real, exact: int, off: nat)
    requires 1_000_000.0 * cents <= (exact + off) as real
    ensures 2_000_000 * RoundReal(cents) <= 2 * (exact + off) + 1_000_000
  {
    RoundRealNearest(cents);
    var k := RoundReal(cents);
    assert (2_000_000 * k) as real <= 2_000_000.0 * cents + 1_000_000.0;
    assert (2_000_000 * k) as real <= (2 * (exact + off) + 1_000_000) as real;
  }

  lemma RoundedBelow(cents: real, exact: int, off: nat)
    requires 1_000_000.0 * cents >= (exact - off) as real
    ensures 2_000_000 * RoundReal(cents) >= 2 * (exact - off) - 1_000_000
  {
    RoundRealNearest(cents);
    var k := RoundReal(cents);
    assert (2_000_000 * k) as real >= 2_000_000.0 * cents - 1_000_000.0;
    assert (2_000_000 * k) as real >= (2 * (exact - off) - 1_000_000) as real;
  }

  // And the rounded cents are the exact ones, unless the exact quotient is that close to a tie.
  lemma FloatAgrees(cents: real, p: ModelPricing, inputTokens: nat, outputTokens: nat, off: nat)
    requires NearExact(cents, p, inputTokens, outputTokens, off)
    requires var rest := (inputTokens * p.input + outputTokens * p.output) % TOKENS_PER_PRICING_UNIT;
      rest + off < 500_000 || 500_000 < rest - off
    ensures RoundReal(cents) == CostCents(p, inputTokens, outputTokens)
  {
    var exact := inputTokens * p.input + outputTokens * p.output;
    RoundedAbove(cents, exact, off);
    RoundedBelow(cents, exact, off);
  }

  lemma OffBound(rounds: nat, n: int, one: int, a: int, b: int, off: nat)
    requires n <= rounds * one
    requires 2_000_000 * a <= 2 * (n + off) + 1_000_000 && 2_000_000 * b >= 2 * (one - off) - 1_000_000
    requires 2 * off * (rounds + 1) < 1_000_000
    ensures 2 * a <= 2 * (rounds * b) + rounds + 1
  {
    MulMonotone(rounds, 2 * one, 2_000_000 * b + 2 * off + 1_000_000);
    assert rounds * (2_000_000 * b + 2 * off + 1_000_000) == 2_000_000 * (rounds * b) + 2 * (rounds * off) + 1_000_000 * rounds;
    assert 2 * off * (rounds + 1) == 2 * (rounds * off) + 2 * off;
    assert rounds * (2 * one) == 2 * (rounds * one);
  }

  // The bound on a turn is the very same for the float costs, as long as they are within
  // 1 / (2 * (rounds + 1)) of a cent of the exact ones.
  lemma FloatTurnOvershoot(p: ModelPricing, inputEstimate: nat, outputEstimate: nat, rounds: nat, input: nat, output: nat,
                           cost: real, one: real, off: nat)
    requires input <= rounds * inputEstimate && output <= rounds * outputEstimate
    requires 2 * off * (rounds + 1) < 1_000_000
    requires NearExact(cost, p, input, output, off) && NearExact(one, p, inputEstimate, outputEstimate, off)
    ensures 2 * RoundReal(cost) <= 2 * (rounds * RoundReal(one)) + rounds + 1
  {
    var exactOne, exact := inputEstimate * p.input + outputEstimate * p.output, input * p.input + output * p.output;
    WithinRounds(p, inputEstimate, outputEstimate, rounds, input, output);
    RoundedAbove(cost, exact, off);
    RoundedBelow(one, exactOne, off);
    OffBound(rounds, exact, exactOne, RoundReal(cost), RoundReal(one), off);
  }

  lemma WithinRounds(p: ModelPricing, inputEstimate: nat, outputEstimate: nat, rounds: nat, input: nat, output: nat)
    requires input <= rounds * inputEstimate && output <= rounds * outputEstimate
    ensures input * p.input + output * p.output <= rounds * (inputEstimate * p.input + outputEstimate * p.output)
  {
    MulMonotone(p.input, input, rounds * inputEstimate);
    MulMonotone(p.output, output, rounds * outputEstimate);
    assert p.input * (rounds * inputEstimate) == rounds * (inputEstimate * p.input);
    assert p.output * (rounds * outputEstimate) == rounds * (outputEstimate * p.output);
  }

  // ---------- The float computation itself ----------

  // Half the distance from 1 to the next double: what rounding to nearest is off by, relatively.
  const UNIT_ROUNDOFF: real := 1.0 / 9_007_199_254_740_992.0

  // y is what IEEE 754 gives for x, rounding to nearest without overflow or underflow.
  predicate Rounded(x: real, y: real) { x * (1.0 - UNIT_ROUNDOFF) <= y <= x * (1.0 + UNIT_ROUNDOFF) }

  predicate RoundsAt(fl: real -> real, x: real) { Rounded(x, fl(x)) }

  // What the machine does to the exact result of an operation.
  ghost predicate IsRounding(fl: real -> real) { forall x :: x >= 0.0 ==> RoundsAt(fl, x) }

  // estimate_cost_cents, operation by operation: tokens in millions, the price in dollars, their product;
  // the sum for both kinds of token, in cents.
  function FloatDollars(fl: real -> real, tokens: nat, price: nat): real {
    FloatProduct(fl, fl(tokens as real / 1_000_000.0), fl(price as real / 100.0))
  }

  function FloatProduct(fl: real -> real, x: real, y: real): real { fl(x * y) }

  function FloatCents(fl: real -> real, p: ModelPricing, inputTokens: nat, outputTokens: nat): real {
    fl(fl(FloatDollars(fl, inputTokens, p.input) + FloatDollars(fl, outputTokens, p.output)) * 100.0)
  }

  // y is within a relative error of x.
  predicate Near(x: real, y: real, error: real) { x * (1.0 - error) <= y <= x * (1.0 + error) }

  const ERROR_3: real := 3.1 / 9_007_199_254_740_992.0
  const ERROR_5: real := 5.4 / 9_007_199_254_740_992.0

  lemma Products(a: real, b: real, c: real, d: real)
    requires 0.0 <= a <= c && 0.0 <= b <= d
    ensures a * b <= c * d
  {
    assert a * b <= a * d by { RealMulMonotone(a, b, d); }
    assert d * a <= d * c by { RealMulMonotone(d, a, c); }
  }

  lemma RealMulMonotone(d: real, a: real, b: real)
    requires d >= 0.0 && a <= b
    ensures d * a <= d * b
  {
  }

  lemma Regroup(a: real, b: real, k: real)
    ensures (a * k) * (b * k) == (a * b) * (k * k)
  {
  }

  // One of the two products, three roundings away from the exact one.
  lemma ProductNear(units: real, price: real, u: real, q: real, dollars: real)
    requires units >= 0.0 && price >= 0.0 && Rounded(units, u) && Rounded(price, q) && Rounded(u * q, dollars)
    ensures Near(units * price, dollars, ERROR_3)
  {
    var low, high := 1.0 - UNIT_ROUNDOFF, 1.0 + UNIT_ROUNDOFF;
    var exact := units * price;
    Products(units * low, price * low, u, q);
    Products(u, q, units * high, price * high);
    Regroup(units, price, low);
    Regroup(units, price, high);
    ThreeRoundings(exact, u * q, dollars);
  }

  lemma ThreeRoundings(exact: real, product: real, dollars: real)
    requires exact >= 0.0 && Rounded(product, dollars)
    requires exact * ((1.0 - UNIT_ROUNDOFF) * (1.0 - UNIT_ROUNDOFF)) <= product <= exact * ((1.0 + UNIT_ROUNDOFF) * (1.0 + UNIT_ROUNDOFF))
    ensures Near(exact, dollars, ERROR_3)
  {
  }

  lemma TwoMoreRoundings(exact: real, sum: real, dollars: real, cents: real)
    requires exact >= 0.0 && Near(exact, sum, ERROR_3) && Rounded(sum, dollars) && Rounded(dollars * 100.0, cents)
    ensures Near(100.0 * exact, cents, ERROR_5)
  {
  }

  lemma ProductRounds(fl: real -> real, x: real, y: real)
    requires IsRounding(fl) && x >= 0.0 && y >= 0.0
    ensures Rounded(x * y, FloatProduct(fl, x, y)) && FloatProduct(fl, x, y) >= 0.0
  {
    Products(0.0, 0.0, x, y);
    var exact := x * y;
    assert RoundsAt(fl, exact);
  }

  // Dollars for one kind of token: n hundred-millionths of a dollar are exact.
  lemma DollarsNear(fl: real -> real, tokens: nat, price: nat)
    requires IsRounding(fl)
    ensures Near((tokens * price) as real / 100_000_000.0, FloatDollars(fl, tokens, price), ERROR_3)
    ensures FloatDollars(fl, tokens, price) >= 0.0
  {
    var units, dollars := tokens as real / 1_000_000.0, price as real / 100.0;
    assert RoundsAt(fl, units) && RoundsAt(fl, dollars);
    ProductRounds(fl, fl(units), fl(dollars));
    ProductNear(units, dollars, fl(units), fl(dollars), FloatDollars(fl, tokens, price));
    ExactDollars(tokens, price);
  }

  lemma ExactDollars(tokens: nat, price: nat)
    ensures 100_000_000.0 * ((tokens as real / 1_000_000.0) * (price as real / 100.0)) == (tokens * price) as real
  {
  }

  lemma SumNear(m: nat, n: nat, x: real, y: real, dollars: real, cents: real)
    requires Near(m as real / 100_000_000.0, x, ERROR_3) && Near(n as real / 100_000_000.0, y, ERROR_3)
    requires Rounded(x + y, dollars) && Rounded(dollars * 100.0, cents) && m + n <= 1_000_000_000_000_000
    ensures (m + n - 1) as real <= 1_000_000.0 * cents <= (m + n + 1) as real
  {
    var exact := (m + n) as real / 100_000_000.0;
    assert exact == m as real / 100_000_000.0 + n as real / 100_000_000.0;
    TwoMoreRoundings(exact, x + y, dollars, cents);
    WithinOne(m + n, exact, cents);
  }

  lemma WithinOne(n: nat, exact: real, cents: real)
    requires 100_000_000.0 * exact == n as real && n <= 1_000_000_000_000_000 && Near(100.0 * exact, cents, ERROR_5)
    ensures (n - 1) as real <= 1_000_000.0 * cents <= (n + 1) as real
  {
  }

  // Five roundings: the cents are within 5.4 units of roundoff of the exact ones, and so within a millionth
  // of a cent up to ten million dollars.
  lemma FloatCentsNearExact(fl: real -> real, p: ModelPricing, inputTokens: nat, outputTokens: nat)
    requires IsRounding(fl) && inputTokens * p.input + outputTokens * p.output <= 1_000_000_000_000_000
    ensures NearExact(FloatCents(fl, p, inputTokens, outputTokens), p, inputTokens, outputTokens, 1)
  {
    var x, y := FloatDollars(fl, inputTokens, p.input), FloatDollars(fl, outputTokens, p.output);
    DollarsNear(fl, inputTokens, p.input);
    DollarsNear(fl, outputTokens, p.output);
    assert RoundsAt(fl, x + y) && RoundsAt(fl, fl(x + y) * 100.0);
    SumNear(inputTokens * p.input, outputTokens * p.output, x, y, fl(x + y), FloatCents(fl, p, inputTokens, outputTokens));
  }

  // So the float code keeps the bound of exact arithmetic, for every number of rounds it could be set to
  // in practice.
  lemma FloatCentsOvershoot(fl: real -> real, p: ModelPricing, inputEstimate: nat, outputEstimate: nat, rounds: nat,
                            input: nat, output: nat)
    requires IsRounding(fl)
    requires input <= rounds * inputEstimate && output <= rounds * outputEstimate && rounds < 499_999
    requires inputEstimate * p.input + outputEstimate * p.output <= 1_000_000_000_000_000
    requires input * p.input + output * p.output <= 1_000_000_000_000_000
    ensures 2 * RoundReal(FloatCents(fl, p, input, output))
        <= 2 * (rounds * RoundReal(FloatCents(fl, p, inputEstimate, outputEstimate))) + rounds + 1
  {
    FloatCentsNearExact(fl, p, input, output);
    FloatCentsNearExact(fl, p, inputEstimate, outputEstimate);
    FloatTurnOvershoot(p, inputEstimate, outputEstimate, rounds, input, output,
                       FloatCents(fl, p, input, output), FloatCents(fl, p, inputEstimate, outputEstimate), 1);
  }
}
