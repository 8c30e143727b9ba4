// What a run is charged in credits against what it costs in dollars, in exact
// arithmetic.
module Pricing {
  import opened Prelude

  const CREDITS_PER_DOLLAR := 400.0
  const CREDIT_MARGIN := 1.0
  const CACHE_WRITE_MULTIPLIER := 2.0
  const CACHE_READ_MULTIPLIER := 0.1
  const UNKNOWN_MODEL_RATES := Rates(2.0, 10.0)

  type Price = p: real | p >= 0.0 witness 0.0

  // Dollars per million tokens; what we pay may differ from the list price.
  datatype Model = Model(inputPrice: Price, outputPrice: Price, costInput: Option<Price>, costOutput: Option<Price>)

  // Credits per thousand tokens.
  datatype Rates = Rates(input: Price, output: Price)

  datatype Tokens = Tokens(input: nat, output: nat)

  function CreditRates(m: Model): Rates {
    Rates(m.inputPrice / 1000.0 * CREDITS_PER_DOLLAR * CREDIT_MARGIN,
          m.outputPrice / 1000.0 * CREDITS_PER_DOLLAR * CREDIT_MARGIN)
  }

  function RatesFor(m: Option<Model>): Rates {
    if m.Some? then CreditRates(m.value) else UNKNOWN_MODEL_RATES
  }

  function Ceil(x: real): int {
    -((-x).Floor)
  }

  // The charge before rounding, in credits.
  function Unrounded(r: Rates, t: Tokens): real {
    t.input as real / 1000.0 * r.input + t.output as real / 1000.0 * r.output
  }

  function CreditsFor(m: Option<Model>, t: Tokens): int {
    Max(1, Ceil(Unrounded(RatesFor(m), t)))
  }

  // The cached slices of the prompt, as the provider reports them.
  datatype Cache = Cache(written: Option<int>, read: Option<int>)

  function Slice(reported: Option<int>): nat {
    Max(0, reported.GetOr(0))
  }

  function ListCost(m: Model, t: Tokens, c: Cache): real {
    var inputPrice, outputPrice := InputCost(m), OutputCost(m);
    var uncached: nat := Max(0, t.input - Slice(c.written) - Slice(c.read));
    uncached as real / 1000000.0 * inputPrice
    + Slice(c.written) as real / 1000000.0 * inputPrice * CACHE_WRITE_MULTIPLIER
    + Slice(c.read) as real / 1000000.0 * inputPrice * CACHE_READ_MULTIPLIER
    + t.output as real / 1000000.0 * outputPrice
  }

  function CostFor(m: Option<Model>, t: Tokens, c: Cache, reported: Option<real>): real {
    if reported.Some? then reported.value
    else if m.Some? then ListCost(m.value, t, c)
    else 0.0
  }

  // ---- cost against charge ----------------------------------------------------------

  predicate AtListPrice(m: Model) {
    m.costInput.None? && m.costOutput.None?
  }

  predicate WithinPrompt(t: Tokens, c: Cache) {
    Slice(c.written) + Slice(c.read) <= t.input
  }

  // The charge in dollars, before rounding up to a credit.
  function ChargeUsd(m: Model, t: Tokens): real {
    Unrounded(CreditRates(m), t) / CREDITS_PER_DOLLAR
  }

  lemma ChargeIsListPrice(m: Model, t: Tokens)
    ensures ChargeUsd(m, t) == (t.input as real * m.inputPrice + t.output as real * m.outputPrice) / 1000000.0
  {
    var i, o := t.input as real, t.output as real;
    assert i / 1000.0 * (m.inputPrice / 1000.0 * 400.0 * 1.0) / 400.0 == i * m.inputPrice / 1000000.0;
    assert o / 1000.0 * (m.outputPrice / 1000.0 * 400.0 * 1.0) / 400.0 == o * m.outputPrice / 1000000.0;
  }

  // The margin of a cached run: a write costs one price more than it is charged,
  // a read nine tenths less.
  lemma CostMinusCharge(m: Model, t: Tokens, c: Cache)
    requires AtListPrice(m) && WithinPrompt(t, c)
    ensures ListCost(m, t, c) - ChargeUsd(m, t)
         == m.inputPrice * (Slice(c.written) as real - 0.9 * Slice(c.read) as real) / 1000000.0
  {
    ChargeIsListPrice(m, t);
    var p, i, w, r := m.inputPrice, t.input as real, Slice(c.written) as real, Slice(c.read) as real;
    var uncached := t.input - Slice(c.written) - Slice(c.read);
    assert uncached as real == i - w - r;
    Regrouped(p, i, w, r);
  }

  lemma Regrouped(p: real, i: real, w: real, r: real)
    ensures (i - w - r) / 1000000.0 * p + w / 1000000.0 * p * 2.0 + r / 1000000.0 * p * 0.1
         == i * p / 1000000.0 + p * (w - 0.9 * r) / 1000000.0
  {
    assert (i - w - r) / 1000000.0 * p == i * p / 1000000.0 - w * p / 1000000.0 - r * p / 1000000.0;
    assert p * (w - 0.9 * r) == w * p - 0.9 * (r * p);
  }

  // Before rounding, a run is sold below cost exactly when its model's input has a
  // price and its cache writes outweigh nine tenths of its reads.
  lemma SoldAtCostIff(m: Model, t: Tokens, c: Cache)
    requires AtListPrice(m) && WithinPrompt(t, c)
    ensures ListCost(m, t, c) <= ChargeUsd(m, t) <==>
            m.inputPrice == 0.0 || 10 * Slice(c.written) <= 9 * Slice(c.read)
  {
    CostMinusCharge(m, t, c);
    var d := Slice(c.written) as real - 0.9 * Slice(c.read) as real;
    if m.inputPrice > 0.0 {
      SignOfProduct(m.inputPrice, d);
    }
  }

  lemma SignOfProduct(p: real, d: real)
    requires p > 0.0
    ensures d <= 0.0 <==> p * d <= 0.0
  {
    if d <= 0.0 {
      Scaled(d, 0.0, p);
    } else {
      assert p * d > 0.0;
    }
  }

  lemma Scaled(a: real, b: real, p: real)
    requires a <= b && p >= 0.0
    ensures p * a <= p * b
  {
  }

  // Never more than twice the charge.
  lemma CostAtMostTwiceCharge(m: Model, t: Tokens, c: Cache)
    requires AtListPrice(m) && WithinPrompt(t, c)
    ensures ListCost(m, t, c) <= 2.0 * ChargeUsd(m, t)
  {
    CostMinusCharge(m, t, c);
    ChargeIsListPrice(m, t);
    var w, r, i := Slice(c.written) as real, Slice(c.read) as real, t.input as real;
    Scaled(w - 0.9 * r, i, m.inputPrice);
    Scaled(0.0, t.output as real, m.outputPrice);
  }

  // What is billed, rounded up and at least one credit, covers the cost too.
  lemma BilledCoversCost(m: Model, t: Tokens, c: Cache)
    requires AtListPrice(m) && WithinPrompt(t, c)
    ensures CostFor(Some(m), t, c, None) <= 2.0 * (CreditsFor(Some(m), t) as real / CREDITS_PER_DOLLAR)
    ensures 10 * Slice(c.written) <= 9 * Slice(c.read) ==>
              CostFor(Some(m), t, c, None) <= CreditsFor(Some(m), t) as real / CREDITS_PER_DOLLAR
  {
    CostAtMostTwiceCharge(m, t, c);
    CostMinusCharge(m, t, c);
    RoundingUp(Unrounded(CreditRates(m), t));
    var d := Slice(c.written) as real - 0.9 * Slice(c.read) as real;
    if 10 * Slice(c.written) <= 9 * Slice(c.read) {
      Scaled(d, 0.0, m.inputPrice);
      assert m.inputPrice * d / 1000000.0 <= 0.0;
      assert ListCost(m, t, c) <= ChargeUsd(m, t);
    }
  }

  function InputCost(m: Model): Price {
    m.costInput.GetOr(m.inputPrice)
  }

  function OutputCost(m: Model): Price {
    m.costOutput.GetOr(m.outputPrice)
  }

  // A figure the provider reports is the cost, whatever the catalogue says. With no
  // figure a run is recorded as free exactly when its model is unknown, or each side
  // of it costs us nothing or was not used; it is charged all the same.
  lemma RecordedFreeIff(m: Option<Model>, t: Tokens, c: Cache, reported: Option<real>)
    ensures reported.Some? ==> CostFor(m, t, c, reported) == reported.value
    ensures reported.None? ==> (CostFor(m, t, c, reported) == 0.0 <==> m.None? || CostsNothing(m.value, t, c))
    ensures CreditsFor(m, t) >= 1
  {
    if reported.None? && m.Some? {
      ListCostZeroIff(m.value, t, c);
    }
  }

  predicate CostsNothing(m: Model, t: Tokens, c: Cache) {
    && (InputCost(m) == 0.0 || (t.input == 0 && Slice(c.written) == 0 && Slice(c.read) == 0))
    && (OutputCost(m) == 0.0 || t.output == 0)
  }

  lemma ListCostZeroIff(m: Model, t: Tokens, c: Cache)
    ensures ListCost(m, t, c) == 0.0 <==> CostsNothing(m, t, c)
  {
    var uncached: nat := Max(0, t.input - Slice(c.written) - Slice(c.read));
    PositivePart(uncached, InputCost(m));
    PositivePart(Slice(c.written), InputCost(m));
    PositivePart(Slice(c.read), InputCost(m));
    PositivePart(t.output, OutputCost(m));
  }

  lemma PositivePart(n: nat, p: Price)
    ensures n as real / 1000000.0 * p >= 0.0
    ensures n as real / 1000000.0 * p == 0.0 <==> n == 0 || p == 0.0
  {
    if n > 0 && p > 0.0 {
      SignOfProduct(p, n as real / 1000000.0);
    }
  }

  // A gateway entry whose prices are missing or not numbers is catalogued at zero:
  // any run on it is recorded as free, and charged the minimum.
  lemma ZeroPricedIsFree(t: Tokens, c: Cache)
    ensures CostFor(Some(Model(0.0, 0.0, None, None)), t, c, None) == 0.0
    ensures CreditsFor(Some(Model(0.0, 0.0, None, None)), t) == 1
  {
    ListCostZeroIff(Model(0.0, 0.0, None, None), t, c);
  }

  lemma RoundingUp(x: real)
    requires x >= 0.0
    ensures x <= Ceil(x) as real < x + 1.0
  {
  }

  // ---- what the figures are -----------------------------------------------------------

  // The least whole number of credits, at least one, that covers the list price at
  // 400 to the dollar.
  lemma ChargeIsLeast(m: Model, t: Tokens)
    ensures
      var c := CreditsFor(Some(m), t) as real;
      var dollars := (t.input as real * m.inputPrice + t.output as real * m.outputPrice) / 1000000.0;
      c >= 1.0 && c >= 400.0 * dollars && (c > 1.0 ==> c - 1.0 < 400.0 * dollars)
  {
    ChargeIsListPrice(m, t);
    UnroundedNonNegative(CreditRates(m), t);
    RoundingUp(Unrounded(CreditRates(m), t));
    assert Unrounded(CreditRates(m), t) == 400.0 * ChargeUsd(m, t);
  }

  // An unknown model is charged two credits per thousand tokens in, ten per thousand out.
  lemma UnknownModelCharge(t: Tokens)
    ensures
      var c := CreditsFor(None, t);
      c >= 1 && 1000 * c >= 2 * t.input + 10 * t.output && (c > 1 ==> 1000 * (c - 1) < 2 * t.input + 10 * t.output)
  {
    UnroundedNonNegative(UNKNOWN_MODEL_RATES, t);
    RoundingUp(Unrounded(UNKNOWN_MODEL_RATES, t));
    assert 1000.0 * Unrounded(UNKNOWN_MODEL_RATES, t) == 2.0 * t.input as real + 10.0 * t.output as real;
  }

  // What a token costs us: the price overridden for cost, or else the list price.
  predicate OurPrice(listed: Price, override: Option<Price>, p: real) {
    (override.Some? ==> p == override.value) && (override.None? ==> p == listed)
  }

  // Cost, slice by slice: a write at twice the input price, a read at a tenth, the
  // rest of the prompt, never less than none of it, at the price itself.
  lemma ListCostIs(m: Model, t: Tokens, c: Cache, ip: real, op: real, written: int, read: int)
    requires OurPrice(m.inputPrice, m.costInput, ip) && OurPrice(m.outputPrice, m.costOutput, op)
    requires c.written == Some(written) && c.read == Some(read) && written >= 0 && read >= 0
    ensures
      var rest := if written + read <= t.input then t.input - written - read else 0;
      ListCost(m, t, c) * 1000000.0
      == ip * (rest as real + 2.0 * written as real + 0.1 * read as real) + op * t.output as real
  {
    var rest: nat := if written + read <= t.input then t.input - written - read else 0;
    assert Slice(c.written) == written && Slice(c.read) == read;
    Gathered(ip, op, rest as real, written as real, read as real, t.output as real);
  }

  lemma Gathered(ip: real, op: real, u: real, w: real, r: real, o: real)
    ensures (u / 1000000.0 * ip + w / 1000000.0 * ip * 2.0 + r / 1000000.0 * ip * 0.1 + o / 1000000.0 * op) * 1000000.0
         == ip * (u + 2.0 * w + 0.1 * r) + op * o
  {
    assert u / 1000000.0 * ip * 1000000.0 == ip * u;
    assert w / 1000000.0 * ip * 1000000.0 == ip * w;
    assert r / 1000000.0 * ip * 1000000.0 == ip * r;
    assert o / 1000000.0 * op * 1000000.0 == op * o;
  }

  // A slice not reported, or reported below nothing, is a slice of none.
  lemma UnreportedSlices(m: Model, t: Tokens, c: Cache)
    ensures ListCost(m, t, c) == ListCost(m, t, Cache(Some(Max(0, c.written.GetOr(0))), Some(Max(0, c.read.GetOr(0)))))
  {
  }

  // With costs of our own the margin also holds the difference in price.
  lemma CostMinusChargeOverridden(m: Model, t: Tokens, c: Cache, ip: real, op: real)
    requires WithinPrompt(t, c)
    requires OurPrice(m.inputPrice, m.costInput, ip) && OurPrice(m.outputPrice, m.costOutput, op)
    ensures (ListCost(m, t, c) - ChargeUsd(m, t)) * 1000000.0
         == (ip - m.inputPrice) * t.input as real + (op - m.outputPrice) * t.output as real
          + ip * (Slice(c.written) as real - 0.9 * Slice(c.read) as real)
  {
    var w, r, i := Slice(c.written) as real, Slice(c.read) as real, t.input as real;
    UnreportedSlices(m, t, c);
    ListCostIs(m, t, Cache(Some(Slice(c.written)), Some(Slice(c.read))), ip, op, Slice(c.written), Slice(c.read));
    ChargeIsListPrice(m, t);
    assert ip * (i - w - r + 2.0 * w + 0.1 * r) == ip * i + ip * (w - 0.9 * r);
    assert (ip - m.inputPrice) * i == ip * i - m.inputPrice * i;
    assert (op - m.outputPrice) * t.output as real == op * t.output as real - m.outputPrice * t.output as real;
  }

  // ---- metering a run once -----------------------------------------------------------

  function InputOf(calls: seq<Tokens>): nat {
    if calls == [] then 0 else calls[0].input + InputOf(calls[1..])
  }

  function OutputOf(calls: seq<Tokens>): nat {
    if calls == [] then 0 else calls[0].output + OutputOf(calls[1..])
  }

  function Together(calls: seq<Tokens>): Tokens {
    Tokens(InputOf(calls), OutputOf(calls))
  }

  function EachCredits(m: Option<Model>, calls: seq<Tokens>): int {
    if calls == [] then 0 else CreditsFor(m, calls[0]) + EachCredits(m, calls[1..])
  }

  lemma UnroundedAdds(r: Rates, a: Tokens, b: Tokens)
    ensures Unrounded(r, Tokens(a.input + b.input, a.output + b.output)) == Unrounded(r, a) + Unrounded(r, b)
  {
    Distributes(a.input as real / 1000.0, b.input as real / 1000.0, r.input);
    Distributes(a.output as real / 1000.0, b.output as real / 1000.0, r.output);
  }

  lemma Distributes(x: real, y: real, z: real)
    ensures (x + y) * z == x * z + y * z
  {
  }

  lemma UnroundedNonNegative(r: Rates, t: Tokens)
    ensures Unrounded(r, t) >= 0.0
  {
    Scaled(0.0, t.input as real / 1000.0, r.input);
    Scaled(0.0, t.output as real / 1000.0, r.output);
  }

  // Each call rounds up by less than a credit, and a free one by a whole credit.
  lemma {:induction false} EachWithin(m: Option<Model>, calls: seq<Tokens>)
    ensures Unrounded(RatesFor(m), Together(calls)) <= EachCredits(m, calls) as real
    ensures EachCredits(m, calls) as real <= Unrounded(RatesFor(m), Together(calls)) + |calls| as real
    ensures Unrounded(RatesFor(m), Together(calls)) > 0.0 ==>
              EachCredits(m, calls) as real < Unrounded(RatesFor(m), Together(calls)) + |calls| as real
    ensures EachCredits(m, calls) >= |calls|
  {
    if calls != [] {
      EachWithin(m, calls[1..]);
      var r := RatesFor(m);
      UnroundedAdds(r, calls[0], Together(calls[1..]));
      UnroundedNonNegative(r, calls[0]);
      UnroundedNonNegative(r, Together(calls[1..]));
      RoundingUp(Unrounded(r, calls[0]));
      assert Unrounded(r, Together(calls)) == Unrounded(r, calls[0]) + Unrounded(r, Together(calls[1..]));
    }
  }

  // A run metered once, on its totals, is charged no more than call by call, and
  // at most one credit less for every call after the first.
  lemma MeteredTogether(m: Option<Model>, calls: seq<Tokens>)
    requires calls != []
    ensures EachCredits(m, calls) - (|calls| - 1) <= CreditsFor(m, Together(calls)) <= EachCredits(m, calls)
  {
    EachWithin(m, calls);
    UnroundedNonNegative(RatesFor(m), Together(calls));
    RoundingUp(Unrounded(RatesFor(m), Together(calls)));
  }
}
