/**
 Token and cost estimates of a usage row, in exact arithmetic: tokens are bytes
 times a rate, truncated toward zero.  A summary row truncates once where the
 session rows truncate once each; the two differ by less than one token per
 extra session.
 */
module Tokens {
  import opened Model

  datatype Config = Config(
    inputTokenBits: real, outputTokenBits: real, inputTokenCostCNY: real, outputTokenCostCNY: real, usdCnyRate: real,
    proxyInputPerByte: real, proxyCacheReadPerByte: real, proxyUncachedPerByte: real, proxyOutputPerByte: real,
    proxyInputCostUSD: real, proxyCacheMultiplier: real, proxyOutputCostUSD: real)

  /** The official price of a vendor and domain, in dollars per million tokens, when the price list has one. */
  datatype Pricing = Unlisted | Listed(inputPer1M: real, outputPer1M: real)

  datatype Formula = LlmProxyEmpirical | OfficialPricing | DefaultBits

  datatype Metrics = Metrics(
    inputTokens: int, cacheReadTokens: int, uncachedInputTokens: int, outputTokens: int, totalTokens: int,
    billableInputTokens: real, costUSD: real, costCNY: real, formula: Formula)

  /** Token sizes and the exchange rate are divisors. */
  predicate Usable(cfg: Config) {
    cfg.inputTokenBits > 0.0 && cfg.outputTokenBits > 0.0 && cfg.usdCnyRate > 0.0
  }

  predicate IsProxy(vendor: string, domain: string) {
    vendor == "LLM API Proxy" || domain == "llm-api-proxy.hnfunny.com"
  }

  // ---- one form for all three branches -------------------------------------

  /** Tokens per byte and dollars per token; every branch is this form with its own rates. */
  datatype Rates = Rates(
    input: real, cacheRead: real, uncached: real, output: real, cacheMultiplier: real,
    inputPrice: real, outputPrice: real, cny: real, formula: Formula)

  function RatesFor(cfg: Config, pricing: Pricing, vendor: string, domain: string): Rates
    requires Usable(cfg)
  {
    if IsProxy(vendor, domain) then
      Rates(cfg.proxyInputPerByte, cfg.proxyCacheReadPerByte, cfg.proxyUncachedPerByte, cfg.proxyOutputPerByte,
            cfg.proxyCacheMultiplier, cfg.proxyInputCostUSD, cfg.proxyOutputCostUSD, cfg.usdCnyRate, LlmProxyEmpirical)
    else
      var (i, o, f) := match pricing
        case Listed(inputPer1M, outputPer1M) => (inputPer1M / 1000000.0, outputPer1M / 1000000.0, OfficialPricing)
        case Unlisted => (cfg.inputTokenCostCNY / cfg.usdCnyRate, cfg.outputTokenCostCNY / cfg.usdCnyRate, DefaultBits);
      Rates(8.0 / cfg.inputTokenBits, 0.0, 8.0 / cfg.inputTokenBits, 8.0 / cfg.outputTokenBits, 0.0, i, o,
            cfg.usdCnyRate, f)
  }

  function Scale(bytes: int, rate: real): real {
    bytes as real * rate
  }

  /** A product of bytes and a rate, truncated toward zero. */
  function Tokens(bytes: int, rate: real): int {
    Trunc(Scale(bytes, rate))
  }

  function Billable(r: Rates, uncached: int, cacheRead: int): real {
    uncached as real + cacheRead as real * r.cacheMultiplier
  }

  function Cost(r: Rates, uncached: int, cacheRead: int, output: int): real {
    Billable(r, uncached, cacheRead) * r.inputPrice + output as real * r.outputPrice
  }

  function Estimate(r: Rates, uplinkBytes: int, downlinkBytes: int): Metrics {
    var inputTokens, outputTokens := Tokens(uplinkBytes, r.input), Tokens(downlinkBytes, r.output);
    var cacheRead, uncached := Tokens(uplinkBytes, r.cacheRead), Tokens(uplinkBytes, r.uncached);
    var cost := Cost(r, uncached, cacheRead, outputTokens);
    Metrics(inputTokens, cacheRead, uncached, outputTokens, inputTokens + outputTokens,
            Billable(r, uncached, cacheRead), cost, cost * r.cny, r.formula)
  }

  lemma ScaledBytes(bytes: int, bits: real)
    requires bits > 0.0
    ensures bytes as real * 8.0 / bits == Scale(bytes, 8.0 / bits)
  {
  }

  /** Prices per million, or in another currency, are prices per token times a constant. */
  lemma DividedPrices(a: int, p: real, b: int, q: real, d: real)
    requires d > 0.0
    ensures (a as real * p + b as real * q) / d == a as real * (p / d) + b as real * (q / d)
    ensures a as real * p / d == a as real * (p / d)
  {
  }

  lemma NoCache(r: Rates, input: int, output: int)
    requires r.cacheRead == 0.0 == r.cacheMultiplier
    ensures Tokens(input, 0.0) == 0 && Billable(r, input, 0) == input as real
    ensures Cost(r, input, 0, output) == input as real * r.inputPrice + output as real * r.outputPrice
  {
    assert Scale(input, 0.0) == 0.0;
  }

  lemma PlainRates(cfg: Config, pricing: Pricing, vendor: string, domain: string)
    requires Usable(cfg) && !IsProxy(vendor, domain)
    ensures var r := RatesFor(cfg, pricing, vendor, domain);
      && r.cacheRead == 0.0 == r.cacheMultiplier && r.cny == cfg.usdCnyRate
      && r.input == r.uncached == 8.0 / cfg.inputTokenBits && r.output == 8.0 / cfg.outputTokenBits
  {
  }

  lemma PlainEstimate(cfg: Config, pricing: Pricing, vendor: string, domain: string, uplinkBytes: int,
                      downlinkBytes: int)
    requires Usable(cfg) && !IsProxy(vendor, domain)
    ensures var r := RatesFor(cfg, pricing, vendor, domain);
      var i := Trunc(uplinkBytes as real * 8.0 / cfg.inputTokenBits);
      var o := Trunc(downlinkBytes as real * 8.0 / cfg.outputTokenBits);
      var cost := i as real * r.inputPrice + o as real * r.outputPrice;
      Estimate(r, uplinkBytes, downlinkBytes)
        == Metrics(i, 0, i, o, i + o, i as real, cost, cost * cfg.usdCnyRate, r.formula)
  {
    hide RatesFor, Trunc, Scale, Billable, Cost;
    var r := RatesFor(cfg, pricing, vendor, domain);
    PlainRates(cfg, pricing, vendor, domain);
    ScaledBytes(uplinkBytes, cfg.inputTokenBits);
    ScaledBytes(downlinkBytes, cfg.outputTokenBits);
    NoCache(r, uplinkBytes, Tokens(downlinkBytes, r.output));
    NoCache(r, Tokens(uplinkBytes, r.input), Tokens(downlinkBytes, r.output));
  }

  lemma ProxyEstimate(cfg: Config, pricing: Pricing, vendor: string, domain: string, uplinkBytes: int,
                      downlinkBytes: int)
    requires Usable(cfg) && IsProxy(vendor, domain)
    ensures var i, c := Tokens(uplinkBytes, cfg.proxyInputPerByte), Tokens(uplinkBytes, cfg.proxyCacheReadPerByte);
      var u, o := Tokens(uplinkBytes, cfg.proxyUncachedPerByte), Tokens(downlinkBytes, cfg.proxyOutputPerByte);
      var billable := u as real + c as real * cfg.proxyCacheMultiplier;
      var cost := billable * cfg.proxyInputCostUSD + o as real * cfg.proxyOutputCostUSD;
      Estimate(RatesFor(cfg, pricing, vendor, domain), uplinkBytes, downlinkBytes)
        == Metrics(i, c, u, o, i + o, billable, cost, cost * cfg.usdCnyRate, LlmProxyEmpirical)
  {
    hide Tokens;
  }

  lemma PlainPrices(cfg: Config, pricing: Pricing, vendor: string, domain: string, i: int, o: int)
    requires Usable(cfg) && !IsProxy(vendor, domain)
    ensures var r := RatesFor(cfg, pricing, vendor, domain);
      i as real * r.inputPrice + o as real * r.outputPrice ==
        match pricing
        case Listed(p, q) => i as real * p / 1000000.0 + o as real * q / 1000000.0
        case Unlisted => (i as real * cfg.inputTokenCostCNY + o as real * cfg.outputTokenCostCNY) / cfg.usdCnyRate
    ensures RatesFor(cfg, pricing, vendor, domain).formula == if pricing.Listed? then OfficialPricing else DefaultBits
  {
    if pricing.Listed? {
      DividedPrices(i, pricing.inputPer1M, o, pricing.outputPer1M, 1000000.0);
      DividedPrices(o, pricing.outputPer1M, i, pricing.inputPer1M, 1000000.0);
    } else {
      DividedPrices(i, cfg.inputTokenCostCNY, o, cfg.outputTokenCostCNY, cfg.usdCnyRate);
    }
  }

  /** `n` is `x` with its fraction dropped. */
  predicate Truncated(x: real, n: int) {
    if x >= 0.0 then n as real <= x < n as real + 1.0 else n as real - 1.0 < x <= n as real
  }

  /** `n` is the product of the bytes and the rate with its fraction dropped. */
  predicate Counted(bytes: int, rate: real, n: int) {
    Truncated(bytes as real * rate, n)
  }

  lemma TruncIs(x: real)
    ensures Truncated(x, Trunc(x))
  {
  }

  /** The estimates of the proxy's own traffic: three kinds of input tokens, the cached ones at a discount. */
  predicate ProxyPriced(cfg: Config, up: int, down: int, m: Metrics) {
    && Counted(up, cfg.proxyInputPerByte, m.inputTokens)
    && Counted(up, cfg.proxyCacheReadPerByte, m.cacheReadTokens)
    && Counted(up, cfg.proxyUncachedPerByte, m.uncachedInputTokens)
    && Counted(down, cfg.proxyOutputPerByte, m.outputTokens)
    && m.billableInputTokens
       == m.uncachedInputTokens as real + m.cacheReadTokens as real * cfg.proxyCacheMultiplier
    && m.costUSD
       == m.billableInputTokens * cfg.proxyInputCostUSD + m.outputTokens as real * cfg.proxyOutputCostUSD
    && m.formula == LlmProxyEmpirical
  }

  /** The estimates of any other row: no cache, and the listed price, or the configured one in yuan. */
  predicate PlainPriced(cfg: Config, pricing: Pricing, up: int, down: int, m: Metrics)
    requires Usable(cfg)
  {
    && Truncated(up as real * 8.0 / cfg.inputTokenBits, m.inputTokens)
    && Truncated(down as real * 8.0 / cfg.outputTokenBits, m.outputTokens)
    && m.cacheReadTokens == 0 && m.uncachedInputTokens == m.inputTokens
    && m.billableInputTokens == m.inputTokens as real
    && (pricing.Listed? ==>
          && m.formula == OfficialPricing
          && m.costUSD == m.inputTokens as real * pricing.inputPer1M / 1000000.0
                        + m.outputTokens as real * pricing.outputPer1M / 1000000.0)
    && (pricing.Unlisted? ==>
          && m.formula == DefaultBits
          && m.costUSD == (m.inputTokens as real * cfg.inputTokenCostCNY
                         + m.outputTokens as real * cfg.outputTokenCostCNY) / cfg.usdCnyRate)
  }

  lemma TokensTruncate(bytes: int, rate: real)
    ensures Counted(bytes, rate, Tokens(bytes, rate))
  {
    TruncIs(Scale(bytes, rate));
  }

  lemma ProxyShows(cfg: Config, pricing: Pricing, vendor: string, domain: string, up: int, down: int)
    requires Usable(cfg) && IsProxy(vendor, domain)
    ensures ProxyPriced(cfg, up, down, Estimate(RatesFor(cfg, pricing, vendor, domain), up, down))
  {
    hide RatesFor, Estimate, Tokens, Counted;
    ProxyEstimate(cfg, pricing, vendor, domain, up, down);
    TokensTruncate(up, cfg.proxyInputPerByte);
    TokensTruncate(up, cfg.proxyCacheReadPerByte);
    TokensTruncate(up, cfg.proxyUncachedPerByte);
    TokensTruncate(down, cfg.proxyOutputPerByte);
  }

  lemma PlainShows(cfg: Config, pricing: Pricing, vendor: string, domain: string, up: int, down: int)
    requires Usable(cfg) && !IsProxy(vendor, domain)
    ensures PlainPriced(cfg, pricing, up, down, Estimate(RatesFor(cfg, pricing, vendor, domain), up, down))
  {
    hide RatesFor, Estimate, Trunc, Truncated;
    var m := Estimate(RatesFor(cfg, pricing, vendor, domain), up, down);
    PlainEstimate(cfg, pricing, vendor, domain, up, down);
    PlainPrices(cfg, pricing, vendor, domain, m.inputTokens, m.outputTokens);
    TruncIs(up as real * 8.0 / cfg.inputTokenBits);
    TruncIs(down as real * 8.0 / cfg.outputTokenBits);
  }

  lemma CurrencyFor(cfg: Config, pricing: Pricing, vendor: string, domain: string)
    requires Usable(cfg)
    ensures RatesFor(cfg, pricing, vendor, domain).cny == cfg.usdCnyRate
  {
  }

  /** What an estimate says, branch by branch. */
  lemma EstimateShows(cfg: Config, pricing: Pricing, vendor: string, domain: string, up: int, down: int)
    requires Usable(cfg)
    ensures var m := Estimate(RatesFor(cfg, pricing, vendor, domain), up, down);
      && m.totalTokens == m.inputTokens + m.outputTokens && m.costCNY == m.costUSD * cfg.usdCnyRate
      && if vendor == "LLM API Proxy" || domain == "llm-api-proxy.hnfunny.com" then ProxyPriced(cfg, up, down, m)
         else PlainPriced(cfg, pricing, up, down, m)
  {
    hide RatesFor, Trunc, Billable, Cost, Tokens, ProxyPriced, PlainPriced;
    if IsProxy(vendor, domain) {
      ProxyShows(cfg, pricing, vendor, domain, up, down);
    } else {
      PlainShows(cfg, pricing, vendor, domain, up, down);
    }
    CurrencyFor(cfg, pricing, vendor, domain);
  }

  /** The estimates of one row; `domain` is in lower case. */
  method EnrichUsageMetrics(cfg: Config, pricing: Pricing, vendor: string, domain: string, uplinkBytes: int,
                            downlinkBytes: int)
    returns (m: Metrics)
    requires Usable(cfg)
    ensures m == Estimate(RatesFor(cfg, pricing, vendor, domain), uplinkBytes, downlinkBytes)
  {
    hide Trunc, RatesFor, Estimate, Tokens;
    var inputTokens, outputTokens, cacheReadTokens, uncachedInputTokens := 0, 0, 0, 0;
    var billableInputTokens, estimatedCostUSD := 0.0, 0.0;
    var formula: Formula;
    if IsProxy(vendor, domain) {
      inputTokens := Tokens(uplinkBytes, cfg.proxyInputPerByte);
      cacheReadTokens := Tokens(uplinkBytes, cfg.proxyCacheReadPerByte);
      uncachedInputTokens := Tokens(uplinkBytes, cfg.proxyUncachedPerByte);
      outputTokens := Tokens(downlinkBytes, cfg.proxyOutputPerByte);
      billableInputTokens := uncachedInputTokens as real + cacheReadTokens as real * cfg.proxyCacheMultiplier;
      estimatedCostUSD := billableInputTokens * cfg.proxyInputCostUSD + outputTokens as real * cfg.proxyOutputCostUSD;
      formula := LlmProxyEmpirical;
      ProxyEstimate(cfg, pricing, vendor, domain, uplinkBytes, downlinkBytes);
    } else {
      inputTokens := Trunc(uplinkBytes as real * 8.0 / cfg.inputTokenBits);
      outputTokens := Trunc(downlinkBytes as real * 8.0 / cfg.outputTokenBits);
      uncachedInputTokens := inputTokens;
      billableInputTokens := inputTokens as real;
      PlainEstimate(cfg, pricing, vendor, domain, uplinkBytes, downlinkBytes);
      if pricing.Listed? {
        estimatedCostUSD := inputTokens as real * pricing.inputPer1M / 1000000.0
                          + outputTokens as real * pricing.outputPer1M / 1000000.0;
        formula := OfficialPricing;
      } else {
        estimatedCostUSD := (inputTokens as real * cfg.inputTokenCostCNY
                           + outputTokens as real * cfg.outputTokenCostCNY) / cfg.usdCnyRate;
        formula := DefaultBits;
      }
      PlainPrices(cfg, pricing, vendor, domain, inputTokens, outputTokens);
    }
    m := Metrics(inputTokens, cacheReadTokens, uncachedInputTokens, outputTokens, inputTokens + outputTokens,
                 billableInputTokens, estimatedCostUSD, estimatedCostUSD * cfg.usdCnyRate, formula);
  }

  // ---- a summary row against its session rows ------------------------------

  function Sum(bytes: seq<nat>): nat {
    if bytes == [] then 0 else Sum(bytes[..|bytes| - 1]) + bytes[|bytes| - 1]
  }

  function TokenSum(bytes: seq<nat>, rate: real): int {
    if bytes == [] then 0 else TokenSum(bytes[..|bytes| - 1], rate) + Tokens(bytes[|bytes| - 1], rate)
  }

  lemma ScaleAdds(a: nat, b: nat, rate: real)
    requires rate >= 0.0
    ensures Scale(a + b, rate) == Scale(a, rate) + Scale(b, rate) && Scale(a, rate) >= 0.0
  {
  }

  lemma TruncPair(x: real, y: real)
    requires x >= 0.0 && y >= 0.0
    ensures Trunc(x) + Trunc(y) <= Trunc(x + y) <= Trunc(x) + Trunc(y) + 1
  {
  }

  /** Truncating once instead of once per session loses nothing and gains at most one token per extra session. */
  lemma {:induction false} TruncationBound(bytes: seq<nat>, rate: real)
    requires bytes != [] && rate >= 0.0
    ensures 0 <= Tokens(Sum(bytes), rate) - TokenSum(bytes, rate) <= |bytes| - 1
  {
    hide Scale, Trunc;
    var n := |bytes| - 1;
    if n == 0 {
      assert bytes[..0] == [];
    } else {
      TruncationBound(bytes[..n], rate);
      ScaleAdds(Sum(bytes[..n]), bytes[n], rate);
      ScaleAdds(bytes[n], 0, rate);
      TruncPair(Scale(Sum(bytes[..n]), rate), Scale(bytes[n], rate));
    }
  }

  /** The bound is reached for every number of sessions: n one-byte sessions at a rate of (n - 1) / n. */
  lemma BoundReached(n: nat)
    requires n > 0
    ensures var bytes, rate := seq(n, _ => 1), (n - 1) as real / n as real;
      Tokens(Sum(bytes), rate) - TokenSum(bytes, rate) == n - 1
  {
    hide Tokens;
    var rate := (n - 1) as real / n as real;
    OneByteSessions(n, rate);
    JustUnder(n);
  }

  lemma JustUnder(n: nat)
    requires n > 0
    ensures var rate := (n - 1) as real / n as real; 0.0 <= rate < 1.0 && Tokens(n, rate) == n - 1
  {
    assert n as real * ((n - 1) as real / n as real) == (n - 1) as real;
  }

  lemma {:induction false} OneByteSessions(n: nat, rate: real)
    requires 0.0 <= rate < 1.0
    ensures Sum(seq(n, _ => 1)) == n && TokenSum(seq(n, _ => 1), rate) == 0
  {
    if n > 0 {
      OneByteSessions(n - 1, rate);
      assert seq(n, _ => 1)[..n - 1] == seq(n - 1, _ => 1);
    }
  }

  /** The byte counters of one session's row. */
  datatype Session = Session(uplink: nat, downlink: nat)

  function Uplinks(ss: seq<Session>): seq<nat> {
    seq(|ss|, i requires 0 <= i < |ss| => ss[i].uplink)
  }

  function Downlinks(ss: seq<Session>): seq<nat> {
    seq(|ss|, i requires 0 <= i < |ss| => ss[i].downlink)
  }

  function CostSum(ss: seq<Session>, r: Rates): real {
    if ss == [] then 0.0
    else CostSum(ss[..|ss| - 1], r) + Estimate(r, ss[|ss| - 1].uplink, ss[|ss| - 1].downlink).costUSD
  }

  lemma CostAdds(r: Rates, a: int, b: int, c: int, a': int, b': int, c': int)
    ensures Cost(r, a + a', b + b', c + c') == Cost(r, a, b, c) + Cost(r, a', b', c')
  {
    assert Billable(r, a + a', b + b') == Billable(r, a, b) + Billable(r, a', b');
  }

  /** The costs of the sessions add up to the price of their summed tokens. */
  lemma {:induction false} CostSumIs(ss: seq<Session>, r: Rates)
    ensures CostSum(ss, r) ==
      Cost(r, TokenSum(Uplinks(ss), r.uncached), TokenSum(Uplinks(ss), r.cacheRead), TokenSum(Downlinks(ss), r.output))
  {
    hide Tokens, Cost;
    if ss == [] {
      assert Cost(r, 0, 0, 0) == 0.0 by {
        CostAdds(r, 0, 0, 0, 0, 0, 0);
      }
    } else {
      var n := |ss| - 1;
      CostSumIs(ss[..n], r);
      assert Uplinks(ss)[..n] == Uplinks(ss[..n]) && Downlinks(ss)[..n] == Downlinks(ss[..n]);
      CostAdds(r, TokenSum(Uplinks(ss[..n]), r.uncached), TokenSum(Uplinks(ss[..n]), r.cacheRead),
               TokenSum(Downlinks(ss[..n]), r.output),
               Tokens(ss[n].uplink, r.uncached), Tokens(ss[n].uplink, r.cacheRead), Tokens(ss[n].downlink, r.output));
    }
  }

  predicate NonNegative(r: Rates) {
    && r.input >= 0.0 && r.cacheRead >= 0.0 && r.uncached >= 0.0 && r.output >= 0.0
    && r.cacheMultiplier >= 0.0 && r.inputPrice >= 0.0 && r.outputPrice >= 0.0
  }

  lemma BillableAtMost(r: Rates, a: int, b: int, k: nat)
    requires r.cacheMultiplier >= 0.0 && 0 <= a <= k && 0 <= b <= k
    ensures 0.0 <= Billable(r, a, b) <= Billable(r, k, k)
    ensures 0.0 <= Billable(r, a, 0) <= Billable(r, k, 0)
  {
    Monotone(b, k, r.cacheMultiplier);
  }

  /** The price of at most k tokens of each kind. */
  lemma CostAtMost(r: Rates, a: int, b: int, c: int, k: nat)
    requires NonNegative(r) && 0 <= a <= k && 0 <= b <= k && 0 <= c <= k
    ensures 0.0 <= Cost(r, a, b, c) <= Cost(r, k, k, k)
    ensures Cost(r, a, 0, c) <= Cost(r, k, 0, k)
  {
    hide Billable;
    BillableAtMost(r, a, b, k);
    CostMonotone(r, a, b, c, k, k, k);
    CostMonotone(r, a, 0, c, k, 0, k);
  }

  lemma CostMonotone(r: Rates, a: int, b: int, c: int, a': int, b': int, c': int)
    requires NonNegative(r) && 0.0 <= Billable(r, a, b) <= Billable(r, a', b') && 0 <= c <= c'
    ensures 0.0 <= Cost(r, a, b, c) <= Cost(r, a', b', c')
  {
    hide Billable;
    Monotone(c, c', r.outputPrice);
    MonotoneReal(Billable(r, a, b), Billable(r, a', b'), r.inputPrice);
    SumAtMost(Billable(r, a, b) * r.inputPrice, Billable(r, a', b') * r.inputPrice,
              c as real * r.outputPrice, c' as real * r.outputPrice);
  }

  lemma SumAtMost(u: real, v: real, s: real, t: real)
    requires 0.0 <= u <= v && 0.0 <= s <= t
    ensures 0.0 <= u + s <= v + t
  {
  }

  lemma Monotone(a: int, k: nat, p: real)
    requires p >= 0.0 && 0 <= a <= k
    ensures 0.0 <= a as real * p <= k as real * p
  {
    MonotoneReal(a as real, k as real, p);
  }

  lemma MonotoneReal(x: real, y: real, p: real)
    requires p >= 0.0 && 0.0 <= x <= y
    ensures 0.0 <= x * p <= y * p
  {
    var d := y - x;
    assert d * p >= 0.0 && x * p >= 0.0;
    assert y * p == x * p + d * p;
  }

  /**
   The summary row of n sessions of one vendor and domain exceeds the sum of
   their rows by at most n - 1 tokens on each side, and its cost by at most the
   price of n - 1 tokens of each kind.
   */
  lemma {:induction false} SummaryGap(ss: seq<Session>, r: Rates)
    requires ss != [] && NonNegative(r)
    ensures var m, n := Estimate(r, Sum(Uplinks(ss)), Sum(Downlinks(ss))), |ss|;
      && 0 <= m.inputTokens - TokenSum(Uplinks(ss), r.input) <= n - 1
      && 0 <= m.outputTokens - TokenSum(Downlinks(ss), r.output) <= n - 1
      && 0.0 <= m.costUSD - CostSum(ss, r) <= Cost(r, n - 1, n - 1, n - 1)
      && (r.cacheRead == 0.0 ==> m.costUSD - CostSum(ss, r) <= Cost(r, n - 1, 0, n - 1))
  {
    hide Tokens, Cost;
    var ups, downs := Uplinks(ss), Downlinks(ss);
    TruncationBound(ups, r.input);
    TruncationBound(ups, r.cacheRead);
    TruncationBound(ups, r.uncached);
    TruncationBound(downs, r.output);
    CostSumIs(ss, r);
    var a, b, c := TokenSum(ups, r.uncached), TokenSum(ups, r.cacheRead), TokenSum(downs, r.output);
    var da, db := Tokens(Sum(ups), r.uncached) - a, Tokens(Sum(ups), r.cacheRead) - b;
    var dc := Tokens(Sum(downs), r.output) - c;
    CostAdds(r, a, b, c, da, db, dc);
    CostAtMost(r, da, db, dc, |ss| - 1);
    if r.cacheRead == 0.0 {
      NoTokens(ups);
    }
  }

  lemma {:induction false} NoTokens(bytes: seq<nat>)
    ensures TokenSum(bytes, 0.0) == 0 && Tokens(Sum(bytes), 0.0) == 0
  {
    assert forall b: int :: Scale(b, 0.0) == 0.0;
    if bytes != [] {
      NoTokens(bytes[..|bytes| - 1]);
    }
  }

  /** On the branches without a cache the cost gap is at most n - 1 times the two prices per token together. */
  lemma {:induction false} UncachedGap(ss: seq<Session>, r: Rates)
    requires ss != [] && NonNegative(r) && r.cacheRead == 0.0 == r.cacheMultiplier
    ensures 0.0 <= Estimate(r, Sum(Uplinks(ss)), Sum(Downlinks(ss))).costUSD - CostSum(ss, r)
                <= (|ss| - 1) as real * (r.inputPrice + r.outputPrice)
  {
    hide Estimate, CostSum, Cost, Sum, TokenSum, Uplinks, Downlinks, Tokens, Billable, NonNegative;
    SummaryGap(ss, r);
    NoCache(r, |ss| - 1, |ss| - 1);
    Distribute((|ss| - 1) as real, r.inputPrice, r.outputPrice);
  }

  lemma Distribute(n: real, p: real, q: real)
    ensures n * p + n * q == n * (p + q)
  {
  }
}
