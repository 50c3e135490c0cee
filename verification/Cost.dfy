/**
 Estimating what a response cost (registry.go, EstimateCost and tokenCost), over the reals: float
 rounding is not modelled. A registered price or a duration is any float, finite or not.
 */
module Cost {
  import ChatStream
  import ResponsesStream
  import opened Sequences
  import opened StreamFold
  import opened Wrappers

  datatype Float = Finite(value: real) | NonFinite

  datatype ModelInfo = ModelInfo(
    input: Float, output: Float, cacheWrite: Float, cacheWrite1h: Float, cacheRead: Float,
    audioInput: Float, audioMinute: Float, webSearch: Float)

  datatype Registry = Registry(models: map<string, ModelInfo>, aliases: map<string, string>)

  datatype Counts = Counts(
    input: int, output: int, thinking: int, cacheWrite: int, cacheRead: int, cacheWrite1h: int,
    audio: int, seconds: Float)

  datatype CostInput = CostInput(model: string, counts: Counts, batch: bool, searches: int, iterations: seq<Iteration>)

  function PricingFor(reg: Registry, model: string): Option<ModelInfo> {
    var name := if model in reg.aliases then reg.aliases[model] else model;
    if name in reg.models then Some(reg.models[name]) else None
  }

  // ---------------------------------------------------------------------------------------------
  // One model's tokens
  // ---------------------------------------------------------------------------------------------

  function Clamp(n: int): (r: int)
    ensures r >= 0
  {
    if n < 0 then 0 else n
  }

  function Share(part: int, whole: int): (r: int)
    requires whole >= 0
    ensures 0 <= r <= whole
  {
    if Clamp(part) > whole then whole else Clamp(part)
  }

  /** A negative or non-finite price, or duration, counts as zero. */
  function Sanitized(f: Float): (r: real)
    ensures r >= 0.0
  {
    if f.Finite? && f.value > 0.0 then f.value else 0.0
  }

  function PerToken(tokens: int, price: Float): real {
    tokens as real * Sanitized(price) / 1_000_000.0
  }

  function CacheReadPrice(info: ModelInfo): Float {
    if Sanitized(info.cacheRead) == 0.0 then info.input else info.cacheRead
  }

  /** Unregistered, the one-hour write price is twice the input price. */
  function Write1hPrice(info: ModelInfo): Float {
    if Sanitized(info.cacheWrite1h) == 0.0 then Finite(2.0 * Sanitized(info.input)) else info.cacheWrite1h
  }

  /** A share of the tokens has a price of its own. */
  function SplitCost(whole: int, part: int, price: Float, partPrice: Float): real {
    var tokens := Clamp(whole);
    PerToken(tokens - Share(part, tokens), price) + PerToken(Share(part, tokens), partPrice)
  }

  function SecondsCost(info: ModelInfo, c: Counts): real {
    Sanitized(c.seconds) / 60.0 * Sanitized(info.audioMinute)
  }

  function InputCost(info: ModelInfo, c: Counts): real {
    SplitCost(c.input, c.audio, info.input, info.audioInput) + SecondsCost(info, c)
  }

  function OutputCost(info: ModelInfo, c: Counts): real {
    PerToken(Clamp(c.output), info.output) + PerToken(Clamp(c.thinking), info.output)
  }

  function WriteCost(info: ModelInfo, c: Counts): real {
    SplitCost(c.cacheWrite, c.cacheWrite1h, info.cacheWrite, Write1hPrice(info))
  }

  function ReadCost(info: ModelInfo, c: Counts): real {
    PerToken(Clamp(c.cacheRead), CacheReadPrice(info))
  }

  function Discounted(cost: real, batch: bool): real {
    if batch then cost * 0.5 else cost
  }

  function TokenCost(info: ModelInfo, c: Counts, batch: bool): real {
    Discounted(InputCost(info, c) + OutputCost(info, c) + (WriteCost(info, c) + ReadCost(info, c)), batch)
  }

  // ---------------------------------------------------------------------------------------------
  // The estimate
  // ---------------------------------------------------------------------------------------------

  function CountsOf(it: Iteration): Counts {
    Counts(it.input, it.output, 0, it.cacheWrite, it.cacheRead, it.cacheWrite1h, 0, Finite(0.0))
  }

  function ModelOf(input: CostInput, it: Iteration): string {
    if it.model == "" then input.model else it.model
  }

  /** Iterations are priced each at its own model; an unregistered one adds nothing. */
  function IterationCost(reg: Registry, input: CostInput, it: Iteration): real {
    match PricingFor(reg, ModelOf(input, it))
    case Some(info) => TokenCost(info, CountsOf(it), input.batch)
    case None => 0.0
  }

  function IterationsCost(reg: Registry, input: CostInput, its: seq<Iteration>): real {
    if its == [] then 0.0
    else IterationsCost(reg, input, its[..|its| - 1]) + IterationCost(reg, input, its[|its| - 1])
  }

  /** Searches go by the top-level model's price, or else the first priced iteration's. */
  function SearchInfo(reg: Registry, input: CostInput, its: seq<Iteration>): Option<ModelInfo> {
    if its == [] then PricingFor(reg, input.model)
    else
      var before := SearchInfo(reg, input, its[..|its| - 1]);
      if before.Some? then before else PricingFor(reg, ModelOf(input, its[|its| - 1]))
  }

  function TokenPart(reg: Registry, input: CostInput): real {
    if input.iterations != [] then IterationsCost(reg, input, input.iterations)
    else
      match PricingFor(reg, input.model)
      case Some(info) => TokenCost(info, input.counts, input.batch)
      case None => 0.0
  }

  function SearchCost(info: ModelInfo, searches: int): real {
    searches as real * Sanitized(info.webSearch) / 1000.0
  }

  function SearchPart(reg: Registry, input: CostInput): real {
    match SearchInfo(reg, input, input.iterations)
    case Some(info) => if input.searches > 0 then SearchCost(info, input.searches) else 0.0
    case None => 0.0
  }

  function Total(reg: Registry, input: CostInput): real {
    TokenPart(reg, input) + SearchPart(reg, input)
  }

  /** The largest float bounds every estimate. */
  function Saturated(cost: real, largest: real): real {
    if cost <= 0.0 then 0.0 else if cost > largest then largest else cost
  }

  function Estimate(reg: Registry, input: CostInput, largest: real): real {
    Saturated(Total(reg, input), largest)
  }

  method AddIterations(reg: Registry, input: CostInput, top: Option<ModelInfo>) returns (total: real, search: Option<ModelInfo>)
    requires top == PricingFor(reg, input.model)
    ensures total == IterationsCost(reg, input, input.iterations) && search == SearchInfo(reg, input, input.iterations)
  {
    total, search := 0.0, top;
    var i := 0;
    while i < |input.iterations|
      invariant i <= |input.iterations|
      invariant total == IterationsCost(reg, input, input.iterations[..i])
      invariant search == SearchInfo(reg, input, input.iterations[..i])
    {
      var it := input.iterations[i];
      TakeNext(input.iterations, i);
      IterationsNext(reg, input, i);
      i := i + 1;
      var model := it.model;
      if model == "" {
        model := input.model;
      }
      var info := PricingFor(reg, model);
      if info.None? {
        continue;
      }
      if search.None? {
        search := info;
      }
      total := total + TokenCost(info.value, CountsOf(it), input.batch);
    }
    assert input.iterations[..|input.iterations|] == input.iterations;
  }

  lemma IterationsNext(reg: Registry, input: CostInput, i: nat)
    requires i < |input.iterations|
    ensures IterationsCost(reg, input, input.iterations[..i + 1])
            == IterationsCost(reg, input, input.iterations[..i]) + IterationCost(reg, input, input.iterations[i])
  {
    TakeNext(input.iterations, i);
  }

  method EstimateCost(reg: Registry, input: CostInput, largest: real) returns (cost: real)
    ensures cost == Estimate(reg, input, largest)
  {
    var top := PricingFor(reg, input.model);
    var search, total := top, 0.0;
    if input.iterations != [] {
      total, search := AddIterations(reg, input, top);
    } else if top.Some? {
      total := TokenCost(top.value, input.counts, input.batch);
    }
    if search.Some? && input.searches > 0 {
      total := total + SearchCost(search.value, input.searches);
    }
    cost := Saturated(total, largest);
  }

  // ---------------------------------------------------------------------------------------------
  // Never negative
  // ---------------------------------------------------------------------------------------------

  lemma ProductNonNegative(a: real, b: real)
    requires a >= 0.0 && b >= 0.0
    ensures a * b >= 0.0
  {
  }

  lemma PerTokenNonNegative(tokens: int, price: Float)
    requires tokens >= 0
    ensures PerToken(tokens, price) >= 0.0
  {
    ProductNonNegative(tokens as real, Sanitized(price));
  }

  lemma SplitNonNegative(whole: int, part: int, price: Float, partPrice: Float)
    ensures SplitCost(whole, part, price, partPrice) >= 0.0
  {
    var tokens := Clamp(whole);
    PerTokenNonNegative(tokens - Share(part, tokens), price);
    PerTokenNonNegative(Share(part, tokens), partPrice);
  }

  lemma TokenCostNonNegative(info: ModelInfo, c: Counts, batch: bool)
    ensures TokenCost(info, c, batch) >= 0.0
  {
    SplitNonNegative(c.input, c.audio, info.input, info.audioInput);
    SplitNonNegative(c.cacheWrite, c.cacheWrite1h, info.cacheWrite, Write1hPrice(info));
    ProductNonNegative(Sanitized(c.seconds) / 60.0, Sanitized(info.audioMinute));
    PerTokenNonNegative(Clamp(c.output), info.output);
    PerTokenNonNegative(Clamp(c.thinking), info.output);
    PerTokenNonNegative(Clamp(c.cacheRead), CacheReadPrice(info));
  }

  lemma IterationNonNegative(reg: Registry, input: CostInput, it: Iteration)
    ensures IterationCost(reg, input, it) >= 0.0
  {
    match PricingFor(reg, ModelOf(input, it)) {
      case Some(info) => TokenCostNonNegative(info, CountsOf(it), input.batch);
      case None =>
    }
  }

  lemma {:induction false} IterationsNonNegative(reg: Registry, input: CostInput, its: seq<Iteration>)
    ensures IterationsCost(reg, input, its) >= 0.0
  {
    if its != [] {
      IterationsNonNegative(reg, input, its[..|its| - 1]);
      IterationNonNegative(reg, input, its[|its| - 1]);
    }
  }

  lemma SearchNonNegative(reg: Registry, input: CostInput)
    ensures SearchPart(reg, input) >= 0.0
  {
    match SearchInfo(reg, input, input.iterations) {
      case Some(info) => if input.searches > 0 { ProductNonNegative(input.searches as real, Sanitized(info.webSearch)); }
      case None =>
    }
  }

  /** Whatever prices are registered and whatever counts are reported, no part of a cost is negative. */
  lemma CostNonNegative(reg: Registry, input: CostInput)
    ensures TokenPart(reg, input) >= 0.0 && SearchPart(reg, input) >= 0.0
  {
    IterationsNonNegative(reg, input, input.iterations);
    SearchNonNegative(reg, input);
    match PricingFor(reg, input.model) {
      case Some(info) => TokenCostNonNegative(info, input.counts, input.batch);
      case None =>
    }
  }

  // ---------------------------------------------------------------------------------------------
  // Monotone
  // ---------------------------------------------------------------------------------------------

  lemma PerTokenMonotone(a: int, b: int, price: Float)
    requires a <= b
    ensures PerToken(a, price) <= PerToken(b, price)
  {
    ProductNonNegative((b - a) as real, Sanitized(price));
    assert b as real * Sanitized(price) == a as real * Sanitized(price) + (b - a) as real * Sanitized(price);
  }

  /** More tokens, and no more than those added to the share priced apart: neither part is smaller. */
  lemma ShareMonotone(p: int, q: int, a: int, b: int)
    requires p <= q && q - p <= b - a
    ensures Share(p, Clamp(a)) <= Share(q, Clamp(b))
    ensures Clamp(a) - Share(p, Clamp(a)) <= Clamp(b) - Share(q, Clamp(b))
  {
  }

  /** No count is lower in `b`, and a share of a count is raised only together with that count. */
  predicate NoMore(a: Counts, b: Counts) {
    && a.input <= b.input && a.output <= b.output && a.thinking <= b.thinking && a.cacheWrite <= b.cacheWrite
    && a.cacheRead <= b.cacheRead && Sanitized(a.seconds) <= Sanitized(b.seconds)
    && a.audio <= b.audio && b.audio - a.audio <= b.input - a.input
    && a.cacheWrite1h <= b.cacheWrite1h && b.cacheWrite1h - a.cacheWrite1h <= b.cacheWrite - a.cacheWrite
  }

  lemma SplitMonotone(a: int, p: int, b: int, q: int, price: Float, partPrice: Float)
    requires p <= q && q - p <= b - a
    ensures SplitCost(a, p, price, partPrice) <= SplitCost(b, q, price, partPrice)
  {
    var x, y := Clamp(a), Clamp(b);
    ShareMonotone(p, q, a, b);
    PerTokenMonotone(x - Share(p, x), y - Share(q, y), price);
    PerTokenMonotone(Share(p, x), Share(q, y), partPrice);
  }

  lemma SecondsMonotone(info: ModelInfo, a: Counts, b: Counts)
    requires Sanitized(a.seconds) <= Sanitized(b.seconds)
    ensures SecondsCost(info, a) <= SecondsCost(info, b)
  {
    var s, t, p := Sanitized(a.seconds) / 60.0, Sanitized(b.seconds) / 60.0, Sanitized(info.audioMinute);
    ProductNonNegative(t - s, p);
    assert t * p == s * p + (t - s) * p;
  }

  lemma TokenCostMonotone(info: ModelInfo, a: Counts, b: Counts, batch: bool)
    requires NoMore(a, b)
    ensures TokenCost(info, a, batch) <= TokenCost(info, b, batch)
  {
    SplitMonotone(a.input, a.audio, b.input, b.audio, info.input, info.audioInput);
    SecondsMonotone(info, a, b);
    SplitMonotone(a.cacheWrite, a.cacheWrite1h, b.cacheWrite, b.cacheWrite1h, info.cacheWrite, Write1hPrice(info));
    PerTokenMonotone(Clamp(a.output), Clamp(b.output), info.output);
    PerTokenMonotone(Clamp(a.thinking), Clamp(b.thinking), info.output);
    PerTokenMonotone(Clamp(a.cacheRead), Clamp(b.cacheRead), CacheReadPrice(info));
  }

  /** The same models in the same order, and no count lower in `b`. */
  ghost predicate NoMoreEach(a: seq<Iteration>, b: seq<Iteration>) {
    |a| == |b| && forall k | 0 <= k < |a| :: a[k].model == b[k].model && NoMore(CountsOf(a[k]), CountsOf(b[k]))
  }

  lemma NoMorePrefix(a: seq<Iteration>, b: seq<Iteration>)
    requires NoMoreEach(a, b) && a != []
    ensures NoMoreEach(a[..|a| - 1], b[..|b| - 1])
  {
  }

  lemma IterationMonotone(reg: Registry, a: CostInput, b: CostInput, x: Iteration, y: Iteration)
    requires a.model == b.model && a.batch == b.batch && x.model == y.model && NoMore(CountsOf(x), CountsOf(y))
    ensures IterationCost(reg, a, x) <= IterationCost(reg, b, y)
  {
    match PricingFor(reg, ModelOf(a, x)) {
      case Some(info) => TokenCostMonotone(info, CountsOf(x), CountsOf(y), a.batch);
      case None =>
    }
  }

  lemma {:induction false} IterationCostsMonotone(reg: Registry, a: CostInput, b: CostInput, x: seq<Iteration>, y: seq<Iteration>)
    requires a.model == b.model && a.batch == b.batch && NoMoreEach(x, y)
    ensures IterationsCost(reg, a, x) <= IterationsCost(reg, b, y)
  {
    if x != [] {
      NoMorePrefix(x, y);
      IterationCostsMonotone(reg, a, b, x[..|x| - 1], y[..|y| - 1]);
      IterationMonotone(reg, a, b, x[|x| - 1], y[|y| - 1]);
    }
  }

  /** The search price depends on the iterations' models only. */
  lemma {:induction false} SearchInfoByModels(reg: Registry, a: CostInput, b: CostInput, x: seq<Iteration>, y: seq<Iteration>)
    requires a.model == b.model && |x| == |y| && forall k | 0 <= k < |x| :: x[k].model == y[k].model
    ensures SearchInfo(reg, a, x) == SearchInfo(reg, b, y)
  {
    if x != [] {
      SearchInfoByModels(reg, a, b, x[..|x| - 1], y[..|y| - 1]);
    }
  }

  lemma SearchMonotone(reg: Registry, a: CostInput, b: CostInput)
    requires SearchInfo(reg, a, a.iterations) == SearchInfo(reg, b, b.iterations) && a.searches <= b.searches
    ensures SearchPart(reg, a) <= SearchPart(reg, b)
  {
    SearchNonNegative(reg, b);
    match SearchInfo(reg, b, b.iterations) {
      case Some(info) =>
        if a.searches > 0 {
          ProductNonNegative((b.searches - a.searches) as real, Sanitized(info.webSearch));
          assert b.searches as real * Sanitized(info.webSearch)
              == a.searches as real * Sanitized(info.webSearch) + (b.searches - a.searches) as real * Sanitized(info.webSearch);
        }
      case None =>
    }
  }

  lemma {:induction false} SearchInfoDepends(reg: Registry, a: CostInput, b: CostInput, its: seq<Iteration>)
    requires a.model == b.model
    ensures SearchInfo(reg, a, its) == SearchInfo(reg, b, its)
  {
    if its != [] {
      SearchInfoDepends(reg, a, b, its[..|its| - 1]);
    }
  }

  lemma SaturatedMonotone(a: real, b: real, largest: real)
    requires largest > 0.0 && a <= b
    ensures Saturated(a, largest) <= Saturated(b, largest)
  {
  }

  /**
   More input, output, thinking, cache reads or writes, seconds or searches never cost less, whether
   the tokens are priced at the top level or by iterations, and nor does a larger share of audio or of
   one-hour cache writes raised together with the count it is a share of.
   */
  lemma CountsMonotone(reg: Registry, a: CostInput, b: CostInput, largest: real)
    requires largest > 0.0 && a.model == b.model && a.batch == b.batch
    requires NoMore(a.counts, b.counts) && NoMoreEach(a.iterations, b.iterations) && a.searches <= b.searches
    ensures Total(reg, a) <= Total(reg, b)
    ensures Estimate(reg, a, largest) <= Estimate(reg, b, largest)
  {
    SearchInfoByModels(reg, a, b, a.iterations, b.iterations);
    SearchMonotone(reg, a, b);
    IterationCostsMonotone(reg, a, b, a.iterations, b.iterations);
    match PricingFor(reg, a.model) {
      case Some(info) => TokenCostMonotone(info, a.counts, b.counts, a.batch);
      case None =>
    }
    SaturatedMonotone(Total(reg, a), Total(reg, b), largest);
  }

  // ---------------------------------------------------------------------------------------------
  // Shares raised alone
  // ---------------------------------------------------------------------------------------------

  function WithOneHour(input: CostInput, share: int): CostInput {
    input.(counts := input.counts.(cacheWrite1h := share))
  }

  function WithAudio(input: CostInput, share: int): CostInput {
    input.(counts := input.counts.(audio := share))
  }

  /** How many tokens a larger share moves to the other price. */
  function Moved(part: int, more: int, whole: int): int {
    Share(more, Clamp(whole)) - Share(part, Clamp(whole))
  }

  /** What moving tokens across a price gap does to a cost. */
  function Change(moved: int, gap: real, batch: bool): real {
    Discounted(moved as real * gap / 1_000_000.0, batch)
  }

  function WriteGap(info: ModelInfo): real {
    Sanitized(Write1hPrice(info)) - Sanitized(info.cacheWrite)
  }

  function AudioGap(info: ModelInfo): real {
    Sanitized(info.audioInput) - Sanitized(info.input)
  }

  lemma SplitMoves(whole: int, part: int, more: int, price: Float, partPrice: Float)
    ensures SplitCost(whole, more, price, partPrice) - SplitCost(whole, part, price, partPrice)
            == Change(Moved(part, more, whole), Sanitized(partPrice) - Sanitized(price), false)
  {
    var tokens := Clamp(whole);
    var was := Share(part, tokens);
    Shifted(tokens - was, was, Moved(part, more, whole), price, partPrice);
  }

  lemma OneHourOnly(info: ModelInfo, c: Counts, more: int)
    ensures var d := c.(cacheWrite1h := more);
            InputCost(info, d) == InputCost(info, c) && OutputCost(info, d) == OutputCost(info, c) && ReadCost(info, d) == ReadCost(info, c)
  {
  }

  lemma AudioOnly(info: ModelInfo, c: Counts, more: int)
    ensures var d := c.(audio := more);
            WriteCost(info, d) == WriteCost(info, c) && OutputCost(info, d) == OutputCost(info, c) && ReadCost(info, d) == ReadCost(info, c)
  {
  }

  lemma WriteMoves(info: ModelInfo, c: Counts, more: int)
    ensures WriteCost(info, c.(cacheWrite1h := more))
            == WriteCost(info, c) + Change(Moved(c.cacheWrite1h, more, c.cacheWrite), WriteGap(info), false)
  {
    SplitMoves(c.cacheWrite, c.cacheWrite1h, more, info.cacheWrite, Write1hPrice(info));
  }

  lemma InputMoves(info: ModelInfo, c: Counts, more: int)
    ensures InputCost(info, c.(audio := more))
            == InputCost(info, c) + Change(Moved(c.audio, more, c.input), AudioGap(info), false)
  {
    SplitMoves(c.input, c.audio, more, info.input, info.audioInput);
  }

  lemma TokenCostMoves(info: ModelInfo, c: Counts, d: Counts, added: real, batch: bool)
    requires OutputCost(info, d) == OutputCost(info, c) && ReadCost(info, d) == ReadCost(info, c)
    requires InputCost(info, d) + WriteCost(info, d) == InputCost(info, c) + WriteCost(info, c) + added
    ensures TokenCost(info, d, batch) == TokenCost(info, c, batch) + Discounted(added, batch)
  {
    SumMoves(InputCost(info, c), InputCost(info, d), OutputCost(info, c), WriteCost(info, c), WriteCost(info, d),
             ReadCost(info, c), added, batch);
  }

  lemma SumMoves(i: real, i': real, o: real, w: real, w': real, r: real, added: real, batch: bool)
    requires i' + w' == i + w + added
    ensures Discounted(i' + o + (w' + r), batch) == Discounted(i + o + (w + r), batch) + Discounted(added, batch)
  {
  }

  lemma OneHourMoves(info: ModelInfo, c: Counts, more: int, batch: bool)
    ensures TokenCost(info, c.(cacheWrite1h := more), batch)
            == TokenCost(info, c, batch) + Change(Moved(c.cacheWrite1h, more, c.cacheWrite), WriteGap(info), batch)
  {
    OneHourOnly(info, c, more);
    WriteMoves(info, c, more);
    var d := c.(cacheWrite1h := more);
    TokenCostMoves(info, c, d, Change(Moved(c.cacheWrite1h, more, c.cacheWrite), WriteGap(info), false), batch);
  }

  lemma AudioMoves(info: ModelInfo, c: Counts, more: int, batch: bool)
    ensures TokenCost(info, c.(audio := more), batch)
            == TokenCost(info, c, batch) + Change(Moved(c.audio, more, c.input), AudioGap(info), batch)
  {
    AudioOnly(info, c, more);
    InputMoves(info, c, more);
    var d := c.(audio := more);
    TokenCostMoves(info, c, d, Change(Moved(c.audio, more, c.input), AudioGap(info), false), batch);
  }

  lemma ChangeUp(moved: int, gap: real, batch: bool)
    requires moved >= 0 && gap >= 0.0
    ensures Change(moved, gap, batch) >= 0.0
  {
    ProductNonNegative(moved as real, gap);
  }

  lemma ChangeDown(moved: int, most: int, gap: real, batch: bool)
    requires moved <= most && gap < 0.0
    ensures Change(moved, gap, batch) >= Change(most, gap, batch)
    ensures moved < most ==> Change(moved, gap, batch) > Change(most, gap, batch)
  {
    var m, d := moved as real, (most - moved) as real;
    assert most as real * gap == m * gap + d * gap;
    if moved < most {
      assert d * (0.0 - gap) > 0.0;
    }
  }

  /** No larger share lowers the estimate: it is capped, priced no lower, or saturated even at its largest. */
  predicate NeverFalls(part: int, whole: int, gap: real, atMost: real, largest: real) {
    Clamp(part) >= Clamp(whole) || gap >= 0.0 || atMost >= largest
  }

  /** The cost with a share of `more`, given the cost with a share of `part`. */
  function CostAt(cost: real, part: int, more: int, whole: int, gap: real, batch: bool): real {
    cost + Change(Moved(part, more, whole), gap, batch)
  }

  lemma ShareRises(cost: real, part: int, more: int, whole: int, gap: real, batch: bool, largest: real)
    requires largest > 0.0 && more >= part
    requires NeverFalls(part, whole, gap, CostAt(cost, part, whole, whole, gap, batch), largest)
    ensures Saturated(CostAt(cost, part, more, whole, gap, batch), largest) >= Saturated(cost, largest)
  {
    if gap >= 0.0 {
      ChangeUp(Moved(part, more, whole), gap, batch);
      SaturatedMonotone(cost, CostAt(cost, part, more, whole, gap, batch), largest);
    } else if Clamp(part) < Clamp(whole) {
      ChangeDown(Moved(part, more, whole), Moved(part, whole, whole), gap, batch);
      SaturatedMonotone(CostAt(cost, part, whole, whole, gap, batch), CostAt(cost, part, more, whole, gap, batch), largest);
    } else {
      assert Moved(part, more, whole) == 0;
    }
  }

  lemma ShareFalls(cost: real, part: int, whole: int, gap: real, batch: bool, largest: real)
    requires largest > 0.0 && CostAt(cost, part, whole, whole, gap, batch) >= 0.0
    requires !NeverFalls(part, whole, gap, CostAt(cost, part, whole, whole, gap, batch), largest)
    ensures whole >= part && Saturated(CostAt(cost, part, whole, whole, gap, batch), largest) < Saturated(cost, largest)
  {
    ChangeDown(0, Moved(part, whole, whole), gap, batch);
  }

  lemma SameTotal(reg: Registry, a: CostInput, b: CostInput)
    requires b == a.(counts := b.counts) && (a.iterations != [] || PricingFor(reg, a.model) == None)
    ensures Total(reg, a) == Total(reg, b)
  {
    IterationsDepend(reg, a, b, a.iterations);
    SearchInfoDepends(reg, a, b, a.iterations);
  }

  /** At the top level only the tokens' cost moves. */
  lemma TopLevelTotal(reg: Registry, a: CostInput, b: CostInput)
    requires b == a.(counts := b.counts) && a.iterations == [] && PricingFor(reg, a.model).Some?
    ensures var info := PricingFor(reg, a.model).value;
            Total(reg, b) - Total(reg, a) == TokenCost(info, b.counts, a.batch) - TokenCost(info, a.counts, a.batch)
  {
  }

  lemma ShareMonotoneIff(reg: Registry, input: CostInput, next: int -> CostInput, part: int, whole: int, gap: real, largest: real)
    requires largest > 0.0
    requires forall more :: Total(reg, next(more)) == CostAt(Total(reg, input), part, more, whole, gap, input.batch)
    ensures (forall more | more >= part :: Estimate(reg, next(more), largest) >= Estimate(reg, input, largest)) <==>
            NeverFalls(part, whole, gap, Total(reg, next(whole)), largest)
  {
    CostNonNegative(reg, next(whole));
    if NeverFalls(part, whole, gap, Total(reg, next(whole)), largest) {
      forall more | more >= part ensures Estimate(reg, next(more), largest) >= Estimate(reg, input, largest) {
        ShareRises(Total(reg, input), part, more, whole, gap, input.batch, largest);
      }
    } else {
      ShareFalls(Total(reg, input), part, whole, gap, input.batch, largest);
      assert Estimate(reg, next(whole), largest) < Estimate(reg, input, largest);
    }
  }

  /**
   Raising the one-hour share alone never lowers an estimate exactly when no top-level tokens are
   priced, or the share is capped, priced no lower, or saturates the estimate even at its largest.
   */
  lemma OneHourShareMonotoneIff(reg: Registry, input: CostInput, largest: real)
    requires largest > 0.0
    ensures (forall more | more >= input.counts.cacheWrite1h ::
               Estimate(reg, WithOneHour(input, more), largest) >= Estimate(reg, input, largest)) <==>
            (input.iterations == [] && PricingFor(reg, input.model).Some? ==>
               NeverFalls(input.counts.cacheWrite1h, input.counts.cacheWrite, WriteGap(PricingFor(reg, input.model).value),
                          Total(reg, WithOneHour(input, input.counts.cacheWrite)), largest))
  {
    var c, next := input.counts, (more: int) => WithOneHour(input, more);
    forall more ensures next(more) == WithOneHour(input, more) {}
    if input.iterations == [] && PricingFor(reg, input.model).Some? {
      var info := PricingFor(reg, input.model).value;
      forall more ensures Total(reg, next(more))
                          == CostAt(Total(reg, input), c.cacheWrite1h, more, c.cacheWrite, WriteGap(info), input.batch) {
        TopLevelTotal(reg, input, next(more));
        OneHourMoves(info, c, more, input.batch);
      }
      ShareMonotoneIff(reg, input, next, c.cacheWrite1h, c.cacheWrite, WriteGap(info), largest);
    } else {
      forall more ensures Total(reg, WithOneHour(input, more)) == Total(reg, input) {
        SameTotal(reg, input, WithOneHour(input, more));
      }
    }
  }

  /** The same for the audio share, which the promise asks to raise together with the input. */
  lemma AudioShareMonotoneIff(reg: Registry, input: CostInput, largest: real)
    requires largest > 0.0
    ensures (forall more | more >= input.counts.audio ::
               Estimate(reg, WithAudio(input, more), largest) >= Estimate(reg, input, largest)) <==>
            (input.iterations == [] && PricingFor(reg, input.model).Some? ==>
               NeverFalls(input.counts.audio, input.counts.input, AudioGap(PricingFor(reg, input.model).value),
                          Total(reg, WithAudio(input, input.counts.input)), largest))
  {
    var c, next := input.counts, (more: int) => WithAudio(input, more);
    forall more ensures next(more) == WithAudio(input, more) {}
    if input.iterations == [] && PricingFor(reg, input.model).Some? {
      var info := PricingFor(reg, input.model).value;
      forall more ensures Total(reg, next(more))
                          == CostAt(Total(reg, input), c.audio, more, c.input, AudioGap(info), input.batch) {
        TopLevelTotal(reg, input, next(more));
        AudioMoves(info, c, more, input.batch);
      }
      ShareMonotoneIff(reg, input, next, c.audio, c.input, AudioGap(info), largest);
    } else {
      forall more ensures Total(reg, WithAudio(input, more)) == Total(reg, input) {
        SameTotal(reg, input, WithAudio(input, more));
      }
    }
  }

  function WithOneHourAt(input: CostInput, k: nat, share: int): CostInput
    requires k < |input.iterations|
  {
    input.(iterations := input.iterations[k := input.iterations[k].(cacheWrite1h := share)])
  }

  lemma {:induction false} IterationsReplaced(reg: Registry, a: CostInput, b: CostInput, its: seq<Iteration>, k: nat, it: Iteration)
    requires k < |its| && a.model == b.model && a.batch == b.batch
    ensures IterationsCost(reg, b, its[k := it]) - IterationsCost(reg, a, its)
            == IterationCost(reg, a, it) - IterationCost(reg, a, its[k])
  {
    var n := |its| - 1;
    if k == n {
      assert its[k := it][..n] == its[..n];
      IterationsDepend(reg, b, a, its[..n]);
    } else {
      assert its[k := it][..n] == its[..n][k := it];
      IterationsReplaced(reg, a, b, its[..n], k, it);
    }
  }

  lemma OneHourMovesAt(reg: Registry, input: CostInput, k: nat, more: int)
    requires k < |input.iterations| && PricingFor(reg, ModelOf(input, input.iterations[k])).Some?
    ensures var it := input.iterations[k];
            var info := PricingFor(reg, ModelOf(input, it)).value;
            Total(reg, WithOneHourAt(input, k, more))
            == CostAt(Total(reg, input), it.cacheWrite1h, more, it.cacheWrite, WriteGap(info), input.batch)
  {
    var it, b := input.iterations[k], WithOneHourAt(input, k, more);
    IterationsReplaced(reg, input, b, input.iterations, k, it.(cacheWrite1h := more));
    SearchInfoByModels(reg, input, b, input.iterations, b.iterations);
    OneHourMoves(PricingFor(reg, ModelOf(input, it)).value, CountsOf(it), more, input.batch);
  }

  lemma UnpricedAt(reg: Registry, input: CostInput, k: nat, more: int)
    requires k < |input.iterations| && PricingFor(reg, ModelOf(input, input.iterations[k])) == None
    ensures Total(reg, WithOneHourAt(input, k, more)) == Total(reg, input)
  {
    var it, b := input.iterations[k], WithOneHourAt(input, k, more);
    IterationsReplaced(reg, input, b, input.iterations, k, it.(cacheWrite1h := more));
    SearchInfoByModels(reg, input, b, input.iterations, b.iterations);
  }

  /** The same for the one-hour share of one iteration, at that iteration's model. */
  lemma IterationShareMonotoneIff(reg: Registry, input: CostInput, k: nat, largest: real)
    requires largest > 0.0 && k < |input.iterations|
    ensures var it := input.iterations[k];
            (forall more | more >= it.cacheWrite1h ::
               Estimate(reg, WithOneHourAt(input, k, more), largest) >= Estimate(reg, input, largest)) <==>
            (PricingFor(reg, ModelOf(input, it)).Some? ==>
               NeverFalls(it.cacheWrite1h, it.cacheWrite, WriteGap(PricingFor(reg, ModelOf(input, it)).value),
                          Total(reg, WithOneHourAt(input, k, it.cacheWrite)), largest))
  {
    var it, next := input.iterations[k], (more: int) => WithOneHourAt(input, k, more);
    forall more ensures next(more) == WithOneHourAt(input, k, more) {}
    if PricingFor(reg, ModelOf(input, it)).Some? {
      var info := PricingFor(reg, ModelOf(input, it)).value;
      forall more ensures Total(reg, next(more))
                          == CostAt(Total(reg, input), it.cacheWrite1h, more, it.cacheWrite, WriteGap(info), input.batch) {
        OneHourMovesAt(reg, input, k, more);
      }
      ShareMonotoneIff(reg, input, next, it.cacheWrite1h, it.cacheWrite, WriteGap(info), largest);
    } else {
      forall more ensures Total(reg, WithOneHourAt(input, k, more)) == Total(reg, input) {
        UnpricedAt(reg, input, k, more);
      }
    }
  }

  /** Moving tokens from one price to another changes the cost by their difference. */
  lemma Shifted(a: int, b: int, moved: int, p: Float, q: Float)
    ensures (PerToken(a - moved, p) + PerToken(b + moved, q)) - (PerToken(a, p) + PerToken(b, q))
            == moved as real * (Sanitized(q) - Sanitized(p)) / 1_000_000.0
  {
    var x, y, m := Sanitized(p), Sanitized(q), moved as real;
    assert (a - moved) as real * x == a as real * x - m * x;
    assert (b + moved) as real * y == b as real * y + m * y;
    assert m * (y - x) == m * y - m * x;
  }

  // ---------------------------------------------------------------------------------------------
  // Batches
  // ---------------------------------------------------------------------------------------------

  lemma {:induction false} IterationsBatch(reg: Registry, input: CostInput, its: seq<Iteration>)
    ensures IterationsCost(reg, input.(batch := true), its) == IterationsCost(reg, input.(batch := false), its) / 2.0
  {
    if its != [] {
      IterationsBatch(reg, input, its[..|its| - 1]);
    }
  }

  /** A batch pays exactly half for its tokens and in full for its searches. */
  lemma BatchHalvesTokens(reg: Registry, input: CostInput)
    ensures TokenPart(reg, input.(batch := true)) == TokenPart(reg, input.(batch := false)) / 2.0
    ensures SearchPart(reg, input.(batch := true)) == SearchPart(reg, input.(batch := false))
  {
    IterationsBatch(reg, input, input.iterations);
    SearchInfoDepends(reg, input.(batch := true), input.(batch := false), input.iterations);
  }

  // ---------------------------------------------------------------------------------------------
  // Appending iterations
  // ---------------------------------------------------------------------------------------------

  function Appended(input: CostInput, it: Iteration): CostInput {
    input.(iterations := input.iterations + [it])
  }

  lemma {:induction false} IterationsDepend(reg: Registry, a: CostInput, b: CostInput, its: seq<Iteration>)
    requires a.model == b.model && a.batch == b.batch
    ensures IterationsCost(reg, a, its) == IterationsCost(reg, b, its)
  {
    if its != [] {
      IterationsDepend(reg, a, b, its[..|its| - 1]);
    }
  }

  lemma AppendedParts(reg: Registry, input: CostInput, it: Iteration)
    ensures TokenPart(reg, Appended(input, it)) == IterationsCost(reg, input, input.iterations) + IterationCost(reg, input, it)
    ensures SearchPart(reg, Appended(input, it)) >= SearchPart(reg, input)
  {
    var next := Appended(input, it);
    DropAppended(input.iterations, it);
    IterationsDepend(reg, next, input, input.iterations);
    SearchInfoDepends(reg, next, input, input.iterations);
    SearchNonNegative(reg, next);
  }

  /** A further iteration never lowers a cost that is already priced by iterations. */
  lemma IterationsMonotone(reg: Registry, input: CostInput, it: Iteration, largest: real)
    requires largest > 0.0 && input.iterations != []
    ensures Total(reg, Appended(input, it)) >= Total(reg, input)
    ensures Estimate(reg, Appended(input, it), largest) >= Estimate(reg, input, largest)
  {
    AppendedParts(reg, input, it);
    IterationNonNegative(reg, input, it);
    SaturatedMonotone(Total(reg, input), Total(reg, Appended(input, it)), largest);
  }

  const NO_TOKENS := Iteration("", 0, 0, 0, 0, 0)

  lemma NoTokensCostNothing(reg: Registry, input: CostInput)
    ensures IterationCost(reg, input, NO_TOKENS) == 0.0
    ensures input.iterations == [] ==> SearchPart(reg, Appended(input, NO_TOKENS)) == SearchPart(reg, input)
  {
    DropAppended(input.iterations, NO_TOKENS);
    SearchInfoDepends(reg, Appended(input, NO_TOKENS), input, input.iterations);
  }

  lemma FirstIterationKeeps(reg: Registry, input: CostInput, it: Iteration, largest: real)
    requires largest > 0.0 && input.iterations == [] && (TokenPart(reg, input) == 0.0 || SearchPart(reg, input) >= largest)
    ensures TokenPart(reg, input) == 0.0 ==> Total(reg, Appended(input, it)) >= Total(reg, input)
    ensures Estimate(reg, Appended(input, it), largest) >= Estimate(reg, input, largest)
  {
    AppendedParts(reg, input, it);
    IterationNonNegative(reg, input, it);
  }

  /**
   The first iteration replaces the top-level tokens: whatever it is, it never lowers the cost exactly
   when those tokens cost nothing, nor the estimate exactly then or when the searches saturate it.
   */
  lemma FirstIterationMonotoneIff(reg: Registry, input: CostInput, largest: real)
    requires largest > 0.0 && input.iterations == []
    ensures (forall it :: Total(reg, Appended(input, it)) >= Total(reg, input)) <==> TokenPart(reg, input) == 0.0
    ensures (forall it :: Estimate(reg, Appended(input, it), largest) >= Estimate(reg, input, largest)) <==>
            TokenPart(reg, input) == 0.0 || SearchPart(reg, input) >= largest
  {
    CostNonNegative(reg, input);
    AppendedParts(reg, input, NO_TOKENS);
    NoTokensCostNothing(reg, input);
    if TokenPart(reg, input) == 0.0 || SearchPart(reg, input) >= largest {
      forall it
        ensures TokenPart(reg, input) == 0.0 ==> Total(reg, Appended(input, it)) >= Total(reg, input)
        ensures Estimate(reg, Appended(input, it), largest) >= Estimate(reg, input, largest)
      {
        FirstIterationKeeps(reg, input, it, largest);
      }
    }
  }

  // ---------------------------------------------------------------------------------------------
  // Prompts split by the adapters
  // ---------------------------------------------------------------------------------------------

  function PromptCounts(uncached: int, cached: int): Counts {
    Counts(uncached, 0, 0, 0, cached, 0, 0, Finite(0.0))
  }

  /** A prompt of `total` tokens, `cached` of them read from the cache, priced once per token. */
  lemma SplitIsPricedOnce(info: ModelInfo, uncached: int, cached: int)
    requires uncached >= 0 && cached >= 0
    ensures TokenCost(info, PromptCounts(uncached, cached), false)
            == TokenCost(info, PromptCounts(uncached + cached, 0), false)
               + cached as real * (Sanitized(CacheReadPrice(info)) - Sanitized(info.input)) / 1_000_000.0
  {
    Shifted(uncached + cached, 0, cached, info.input, CacheReadPrice(info));
  }

  /**
   The OpenAI adapters' counts price every prompt token once: what the split saves on the whole
   prompt is exactly the cache discount on its cached share, and nothing without a cache price.
   */
  lemma AdaptersPriceOnce(info: ModelInfo, total: int, cached: int)
    ensures var (u, c) := ResponsesStream.Split(total, cached);
            && ChatStream.SplitPrompt(total, cached) == (u, c) && u + c == Clamp(total)
            && TokenCost(info, PromptCounts(u, c), false)
               == TokenCost(info, PromptCounts(Clamp(total), 0), false)
                  + c as real * (Sanitized(CacheReadPrice(info)) - Sanitized(info.input)) / 1_000_000.0
            && (Sanitized(info.cacheRead) == 0.0 ==>
                  TokenCost(info, PromptCounts(u, c), false) == TokenCost(info, PromptCounts(Clamp(total), 0), false))
  {
    var (u, c) := ResponsesStream.Split(total, cached);
    SplitIsPricedOnce(info, u, c);
  }
}
