/** Local cost estimates in micro-currency units, rounded half up with checked 128-bit arithmetic. */
module Cost {
  import opened Prelude
  import opened Usage

  /** Prices per million tokens; version, source and currency labels are copied, not computed. */
  datatype PriceProfile = PriceProfile(inputRate: u64, outputRate: u64, cachedInputRate: u64, cacheWriteRate: u64)

  datatype MoneyAmount = UnknownAmount | Micros(micros: int)

  datatype CostEstimate = CostEstimate(
    input: MoneyAmount,
    output: MoneyAmount,
    cachedInput: MoneyAmount,
    cacheWrite: MoneyAmount,
    total: MoneyAmount)

  /** A 128-bit result, or none on overflow; nothing here is negative. */
  function Checked(n: int): Option<int> { if n > I128_MAX then None else Some(n) }

  function RoundMicros(tokens: u64, rate: u64): Result<int, CostError> { Rounded(tokens * rate) }

  function Rounded(product: int): Result<int, CostError> {
    if Checked(product).None? then Err(ItemOverflow)
    else
      var shifted := Checked(product + 500_000);
      if shifted.None? then Err(ItemOverflow) else Ok(shifted.value / 1_000_000)
  }

  function PricedTokens(tokens: TokenCount, rate: u64): Result<MoneyAmount, CostError> {
    match tokens
    case Unknown => Ok(UnknownAmount)
    case Known(n) =>
      var rounded := RoundMicros(n, rate);
      if rounded.Err? then Err(rounded.error) else Ok(Micros(rounded.value))
  }

  /** Input tokens that are neither cached nor written to the cache, when that is known. */
  function Uncached(u: UsageDetails): Result<TokenCount, CostError> {
    match (u.input, u.cachedInput, u.cacheWrite)
    case (Known(input), Known(cached), Known(write)) =>
      if input < cached || input - cached < write then Err(SubsetsExceedInput) else Ok(Known(input - cached - write))
    case (Known(input), Unknown, Unknown) => Ok(Known(input))
    case _ => Ok(Unknown)
  }

  function Sum(a: MoneyAmount, b: MoneyAmount, c: MoneyAmount, d: MoneyAmount): Result<MoneyAmount, CostError> {
    if a.UnknownAmount? || b.UnknownAmount? || c.UnknownAmount? || d.UnknownAmount? then Ok(UnknownAmount)
    else if Checked(a.micros + b.micros).None? then Err(TotalOverflow)
    else if Checked(a.micros + b.micros + c.micros).None? then Err(TotalOverflow)
    else if Checked(a.micros + b.micros + c.micros + d.micros).None? then Err(TotalOverflow)
    else Ok(Micros(a.micros + b.micros + c.micros + d.micros))
  }

  function EstimateCost(u: UsageDetails, price: Option<PriceProfile>): Result<CostEstimate, CostError> {
    var invalid := ValidateRelationships(u);
    if invalid.Some? then Err(invalid.value)
    else if price.None? then Ok(CostEstimate(UnknownAmount, UnknownAmount, UnknownAmount, UnknownAmount, UnknownAmount))
    else
      var p := price.value;
      var cached := PricedTokens(u.cachedInput, p.cachedInputRate);
      if cached.Err? then Err(cached.error) else
      var write := PricedTokens(u.cacheWrite, p.cacheWriteRate);
      if write.Err? then Err(write.error) else
      var output := PricedTokens(u.output, p.outputRate);
      if output.Err? then Err(output.error) else
      var uncached := Uncached(u);
      if uncached.Err? then Err(uncached.error) else
      var input := PricedTokens(uncached.value, p.inputRate);
      if input.Err? then Err(input.error) else
      var total := Sum(input.value, output.value, cached.value, write.value);
      if total.Err? then Err(total.error)
      else Ok(CostEstimate(input.value, output.value, cached.value, write.value, total.value))
  }

  // ---------------------------------------------------------------- rounding

  /** `micros` is the price `exact` / 10^6, rounded to the nearest micro, halves upward. */
  predicate RoundedTo(micros: int, exact: int) {
    exact - 500_000 < micros * 1_000_000 <= exact + 500_000
  }

  predicate Fits(tokens: TokenCount, rate: u64) { tokens.Known? ==> tokens.tokens * rate + 500_000 <= I128_MAX }

  lemma RoundedMeans(product: nat)
    ensures Rounded(product).Ok? <==> product + 500_000 <= I128_MAX
    ensures Rounded(product).Ok? ==>
              RoundedTo(Rounded(product).value, product) && 0 <= Rounded(product).value <= I128_MAX / 1_000_000
  {
  }

  lemma ProductNonNegative(a: nat, b: nat)
    ensures a * b >= 0
  {
  }

  lemma RoundMicrosMeans(tokens: u64, rate: u64)
    ensures RoundMicros(tokens, rate).Ok? <==> tokens * rate + 500_000 <= I128_MAX
    ensures RoundMicros(tokens, rate).Ok? ==> RoundedTo(RoundMicros(tokens, rate).value, tokens * rate)
    ensures RoundMicros(tokens, rate).Ok? ==> 0 <= RoundMicros(tokens, rate).value <= I128_MAX / 1_000_000
  {
    ProductNonNegative(tokens, rate);
    RoundedMeans(tokens * rate);
  }

  /** A line item is unknown without a count, and otherwise the count's price to the nearest micro. */
  predicate PricedAs(amount: MoneyAmount, tokens: TokenCount, rate: u64) {
    match tokens
    case Unknown => amount.UnknownAmount?
    case Known(n) => amount.Micros? && RoundedTo(amount.micros, n * rate) && 0 <= amount.micros <= I128_MAX / 1_000_000
  }

  lemma PricedTokensMeans(tokens: TokenCount, rate: u64)
    ensures PricedTokens(tokens, rate).Ok? <==> Fits(tokens, rate)
    ensures PricedTokens(tokens, rate).Ok? ==> PricedAs(PricedTokens(tokens, rate).value, tokens, rate)
    ensures PricedTokens(tokens, rate).Err? ==> PricedTokens(tokens, rate).error == ItemOverflow
  {
    if tokens.Known? { RoundMicrosMeans(tokens.tokens, rate); }
  }

  // ---------------------------------------------------------------- the estimate

  /** After validation the subsets fit, so the remainder is exact. */
  lemma UncachedMeans(u: UsageDetails)
    requires Consistent(u)
    ensures Uncached(u).Ok?
    ensures Uncached(u).value.Known? <==> u.input.Known? && u.cachedInput.Known? == u.cacheWrite.Known?
    ensures Uncached(u).value.Known? ==>
              Uncached(u).value.tokens + OrZero(u.cachedInput) + OrZero(u.cacheWrite) == u.input.tokens
  {
  }

  /** Four items cannot overflow the total. */
  lemma SumMeans(a: MoneyAmount, b: MoneyAmount, c: MoneyAmount, d: MoneyAmount)
    requires forall m :: m in {a, b, c, d} && m.Micros? ==> 0 <= m.micros <= I128_MAX / 1_000_000
    ensures Sum(a, b, c, d).Ok?
    ensures Sum(a, b, c, d).value.Micros? <==> a.Micros? && b.Micros? && c.Micros? && d.Micros?
    ensures Sum(a, b, c, d).value.Micros? ==> Sum(a, b, c, d).value.micros == a.micros + b.micros + c.micros + d.micros
  {
    assert a in {a, b, c, d} && b in {a, b, c, d} && c in {a, b, c, d} && d in {a, b, c, d};
  }

  /** Every priced item fits 128 bits. */
  predicate AllFit(u: UsageDetails, p: PriceProfile) {
    && Fits(u.cachedInput, p.cachedInputRate) && Fits(u.cacheWrite, p.cacheWriteRate) && Fits(u.output, p.outputRate)
    && (Uncached(u).Ok? ==> Fits(Uncached(u).value, p.inputRate))
  }

  /**
   An estimate exists exactly for consistent usage whose items fit; the checks for exceeding
   subsets and for an overflowing total never fire. Each item is priced to the nearest micro.
   */
  lemma EstimateMeans(u: UsageDetails, p: PriceProfile)
    ensures EstimateCost(u, Some(p)).Ok? <==> Consistent(u) && AllFit(u, p)
    ensures EstimateCost(u, Some(p)).Err? ==>
              EstimateCost(u, Some(p)).error.Inconsistent? || EstimateCost(u, Some(p)).error.ItemOverflow?
    ensures EstimateCost(u, Some(p)).Ok? ==>
              var e := EstimateCost(u, Some(p)).value;
              && PricedAs(e.cachedInput, u.cachedInput, p.cachedInputRate)
              && PricedAs(e.cacheWrite, u.cacheWrite, p.cacheWriteRate)
              && PricedAs(e.output, u.output, p.outputRate)
              && PricedAs(e.input, Uncached(u).value, p.inputRate)
              && (e.total.Micros? <==>
                    e.input.Micros? && e.output.Micros? && e.cachedInput.Micros? && e.cacheWrite.Micros?)
              && (e.total.Micros? ==>
                    e.total.micros == e.input.micros + e.output.micros + e.cachedInput.micros + e.cacheWrite.micros)
  {
    ValidateMeansConsistent(u);
    PricedTokensMeans(u.cachedInput, p.cachedInputRate);
    PricedTokensMeans(u.cacheWrite, p.cacheWriteRate);
    PricedTokensMeans(u.output, p.outputRate);
    if Consistent(u) {
      UncachedMeans(u);
      PricedTokensMeans(Uncached(u).value, p.inputRate);
      if AllFit(u, p) {
        SumMeans(PricedTokens(Uncached(u).value, p.inputRate).value, PricedTokens(u.output, p.outputRate).value,
                 PricedTokens(u.cachedInput, p.cachedInputRate).value,
                 PricedTokens(u.cacheWrite, p.cacheWriteRate).value);
      }
    }
  }

  /** A known total is within two micros of the exact price of all tokens, each counted once. */
  lemma TotalWithinTwoMicros(u: UsageDetails, p: PriceProfile)
    requires EstimateCost(u, Some(p)).Ok? && EstimateCost(u, Some(p)).value.total.Micros?
    ensures u.input.Known? && u.output.Known? && u.cachedInput.Known? && u.cacheWrite.Known?
    ensures var uncached := u.input.tokens - u.cachedInput.tokens - u.cacheWrite.tokens;
            var exact := uncached * p.inputRate + u.output.tokens * p.outputRate
                         + u.cachedInput.tokens * p.cachedInputRate + u.cacheWrite.tokens * p.cacheWriteRate;
            var total := EstimateCost(u, Some(p)).value.total.micros;
            uncached >= 0 && exact - 2_000_000 < total * 1_000_000 <= exact + 2_000_000
  {
    EstimateMeans(u, p);
    UncachedMeans(u);
  }

  /** Without a price nothing is claimed, but inconsistent usage is still refused. */
  lemma NoPriceNoClaim(u: UsageDetails)
    ensures EstimateCost(u, None).Ok? <==> Consistent(u)
    ensures EstimateCost(u, None).Ok? ==>
              var e := EstimateCost(u, None).value;
              && e.input.UnknownAmount? && e.output.UnknownAmount? && e.cachedInput.UnknownAmount?
              && e.cacheWrite.UnknownAmount? && e.total.UnknownAmount?
  {
    ValidateMeansConsistent(u);
  }
}
