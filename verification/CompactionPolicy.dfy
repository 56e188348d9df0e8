/** When the model context is compacted: the policy, the usage estimate and the threshold decision,
    in the source's saturating unsigned arithmetic. */
module CompactionPolicy {
  import opened Wrappers
  import opened Text

  function SaturatingMul(a: nat, b: nat): nat { Min(a * b, U64_MAX) }

  function SaturatingAdd(a: nat, b: nat): nat { Min(a + b, U64_MAX) }

  datatype Policy = Policy(
    enabled: bool,
    autoEnabled: bool,
    strategyId: string,
    window: nat,
    compactAtPercent: nat,
    targetPercent: nat)
  {
    function TargetTokens(): nat {
      SaturatingMul(window, targetPercent) / 100
    }
  }

  datatype PolicyError = EmptyStrategyId | EmptyWindow | CompactAtOutOfRange | TargetNotBelowCompactAt

  function Validate(p: Policy): Option<PolicyError> {
    if IsBlank(p.strategyId) then Some(EmptyStrategyId)
    else if p.window == 0 then Some(EmptyWindow)
    else if !(1 <= p.compactAtPercent <= 100) then Some(CompactAtOutOfRange)
    else if p.targetPercent >= p.compactAtPercent then Some(TargetNotBelowCompactAt)
    else None
  }

  datatype UsageSource = Provider | ConservativeEstimate

  datatype Usage = Usage(inputTokens: nat, window: nat, fillPercent: nat, source: UsageSource)

  function FillPercent(input: nat, window: nat): nat {
    if window == 0 then 100
    else Min(SaturatingAdd(SaturatingMul(input, 100), window - 1) / window, 100)
  }

  function NewUsage(input: nat, window: nat, source: UsageSource): Usage {
    Usage(input, window, FillPercent(input, window), source)
  }

  /** The conservative estimate of three serialized bytes per token. */
  function EstimatedTokens(bytes: nat): nat {
    SaturatingAdd(bytes, 2) / 3
  }

  datatype Decision = Disabled | BelowThreshold(usage: Usage) | Compact(usage: Usage)

  datatype DecideError = InvalidPolicy(error: PolicyError) | WindowMismatch

  function DecideForProjection(policy: Option<Policy>, usage: Usage): Result<Decision, DecideError> {
    if policy.None? then Ok(Disabled)
    else
      var p := policy.value;
      if Validate(p).Some? then Err(InvalidPolicy(Validate(p).value))
      else if !p.enabled || !p.autoEnabled then Ok(Disabled)
      else if usage.window != p.window then Err(WindowMismatch)
      else if usage.fillPercent >= p.compactAtPercent then Ok(Compact(usage))
      else Ok(BelowThreshold(usage))
  }

  function Decide(policy: Option<Policy>, providerTokens: Option<nat>, bytes: nat): Result<Decision, DecideError> {
    if policy.None? then Ok(Disabled)
    else
      var p := policy.value;
      if Validate(p).Some? then Err(InvalidPolicy(Validate(p).value))
      else if !p.enabled || !p.autoEnabled then Ok(Disabled)
      else DecideForProjection(policy, UsageOf(p, providerTokens, bytes))
  }

  function UsageOf(p: Policy, providerTokens: Option<nat>, bytes: nat): Usage {
    if providerTokens.Some? then NewUsage(providerTokens.value, p.window, Provider)
    else NewUsage(EstimatedTokens(bytes), p.window, ConservativeEstimate)
  }

  // Arithmetic

  function CeilDiv(a: nat, b: nat): nat
    requires b > 0
  {
    (a + b - 1) / b
  }

  lemma CeilDivIsCeiling(a: nat, b: nat, q: nat)
    requires b > 0
    ensures CeilDiv(a, b) <= q <==> a <= q * b
  {
    var d := CeilDiv(a, b);
    QuotientBounds(a + b - 1, b);
    if d <= q {
      MulMonotone(d, q, b);
    } else {
      MulMonotone(q + 1, d, b);
    }
  }

  lemma QuotientBounds(a: nat, b: nat)
    requires b > 0
    ensures a / b * b <= a < (a / b + 1) * b
  {
  }

  lemma MulMonotone(a: nat, b: nat, c: nat)
    requires a <= b
    ensures a * c <= b * c
  {
  }

  lemma QuotientAtLeast(a: nat, b: nat, k: nat)
    requires b > 0
    ensures a / b >= k <==> a >= k * b
  {
    QuotientBounds(a, b);
    if a / b >= k {
      MulMonotone(k, a / b, b);
    } else {
      MulMonotone(a / b + 1, k, b);
    }
  }

  /** For every input and window: the fill reaches a percentage exactly when the true usage does and
      that percentage of the window is representable. */
  lemma FillReachesIff(input: nat, window: nat, percent: nat)
    requires window > 0 && 1 <= percent <= 100
    ensures FillPercent(input, window) >= percent <==>
            100 * input > (percent - 1) * window && percent * window <= U64_MAX
  {
    var sum := SaturatingAdd(SaturatingMul(input, 100), window - 1);
    assert sum == Min(100 * input + window - 1, U64_MAX);
    QuotientAtLeast(sum, window, percent);
    assert percent * window == (percent - 1) * window + window;
  }

  /** The true fill: the percentage rounded up, at most 100. */
  function TrueFill(input: nat, window: nat): nat
    requires window > 0
  {
    Min(CeilDiv(100 * input, window), 100)
  }

  lemma TrueFillReachesIff(input: nat, window: nat, percent: nat)
    requires window > 0 && 1 <= percent <= 100
    ensures TrueFill(input, window) >= percent <==> 100 * input > (percent - 1) * window
  {
    CeilDivIsCeiling(100 * input, window, percent - 1);
  }

  /** The fill never overstates.  It is exact for every window up to `U64_MAX / 100`, and beyond that
      exactly while a hundred times the input stays within the largest representable multiple of the
      window. */
  lemma FillIsExactIff(input: nat, window: nat)
    requires window > 0
    ensures FillPercent(input, window) <= TrueFill(input, window)
    ensures FillPercent(input, window) == TrueFill(input, window) <==>
            window <= U64_MAX / 100 || 100 * input <= U64_MAX / window * window
  {
    FillIsExactIffRepresentable(input, window);
    QuotientAtLeast(U64_MAX, window, TrueFill(input, window));
    QuotientAtLeast(U64_MAX, window, 100);
    QuotientAtLeast(U64_MAX, 100, window);
    CeilDivIsCeiling(100 * input, window, U64_MAX / window);
  }

  lemma FillIsExactIffRepresentable(input: nat, window: nat)
    requires window > 0
    ensures FillPercent(input, window) <= TrueFill(input, window)
    ensures FillPercent(input, window) == TrueFill(input, window) <==> TrueFill(input, window) * window <= U64_MAX
  {
    var code, truth := FillPercent(input, window), TrueFill(input, window);
    if code > 0 {
      FillReachesIff(input, window, code);
      TrueFillReachesIff(input, window, code);
    }
    if truth > 0 {
      FillReachesIff(input, window, truth);
      TrueFillReachesIff(input, window, truth);
    }
  }

  /** Beyond that bound a full window can be reported as one percent. */
  lemma FillCanUnderstate()
    ensures FillPercent(U64_MAX, U64_MAX) == 1 && TrueFill(U64_MAX, U64_MAX) == 100
  {
    FillReachesIff(U64_MAX, U64_MAX, 1);
    FillReachesIff(U64_MAX, U64_MAX, 2);
    TrueFillReachesIff(U64_MAX, U64_MAX, 100);
  }

  lemma FillIsMonotone(a: nat, b: nat, window: nat)
    requires a <= b
    ensures FillPercent(a, window) <= FillPercent(b, window) <= 100
    ensures window == 0 ==> FillPercent(a, window) == 100
  {
    if window > 0 && FillPercent(a, window) > 0 {
      FillReachesIff(a, window, FillPercent(a, window));
      FillReachesIff(b, window, FillPercent(a, window));
    }
  }

  /** The estimate is the byte count divided by three rounded up, for every 64-bit count: the largest
      one is itself a multiple of three, so the saturating addition loses nothing. */
  lemma EstimateIsCeiling(bytes: nat)
    requires bytes <= U64_MAX
    ensures EstimatedTokens(bytes) == CeilDiv(bytes, 3)
  {
  }

  // Decisions

  predicate Active(policy: Option<Policy>) {
    policy.Some? && Validate(policy.value).None? && policy.value.enabled && policy.value.autoEnabled
  }

  /** A policy is valid exactly when it names a strategy, has a window and aims below a threshold of at
      most the whole window; an error names the first of these that is wrong. */
  lemma PolicyIsValidIff(p: Policy)
    ensures Validate(p).None? <==> !IsBlank(p.strategyId) && p.window > 0 && p.targetPercent < p.compactAtPercent <= 100
    ensures Validate(p).Some? ==>
              match Validate(p).value
              case EmptyStrategyId => IsBlank(p.strategyId)
              case EmptyWindow => !IsBlank(p.strategyId) && p.window == 0
              case CompactAtOutOfRange =>
                !IsBlank(p.strategyId) && p.window > 0 && (p.compactAtPercent == 0 || p.compactAtPercent > 100)
              case TargetNotBelowCompactAt =>
                !IsBlank(p.strategyId) && p.window > 0 &&
                0 < p.compactAtPercent <= 100 && p.targetPercent >= p.compactAtPercent
  {
  }

  /** An active policy compacts exactly when the tokens in use, as the provider counts them or else one
      for every three bytes begun, are above the threshold's lower edge and the threshold itself is a
      representable number of token-percents; the decision reports those tokens. */
  lemma CompactsIff(policy: Option<Policy>, providerTokens: Option<nat>, bytes: nat)
    requires Active(policy)
    ensures var p := policy.value;
            var tokens := if providerTokens.Some? then providerTokens.value else CeilDiv(Min(bytes, U64_MAX), 3);
            var usage := Usage(tokens, p.window, FillPercent(tokens, p.window),
                               if providerTokens.Some? then Provider else ConservativeEstimate);
            Decide(policy, providerTokens, bytes) ==
            if 100 * tokens > (p.compactAtPercent - 1) * p.window && p.compactAtPercent * p.window <= U64_MAX
            then Ok(Compact(usage)) else Ok(BelowThreshold(usage))
  {
    var p := policy.value;
    EstimateIsCeiling(Min(bytes, U64_MAX));
    FillReachesIff(UsageOf(p, providerTokens, bytes).inputTokens, p.window, p.compactAtPercent);
  }

  /** A measured projection is decided on its own fill, but only against the window it was measured for. */
  lemma ProjectionIsDecidedIff(policy: Option<Policy>, usage: Usage)
    ensures DecideForProjection(policy, usage) == Err(WindowMismatch) <==>
            Active(policy) && usage.window != policy.value.window
    ensures DecideForProjection(policy, usage) == Ok(Compact(usage)) <==>
            && Active(policy) && usage.window == policy.value.window
            && usage.fillPercent >= policy.value.compactAtPercent
    ensures DecideForProjection(policy, usage) == Ok(BelowThreshold(usage)) <==>
            && Active(policy) && usage.window == policy.value.window
            && usage.fillPercent < policy.value.compactAtPercent
    ensures DecideForProjection(policy, usage) == Ok(Disabled) <==>
            policy.None? || (Validate(policy.value).None? && !Active(policy))
  {
  }

  /** A policy that is not active never compacts, and is an error exactly when it is malformed. */
  lemma InactiveNeverCompacts(policy: Option<Policy>, providerTokens: Option<nat>, bytes: nat)
    requires !Active(policy)
    ensures Decide(policy, providerTokens, bytes) ==
            if policy.Some? && Validate(policy.value).Some? then Err(InvalidPolicy(Validate(policy.value).value))
            else Ok(Disabled)
  {
  }

  /** The target is the target share of the window rounded down, exactly when that share stays below
      the first hundred the saturated product cannot reach. */
  lemma TargetIsExactIff(p: Policy, share: nat)
    requires 100 * share <= p.window * p.targetPercent < 100 * (share + 1)
    ensures p.TargetTokens() <= share
    ensures p.TargetTokens() == share <==> share <= U64_MAX / 100
  {
    var product := SaturatingMul(p.window, p.targetPercent);
    QuotientBounds(product, 100);
    QuotientBounds(U64_MAX, 100);
  }

  /** No thrash: whatever fits the compaction target is below the threshold, saturated or not. */
  lemma TargetIsBelowThreshold(policy: Option<Policy>, usage: Usage)
    requires Active(policy) && usage.window == policy.value.window
    requires usage.fillPercent == FillPercent(usage.inputTokens, usage.window)
    requires usage.inputTokens <= policy.value.TargetTokens()
    ensures DecideForProjection(policy, usage) == Ok(BelowThreshold(usage))
  {
    var p := policy.value;
    FillReachesIff(usage.inputTokens, p.window, p.compactAtPercent);
    QuotientBounds(SaturatingMul(p.window, p.targetPercent), 100);
    MulMonotone(p.targetPercent, p.compactAtPercent - 1, p.window);
  }
}
