/** Execution policy and the intents a decision provider may return. */
module Intents {
  import opened Results
  import opened Texts
  import opened Timeframes
  import opened MathRules

  datatype Direction = Long | Short

  datatype PolicyError = BadEquity | BadFee | BadSlippage | BadTick | BadStep | BadMinimumQuantity | BadMinimumNotional

  datatype PolicyFields = PolicyFields(
    initialEquity: real,
    takerFeeBps: real,
    marketSlippageBps: real,
    tickSize: real,
    quantityStep: real,
    minimumQuantity: real,
    minimumNotional: real,
    forceCloseAtEnd: bool)
  {
    predicate Valid() {
      && 0.0 < initialEquity
      && 0.0 <= takerFeeBps
      && 0.0 <= marketSlippageBps < 10000.0
      && 0.0 < tickSize && 0.0 < quantityStep
      && 0.0 < minimumQuantity && 0.0 <= minimumNotional
    }
  }

  type Policy = p: PolicyFields | p.Valid() witness PolicyFields(1.0, 0.0, 0.0, 1.0, 1.0, 1.0, 0.0, true)

  function MakePolicy(p: PolicyFields): (r: Result<Policy, PolicyError>)
    ensures r.Ok? <==> p.Valid()
    ensures r.Ok? ==> r.value == p
  {
    if p.initialEquity <= 0.0 then Err(BadEquity)
    else if p.takerFeeBps < 0.0 then Err(BadFee)
    else if p.marketSlippageBps < 0.0 || p.marketSlippageBps >= 10000.0 then Err(BadSlippage)
    else if p.tickSize <= 0.0 then Err(BadTick)
    else if p.quantityStep <= 0.0 then Err(BadStep)
    else if p.minimumQuantity <= 0.0 then Err(BadMinimumQuantity)
    else if p.minimumNotional < 0.0 then Err(BadMinimumNotional)
    else Ok(p)
  }

  datatype IntentError =
    | UntrimmedId
    | NonPositiveQuantity
    | NonPositiveStop
    | NonPositiveTarget
    | NonPositiveFill
    | BelowMinimumQuantity
    | QuantityOffStep
    | BadLongBracket
    | BadShortBracket

  datatype EnterIntent = EnterIntent(
    intentId: string,
    decisionOpenTime: Instant,
    direction: Direction,
    quantity: real,
    stopLoss: real,
    takeProfit: real)

  datatype ExitIntent = ExitIntent(intentId: string, decisionOpenTime: Instant)

  datatype Intent = Enter(enter: EnterIntent) | Exit(exit: ExitIntent)

  function ValidateIntentId(id: string): Result<(), IntentError> {
    if id == "" || !IsTrimmed(id) then Err(UntrimmedId) else Ok(())
  }

  function ValidateIntrinsic(e: EnterIntent): Result<(), IntentError> {
    var _ :- ValidateIntentId(e.intentId);
    if e.quantity <= 0.0 then Err(NonPositiveQuantity)
    else if e.stopLoss <= 0.0 then Err(NonPositiveStop)
    else if e.takeProfit <= 0.0 then Err(NonPositiveTarget)
    else Ok(())
  }

  function ValidateForPolicy(e: EnterIntent, policy: Policy): Result<(), IntentError> {
    var _ :- ValidateIntrinsic(e);
    if e.quantity < policy.minimumQuantity then Err(BelowMinimumQuantity)
    else if !IsQuantityAligned(e.quantity, policy.quantityStep) then Err(QuantityOffStep)
    else Ok(())
  }

  function ValidateBrackets(e: EnterIntent, fill: real): Result<(), IntentError> {
    if fill <= 0.0 then Err(NonPositiveFill)
    else if e.stopLoss <= 0.0 then Err(NonPositiveStop)
    else if e.takeProfit <= 0.0 then Err(NonPositiveTarget)
    else if e.direction.Long? && !(e.stopLoss < fill < e.takeProfit) then Err(BadLongBracket)
    else if e.direction.Short? && !(e.takeProfit < fill < e.stopLoss) then Err(BadShortBracket)
    else Ok(())
  }
}
