/** The ETH to WETH wrap form (src/components/wrap-eth/index.tsx): the
    gas-fee selection, the estimated cost in wei, and the form state that
    the three event handlers update. The wallet, the WETH contract and the
    JSON-RPC provider are not modelled; what they answer is passed in. */
module WrapEth {

  datatype Option<T> = None | Some(value: T)

  /** Fee data as the provider reports it: each field a bigint amount of
      wei per gas, or null. */
  datatype FeeData = FeeData(
    gasPrice: Option<nat>,
    maxFeePerGas: Option<nat>,
    maxPriorityFeePerGas: Option<nat>)

  /** JavaScript truthiness of a bigint-or-null value: null and 0n are falsy. */
  predicate Truthy(x: Option<nat>) {
    x.Some? && x.value != 0
  }

  /** JavaScript's `x || fallback` on a bigint-or-null value. */
  function Or(x: Option<nat>, fallback: nat): nat {
    if Truthy(x) then x.value else fallback
  }

  /** `maxPriorityFeePerGas || 0n`: a missing priority fee counts as zero,
      and a reported one is taken as it is (the fallback only replaces a
      zero by a zero). */
  function PriorityFee(fee: FeeData): (r: nat)
    ensures fee.maxPriorityFeePerGas.None? ==> r == 0
    ensures fee.maxPriorityFeePerGas.Some? ==> r == fee.maxPriorityFeePerGas.value
  {
    Or(fee.maxPriorityFeePerGas, 0)
  }

  /** `maxFeePerGas || gasPrice || 0n`: the maximum fee when it is reported
      and non-zero, otherwise the legacy gas price, otherwise zero. */
  function MaxFee(fee: FeeData): (r: nat)
    ensures Truthy(fee.maxFeePerGas) ==> r == fee.maxFeePerGas.value
    ensures !Truthy(fee.maxFeePerGas) && fee.gasPrice.Some? ==> r == fee.gasPrice.value
    ensures !Truthy(fee.maxFeePerGas) && fee.gasPrice.None? ==> r == 0
    ensures r == 0 <==> !Truthy(fee.maxFeePerGas) && !Truthy(fee.gasPrice)
  {
    Or(fee.maxFeePerGas, Or(fee.gasPrice, 0))
  }

  /** The price per gas used for the estimate: the larger of the two fees. */
  function EffectiveGasPrice(fee: FeeData): (r: nat)
    ensures r >= MaxFee(fee) && r >= PriorityFee(fee)
    ensures r == MaxFee(fee) || r == PriorityFee(fee)
  {
    if MaxFee(fee) > PriorityFee(fee) then MaxFee(fee) else PriorityFee(fee)
  }

  /** The estimated cost of the deposit in wei: gas units times the
      effective price, which is the larger of the two per-fee products. */
  function GasCostWei(gasEstimate: nat, fee: FeeData): (r: nat)
    ensures r >= gasEstimate * MaxFee(fee) && r >= gasEstimate * PriorityFee(fee)
    ensures r == gasEstimate * MaxFee(fee) || r == gasEstimate * PriorityFee(fee)
    ensures r == 0 <==> gasEstimate == 0 || (MaxFee(fee) == 0 && PriorityFee(fee) == 0)
  {
    gasEstimate * EffectiveGasPrice(fee)
  }

  /** With no fee reported at all the estimate is zero, whatever the gas. */
  lemma NoFeesCostNothing(gasEstimate: nat)
    ensures GasCostWei(gasEstimate, FeeData(None, None, None)) == 0
  {
  }

  /** A zero or missing maximum fee falls back to the gas price; a non-zero
      maximum fee makes the gas price irrelevant. */
  lemma GasPriceOnlyAsFallback(fee: FeeData, gasPrice: Option<nat>)
    requires Truthy(fee.maxFeePerGas)
    ensures EffectiveGasPrice(fee.(gasPrice := gasPrice)) == EffectiveGasPrice(fee)
  {
  }

  // ---------------------------------------------------------------------
  // Form state

  /** What the amount field holds: an empty string, a string that
      `Number` reads as NaN (and `ethers.parseEther` rejects), or an amount,
      here in wei. */
  datatype Input = Blank | Malformed | Amount(wei: int)

  /** The estimated-gas text: the literal "0", or the ether value of a
      computed cost in wei. */
  datatype GasCostDisplay = Cleared | Cost(wei: nat)

  /** What the two provider calls of an estimation answer: the gas estimate
      of the deposit together with the fee data, or a failure of either. */
  datatype EstimateReply = EstimateFailed | Estimate(gasEstimate: nat, fee: FeeData)

  const InsufficientBalance: string := "Insufficient ETH balance"
  const EstimationFailed: string := "Failed to estimate gas cost"
  const WrapFailed: string := "Traction failed, Please try again!"

  /** The five state variables of the component. */
  datatype FormState = FormState(
    ethValueToWrap: Input,
    estimatedGasCost: GasCostDisplay,
    error: Option<string>,
    loading: bool,
    isSuccess: bool)

  /** The initial values of the five state variables. */
  function Initial(): (s: FormState)
    ensures Consistent(s) && !WrapEnabled(s)
    ensures s.error.None? && !s.isSuccess
  {
    FormState(Amount(0), Cleared, None, false, false)
  }

  /** `Number(value) > Number(ethBalance)`: only an amount can exceed the
      balance; "" reads as 0 and NaN compares false. */
  predicate ExceedsBalance(value: Input, balance: nat) {
    value.Amount? && value.wei > balance
  }

  /** `!value || Number(value) <= 0`: the input that needs no estimate. */
  predicate NothingToEstimate(value: Input) {
    value.Blank? || (value.Amount? && value.wei <= 0)
  }

  /** The form after an estimation for `value` has finished. */
  function AfterGasEstimation(s: FormState, value: Input, reply: EstimateReply): (t: FormState)
    ensures t.ethValueToWrap == s.ethValueToWrap && t.loading == s.loading && t.isSuccess == s.isSuccess
    ensures NothingToEstimate(value) ==> t.error.None? && t.estimatedGasCost == Cleared
    ensures !NothingToEstimate(value) && (value.Malformed? || reply.EstimateFailed?) ==>
              t.error == Some(EstimationFailed) && t.estimatedGasCost == Cleared
    ensures value.Amount? && value.wei > 0 && reply.Estimate? ==>
              t.error.None? && t.estimatedGasCost == Cost(GasCostWei(reply.gasEstimate, reply.fee))
    ensures t.estimatedGasCost.Cost? <==> value.Amount? && value.wei > 0 && reply.Estimate?
  {
    if NothingToEstimate(value) then
      s.(error := None, estimatedGasCost := Cleared)
    else if value.Malformed? || reply.EstimateFailed? then
      s.(error := Some(EstimationFailed), estimatedGasCost := Cleared)
    else
      s.(error := None, estimatedGasCost := Cost(GasCostWei(reply.gasEstimate, reply.fee)))
  }

  /** The form after the amount field changed to `value`. */
  function AfterValueChange(s: FormState, value: Input, balance: nat, reply: EstimateReply): (t: FormState)
    ensures ExceedsBalance(value, balance) ==>
              t == s.(error := Some(InsufficientBalance))
    ensures !ExceedsBalance(value, balance) ==>
              t.ethValueToWrap == value && t.error != Some(InsufficientBalance)
    ensures !ExceedsBalance(value, balance) ==>
              t == AfterGasEstimation(s.(ethValueToWrap := value), value, reply)
    ensures t.loading == s.loading && t.isSuccess == s.isSuccess
  {
    if ExceedsBalance(value, balance) then s.(error := Some(InsufficientBalance))
    else AfterGasEstimation(s.(ethValueToWrap := value), value, reply)
  }

  /** The form after a wrap whose deposit transaction succeeded or failed. */
  function AfterWrap(s: FormState, succeeded: bool): (t: FormState)
    ensures !t.loading
    ensures succeeded ==>
              t.isSuccess && t.error.None? &&
              t.ethValueToWrap == Amount(0) && t.estimatedGasCost == Cleared && !WrapEnabled(t)
    ensures !succeeded ==>
              t.error == Some(WrapFailed) && t.isSuccess == s.isSuccess &&
              t.ethValueToWrap == s.ethValueToWrap && t.estimatedGasCost == s.estimatedGasCost
  {
    var busy := s.(loading := true, error := None);
    var done := if succeeded then
                  busy.(isSuccess := true, ethValueToWrap := Amount(0), estimatedGasCost := Cleared)
                else
                  busy.(error := Some(WrapFailed));
    done.(loading := false)
  }

  /** `disabled={loading || !Number(ethValueToWrap)}`: the wrap button can be
      pressed only when idle and the amount reads as a non-zero number. */
  predicate WrapEnabled(s: FormState) {
    !s.loading && s.ethValueToWrap.Amount? && s.ethValueToWrap.wei != 0
  }

  /** What the user can do: edit the amount (the balance shown and the
      provider's answer to the estimation are part of the event), or press
      the wrap button (with the outcome of the deposit). */
  datatype Event =
    | ValueChanged(value: Input, balance: nat, reply: EstimateReply)
    | WrapPressed(succeeded: bool)

  /** One event; a press on a disabled button does nothing. */
  function Step(s: FormState, e: Event): FormState {
    match e
    case ValueChanged(value, balance, reply) => AfterValueChange(s, value, balance, reply)
    case WrapPressed(succeeded) => if WrapEnabled(s) then AfterWrap(s, succeeded) else s
  }

  /** A sequence of events, first to last. */
  function Run(s: FormState, events: seq<Event>): FormState
    decreases |events|
  {
    if events == [] then s else Run(Step(s, events[0]), events[1..])
  }

  /** The invariant the handlers keep: no handler is left half-way, an
      amount that needs no estimate (or cannot be parsed) never shows one,
      and a failed estimation never leaves a cost on screen. */
  predicate Consistent(s: FormState) {
    && !s.loading
    && (s.estimatedGasCost.Cost? ==> s.ethValueToWrap.Amount? && s.ethValueToWrap.wei > 0)
    && (s.error == Some(EstimationFailed) ==> s.estimatedGasCost == Cleared)
  }

  lemma StepKeepsConsistent(s: FormState, e: Event)
    requires Consistent(s)
    ensures Consistent(Step(s, e))
  {
  }

  /** Every state the form can reach from its initial values is consistent. */
  lemma {:induction false} RunKeepsConsistent(s: FormState, events: seq<Event>)
    requires Consistent(s)
    ensures Consistent(Run(s, events))
    decreases |events|
  {
    if events != [] {
      StepKeepsConsistent(s, events[0]);
      RunKeepsConsistent(Step(s, events[0]), events[1..]);
    }
  }

  /** After a successful wrap the form is reset, whatever came before, and
      stays consistent. */
  lemma {:induction false} WrapResetsForm(events: seq<Event>)
    requires WrapEnabled(Run(Initial(), events))
    ensures var t := Run(Initial(), events + [WrapPressed(true)]);
              t.isSuccess && t.ethValueToWrap == Amount(0) &&
              t.estimatedGasCost == Cleared && t.error.None? && Consistent(t)
  {
    RunAppend(Initial(), events, [WrapPressed(true)]);
    RunKeepsConsistent(Initial(), events + [WrapPressed(true)]);
  }

  lemma {:induction false} RunAppend(s: FormState, xs: seq<Event>, ys: seq<Event>)
    ensures Run(s, xs + ys) == Run(Run(s, xs), ys)
    decreases |xs|
  {
    if xs != [] {
      assert (xs + ys)[1..] == xs[1..] + ys;
      RunAppend(Step(s, xs[0]), xs[1..], ys);
    } else {
      assert xs + ys == ys;
    }
  }

  /** The amount guard does not look at the sign: from any idle form, a
      negative amount is taken, its estimate is cleared with no error, and
      the wrap button is enabled. */
  lemma NegativeAmountEnablesWrap(s: FormState, w: int, balance: nat, reply: EstimateReply)
    requires w < 0 && !s.loading
    ensures var t := Step(s, ValueChanged(Amount(w), balance, reply));
              t.ethValueToWrap == Amount(w) && t.estimatedGasCost == Cleared &&
              t.error.None? && WrapEnabled(t)
  {
  }

  // ---------------------------------------------------------------------
  // The component

  /** The component's state, updated in place by its handlers. */
  class WrapEthForm {
    var ethValueToWrap: Input
    var estimatedGasCost: GasCostDisplay
    var error: Option<string>
    var loading: bool
    var isSuccess: bool

    function State(): FormState
      reads this
    {
      FormState(ethValueToWrap, estimatedGasCost, error, loading, isSuccess)
    }

    constructor ()
      ensures State() == Initial()
    {
      estimatedGasCost := Cleared;
      loading := false;
      error := None;
      isSuccess := false;
      ethValueToWrap := Amount(0);
    }

    /** `fetchGasEstimation(value)`, with the provider's answer passed in. */
    method FetchGasEstimation(value: Input, reply: EstimateReply)
      modifies this
      ensures State() == AfterGasEstimation(old(State()), value, reply)
    {
      error := None;
      if value.Blank? || (value.Amount? && value.wei <= 0) {
        estimatedGasCost := Cleared;
        return;
      }
      if value.Malformed? {
        // `parseEther` rejects the string before the provider is asked
        error := Some(EstimationFailed);
        estimatedGasCost := Cleared;
        return;
      }
      match reply
      case EstimateFailed =>
        error := Some(EstimationFailed);
        estimatedGasCost := Cleared;
      case Estimate(gasEstimate, fee) =>
        var priority := Or(fee.maxPriorityFeePerGas, 0);
        var maxFee := Or(fee.maxFeePerGas, Or(fee.gasPrice, 0));
        var price := if maxFee > priority then maxFee else priority;
        estimatedGasCost := Cost(gasEstimate * price);
    }

    /** `handleEthValueChange`: reject an amount above the balance, otherwise
        take it and estimate the gas for it. */
    method HandleEthValueChange(value: Input, balance: nat, reply: EstimateReply)
      modifies this
      ensures State() == AfterValueChange(old(State()), value, balance, reply)
      ensures old(Consistent(State())) ==> Consistent(State())
    {
      if value.Amount? && value.wei > balance {
        error := Some(InsufficientBalance);
        return;
      }
      ethValueToWrap := value;
      FetchGasEstimation(value, reply);
    }

    /** `handleWrapETH`, with the outcome of the deposit transaction passed in. */
    method HandleWrapEth(succeeded: bool)
      modifies this
      ensures State() == AfterWrap(old(State()), succeeded)
      ensures old(Consistent(State())) ==> Consistent(State())
    {
      loading := true;
      error := None;
      if succeeded {
        isSuccess := true;
        ethValueToWrap := Amount(0);
        estimatedGasCost := Cleared;
      } else {
        error := Some(WrapFailed);
      }
      loading := false;
    }

    /** Whether the wrap button is enabled. */
    method CanWrap() returns (enabled: bool)
      ensures enabled == WrapEnabled(State())
      // `loading || !Number(ethValueToWrap)`: "" reads as 0, NaN and 0 are falsy
      ensures !enabled <==>
                loading || ethValueToWrap.Blank? || ethValueToWrap.Malformed? ||
                ethValueToWrap == Amount(0)
    {
      enabled := !loading && ethValueToWrap.Amount? && ethValueToWrap.wei != 0;
    }
  }
}
