/**
 * The campaign widget's decision logic: whether a donation needs an ERC-20
 * approval first, the token-decimals default, the approve-then-donate
 * sequence, the withdraw request and who may withdraw.
 *
 * The wallet, the token and the chain are abstract: `parseUnits` is a
 * function parameter that may fail, the token's allowance for the campaign
 * contract follows EIP-20 `approve` (the new value overwrites the old), and
 * each transaction the widget hands to the wallet is recorded in order.
 */
module Widget {
  import opened Js
  import Text

  /** viem's `parseUnits(text, decimals)`; None when it throws. */
  type ParseUnits = (string, nat) -> Option<int>

  /** `Number(tokenDecimals ?? 18)`: the token's decimals, or 18 while they are unknown. */
  function Decimals(tokenDecimals: Option<nat>): (d: nat)
    ensures tokenDecimals.None? ==> d == 18
    ensures tokenDecimals.Some? ==> d == tokenDecimals.value
  {
    tokenDecimals.GetOr(18)
  }

  /**
   * `needsApprove`: the amount (0 for an empty input) exceeds the allowance
   * read (0 while unknown); true when the amount does not parse.
   */
  function NeedsApprove(amountInput: string, decimals: nat, parse: ParseUnits, allowance: Option<nat>): (r: bool)
    ensures amountInput == "" ==> !r
    ensures amountInput != "" && parse(amountInput, decimals).None? ==> r
    ensures amountInput != "" && parse(amountInput, decimals).Some? ==>
      (r <==> parse(amountInput, decimals).value > allowance.GetOr(0))
    ensures r && parse(amountInput, decimals).Some? ==> parse(amountInput, decimals).value > 0
  {
    if amountInput == "" then 0 > allowance.GetOr(0)
    else match parse(amountInput, decimals)
      case None => true
      case Some(parsed) => parsed > allowance.GetOr(0)
  }

  /** An allowance at least as large as the amount never asks for approval. */
  lemma CoveredAmountNeedsNoApproval(amountInput: string, decimals: nat, parse: ParseUnits, allowance: nat)
    requires parse(amountInput, decimals).Some? && parse(amountInput, decimals).value <= allowance
    ensures !NeedsApprove(amountInput, decimals, parse, Some(allowance))
  {
  }

  /** The donate button's `disabled`: no account, an empty input, or a write or receipt pending. */
  predicate DonateDisabled(address: Option<string>, amountInput: string, isPending: bool, isTxLoading: bool): (r: bool)
    ensures !r <==> address.Some? && address.value != "" && amountInput != "" && !isPending && !isTxLoading
  {
    Falsy(address) || amountInput == "" || isPending || isTxLoading
  }

  /**
   * `canWithdraw`: the campaign is completed, both the account and the
   * receiver are known, and they are the same address up to letter case.
   */
  predicate CanWithdraw(isCompleted: Option<bool>, address: Option<string>, receiver: Option<string>): (r: bool)
    ensures r ==> isCompleted == Some(true) && address.Some? && receiver.Some? && address.value != "" && receiver.value != ""
    ensures r ==> Text.ToLower(address.value) == Text.ToLower(receiver.value)
    ensures isCompleted == Some(true) && address.Some? && address.value != "" && receiver == address ==> r
  {
    isCompleted == Some(true) && !Falsy(address) && !Falsy(receiver)
    && Text.ToLower(address.value) == Text.ToLower(receiver.value)
  }

  /** Only the receiver of a completed campaign may withdraw, whatever the case of the letters. */
  lemma CanWithdrawIgnoresCase(isCompleted: Option<bool>, address: string, receiver: string)
    ensures CanWithdraw(isCompleted, Some(address), Some(receiver))
            == CanWithdraw(isCompleted, Some(Text.ToLower(address)), Some(receiver))
  {
    Text.ToLowerIdempotent(address);
    assert Text.ToLower(address) == "" <==> address == "";
  }

  /** The relation is symmetric, and a completed campaign is required. */
  lemma CanWithdrawSymmetric(isCompleted: Option<bool>, address: Option<string>, receiver: Option<string>)
    ensures CanWithdraw(isCompleted, address, receiver) == CanWithdraw(isCompleted, receiver, address)
    ensures CanWithdraw(isCompleted, address, receiver) ==> isCompleted == Some(true)
  {
  }

  /**
   * What a mined `donate(amount)` leaves of the allowance: the campaign's
   * `transferFrom` spends the amount when the allowance covers it (EIP-20),
   * and otherwise the transaction reverts and the allowance stays.
   */
  function Spend(allowance: nat, amount: int): (r: nat)
    ensures r <= allowance
    ensures 0 <= amount <= allowance ==> r + amount == allowance
    ensures !(0 <= amount <= allowance) ==> r == allowance
  {
    if 0 <= amount <= allowance then allowance - amount else allowance
  }

  /**
   * An approval covers one donation of its amount: once that donation is
   * mined, the same amount needs approval again.
   */
  lemma ApprovalCoversOneDonation(amountInput: string, decimals: nat, parse: ParseUnits)
    requires amountInput != "" && parse(amountInput, decimals).Some? && parse(amountInput, decimals).value > 0
    ensures var p := parse(amountInput, decimals).value;
      !NeedsApprove(amountInput, decimals, parse, Some(p))
      && NeedsApprove(amountInput, decimals, parse, Some(Spend(p, p)))
  {
    var p := parse(amountInput, decimals).value;
    assert Spend(p, p) == 0;
  }

  /** A transaction request handed to the wallet. */
  datatype Call = Approve(spender: string, amount: int) | DonateCall(amount: int) | WithdrawCall

  /**
   * How the approval ends once it is handed to the wallet: refused or lost
   * (signing or the receipt wait throws), or a receipt arrives, for an
   * approval that reverted or one that took effect. The code never reads
   * the receipt's status, so both receipts go on to the donation.
   */
  datatype ApprovalOutcome = Abandoned | Reverted | Confirmed

  /**
   * What one press of Donate leads to: the requests made, the allowance the
   * chain holds when an approval took effect, and whether the allowance was
   * read again.
   */
  datatype DonateEffect = DonateEffect(requests: seq<Call>, approved: Option<nat>, refetched: bool)

  /**
   * The `donate` sequence: nothing without an account or with an amount
   * that does not parse; when approval is needed, nothing without a public
   * client, else `approve(campaign, amount)` and, once its receipt is in,
   * a fresh allowance read and `donate(amount)`; otherwise `donate(amount)`
   * straight away. An abandoned approval ends the sequence.
   */
  function DonateSteps(address: Option<string>, amountInput: string, decimals: nat, parse: ParseUnits,
                       allowance: Option<nat>, campaign: string, hasPublicClient: bool,
                       approval: ApprovalOutcome): (e: DonateEffect)
    ensures Falsy(address) || parse(amountInput, decimals).None? ==> e == DonateEffect([], None, false)
    ensures |e.requests| <= 2
    ensures e.requests != [] ==> parse(amountInput, decimals).Some?
    ensures forall i :: 0 <= i < |e.requests| && e.requests[i].Approve? ==>
      i == 0 && e.requests[i] == Approve(campaign, parse(amountInput, decimals).value)
      && parse(amountInput, decimals).value > allowance.GetOr(0)
    ensures forall i :: 0 <= i < |e.requests| && e.requests[i].DonateCall? ==>
      i == |e.requests| - 1 && e.requests[i] == DonateCall(parse(amountInput, decimals).value)
    ensures NeedsApprove(amountInput, decimals, parse, allowance) && !hasPublicClient ==> e == DonateEffect([], None, false)
    ensures |e.requests| == 2 ==>
      e.requests == [Approve(campaign, parse(amountInput, decimals).value), DonateCall(parse(amountInput, decimals).value)]
    ensures e.approved.Some? ==>
      e.approved.value == parse(amountInput, decimals).value
      && !NeedsApprove(amountInput, decimals, parse, e.approved)
    ensures e.approved.Some? || e.refetched ==> approval != Abandoned && |e.requests| == 2
    ensures !Falsy(address) && parse(amountInput, decimals).Some? && !NeedsApprove(amountInput, decimals, parse, allowance) ==>
      e == DonateEffect([DonateCall(parse(amountInput, decimals).value)], None, false)
    ensures !Falsy(address) && parse(amountInput, decimals).Some? && NeedsApprove(amountInput, decimals, parse, allowance)
            && hasPublicClient ==>
      var p := parse(amountInput, decimals).value;
      && (approval == Abandoned ==> e == DonateEffect([Approve(campaign, p)], None, false))
      && (approval == Reverted ==> e == DonateEffect([Approve(campaign, p), DonateCall(p)], None, true))
      && (approval == Confirmed ==> e == DonateEffect([Approve(campaign, p), DonateCall(p)], Some(p), true))
  {
    if Falsy(address) then DonateEffect([], None, false)
    else match parse(amountInput, decimals)
      case None => DonateEffect([], None, false)
      case Some(parsed) =>
        if NeedsApprove(amountInput, decimals, parse, allowance) then
          if !hasPublicClient then DonateEffect([], None, false)
          else match approval
            case Abandoned => DonateEffect([Approve(campaign, parsed)], None, false)
            case Reverted => DonateEffect([Approve(campaign, parsed), DonateCall(parsed)], None, true)
            case Confirmed => DonateEffect([Approve(campaign, parsed), DonateCall(parsed)], Some(parsed), true)
        else DonateEffect([DonateCall(parsed)], None, false)
  }

  /** Every request sequence is a prefix of approve-then-donate with one amount: an exception only cuts it short. */
  lemma DonateIsPrefixOfPlan(address: Option<string>, amountInput: string, decimals: nat, parse: ParseUnits,
                             allowance: Option<nat>, campaign: string, hasPublicClient: bool, approval: ApprovalOutcome)
    requires parse(amountInput, decimals).Some?
    ensures var e := DonateSteps(address, amountInput, decimals, parse, allowance, campaign, hasPublicClient, approval);
      var p := parse(amountInput, decimals).value;
      var plan := if NeedsApprove(amountInput, decimals, parse, allowance) then [Approve(campaign, p), DonateCall(p)]
                  else [DonateCall(p)];
      e.requests <= plan
  {
  }

  /**
   * With the button enabled, an amount that parses and an approval (if one
   * is needed) that gets a receipt, the donation is the last request.
   */
  lemma EnabledDonateIsRequested(address: Option<string>, amountInput: string, decimals: nat, parse: ParseUnits,
                                 allowance: Option<nat>, campaign: string, approval: ApprovalOutcome)
    requires !DonateDisabled(address, amountInput, false, false)
    requires parse(amountInput, decimals).Some? && approval != Abandoned
    ensures var e := DonateSteps(address, amountInput, decimals, parse, allowance, campaign, true, approval);
      e.requests != [] && e.requests[|e.requests| - 1] == DonateCall(parse(amountInput, decimals).value)
  {
  }

  /**
   * A reverted approval changes no allowance: the donation is still sent,
   * the allowance is read again, and the amount still needs approval
   * against what the chain holds afterwards.
   */
  lemma RevertedApprovalStillNeedsApproval(address: Option<string>, amountInput: string, decimals: nat, parse: ParseUnits,
                                           chainAllowance: nat, campaign: string)
    requires !Falsy(address) && parse(amountInput, decimals).Some?
    requires NeedsApprove(amountInput, decimals, parse, Some(chainAllowance))
    ensures var e := DonateSteps(address, amountInput, decimals, parse, Some(chainAllowance), campaign, true, Reverted);
      var p := parse(amountInput, decimals).value;
      && e.requests == [Approve(campaign, p), DonateCall(p)] && e.refetched
      && NeedsApprove(amountInput, decimals, parse, Some(e.approved.GetOr(chainAllowance)))
  {
  }

  /**
   * The widget's state: the amount typed in, what it has read from the
   * chain, the token allowance the chain holds for the campaign, and the
   * requests it has handed to the wallet.
   */
  class CrowdfundWidget {
    const campaign: string
    const parse: ParseUnits
    var amountInput: string
    var tokenDecimals: Option<nat>
    var allowanceRead: Option<nat>
    var chainAllowance: nat
    var calls: seq<Call>

    constructor (campaign: string, parse: ParseUnits, chainAllowance: nat)
      ensures this.campaign == campaign && this.parse == parse && this.chainAllowance == chainAllowance
      ensures amountInput == "" && tokenDecimals == None && allowanceRead == None && calls == []
    {
      this.campaign := campaign;
      this.parse := parse;
      amountInput := "";
      tokenDecimals := None;
      allowanceRead := None;
      this.chainAllowance := chainAllowance;
      calls := [];
    }

    /** `needsApprove` for the current render. */
    function NeedsApproveNow(): bool
      reads this
    {
      NeedsApprove(amountInput, Decimals(tokenDecimals), parse, allowanceRead)
    }

    /** The amount input's `onChange`. */
    method SetAmount(text: string)
      modifies this
      ensures amountInput == text
      ensures calls == old(calls) && allowanceRead == old(allowanceRead) && chainAllowance == old(chainAllowance)
      ensures tokenDecimals == old(tokenDecimals)
    {
      amountInput := text;
    }

    /** `refetchAllowance()`: the read catches up with the chain. */
    method RefetchAllowance()
      modifies this
      ensures allowanceRead == Some(chainAllowance) && chainAllowance == old(chainAllowance)
      ensures calls == old(calls) && amountInput == old(amountInput) && tokenDecimals == old(tokenDecimals)
    {
      allowanceRead := Some(chainAllowance);
    }

    /** The chain mines a requested `donate(amount)`; only the chain's allowance changes, not what was read. */
    method DonationMined(amount: int)
      modifies this
      ensures chainAllowance == Spend(old(chainAllowance), amount)
      ensures allowanceRead == old(allowanceRead) && calls == old(calls)
      ensures amountInput == old(amountInput) && tokenDecimals == old(tokenDecimals)
    {
      chainAllowance := Spend(chainAllowance, amount);
    }

    /** `donate()`, step by step, as DonateSteps describes it. */
    method Donate(address: Option<string>, hasPublicClient: bool, approval: ApprovalOutcome)
      modifies this
      ensures var e := DonateSteps(address, old(amountInput), Decimals(old(tokenDecimals)), parse, old(allowanceRead),
                                   campaign, hasPublicClient, approval);
        && calls == old(calls) + e.requests
        && (e.approved.Some? ==> chainAllowance == e.approved.value)
        && (e.approved.None? ==> chainAllowance == old(chainAllowance))
        && (e.refetched ==> allowanceRead == Some(chainAllowance))
        && (!e.refetched ==> allowanceRead == old(allowanceRead))
      ensures amountInput == old(amountInput) && tokenDecimals == old(tokenDecimals)
    {
      if Falsy(address) {
        return;
      }
      var decimals := Decimals(tokenDecimals);
      var needsApprove := NeedsApproveNow();
      var parsed := parse(amountInput, decimals);
      if parsed.None? {
        return;
      }
      if needsApprove {
        if !hasPublicClient {
          return;
        }
        calls := calls + [Approve(campaign, parsed.value)];
        if approval == Abandoned {
          return;
        }
        if approval == Confirmed {
          chainAllowance := parsed.value;
        }
        RefetchAllowance();
      }
      calls := calls + [DonateCall(parsed.value)];
    }

    /** `withdraw()`: one withdraw request; the rendering decides when the button is offered. */
    method Withdraw()
      modifies this
      ensures calls == old(calls) + [WithdrawCall]
      ensures amountInput == old(amountInput) && allowanceRead == old(allowanceRead)
      ensures chainAllowance == old(chainAllowance) && tokenDecimals == old(tokenDecimals)
    {
      calls := calls + [WithdrawCall];
    }
  }
}
