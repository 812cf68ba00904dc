/** The client-side checks of src/components/BetParticipationModal.tsx:
    the stake rule on the typed amount, the balance the modal shows, and the
    guards `handleSubmit` runs before sending a participation or an amended
    one. */
module ParticipationModal {
  import opened Types
  import Balance
  import BalanceValidation

  /** The amount field: empty, or typed text whose `parseInt` is a number
      or NaN (`None`). */
  datatype AmountInput = Blank | Typed(parsed: Option<int>)

  /** `validateAmount(value)`: a parsed integer of at least 10 that 10
      divides. */
  predicate ValidateAmount(a: AmountInput) {
    a.Typed? && a.parsed.Some? && a.parsed.value >= 10 && a.parsed.value % 10 == 0
  }

  /** The modal's rule and the server's rule accept the same whole amounts. */
  lemma ModalRuleMatchesServerRule(v: int)
    ensures ValidateAmount(Typed(Some(v))) <==> BalanceValidation.ValidateBetAmount(v as real)
  {
    BalanceValidation.StakeRulesAgree(v as real);
    if v >= 10 && v % 10 == 0 {
      assert Balance.Tens(v / 10) == v as real;
    }
    if BalanceValidation.ValidateBetAmount(v as real) {
      var k :| Balance.Tens(k) == v as real;
      assert v == 10 * k;
    }
  }

  /** `calculateBalanceChange()`: what the balance gains by replacing the
      existing stake with the typed one; 0 when not editing or nothing is
      typed, NaN (`None`) when the text does not parse. */
  function BalanceChange(existing: Option<real>, a: AmountInput): (r: Option<real>)
    ensures existing.None? || a.Blank? ==> r == Some(0.0)
    ensures existing.Some? && a.Typed? && a.parsed.Some? ==> r == Some(existing.value - a.parsed.value as real)
    ensures r.None? <==> existing.Some? && a.Typed? && a.parsed.None?
  {
    if existing.None? || a.Blank? then Some(0.0)
    else if a.parsed.None? then None
    else Some(existing.value - a.parsed.value as real)
  }

  /** `getEffectiveBalance()` as written: the balance when creating; when
      editing, the balance plus the change. */
  function EffectiveBalance(balance: real, existing: Option<real>, a: AmountInput): (r: Option<real>)
    ensures existing.None? ==> r == Some(balance)
    ensures existing.Some? && a.Typed? && a.parsed.Some? ==>
      r == Some(balance + existing.value - a.parsed.value as real)
  {
    if existing.None? then Some(balance)
    else match BalanceChange(existing, a)
      case None => None
      case Some(change) => Some(balance + change)
  }

  /** What `handleSubmit` does: stop with a message, or send the request. */
  datatype Submit = Refused(message: string) | Send(verb: string, optionId: int, amount: int)

  const MissingInput := "Please select an option and enter an amount"
  const BadAmount := "Amount must be in multiples of 10 and at least 10"
  const NoFunds := "Insufficient balance"

  /** `handleSubmit` as written. The selected option must be a truthy
      number; the amount must be typed and valid; and the amount must not
      exceed the effective balance. */
  function HandleSubmit(selected: Option<int>, a: AmountInput, balance: real, existing: Option<real>): (r: Submit)
    ensures selected.None? || selected == Some(0) || a.Blank? ==> r == Refused(MissingInput)
    ensures r.Send? ==> ValidateAmount(a) && r.amount == a.parsed.value && Some(r.optionId) == selected
    ensures r.Send? ==> r.verb == (if existing.Some? then "PUT" else "POST")
    ensures selected.Some? && selected != Some(0) && a.Typed? && !ValidateAmount(a) ==> r == Refused(BadAmount)
  {
    if selected.None? || selected.value == 0 || a.Blank? then Refused(MissingInput)
    else if !ValidateAmount(a) then Refused(BadAmount)
    else
      var numAmount := a.parsed.value;
      var effective := EffectiveBalance(balance, existing, a).value;
      if numAmount as real > effective then Refused(NoFunds)
      else Send(if existing.Some? then "PUT" else "POST", selected.value, numAmount)
  }

  /** A new participation is sent exactly when the inputs are complete, the
      amount is valid and the balance covers it. */
  lemma CreateSendsWhenAffordable(selected: Option<int>, v: int, balance: real)
    ensures HandleSubmit(selected, Typed(Some(v)), balance, None).Send?
        <==> selected.Some? && selected.value != 0 && v >= 10 && v % 10 == 0 && v as real <= balance
  {
  }

  /** As written, an amendment is sent only when twice the new amount is
      covered by the balance plus the old stake: the new amount is counted
      both in the effective balance and against it. */
  lemma EditSendsAsWritten(selected: Option<int>, v: int, balance: real, stake: real)
    ensures HandleSubmit(selected, Typed(Some(v)), balance, Some(stake)).Send?
        <==> selected.Some? && selected.value != 0 && v >= 10 && v % 10 == 0 && 2.0 * (v as real) <= balance + stake
  {
  }

  /** An amendment the user can afford is refused: with a balance of 100
      and a stake of 50, raising it to 80 leaves a balance of 70, yet the
      modal reports insufficient balance. */
  lemma EditRefusesAffordableAmendment()
    ensures 100.0 + 50.0 - 80.0 >= 0.0
    ensures HandleSubmit(Some(1), Typed(Some(80)), 100.0, Some(50.0)) == Refused(NoFunds)
  {
  }

  /** The effective balance when editing: the balance plus the stake being
      replaced, which is what the new amount must not exceed. */
  function IntendedEffectiveBalance(balance: real, existing: Option<real>): (r: real)
    ensures existing.None? ==> r == balance
    ensures existing.Some? ==> r - existing.value == balance
  {
    if existing.None? then balance else balance + existing.value
  }

  /** `handleSubmit` with the intended effective balance. */
  function HandleSubmitIntended(selected: Option<int>, a: AmountInput, balance: real, existing: Option<real>): (r: Submit)
    ensures selected.None? || selected == Some(0) || a.Blank? ==> r == Refused(MissingInput)
    ensures r.Send? ==> ValidateAmount(a) && r.amount == a.parsed.value && Some(r.optionId) == selected
    ensures r.Send? ==> r.verb == (if existing.Some? then "PUT" else "POST")
  {
    if selected.None? || selected.value == 0 || a.Blank? then Refused(MissingInput)
    else if !ValidateAmount(a) then Refused(BadAmount)
    else
      var numAmount := a.parsed.value;
      if numAmount as real > IntendedEffectiveBalance(balance, existing) then Refused(NoFunds)
      else Send(if existing.Some? then "PUT" else "POST", selected.value, numAmount)
  }

  /** The participate route's amendment check: a raise must be covered by
      the balance; a cut always passes. */
  predicate ServerAcceptsAmendment(balance: real, stake: real, v: int) {
    !(v as real - stake > 0.0 && balance < v as real - stake)
  }

  /** With the intended effective balance an amendment is sent exactly when
      the balance after swapping the stakes stays non-negative, which for a
      non-negative balance is the participate route's own check; a new
      participation is handled as before. */
  lemma IntendedEditMatchesServer(selected: Option<int>, v: int, balance: real, stake: real)
    requires balance >= 0.0
    ensures HandleSubmitIntended(selected, Typed(Some(v)), balance, Some(stake)).Send?
        <==> selected.Some? && selected.value != 0 && v >= 10 && v % 10 == 0 && balance + stake - v as real >= 0.0
    ensures HandleSubmitIntended(selected, Typed(Some(v)), balance, Some(stake)).Send?
        <==> selected.Some? && selected.value != 0 && v >= 10 && v % 10 == 0 && ServerAcceptsAmendment(balance, stake, v)
    ensures HandleSubmitIntended(selected, Typed(Some(v)), balance, None) == HandleSubmit(selected, Typed(Some(v)), balance, None)
  {
  }

  /** `canParticipate`: only an active bet; the submit button is disabled
      otherwise and while a request is in flight. */
  function SubmitEnabled(status: string, isLoading: bool): (r: bool)
    ensures r <==> status == "active" && !isLoading
  {
    var canParticipate := status == "active";
    !(isLoading || !canParticipate)
  }
}
