/** The validation helpers of src/lib/balanceValidation.ts: an
    increment/decrement of a balance guarded against overdraft, the stake
    rule as a predicate, appending a payment-history row, and the ordered
    chain of checks a participation must pass. */
module BalanceValidation {
  import opened Types
  import opened Store
  import Balance

  datatype BalanceTransaction = BalanceTransaction(balanceBefore: real, balanceAfter: real)

  /** The two directions `validateAndUpdateBalance` accepts. */
  predicate IsDebitOrCredit(kind: TxType) {
    kind == Debit || kind == Credit
  }

  /** The signed amount an operation moves the balance by. */
  function Signed(amount: real, kind: TxType): real {
    if kind == Debit then -amount else amount
  }

  /** The snapshots `validateAndUpdateBalance` returns, or the message of the
      error it throws. */
  function ValidateAndUpdate(users: map<UserId, UserRow>, userId: UserId, amount: real, kind: TxType)
    : (r: Result<BalanceTransaction>)
    requires IsDebitOrCredit(kind)
    ensures userId !in users <==> r == Failure("User not found")
    ensures userId in users ==> (r.Failure? <==> kind == Debit && BalanceOf(users[userId]) < amount)
    ensures r.Failure? && userId in users ==> r.error == "Insufficient balance"
    ensures r.Success? ==> r.value.balanceBefore == BalanceOf(users[userId])
    ensures r.Success? ==> r.value.balanceAfter - r.value.balanceBefore == Signed(amount, kind)
  {
    if userId !in users then Failure("User not found")
    else
      var current := BalanceOf(users[userId]);
      if kind == Debit && current < amount then Failure("Insufficient balance")
      else Success(BalanceTransaction(current, if kind == Debit then current - amount else current + amount))
  }

  /** `validateAndUpdateBalance(userId, amount, type)`: throws (and writes
      nothing) for a missing user or an overdrawing debit; otherwise moves the
      stored balance by an SQL increment or decrement. */
  method ValidateAndUpdateBalance(db: Database, userId: UserId, amount: real, kind: TxType)
    returns (r: Result<BalanceTransaction>)
    requires IsDebitOrCredit(kind)
    requires db.Valid()
    modifies db
    ensures db.Valid()
    ensures r == ValidateAndUpdate(old(db.users), userId, amount, kind)
    ensures r.Failure? ==> unchanged(db)
    ensures r.Success? ==>
      && db.users == old(db.users)[userId := old(db.users)[userId].(balance := Shift(old(db.users)[userId].balance, Signed(amount, kind)))]
      && db.history == old(db.history) && db.bets == old(db.bets)
      && db.participations == old(db.participations) && db.nextBetId == old(db.nextBetId)
  {
    if userId !in db.users {
      return Failure("User not found");
    }
    var user := db.users[userId];
    var currentBalance := BalanceOf(user);
    if kind == Debit && currentBalance < amount {
      return Failure("Insufficient balance");
    }
    var balanceAfter := if kind == Debit then currentBalance - amount else currentBalance + amount;
    var stored := if kind == Debit then Shift(user.balance, -amount) else Shift(user.balance, amount);
    db.users := db.users[userId := user.(balance := stored)];
    return Success(BalanceTransaction(currentBalance, balanceAfter));
  }

  /** The stored balance agrees with the returned `balanceAfter` exactly when
      the balance was not NULL: an increment or decrement leaves a NULL
      balance NULL, which every later read takes as 0. */
  lemma StoredBalanceMatchesReturned(users: map<UserId, UserRow>, userId: UserId, amount: real, kind: TxType)
    requires IsDebitOrCredit(kind)
    requires ValidateAndUpdate(users, userId, amount, kind).Success?
    ensures var row := users[userId];
      var stored := row.(balance := Shift(row.balance, Signed(amount, kind)));
      var t := ValidateAndUpdate(users, userId, amount, kind).value;
      && (row.balance.Some? ==> BalanceOf(stored) == t.balanceAfter)
      && (row.balance.None? ==> BalanceOf(stored) == 0.0 && t.balanceAfter == Signed(amount, kind))
  {
  }

  /** A JavaScript value as the helper returns it: a number, or the string
      that `+` makes when its left operand is a Decimal object, whose
      `valueOf` is a string: the decimal writing of `left` followed by that
      of `right`. */
  datatype JsValue = JsNumber(n: real) | JsConcat(left: real, right: real)

  /** The `balanceAfter` the helper returns as written: `balance ?? 0` keeps
      a stored balance as a Decimal, so a credit concatenates while a debit
      (`-` converts both operands to numbers) and a NULL balance (read as the
      number 0) compute. */
  function AfterAsWritten(users: map<UserId, UserRow>, userId: UserId, amount: real, kind: TxType)
    : (r: Result<JsValue>)
    requires IsDebitOrCredit(kind)
    ensures r.Failure? <==> ValidateAndUpdate(users, userId, amount, kind).Failure?
    ensures r.Success? && users[userId].balance.Some? && kind == Credit ==>
      r.value == JsConcat(users[userId].balance.value, amount)
    ensures r.Success? && (users[userId].balance.None? || kind == Debit) ==>
      r.value == JsNumber(ValidateAndUpdate(users, userId, amount, kind).value.balanceAfter)
  {
    match ValidateAndUpdate(users, userId, amount, kind)
    case Failure(e) => Failure(e)
    case Success(t) =>
      var b := users[userId].balance;
      if kind == Credit && b.Some? then Success(JsConcat(b.value, amount))
      else Success(JsNumber(t.balanceAfter))
  }

  /** The decimal digits of a whole number. */
  function Digits(n: nat): (r: string)
    ensures |r| >= 1
  {
    var d := ['0', '1', '2', '3', '4', '5', '6', '7', '8', '9'][n % 10];
    if n < 10 then [d] else Digits(n / 10) + [d]
  }

  /** As written, a credit on a stored balance returns a string, never the
      number the store now holds: balance 100, credit 50 returns "10050"
      while the stored balance becomes 150. */
  lemma CreditReturnsConcatenation()
    ensures var users := map["u" := UserRow(Some(100.0), false)];
      && AfterAsWritten(users, "u", 50.0, Credit) == Success(JsConcat(100.0, 50.0))
      && Digits(100) + Digits(50) == "10050"
      && Shift(users["u"].balance, Signed(50.0, Credit)) == Some(150.0)
      && AfterAsWritten(users, "u", 50.0, Credit).value != JsNumber(150.0)
  {
    assert Digits(10) == "10";
    assert Digits(100) == "100";
    assert Digits(5) == "5";
    assert Digits(50) == "50";
  }

  /** A debit this helper allows never leaves a negative balance behind. */
  lemma DebitNeverOverdraws(users: map<UserId, UserRow>, userId: UserId, amount: real)
    requires ValidateAndUpdate(users, userId, amount, Debit).Success?
    ensures ValidateAndUpdate(users, userId, amount, Debit).value.balanceAfter >= 0.0
  {
  }

  /** `validateBetAmount(amount)`: `amount >= 10 && amount % 10 === 0`. */
  predicate ValidateBetAmount(amount: real) {
    amount >= 10.0 && Balance.IsMultipleOf10(amount)
  }

  /** The two copies of the stake rule accept the same amounts. */
  lemma StakeRulesAgree(amount: real)
    ensures ValidateBetAmount(amount) <==> Balance.ValidateBetAmount(amount).valid
    ensures ValidateBetAmount(amount) <==> amount >= 10.0 && exists k: int :: Balance.Tens(k) == amount
  {
    Balance.MultipleOf10Witness(amount);
  }

  /** The fields `createPaymentHistoryEntry` receives. */
  datatype PaymentHistoryData = PaymentHistoryData(
    userId: UserId,
    kind: TxType,
    amount: real,
    description: string,
    referenceId: Option<int>,
    balanceBefore: real,
    balanceAfter: real,
    createdBy: Option<UserId>)

  /** `createPaymentHistoryEntry(data)`: appends exactly one row, each
      column copied from the argument, and returns it. */
  method CreatePaymentHistoryEntry(db: Database, data: PaymentHistoryData) returns (e: LedgerEntry)
    requires db.Valid()
    modifies db
    ensures db.Valid()
    ensures e.userId == data.userId && e.kind == data.kind && e.amount == data.amount
    ensures e.description == data.description && e.referenceId == data.referenceId
    ensures e.balanceBefore == data.balanceBefore && e.balanceAfter == data.balanceAfter
    ensures e.createdBy == data.createdBy
    ensures db.history == old(db.history) + [e]
    ensures db.users == old(db.users) && db.bets == old(db.bets)
    ensures db.participations == old(db.participations) && db.nextBetId == old(db.nextBetId)
  {
    e := LedgerEntry(data.userId, data.kind, data.amount, data.description, data.referenceId,
                     data.balanceBefore, data.balanceAfter, data.createdBy);
    db.history := db.history + [e];
  }

  /** `opt.id === optionId`: only an object whose `id` is that number. */
  predicate HasId(v: Json, optionId: int) {
    v.JObject? && "id" in v.fields && v.fields["id"] == JNumber(optionId as real)
  }

  /** `options.find(opt => opt.id === optionId)` on the elements of an array:
      the first element with that id, or a TypeError when a `null` element
      is reached first. */
  function FindIn(items: seq<Json>, optionId: int): (r: Result<Option<Json>>)
    ensures r.Success? && r.value.Some? ==> r.value.value in items && HasId(r.value.value, optionId)
    ensures r == Success(None) <==> forall i :: 0 <= i < |items| ==> items[i] != JNull && !HasId(items[i], optionId)
  {
    if items == [] then Success(None)
    else if items[0] == JNull then Failure("TypeError")
    else if HasId(items[0], optionId) then Success(Some(items[0]))
    else FindIn(items[1..], optionId)
  }

  /** `(bet.options as any[]).find(...)`: anything but an array has no
      `find` and throws. */
  function FindOption(options: Json, optionId: int): (r: Result<Option<Json>>)
    ensures !options.JArray? ==> r.Failure?
  {
    if options.JArray? then FindIn(options.items, optionId) else Failure("TypeError")
  }

  /** An option is found when the array holds an object with that id and no
      `null` element comes before it. */
  lemma {:induction false} FindInLocates(items: seq<Json>, optionId: int, k: int)
    requires 0 <= k < |items| && HasId(items[k], optionId)
    requires forall i :: 0 <= i < k ==> items[i] != JNull
    ensures FindIn(items, optionId).Success? && FindIn(items, optionId).value.Some?
  {
    if k > 0 && !HasId(items[0], optionId) {
      FindInLocates(items[1..], optionId, k - 1);
    }
  }

  /** In an array whose i-th element is an object with id i + 1, the option
      with id k is the k-th element for k in 1..n, and no option is found for
      any other k. */
  lemma FindOptionInNumbered(opts: seq<Json>, k: int)
    requires forall i :: 0 <= i < |opts| ==>
      opts[i].JObject? && "id" in opts[i].fields && opts[i].fields["id"] == JNumber((i + 1) as real)
    ensures 1 <= k <= |opts| ==> FindOption(JArray(opts), k) == Success(Some(opts[k - 1]))
    ensures k < 1 || k > |opts| ==> FindOption(JArray(opts), k) == Success(None)
  {
    forall i | 0 <= i < |opts| ensures opts[i] != JNull && (HasId(opts[i], k) <==> i == k - 1) {
    }
    if 1 <= k <= |opts| {
      FindInLocates(opts, k, k - 1);
    }
  }

  datatype ParticipationCheck = ParticipationCheck(
    bet: Option<BetRow>, user: Option<UserRow>, isValid: bool, errorMessage: Option<string>)

  const AmountFormatError := "Amount must be in multiples of 10 and at least 10"

  /** The first three checks pass: the amount is well formed and the bet
      exists and is active. */
  predicate OpenBet(db: Database, betId: int, amount: real)
    reads db
  {
    ValidateBetAmount(amount) && betId in db.bets && db.bets[betId].status == Active
  }

  /** The bet's options hold one with id `optionId`. */
  predicate OptionFound(db: Database, betId: int, optionId: int)
    requires betId in db.bets
    reads db
  {
    FindOption(db.bets[betId].options, optionId).Success? && FindOption(db.bets[betId].options, optionId).value.Some?
  }

  /** `validateBetParticipation(betId, userId, amount, optionId)`: the
      checks in order (amount format, bet exists, bet active, option exists,
      user exists, funds); the first that fails names the error, and an
      exception inside them yields 'Validation failed'. */
  function ValidateBetParticipation(db: Database, betId: int, userId: UserId, amount: real, optionId: int)
    : (r: ParticipationCheck)
    reads db
    ensures r.isValid <==> r.errorMessage.None?
    ensures r.isValid <==>
      && ValidateBetAmount(amount)
      && betId in db.bets && db.bets[betId].status == Active
      && FindOption(db.bets[betId].options, optionId).Success?
      && FindOption(db.bets[betId].options, optionId).value.Some?
      && userId in db.users && amount <= BalanceOf(db.users[userId])
    ensures !ValidateBetAmount(amount) ==> r.errorMessage == Some(AmountFormatError)
    ensures ValidateBetAmount(amount) && betId !in db.bets ==> r == ParticipationCheck(None, None, false, Some("Bet not found"))
    ensures ValidateBetAmount(amount) && betId in db.bets && db.bets[betId].status != Active ==>
      r == ParticipationCheck(Some(db.bets[betId]), None, false, Some("Bet is not active for participation"))
    ensures OpenBet(db, betId, amount) && FindOption(db.bets[betId].options, optionId).Failure? ==>
      r == ParticipationCheck(None, None, false, Some("Validation failed"))
    ensures OpenBet(db, betId, amount) && FindOption(db.bets[betId].options, optionId) == Success(None) ==>
      r == ParticipationCheck(Some(db.bets[betId]), None, false, Some("Invalid option selected"))
    ensures OpenBet(db, betId, amount) && OptionFound(db, betId, optionId) && userId !in db.users ==>
      r == ParticipationCheck(Some(db.bets[betId]), None, false, Some("User not found in database"))
    ensures OpenBet(db, betId, amount) && OptionFound(db, betId, optionId) && userId in db.users
            && BalanceOf(db.users[userId]) < amount ==>
      r == ParticipationCheck(Some(db.bets[betId]), Some(db.users[userId]), false, Some("Insufficient balance"))
    ensures r.isValid ==> r.bet == Some(db.bets[betId]) && r.user == Some(db.users[userId])
  {
    if !ValidateBetAmount(amount) then ParticipationCheck(None, None, false, Some(AmountFormatError))
    else if betId !in db.bets then ParticipationCheck(None, None, false, Some("Bet not found"))
    else
      var bet := db.bets[betId];
      if bet.status != Active then ParticipationCheck(Some(bet), None, false, Some("Bet is not active for participation"))
      else match FindOption(bet.options, optionId)
        case Failure(_) => ParticipationCheck(None, None, false, Some("Validation failed"))
        case Success(found) =>
          if found.None? then ParticipationCheck(Some(bet), None, false, Some("Invalid option selected"))
          else if userId !in db.users then ParticipationCheck(Some(bet), None, false, Some("User not found in database"))
          else
            var user := db.users[userId];
            if BalanceOf(user) < amount then ParticipationCheck(Some(bet), Some(user), false, Some("Insufficient balance"))
            else ParticipationCheck(Some(bet), Some(user), true, None)
  }

  /** A participation these checks accept is one `processBetParticipation`
      accepts and debits without overdrawing. */
  lemma AcceptedParticipationCanBeDebited(db: Database, betId: int, userId: UserId, amount: real, optionId: int,
                                          description: string)
    requires ValidateBetParticipation(db, betId, userId, amount, optionId).isValid
    ensures Balance.ValidateBetAmount(amount).valid
    ensures var op := Balance.StakeDebit(userId, betId, amount, description);
      Balance.Update(db.users, op).Success? && Balance.Update(db.users, op).value.1 >= 0.0
  {
    StakeRulesAgree(amount);
  }
}
