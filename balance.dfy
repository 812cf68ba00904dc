/** The balance ledger primitives of src/lib/balance.ts: reading a balance,
    refusing a debit that is too large, writing a new balance together with
    one payment-history row, the stake-amount rule, and the two wrappers that
    debit a stake and credit a prize. */
module Balance {
  import opened Types
  import opened Store

  /** An operation `updateBalance` performs on one user's balance. */
  datatype BalanceOperation = BalanceOperation(
    userId: UserId,
    amount: real,
    kind: TxType,
    description: string,
    referenceId: Option<int>,
    createdBy: Option<UserId>)

  datatype BalanceValidationResult = BalanceValidationResult(
    success: bool, currentBalance: real, newBalance: Option<real>, error: Option<string>)

  /** `validateBalance(userId, amount)`: can `amount` be taken from the
      user's balance? */
  function ValidateBalance(db: Database, userId: UserId, amount: real): (r: BalanceValidationResult)
    reads db
    ensures userId !in db.users ==> r == BalanceValidationResult(false, 0.0, None, Some("User not found"))
    ensures userId in db.users ==> r.currentBalance == BalanceOf(db.users[userId])
    ensures r.success <==> userId in db.users && amount <= BalanceOf(db.users[userId])
    ensures r.success ==> r.newBalance == Some(r.currentBalance - amount) && r.error.None?
    ensures userId in db.users && !r.success ==> r.error == Some("Insufficient balance") && r.newBalance.None?
  {
    if userId !in db.users then BalanceValidationResult(false, 0.0, None, Some("User not found"))
    else
      var current := BalanceOf(db.users[userId]);
      if current < amount then BalanceValidationResult(false, current, None, Some("Insufficient balance"))
      else BalanceValidationResult(true, current, Some(current - amount), None)
  }

  /** The operation types that add to the balance. */
  predicate Credits(kind: TxType) {
    kind == Credit || kind == BetWin
  }

  /** The operation types checked against the balance before subtracting. */
  predicate CheckedDebit(kind: TxType) {
    kind == Debit || kind == BetLoss
  }

  /** The balance an operation leaves behind `before`, or the reason it is
      refused. */
  function Apply(before: real, op: BalanceOperation): (r: Result<real>)
    ensures r.Failure? <==> CheckedDebit(op.kind) && before < op.amount
    ensures r.Failure? ==> r.error == "Insufficient balance"
    ensures r.Success? && Credits(op.kind) ==> r.value == before + op.amount
    ensures r.Success? && !Credits(op.kind) ==> r.value == before - op.amount
  {
    if CheckedDebit(op.kind) && before < op.amount then Failure("Insufficient balance")
    else if Credits(op.kind) then Success(before + op.amount)
    else Success(before - op.amount)
  }

  /** What `updateBalance` does to the users table: the balance before and
      after, or the message of the error it throws. */
  function Update(users: map<UserId, UserRow>, op: BalanceOperation): Result<(real, real)> {
    if op.userId !in users then Failure("User not found")
    else
      var before := BalanceOf(users[op.userId]);
      match Apply(before, op)
      case Failure(e) => Failure(e)
      case Success(after) => Success((before, after))
  }

  /** The payment_history row `updateBalance` creates: the operation's fields
      and the two snapshots. */
  function HistoryRow(op: BalanceOperation, before: real, after: real): (e: LedgerEntry)
    ensures e.userId == op.userId && e.kind == op.kind && e.amount == op.amount
    ensures e.description == op.description && e.referenceId == op.referenceId && e.createdBy == op.createdBy
    ensures e.balanceBefore == before && e.balanceAfter == after
  {
    LedgerEntry(op.userId, op.kind, op.amount, op.description, op.referenceId, before, after, op.createdBy)
  }

  datatype UpdateResult = UpdateResult(success: bool, balanceBefore: real, balanceAfter: real, error: Option<string>)

  /** `updateBalance(operation)`: one transaction that either fails with
      zero snapshots and writes nothing, or writes the new balance and
      appends exactly one ledger row carrying the returned snapshots. */
  method UpdateBalance(db: Database, op: BalanceOperation) returns (r: UpdateResult)
    requires db.Valid()
    modifies db
    ensures db.Valid()
    ensures Update(old(db.users), op).Failure? ==>
      r == UpdateResult(false, 0.0, 0.0, Some(Update(old(db.users), op).error)) && unchanged(db)
    ensures Update(old(db.users), op).Success? ==>
      var (before, after) := Update(old(db.users), op).value;
      && r == UpdateResult(true, before, after, None)
      && db.users == old(db.users)[op.userId := old(db.users)[op.userId].(balance := Some(after))]
      && db.history == old(db.history) + [HistoryRow(op, before, after)]
      && db.bets == old(db.bets) && db.participations == old(db.participations)
      && db.nextBetId == old(db.nextBetId)
  {
    if op.userId !in db.users {
      return UpdateResult(false, 0.0, 0.0, Some("User not found"));
    }
    var row := db.users[op.userId];
    var before := BalanceOf(row);
    if (op.kind == Debit || op.kind == BetLoss) && before < op.amount {
      return UpdateResult(false, 0.0, 0.0, Some("Insufficient balance"));
    }
    var change := if op.kind == Credit || op.kind == BetWin then op.amount else -op.amount;
    var after := before + change;
    db.users := db.users[op.userId := row.(balance := Some(after))];
    db.history := db.history + [HistoryRow(op, before, after)];
    return UpdateResult(true, before, after, None);
  }

  /** A checked debit never takes a balance below zero, whatever the
      balance was: it is refused whenever the amount exceeds the balance. */
  lemma CheckedDebitNeverOverdraws(before: real, op: BalanceOperation)
    requires CheckedDebit(op.kind)
    ensures Apply(before, op).Success? <==> op.amount <= before
    ensures Apply(before, op).Success? ==> Apply(before, op).value >= 0.0
  {
  }

  /** An `admin_adjustment` is never refused and always subtracts its
      amount, so it can leave a negative balance. */
  lemma AdminAdjustmentIsUnchecked(before: real, op: BalanceOperation)
    requires op.kind == AdminAdjustment
    ensures Apply(before, op) == Success(before - op.amount)
    ensures op.amount > before ==> Apply(before, op).value < 0.0
  {
  }

  /** No balance goes negative: an update by a non-negative amount of any
      type but `admin_adjustment` keeps every balance of a table at least
      zero. */
  predicate NoNegativeBalances(users: map<UserId, UserRow>) {
    forall u :: u in users ==> BalanceOf(users[u]) >= 0.0
  }

  lemma UpdateKeepsBalancesNonNegative(users: map<UserId, UserRow>, op: BalanceOperation)
    requires NoNegativeBalances(users) && op.amount >= 0.0 && op.kind != AdminAdjustment
    requires Update(users, op).Success?
    ensures var after := Update(users, op).value.1;
      NoNegativeBalances(users[op.userId := users[op.userId].(balance := Some(after))])
  {
    var after := Update(users, op).value.1;
    var users' := users[op.userId := users[op.userId].(balance := Some(after))];
    forall u | u in users' ensures BalanceOf(users'[u]) >= 0.0 {
      if u != op.userId {
        assert users'[u] == users[u];
      }
    }
  }

  /** Ledger consistency: the row `updateBalance` appends moves the balance
      by exactly the signed amount, and its after-snapshot is the balance
      stored. */
  lemma UpdateRowMatchesBalance(users: map<UserId, UserRow>, op: BalanceOperation)
    requires Update(users, op).Success?
    ensures var (before, after) := Update(users, op).value;
      var e := HistoryRow(op, before, after);
      && before == BalanceOf(users[op.userId])
      && e.balanceAfter - e.balanceBefore == (if Credits(op.kind) then op.amount else -op.amount)
      && BalanceOf(users[op.userId].(balance := Some(after))) == e.balanceAfter
  {
  }

  /** `validateBalance` accepts a debit exactly when `updateBalance` would,
      and predicts the balance it would write. */
  lemma ValidateBalanceAgreesWithUpdate(db: Database, op: BalanceOperation)
    requires op.kind == Debit
    ensures ValidateBalance(db, op.userId, op.amount).success <==> Update(db.users, op).Success?
    ensures Update(db.users, op).Success? ==>
      ValidateBalance(db, op.userId, op.amount).newBalance == Some(Update(db.users, op).value.1)
  {
  }

  /** `getUserBalance(userId)`: the stored balance, 0 for NULL or for a
      missing user. */
  function GetUserBalance(db: Database, userId: UserId): (r: real)
    reads db
    ensures userId !in db.users ==> r == 0.0
    ensures userId in db.users && db.users[userId].balance.None? ==> r == 0.0
    ensures userId in db.users && db.users[userId].balance.Some? ==> r == db.users[userId].balance.value
  {
    if userId in db.users then BalanceOf(db.users[userId]) else 0.0
  }

  /** A whole number of tens: what `amount % 10 === 0` tests. */
  predicate IsMultipleOf10(amount: real) {
    (amount / 10.0).Floor as real == amount / 10.0
  }

  /** `k` tens. */
  function Tens(k: int): real {
    10.0 * k as real
  }

  /** The test accepts exactly the whole multiples of ten. */
  lemma MultipleOf10Witness(amount: real)
    ensures IsMultipleOf10(amount) <==> exists k: int :: Tens(k) == amount
  {
    if IsMultipleOf10(amount) {
      assert Tens((amount / 10.0).Floor) == amount;
    } else {
      forall k: int ensures Tens(k) != amount {
        assert Tens(k) / 10.0 == k as real;
      }
    }
  }

  datatype AmountCheck = AmountCheck(valid: bool, error: Option<string>)

  const MinimumError := "Minimum bet amount is \U{20B9}10"
  const MultipleError := "Bet amount must be in multiples of \U{20B9}10"

  /** `validateBetAmount(amount)`: at least 10 (checked first), and a
      multiple of 10. */
  function ValidateBetAmount(amount: real): (r: AmountCheck)
    ensures r.valid <==> amount >= 10.0 && IsMultipleOf10(amount)
    ensures r.valid <==> r.error.None?
    ensures amount < 10.0 ==> r.error == Some(MinimumError)
    ensures amount >= 10.0 && !IsMultipleOf10(amount) ==> r.error == Some(MultipleError)
  {
    if amount < 10.0 then AmountCheck(false, Some(MinimumError))
    else if !IsMultipleOf10(amount) then AmountCheck(false, Some(MultipleError))
    else AmountCheck(true, None)
  }

  datatype Outcome = Outcome(success: bool, error: Option<string>)

  /** The debit `processBetParticipation` asks for. */
  function StakeDebit(userId: UserId, betId: int, amount: real, description: string): BalanceOperation {
    BalanceOperation(userId, amount, Debit, description, Some(betId), None)
  }

  /** `processBetParticipation`: an invalid amount is reported without
      touching the store; otherwise exactly one `debit` of the amount,
      referencing the bet. */
  method ProcessBetParticipation(db: Database, userId: UserId, betId: int, amount: real, description: string)
    returns (r: Outcome)
    requires db.Valid()
    modifies db
    ensures db.Valid()
    ensures db.nextBetId == old(db.nextBetId)
    ensures !ValidateBetAmount(amount).valid ==>
      r == Outcome(false, ValidateBetAmount(amount).error) && unchanged(db)
    ensures ValidateBetAmount(amount).valid ==>
      var op := StakeDebit(userId, betId, amount, description);
      && (Update(old(db.users), op).Failure? ==>
            r == Outcome(false, Some(Update(old(db.users), op).error)) && unchanged(db))
      && (Update(old(db.users), op).Success? ==>
            && r == Outcome(true, None)
            && db.users == old(db.users)[userId := old(db.users)[userId].(balance := Some(Update(old(db.users), op).value.1))]
            && db.history == old(db.history) + [HistoryRow(op, Update(old(db.users), op).value.0, Update(old(db.users), op).value.1)]
            && db.bets == old(db.bets) && db.participations == old(db.participations))
  {
    var check := ValidateBetAmount(amount);
    if !check.valid {
      return Outcome(false, check.error);
    }
    var u := UpdateBalance(db, StakeDebit(userId, betId, amount, description));
    return Outcome(u.success, u.error);
  }

  /** A stake debited by `processBetParticipation` is at least 10, and leaves
      the user's balance at least zero. */
  lemma StakeDebitIsSafe(users: map<UserId, UserRow>, userId: UserId, betId: int, amount: real, description: string)
    requires ValidateBetAmount(amount).valid
    requires Update(users, StakeDebit(userId, betId, amount, description)).Success?
    ensures var (before, after) := Update(users, StakeDebit(userId, betId, amount, description)).value;
      && after == before - amount && amount >= 10.0 && after >= 0.0
  {
  }

  /** The credit `processBetWinnings` asks for. */
  function PrizeCredit(userId: UserId, betId: int, amount: real, betTitle: string): BalanceOperation {
    BalanceOperation(userId, amount, BetWin, "Prize from bet: " + betTitle, Some(betId), None)
  }

  /** `processBetWinnings`: one `bet_win` credit of the prize; it fails only
      for a missing user. */
  method ProcessBetWinnings(db: Database, userId: UserId, betId: int, amount: real, betTitle: string)
    returns (r: Outcome)
    requires db.Valid()
    modifies db
    ensures db.Valid()
    ensures db.nextBetId == old(db.nextBetId)
    ensures userId !in old(db.users) ==> r == Outcome(false, Some("User not found")) && unchanged(db)
    ensures userId in old(db.users) ==>
      var before := BalanceOf(old(db.users)[userId]);
      && r == Outcome(true, None)
      && db.users == old(db.users)[userId := old(db.users)[userId].(balance := Some(before + amount))]
      && db.history == old(db.history) + [HistoryRow(PrizeCredit(userId, betId, amount, betTitle), before, before + amount)]
      && db.bets == old(db.bets) && db.participations == old(db.participations)
  {
    var u := UpdateBalance(db, PrizeCredit(userId, betId, amount, betTitle));
    return Outcome(u.success, u.error);
  }
}
