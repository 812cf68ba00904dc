/** Shapes of the rows and values the betting core works on (users, bets,
    participations, payment-history rows) and the JSON values bet options are
    stored as. Currency amounts are exact reals. */
module Types {

  datatype Option<T> = None | Some(value: T) {
    function GetOr(default: T): T {
      match this
      case Some(v) => v
      case None => default
    }
  }

  datatype Result<T> = Success(value: T) | Failure(error: string)

  /** What a route handler answers: a status code with a body, or a status
      code with an error message. */
  datatype Reply<T> = Ok(code: int, body: T) | Err(code: int, message: string)

  type UserId = string

  /** The three statuses a bet row can have. */
  datatype Status = Active | Locked | Completed

  /** The status strings the routes accept. */
  function ParseStatus(s: string): (r: Option<Status>)
    ensures r == Some(Active) <==> s == "active"
    ensures r == Some(Locked) <==> s == "locked"
    ensures r == Some(Completed) <==> s == "completed"
  {
    if s == "active" then Some(Active)
    else if s == "locked" then Some(Locked)
    else if s == "completed" then Some(Completed)
    else None
  }

  /** The `type` column of payment_history. */
  datatype TxType = Credit | Debit | BetWin | BetLoss | AdminAdjustment

  /** A payment_history row: an audit record with before/after snapshots. */
  datatype LedgerEntry = LedgerEntry(
    userId: UserId,
    kind: TxType,
    amount: real,
    description: string,
    referenceId: Option<int>,
    balanceBefore: real,
    balanceAfter: real,
    createdBy: Option<UserId>)

  /** A users row, reduced to what the core reads: its balance column, which
      may be NULL, and its admin flag. */
  datatype UserRow = UserRow(balance: Option<real>, isAdmin: bool)

  /** The value every read of the balance column yields: the code falls back
      to 0 for NULL (`?? 0`, `|| new Decimal(0)`, `Number(null)`). */
  function BalanceOf(u: UserRow): real {
    u.balance.GetOr(0.0)
  }

  /** What an SQL `balance = balance + delta` (Prisma `increment`/`decrement`)
      stores: NULL stays NULL. */
  function Shift(b: Option<real>, delta: real): (r: Option<real>)
    ensures r.None? <==> b.None?
    ensures b.Some? ==> r.value - b.value == delta
  {
    match b
    case None => None
    case Some(v) => Some(v + delta)
  }

  /** A bet_participations row. */
  datatype Participation = Participation(betId: int, userId: UserId, optionId: int, amount: real)

  /** JSON values, as request bodies and the `options` column hold them. */
  datatype Json =
    | JNull
    | JBool(b: bool)
    | JNumber(n: real)
    | JString(s: string)
    | JArray(items: seq<Json>)
    | JObject(fields: map<string, Json>)

  /** JavaScript truthiness of a JSON value. */
  predicate Truthy(v: Json) {
    match v
    case JNull => false
    case JBool(b) => b
    case JNumber(n) => n != 0.0
    case JString(s) => s != ""
    case JArray(_) => true
    case JObject(_) => true
  }

  /** A bets row. `completedAt` is the timestamp the clock gave when the row
      was completed. */
  datatype BetRow = BetRow(
    title: string,
    description: Option<string>,
    options: Json,
    status: Status,
    commissionRate: Option<real>,
    totalPool: real,
    commissionAmount: real,
    prizePool: real,
    winningOptionId: Option<int>,
    completedAt: Option<int>,
    createdBy: UserId)
}
