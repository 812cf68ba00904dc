/** The pool calculator and the settlement engine of src/lib/prize-pool.ts:
    reading bet options out of their JSON column, the pool/commission/prize
    figures and per-option breakdown, the proportional prize distribution,
    and `distributePrizes`, the transaction that pays a bet's winners
    exactly once. */
module PrizePool {
  import opened Types
  import opened Stakes
  import opened Store

  // ---------------------------------------------------------------------
  // Options stored as JSON

  /** An element the type guard accepts: an object with a numeric `id` and a
      string `name`. */
  predicate IsBetOptionItem(v: Json) {
    && v.JObject?
    && "id" in v.fields && "name" in v.fields
    && v.fields["id"].JNumber?
    && v.fields["name"].JString?
  }

  /** `isBetOptionArray`: an array all of whose elements are options. */
  predicate IsBetOptionArray(v: Json) {
    v.JArray? && forall i :: 0 <= i < |v.items| ==> IsBetOptionItem(v.items[i])
  }

  /** `parseOptionsFromJson`: the array itself when every element is an
      option, otherwise the empty list. */
  function ParseOptionsFromJson(v: Json): (r: seq<Json>)
    ensures forall i :: 0 <= i < |r| ==> IsBetOptionItem(r[i])
    ensures r == [] || (v.JArray? && r == v.items)
    ensures v.JArray? && (forall i :: 0 <= i < |v.items| ==> IsBetOptionItem(v.items[i])) ==> r == v.items
  {
    if IsBetOptionArray(v) then v.items else []
  }

  /** The numeric id of an accepted option. */
  function OptionId(o: Json): real
    requires IsBetOptionItem(o)
  {
    o.fields["id"].n
  }

  /** The participations whose integer `option_id` is strictly equal to the
      JSON number `id`. */
  function OnOptionId(ps: seq<Participation>, id: real): (r: seq<Participation>)
    ensures forall p :: p in r <==> p in ps && p.optionId as real == id
  {
    if id.Floor as real == id then OnOption(ps, id.Floor) else []
  }

  // ---------------------------------------------------------------------
  // Pool calculator

  /** `Number(bet.commission_rate || 1.0)`: the rate column is a Decimal
      object, which is truthy whatever its value, so only NULL falls back to
      1 percent. */
  function RateOrDefault(rate: Option<real>): (r: real)
    ensures rate.None? ==> r == 1.0
    ensures rate.Some? ==> r == rate.value
  {
    match rate
    case None => 1.0
    case Some(x) => x
  }

  datatype OptionBreakdown = OptionBreakdown(
    optionId: real, totalAmount: real, participantCount: nat, potentialPrizeRatio: real)

  datatype PoolCalculation = PoolCalculation(
    totalPool: real, commissionAmount: real, prizePool: real, optionBreakdown: seq<OptionBreakdown>)

  function Commission(total: real, rate: real): real {
    total * rate / 100.0
  }

  /** `totalPool - commissionAmount` with the default rate applied. */
  function PrizePoolOf(ps: seq<Participation>, rate: Option<real>): real {
    Total(ps) - Commission(Total(ps), RateOrDefault(rate))
  }

  /** A rate in [0, 100] takes a share of a non-negative pool. */
  lemma CommissionBounds(total: real, rate: real)
    requires total >= 0.0 && 0.0 <= rate <= 100.0
    ensures 0.0 <= Commission(total, rate) <= total
  {
    assert 0.0 <= total * rate <= total * 100.0;
  }

  /** The breakdown entry of one option. */
  function BreakdownOf(ps: seq<Participation>, prizePool: real, id: real): (b: OptionBreakdown)
    ensures b.optionId == id
    ensures b.totalAmount == Total(OnOptionId(ps, id))
    ensures b.participantCount == |OnOptionId(ps, id)|
    ensures b.totalAmount > 0.0 ==> b.potentialPrizeRatio * b.totalAmount == prizePool
    ensures b.totalAmount <= 0.0 ==> b.potentialPrizeRatio == 0.0
  {
    var on := OnOptionId(ps, id);
    var amount := Total(on);
    OptionBreakdown(id, amount, |on|, if amount > 0.0 then prizePool / amount else 0.0)
  }

  /** `calculatePoolInfo` on a bet's rows. */
  function PoolInfo(ps: seq<Participation>, rate: Option<real>, options: Json): (r: PoolCalculation)
    ensures r.totalPool == Total(ps)
    ensures r.commissionAmount + r.prizePool == r.totalPool
    ensures r.commissionAmount == Commission(r.totalPool, RateOrDefault(rate))
    ensures |r.optionBreakdown| == |ParseOptionsFromJson(options)|
    ensures forall i :: 0 <= i < |r.optionBreakdown| ==>
      r.optionBreakdown[i] == BreakdownOf(ps, r.prizePool, OptionId(ParseOptionsFromJson(options)[i]))
  {
    var total := Total(ps);
    var commission := Commission(total, RateOrDefault(rate));
    var prize := PrizePoolOf(ps, rate);
    var opts := ParseOptionsFromJson(options);
    PoolCalculation(total, commission, prize,
      seq(|opts|, i requires 0 <= i < |opts| => BreakdownOf(ps, prize, OptionId(opts[i]))))
  }

  /** With a rate in [0, 100] and no negative stake, the commission and the
      prize pool are both shares of the pool, and so is every option's
      total. */
  lemma PoolInfoBounds(ps: seq<Participation>, rate: Option<real>, options: Json)
    requires NonNegativeStakes(ps)
    requires 0.0 <= RateOrDefault(rate) <= 100.0
    ensures var r := PoolInfo(ps, rate, options);
      && 0.0 <= r.commissionAmount <= r.totalPool
      && 0.0 <= r.prizePool <= r.totalPool
      && forall i :: 0 <= i < |r.optionBreakdown| ==>
           0.0 <= r.optionBreakdown[i].totalAmount <= r.totalPool
  {
    var r := PoolInfo(ps, rate, options);
    TotalNonNegative(ps);
    CommissionBounds(Total(ps), RateOrDefault(rate));
    forall i | 0 <= i < |r.optionBreakdown|
      ensures 0.0 <= r.optionBreakdown[i].totalAmount <= r.totalPool
    {
      var id := OptionId(ParseOptionsFromJson(options)[i]);
      if id.Floor as real == id {
        StakesOnOptionBounded(ps, id.Floor);
      }
    }
  }

  /** `calculatePoolInfo(betId)`: fails for an unknown bet. */
  function CalculatePoolInfo(db: Database, betId: int): (r: Result<PoolCalculation>)
    reads db
    ensures betId !in db.bets <==> r == Failure("Bet not found")
    ensures r.Success? ==> r.value.totalPool == Total(db.ParticipationsOf(betId))
    ensures r.Success? ==>
      r.value == PoolInfo(db.ParticipationsOf(betId), db.bets[betId].commissionRate, db.bets[betId].options)
  {
    if betId !in db.bets then Failure("Bet not found")
    else
      var bet := db.bets[betId];
      Success(PoolInfo(db.ParticipationsOf(betId), bet.commissionRate, bet.options))
  }

  /** `getBetCommissionRate`: the stored rate, 1 percent when the rate is
      NULL or the bet is unknown. */
  function GetBetCommissionRate(db: Database, betId: int): (r: real)
    reads db
    ensures betId !in db.bets ==> r == 1.0
    ensures betId in db.bets && db.bets[betId].commissionRate.None? ==> r == 1.0
    ensures betId in db.bets && db.bets[betId].commissionRate.Some? ==> r == db.bets[betId].commissionRate.value
  {
    if betId in db.bets then RateOrDefault(db.bets[betId].commissionRate) else 1.0
  }

  // ---------------------------------------------------------------------
  // Proportional distribution

  datatype PrizeDistribution = PrizeDistribution(userId: UserId, amount: real, winRatio: real, originalBet: real)

  function ShareOf(w: Participation, prizePool: real, totalWinnerAmount: real): (d: PrizeDistribution)
    requires totalWinnerAmount != 0.0
    ensures d.userId == w.userId && d.originalBet == w.amount
    ensures d.winRatio * totalWinnerAmount == w.amount
    ensures d.amount == prizePool * d.winRatio
  {
    var ratio := w.amount / totalWinnerAmount;
    PrizeDistribution(w.userId, prizePool * ratio, ratio, w.amount)
  }

  /** `winners.map(...)`: one share per winning participation, in order. */
  function Shares(ws: seq<Participation>, prizePool: real, t: real): (r: seq<PrizeDistribution>)
    requires t != 0.0
    ensures |r| == |ws|
    ensures forall i :: 0 <= i < |ws| ==> r[i] == ShareOf(ws[i], prizePool, t)
  {
    if ws == [] then [] else [ShareOf(ws[0], prizePool, t)] + Shares(ws[1..], prizePool, t)
  }

  /** `calculatePrizeDistribution` on a bet's rows: nothing when the winning
      option holds no stake, otherwise one proportional share per winning
      participation. */
  function PrizeDistributionOf(ps: seq<Participation>, rate: Option<real>, winningOptionId: int)
    : (r: seq<PrizeDistribution>)
    ensures Total(OnOption(ps, winningOptionId)) == 0.0 ==> r == []
    ensures Total(OnOption(ps, winningOptionId)) != 0.0 ==> |r| == |OnOption(ps, winningOptionId)|
    ensures forall i :: 0 <= i < |r| ==>
      r[i] == ShareOf(OnOption(ps, winningOptionId)[i], PrizePoolOf(ps, rate), Total(OnOption(ps, winningOptionId)))
  {
    var winners := OnOption(ps, winningOptionId);
    var t := Total(winners);
    if t == 0.0 then [] else Shares(winners, PrizePoolOf(ps, rate), t)
  }

  function RatioSum(ds: seq<PrizeDistribution>): real {
    if ds == [] then 0.0 else ds[0].winRatio + RatioSum(ds[1..])
  }

  function AmountSum(ds: seq<PrizeDistribution>): real {
    if ds == [] then 0.0 else ds[0].amount + AmountSum(ds[1..])
  }

  lemma DivAdd(a: real, b: real, t: real)
    requires t != 0.0
    ensures a / t + b / t == (a + b) / t
  {
  }

  lemma MulDivAdd(pp: real, a: real, b: real, t: real)
    requires t != 0.0
    ensures pp * (a / t) + pp * b / t == pp * (a + b) / t
  {
    assert pp * (a / t) == pp * a / t;
    assert pp * a / t + pp * b / t == (pp * a + pp * b) / t;
    assert pp * a + pp * b == pp * (a + b);
  }

  lemma DivSelf(t: real)
    requires t != 0.0
    ensures t / t == 1.0
  {
  }

  lemma MulDivCancel(pp: real, t: real)
    requires t != 0.0
    ensures pp * t / t == pp
  {
  }

  lemma {:induction false} RatioSumOfShares(ws: seq<Participation>, prizePool: real, t: real)
    requires t != 0.0
    ensures RatioSum(Shares(ws, prizePool, t)) == Total(ws) / t
  {
    if ws != [] {
      var ds, rest := Shares(ws, prizePool, t), ws[1..];
      assert ds[1..] == Shares(rest, prizePool, t);
      RatioSumOfShares(rest, prizePool, t);
      assert RatioSum(ds) == ws[0].amount / t + Total(rest) / t;
      DivAdd(ws[0].amount, Total(rest), t);
      assert Total(ws) == ws[0].amount + Total(rest);
    }
  }

  lemma {:induction false} AmountSumOfShares(ws: seq<Participation>, prizePool: real, t: real)
    requires t != 0.0
    ensures AmountSum(Shares(ws, prizePool, t)) == prizePool * Total(ws) / t
  {
    if ws != [] {
      var ds, rest := Shares(ws, prizePool, t), ws[1..];
      assert ds[1..] == Shares(rest, prizePool, t);
      AmountSumOfShares(rest, prizePool, t);
      assert AmountSum(ds) == prizePool * (ws[0].amount / t) + prizePool * Total(rest) / t;
      MulDivAdd(prizePool, ws[0].amount, Total(rest), t);
      assert Total(ws) == ws[0].amount + Total(rest);
    }
  }

  /** When the winning option holds stake, the win ratios add up to 1 and
      the shares add up to exactly the prize pool. */
  lemma DistributionSharesPrizePool(ps: seq<Participation>, rate: Option<real>, winningOptionId: int)
    requires Total(OnOption(ps, winningOptionId)) != 0.0
    ensures var ds := PrizeDistributionOf(ps, rate, winningOptionId);
      RatioSum(ds) == 1.0 && AmountSum(ds) == PrizePoolOf(ps, rate)
  {
    var winners := OnOption(ps, winningOptionId);
    assert PrizeDistributionOf(ps, rate, winningOptionId) == Shares(winners, PrizePoolOf(ps, rate), Total(winners));
    SharesAddUp(winners, PrizePoolOf(ps, rate));
  }

  /** The shares of a prize pool among winners holding some stake have
      ratios adding up to 1 and amounts adding up to the pool. */
  lemma SharesAddUp(ws: seq<Participation>, pp: real)
    requires Total(ws) != 0.0
    ensures RatioSum(Shares(ws, pp, Total(ws))) == 1.0
    ensures AmountSum(Shares(ws, pp, Total(ws))) == pp
  {
    RatioSumOfShares(ws, pp, Total(ws));
    DivSelf(Total(ws));
    AmountSumOfShares(ws, pp, Total(ws));
    MulDivCancel(pp, Total(ws));
  }

  /** `calculatePrizeDistribution(betId, winningOptionId)` against the
      store: fails for an unknown bet. */
  function CalculatePrizeDistribution(db: Database, betId: int, winningOptionId: int)
    : (r: Result<seq<PrizeDistribution>>)
    reads db
    ensures betId !in db.bets <==> r == Failure("Bet not found")
    ensures r.Success? && Total(OnOption(db.ParticipationsOf(betId), winningOptionId)) == 0.0 ==> r.value == []
    ensures r.Success? ==>
      r.value == PrizeDistributionOf(db.ParticipationsOf(betId), db.bets[betId].commissionRate, winningOptionId)
  {
    if betId !in db.bets then Failure("Bet not found")
    else Success(PrizeDistributionOf(db.ParticipationsOf(betId), db.bets[betId].commissionRate, winningOptionId))
  }

  /** The two calculators agree: when the winning option holds some stake,
      the shares `calculatePrizeDistribution` reports split exactly the
      prize pool `calculatePoolInfo` reports for the same bet. */
  lemma CalculatorsAgree(db: Database, betId: int, winningOptionId: int)
    requires betId in db.bets
    requires Total(OnOption(db.ParticipationsOf(betId), winningOptionId)) != 0.0
    ensures CalculatePoolInfo(db, betId).Success? && CalculatePrizeDistribution(db, betId, winningOptionId).Success?
    ensures var ds := CalculatePrizeDistribution(db, betId, winningOptionId).value;
      RatioSum(ds) == 1.0 && AmountSum(ds) == CalculatePoolInfo(db, betId).value.prizePool
  {
    DistributionSharesPrizePool(db.ParticipationsOf(betId), db.bets[betId].commissionRate, winningOptionId);
  }

  // ---------------------------------------------------------------------
  // Settlement

  /** `Math.floor(x * 100) / 100`: rounds down to a whole cent. */
  function Floor2(x: real): (r: real)
    ensures r <= x < r + 0.01
    ensures x >= 0.0 ==> r >= 0.0
  {
    ((x * 100.0).Floor as real) / 100.0
  }

  /** The prize one winning stake earns: its share of the prize pool, rounded
      down to a cent. */
  function WinPrize(stake: real, prizePool: real, totalWinnerAmount: real): (r: real)
    requires totalWinnerAmount != 0.0
    ensures r <= prizePool * (stake / totalWinnerAmount) < r + 0.01
  {
    Floor2(prizePool * (stake / totalWinnerAmount))
  }

  /** The users table and the ledger, the two tables a payout writes. */
  datatype Ledger = Ledger(users: map<UserId, UserRow>, history: seq<LedgerEntry>)

  function WinRow(userId: UserId, before: real, prize: real, betId: int, title: string): (e: LedgerEntry)
    ensures e.kind == BetWin && e.balanceAfter - e.balanceBefore == e.amount
  {
    LedgerEntry(userId, BetWin, prize, "Prize from bet: " + title, Some(betId), before, before + prize, None)
  }

  function LossRow(userId: UserId, before: real, stake: real, betId: int, title: string): (e: LedgerEntry)
    ensures e.kind == BetLoss && e.balanceAfter == e.balanceBefore && e.amount == -stake
  {
    LedgerEntry(userId, BetLoss, -stake, "Loss from bet: " + title, Some(betId), before, before, None)
  }

  /** The winners loop: for each winning participation in turn, read the
      user's row (abort when it is missing), increment the balance by the
      prize and append a `bet_win` row. */
  function PayWinners(l: Ledger, ws: seq<Participation>, prizePool: real, t: real, betId: int, title: string)
    : Result<Ledger>
    requires t != 0.0
    decreases |ws|
  {
    if ws == [] then Success(l)
    else
      var w := ws[0];
      if w.userId !in l.users then Failure("User " + w.userId + " not found")
      else
        var prize := WinPrize(w.amount, prizePool, t);
        var row := l.users[w.userId];
        var l' := Ledger(l.users[w.userId := row.(balance := Shift(row.balance, prize))],
                         l.history + [WinRow(w.userId, BalanceOf(row), prize, betId, title)]);
        PayWinners(l', ws[1..], prizePool, t, betId, title)
  }

  /** The prizes of all of `ws`, in order: what `totalDistributed` adds up. */
  function PrizeTotal(ws: seq<Participation>, prizePool: real, t: real): real
    requires t != 0.0
  {
    if ws == [] then 0.0 else WinPrize(ws[0].amount, prizePool, t) + PrizeTotal(ws[1..], prizePool, t)
  }

  /** The prizes `ws` pays to user `u`. */
  function PrizeFor(ws: seq<Participation>, u: UserId, prizePool: real, t: real): real
    requires t != 0.0
  {
    if ws == [] then 0.0
    else (if ws[0].userId == u then WinPrize(ws[0].amount, prizePool, t) else 0.0)
         + PrizeFor(ws[1..], u, prizePool, t)
  }

  /** The losers loop: one `bet_loss` row per losing participation whose user
      row exists; balances are read but not written. */
  function LossRows(users: map<UserId, UserRow>, ls: seq<Participation>, betId: int, title: string)
    : seq<LedgerEntry>
  {
    if ls == [] then []
    else
      var l := ls[0];
      (if l.userId in users then [LossRow(l.userId, BalanceOf(users[l.userId]), l.amount, betId, title)] else [])
      + LossRows(users, ls[1..], betId, title)
  }

  datatype Settlement = Settlement(totalPool: real, winnersCount: nat, distributedAmount: real)

  /** The bet row as the final `bets.update` leaves it. */
  function Closed(bet: BetRow, w: int, total: real, commission: real, prizePool: real, now: int): (b: BetRow)
    ensures b.status == Completed && b.winningOptionId == Some(w) && b.completedAt == Some(now)
    ensures b.title == bet.title && b.options == bet.options && b.commissionRate == bet.commissionRate
  {
    bet.(status := Completed, winningOptionId := Some(w), totalPool := total,
         commissionAmount := commission, prizePool := prizePool, completedAt := Some(now))
  }

  /** The two loops of a settlement with stake on the winning option `w`:
      pay the winners out of `prizePool`, then record the losses. */
  function Payout(l: Ledger, ps: seq<Participation>, w: int, prizePool: real, betId: int, title: string)
    : Result<Ledger>
    requires Total(OnOption(ps, w)) != 0.0
  {
    match PayWinners(l, OnOption(ps, w), prizePool, Total(OnOption(ps, w)), betId, title)
    case Failure(e) => Failure(e)
    case Success(paid) => Success(Ledger(paid.users, paid.history + LossRows(paid.users, OffOption(ps, w), betId, title)))
  }

  /** `distributePrizes` as one transaction over the users and ledger tables
      `l`, the bet's row and the bet's participations `ps`; `now` is the
      clock. */
  function Settle(l: Ledger, bet: BetRow, ps: seq<Participation>, betId: int, w: int, now: int)
    : Result<(Ledger, BetRow, Settlement)>
  {
    if bet.status == Completed then Failure("Bet already completed")
    else
      var total := Total(ps);
      var commission := Commission(total, RateOrDefault(bet.commissionRate));
      var prizePool := PrizePoolOf(ps, bet.commissionRate);
      var winners := OnOption(ps, w);
      var t := Total(winners);
      if total == 0.0 then
        Success((l, Closed(bet, w, 0.0, 0.0, 0.0, now), Settlement(0.0, 0, 0.0)))
      else if t == 0.0 then
        Success((l, Closed(bet, w, total, commission, prizePool, now), Settlement(total, 0, 0.0)))
      else
        match Payout(l, ps, w, prizePool, betId, bet.title)
        case Failure(e) => Failure(e)
        case Success(l2) =>
          Success((l2, Closed(bet, w, total, commission, prizePool, now),
                   Settlement(total, |winners|, PrizeTotal(winners, prizePool, t))))
  }

  // ---------------------------------------------------------------------
  // Properties of the payout fold

  lemma {:induction false} PayWinnersKeepsKeys(l: Ledger, ws: seq<Participation>, pp: real, t: real, betId: int, title: string)
    requires t != 0.0
    ensures PayWinners(l, ws, pp, t, betId, title).Success? <==> forall i :: 0 <= i < |ws| ==> ws[i].userId in l.users
    ensures PayWinners(l, ws, pp, t, betId, title).Success? ==> PayWinners(l, ws, pp, t, betId, title).value.users.Keys == l.users.Keys
    decreases |ws|
  {
    if ws != [] {
      var w := ws[0];
      if w.userId in l.users {
        var prize := WinPrize(w.amount, pp, t);
        var row := l.users[w.userId];
        var l' := Ledger(l.users[w.userId := row.(balance := Shift(row.balance, prize))],
                         l.history + [WinRow(w.userId, BalanceOf(row), prize, betId, title)]);
        PayWinnersKeepsKeys(l', ws[1..], pp, t, betId, title);
        assert l'.users.Keys == l.users.Keys;
        if forall i :: 0 <= i < |ws| ==> ws[i].userId in l.users {
          assert forall i :: 0 <= i < |ws[1..]| ==> ws[1..][i].userId in l'.users by {
            forall i | 0 <= i < |ws[1..]| ensures ws[1..][i].userId in l'.users {
              assert ws[1..][i] == ws[i + 1];
            }
          }
        } else {
          var i :| 0 <= i < |ws| && ws[i].userId !in l.users;
          assert ws[1..][i - 1] == ws[i];
        }
      }
    }
  }

  /** Every user's balance moves by exactly the prizes paid to them (a NULL
      balance stays NULL), and nobody else's balance moves. */
  lemma {:induction false} PayWinnersBalances(l: Ledger, ws: seq<Participation>, pp: real, t: real, betId: int, title: string)
    requires t != 0.0
    requires PayWinners(l, ws, pp, t, betId, title).Success?
    ensures var l2 := PayWinners(l, ws, pp, t, betId, title).value;
      forall u :: u in l.users ==> u in l2.users && l2.users[u].balance == Shift(l.users[u].balance, PrizeFor(ws, u, pp, t))
    decreases |ws|
  {
    var l2 := PayWinners(l, ws, pp, t, betId, title).value;
    if ws == [] {
      forall u | u in l.users ensures l2.users[u].balance == Shift(l.users[u].balance, 0.0) {
        assert l.users[u].balance == Shift(l.users[u].balance, 0.0);
      }
    } else {
      var w := ws[0];
      var prize := WinPrize(w.amount, pp, t);
      var row := l.users[w.userId];
      var l' := Ledger(l.users[w.userId := row.(balance := Shift(row.balance, prize))],
                       l.history + [WinRow(w.userId, BalanceOf(row), prize, betId, title)]);
      PayWinnersBalances(l', ws[1..], pp, t, betId, title);
      forall u | u in l.users
        ensures u in l2.users && l2.users[u].balance == Shift(l.users[u].balance, PrizeFor(ws, u, pp, t))
      {
        var here := if w.userId == u then prize else 0.0;
        assert l'.users[u].balance == Shift(l.users[u].balance, here);
        ShiftTwice(l.users[u].balance, here, PrizeFor(ws[1..], u, pp, t));
      }
    }
  }

  lemma ShiftTwice(b: Option<real>, x: real, y: real)
    ensures Shift(Shift(b, x), y) == Shift(b, x + y)
  {
  }

  /** `e` is the `bet_win` row paying winning stake `w` its prize for bet
      `betId`, with snapshots that differ by that prize. */
  predicate IsWinRow(e: LedgerEntry, w: Participation, pp: real, t: real, betId: int)
    requires t != 0.0
  {
    && e.userId == w.userId && e.kind == BetWin && e.referenceId == Some(betId)
    && e.amount == WinPrize(w.amount, pp, t)
    && e.balanceAfter == e.balanceBefore + e.amount
  }

  /** The payout appends exactly one `bet_win` row per winning participation,
      in order, each for that winner's prize, with consistent snapshots, and
      keeps every earlier row. */
  lemma {:induction false} PayWinnersLedger(l: Ledger, ws: seq<Participation>, pp: real, t: real, betId: int, title: string)
    requires t != 0.0
    requires PayWinners(l, ws, pp, t, betId, title).Success?
    ensures var h := PayWinners(l, ws, pp, t, betId, title).value.history;
      && |h| == |l.history| + |ws|
      && h[..|l.history|] == l.history
      && forall j :: 0 <= j < |ws| ==> IsWinRow(h[|l.history| + j], ws[j], pp, t, betId)
    decreases |ws|
  {
    if ws != [] {
      var w := ws[0];
      var prize := WinPrize(w.amount, pp, t);
      var row := l.users[w.userId];
      var l' := Ledger(l.users[w.userId := row.(balance := Shift(row.balance, prize))],
                       l.history + [WinRow(w.userId, BalanceOf(row), prize, betId, title)]);
      PayWinnersLedger(l', ws[1..], pp, t, betId, title);
      var h := PayWinners(l, ws, pp, t, betId, title).value.history;
      assert h[..|l'.history|] == l'.history;
      assert h[..|l.history|] == l'.history[..|l.history|];
      forall j | 0 <= j < |ws|
        ensures IsWinRow(h[|l.history| + j], ws[j], pp, t, betId)
      {
        if j == 0 {
          assert h[|l.history|] == l'.history[|l.history|];
        } else {
          assert ws[1..][j - 1] == ws[j];
          assert |l.history| + j == |l'.history| + (j - 1);
        }
      }
    }
  }

  /** The prizes never exceed the exact proportional shares, and fall short
      of them by less than a cent each. */
  lemma {:induction false} PrizeTotalBelowShares(ws: seq<Participation>, pp: real, t: real)
    requires t != 0.0
    ensures PrizeTotal(ws, pp, t) <= AmountSum(Shares(ws, pp, t))
    ensures AmountSum(Shares(ws, pp, t)) - PrizeTotal(ws, pp, t) <= 0.01 * |ws| as real
    ensures ws != [] ==> AmountSum(Shares(ws, pp, t)) - PrizeTotal(ws, pp, t) < 0.01 * |ws| as real
  {
    if ws != [] {
      var rest := ws[1..];
      var ds := Shares(ws, pp, t);
      assert ds[1..] == Shares(rest, pp, t);
      PrizeTotalBelowShares(rest, pp, t);
      ShortfallStep(PrizeTotal(ws, pp, t), WinPrize(ws[0].amount, pp, t), PrizeTotal(rest, pp, t),
                    AmountSum(ds), ds[0].amount, AmountSum(ds[1..]),
                    |ws| as real, |rest| as real);
    }
  }

  /** One step of the shortfall bound: a prize `f` at most a cent short of
      its share `x`, added to prizes `rest` that fall short of their shares
      `share` by at most a cent each. */
  lemma ShortfallStep(total: real, f: real, rest: real, shares: real, x: real, share: real, m: real, n: real)
    requires total == f + rest && shares == x + share && m == n + 1.0
    requires f <= x < f + 0.01
    requires rest <= share && share - rest <= 0.01 * n
    ensures total <= shares
    ensures shares - total < 0.01 * m
  {
  }

  lemma {:induction false} PrizeTotalNonNegative(ws: seq<Participation>, pp: real, t: real)
    requires t > 0.0 && pp >= 0.0 && NonNegativeStakes(ws)
    ensures PrizeTotal(ws, pp, t) >= 0.0
  {
    if ws != [] {
      assert pp * (ws[0].amount / t) >= 0.0;
      PrizeTotalNonNegative(ws[1..], pp, t);
    }
  }

  // ---------------------------------------------------------------------
  // Properties of a settlement

  /** Exactly once: a settlement leaves the bet completed with the winning
      option recorded, and settling a completed bet always fails without
      touching anything. */
  lemma SettleIsExactlyOnce(l: Ledger, bet: BetRow, ps: seq<Participation>, betId: int, w: int, now: int,
                             ps2: seq<Participation>, w2: int, now2: int)
    requires Settle(l, bet, ps, betId, w, now).Success?
    ensures var (l1, bet1, _) := Settle(l, bet, ps, betId, w, now).value;
      && bet1.status == Completed && bet1.winningOptionId == Some(w)
      && Settle(l1, bet1, ps2, betId, w2, now2) == Failure("Bet already completed")
  {
  }

  /** A bet without stake is completed with every total at 0, no ledger row
      and a {0, 0, 0} result. */
  lemma SettleEmptyPool(l: Ledger, bet: BetRow, ps: seq<Participation>, betId: int, w: int, now: int)
    requires bet.status != Completed && Total(ps) == 0.0
    ensures Settle(l, bet, ps, betId, w, now)
      == Success((l, Closed(bet, w, 0.0, 0.0, 0.0, now), Settlement(0.0, 0, 0.0)))
  {
  }

  /** With stake in the pool but none on the winning option, no balance and
      no ledger row changes; the prize pool is recorded but not paid out. */
  lemma SettleWithoutWinners(l: Ledger, bet: BetRow, ps: seq<Participation>, betId: int, w: int, now: int)
    requires bet.status != Completed && Total(ps) != 0.0 && Total(OnOption(ps, w)) == 0.0
    ensures var r := Settle(l, bet, ps, betId, w, now);
      && r.Success? && r.value.0 == l
      && r.value.2 == Settlement(Total(ps), 0, 0.0)
      && r.value.1.prizePool == Total(ps) - r.value.1.commissionAmount
      && r.value.1.totalPool == Total(ps)
  {
  }

  /** A winner without a user row aborts the whole settlement. */
  lemma SettleAbortsOnMissingWinner(l: Ledger, bet: BetRow, ps: seq<Participation>, betId: int, w: int, now: int, i: int)
    requires bet.status != Completed && Total(ps) != 0.0 && Total(OnOption(ps, w)) != 0.0
    requires 0 <= i < |OnOption(ps, w)| && OnOption(ps, w)[i].userId !in l.users
    ensures Settle(l, bet, ps, betId, w, now).Failure?
  {
    var total := Total(ps);
    var pp := PrizePoolOf(ps, bet.commissionRate);
    PayWinnersKeepsKeys(l, OnOption(ps, w), pp, Total(OnOption(ps, w)), betId, bet.title);
  }

  /** Conservation: with a rate in [0, 100] and no negative stake, the prizes
      paid plus the commission never exceed the pool, and what stays with the
      house beyond the commission is less than a cent per winner. */
  lemma SettleConservesMoney(l: Ledger, bet: BetRow, ps: seq<Participation>, betId: int, w: int, now: int)
    requires NonNegativeStakes(ps)
    requires 0.0 <= RateOrDefault(bet.commissionRate) <= 100.0
    requires Settle(l, bet, ps, betId, w, now).Success?
    ensures var (_, b, s) := Settle(l, bet, ps, betId, w, now).value;
      && b.totalPool == Total(ps)
      && b.commissionAmount + b.prizePool == b.totalPool
      && 0.0 <= s.distributedAmount
      && s.distributedAmount + b.commissionAmount <= b.totalPool
      && (s.winnersCount > 0 ==> b.totalPool - b.commissionAmount - s.distributedAmount < 0.01 * s.winnersCount as real)
  {
    var total := Total(ps);
    TotalNonNegative(ps);
    CommissionBounds(total, RateOrDefault(bet.commissionRate));
    var winners := OnOption(ps, w);
    var t := Total(winners);
    if total != 0.0 && t != 0.0 {
      StakesOnOptionBounded(ps, w);
      OnOptionNonNegative(ps, w);
      PrizesWithinPrizePool(winners, PrizePoolOf(ps, bet.commissionRate));
    }
  }

  /** Paying every winner the floor of their proportional share distributes
      no more than the prize pool and leaves less than a cent per winner
      undistributed. */
  lemma PrizesWithinPrizePool(ws: seq<Participation>, pp: real)
    requires NonNegativeStakes(ws) && Total(ws) > 0.0 && pp >= 0.0
    ensures 0.0 <= PrizeTotal(ws, pp, Total(ws)) <= pp
    ensures pp - PrizeTotal(ws, pp, Total(ws)) < 0.01 * |ws| as real
  {
    var t := Total(ws);
    assert ws != [];
    assert AmountSum(Shares(ws, pp, t)) == pp by {
      AmountSumOfShares(ws, pp, t);
      MulDivCancel(pp, t);
    }
    PrizeTotalBelowShares(ws, pp, t);
    PrizeTotalNonNegative(ws, pp, t);
  }

  /** Every winner's balance rises by exactly their prizes, each loser's and
      everyone else's is untouched, and no user row appears or
      disappears. */
  lemma PayoutBalances(l: Ledger, ps: seq<Participation>, w: int, pp: real, betId: int, title: string)
    requires Total(OnOption(ps, w)) != 0.0
    requires Payout(l, ps, w, pp, betId, title).Success?
    ensures var l2 := Payout(l, ps, w, pp, betId, title).value;
      var winners := OnOption(ps, w);
      && l2.users.Keys == l.users.Keys
      && forall u :: u in l.users ==>
           l2.users[u].balance == Shift(l.users[u].balance, PrizeFor(winners, u, pp, Total(winners)))
  {
    var winners := OnOption(ps, w);
    var t := Total(winners);
    PayWinnersKeepsKeys(l, winners, pp, t, betId, title);
    PayWinnersBalances(l, winners, pp, t, betId, title);
  }

  /** The ledger a payout leaves: the winners' rows, then the losers'. */
  lemma PayoutHistory(l: Ledger, ps: seq<Participation>, w: int, pp: real, betId: int, title: string)
    requires Total(OnOption(ps, w)) != 0.0
    requires Payout(l, ps, w, pp, betId, title).Success?
    ensures var paid := PayWinners(l, OnOption(ps, w), pp, Total(OnOption(ps, w)), betId, title);
      && paid.Success?
      && Payout(l, ps, w, pp, betId, title).value.history
         == paid.value.history + LossRows(paid.value.users, OffOption(ps, w), betId, title)
  {
  }

  /** `h` is `h0` followed by one win row per stake of `ws`, in order, and
      then by audit rows only. */
  predicate PayoutRows(h0: seq<LedgerEntry>, h: seq<LedgerEntry>, ws: seq<Participation>, pp: real, t: real, betId: int)
    requires t != 0.0
  {
    && |h| >= |h0| + |ws|
    && h[..|h0|] == h0
    && (forall j :: 0 <= j < |ws| ==> IsWinRow(h[|h0| + j], ws[j], pp, t, betId))
    && (forall j :: |h0| + |ws| <= j < |h| ==> h[j].kind == BetLoss && h[j].balanceAfter == h[j].balanceBefore)
  }

  /** Appending audit rows to the winners' ledger gives a payout's ledger. */
  lemma LedgerShape(h0: seq<LedgerEntry>, hw: seq<LedgerEntry>, rest: seq<LedgerEntry>,
                    ws: seq<Participation>, pp: real, t: real, betId: int)
    requires t != 0.0
    requires |hw| == |h0| + |ws| && hw[..|h0|] == h0
    requires forall j :: 0 <= j < |ws| ==> IsWinRow(hw[|h0| + j], ws[j], pp, t, betId)
    requires forall j :: 0 <= j < |rest| ==> rest[j].kind == BetLoss && rest[j].balanceAfter == rest[j].balanceBefore
    ensures PayoutRows(h0, hw + rest, ws, pp, t, betId)
  {
    var h := hw + rest;
    assert h[..|h0|] == hw[..|h0|];
    forall j | 0 <= j < |ws| ensures IsWinRow(h[|h0| + j], ws[j], pp, t, betId) {
      assert h[|h0| + j] == hw[|h0| + j];
    }
    forall j | |h0| + |ws| <= j < |h|
      ensures h[j].kind == BetLoss && h[j].balanceAfter == h[j].balanceBefore
    {
      assert h[j] == rest[j - |hw|];
    }
  }

  /** The ledger keeps its rows and gains one consistent `bet_win` row per
      winning participation, then one `bet_loss` row (amount = -stake,
      after = before) per losing participation whose user exists. */
  lemma PayoutLedger(l: Ledger, ps: seq<Participation>, w: int, pp: real, betId: int, title: string)
    requires Total(OnOption(ps, w)) != 0.0
    requires Payout(l, ps, w, pp, betId, title).Success?
    ensures PayoutRows(l.history, Payout(l, ps, w, pp, betId, title).value.history, OnOption(ps, w), pp, Total(OnOption(ps, w)), betId)
  {
    PayoutHistory(l, ps, w, pp, betId, title);
    WinnersThenLosses(l, OnOption(ps, w), OffOption(ps, w), pp, Total(OnOption(ps, w)), betId, title);
  }

  /** The winners loop followed by the losers loop leaves a payout's
      ledger. */
  lemma WinnersThenLosses(l: Ledger, ws: seq<Participation>, ls: seq<Participation>, pp: real, t: real, betId: int, title: string)
    requires t != 0.0
    requires PayWinners(l, ws, pp, t, betId, title).Success?
    ensures var paid := PayWinners(l, ws, pp, t, betId, title).value;
      PayoutRows(l.history, paid.history + LossRows(paid.users, ls, betId, title), ws, pp, t, betId)
  {
    var paid := PayWinners(l, ws, pp, t, betId, title).value;
    PayWinnersLedger(l, ws, pp, t, betId, title);
    LossRowsAreAudit(paid.users, ls, betId, title);
    LedgerShape(l.history, paid.history, LossRows(paid.users, ls, betId, title), ws, pp, t, betId);
  }

  /** A settlement with stake on the winning option commits exactly the
      payout, counts every winning participation, and reports as
      distributed the sum of the prizes the winners' balances received. */
  lemma SettleRecordsPayout(l: Ledger, bet: BetRow, ps: seq<Participation>, betId: int, w: int, now: int)
    requires bet.status != Completed && Total(ps) != 0.0 && Total(OnOption(ps, w)) != 0.0
    ensures var pp := PrizePoolOf(ps, bet.commissionRate);
      var r := Settle(l, bet, ps, betId, w, now);
      && (r.Success? <==> Payout(l, ps, w, pp, betId, bet.title).Success?)
      && (r.Success? ==>
            && r.value.0 == Payout(l, ps, w, pp, betId, bet.title).value
            && r.value.2.winnersCount == |OnOption(ps, w)|
            && r.value.2.distributedAmount == PrizeTotal(OnOption(ps, w), pp, Total(OnOption(ps, w)))
            && r.value.1.prizePool == pp)
  {
  }

  lemma {:induction false} LossRowsAreAudit(users: map<UserId, UserRow>, ls: seq<Participation>, betId: int, title: string)
    ensures var rs := LossRows(users, ls, betId, title);
      && |rs| <= |ls|
      && forall j :: 0 <= j < |rs| ==>
           rs[j].kind == BetLoss && rs[j].balanceAfter == rs[j].balanceBefore && rs[j].userId in users
  {
    if ls != [] {
      LossRowsAreAudit(users, ls[1..], betId, title);
    }
  }

  /** Each settled prize is the proportional share `calculatePrizeDistribution`
      reports, rounded down to a cent. */
  lemma SettledPrizeIsFlooredShare(ps: seq<Participation>, rate: Option<real>, w: int, i: int)
    requires Total(OnOption(ps, w)) != 0.0
    requires 0 <= i < |OnOption(ps, w)|
    ensures var ds := PrizeDistributionOf(ps, rate, w);
      var total := Total(ps);
      var pp := PrizePoolOf(ps, rate);
      && i < |ds|
      && WinPrize(OnOption(ps, w)[i].amount, pp, Total(OnOption(ps, w))) == Floor2(ds[i].amount)
  {
  }

  // ---------------------------------------------------------------------
  // The transaction

  /** The `for (const winner of winners)` loop on buffered copies of the
      users table and the ledger: the payout `PayWinners` describes, and the
      running `totalDistributed`. */
  method PayWinnersLoop(users0: map<UserId, UserRow>, history0: seq<LedgerEntry>, winners: seq<Participation>,
                        prizePool: real, t: real, betId: int, title: string)
    returns (r: Result<Ledger>, distributed: real)
    requires t != 0.0
    ensures r == PayWinners(Ledger(users0, history0), winners, prizePool, t, betId, title)
    ensures r.Success? ==> distributed == PrizeTotal(winners, prizePool, t)
  {
    var users, history := users0, history0;
    distributed := 0.0;
    var i := 0;
    while i < |winners|
      invariant 0 <= i <= |winners|
      invariant PayWinners(Ledger(users, history), winners[i..], prizePool, t, betId, title)
             == PayWinners(Ledger(users0, history0), winners, prizePool, t, betId, title)
      invariant distributed + PrizeTotal(winners[i..], prizePool, t) == PrizeTotal(winners, prizePool, t)
    {
      var winner := winners[i];
      assert winners[i..][0] == winner && winners[i..][1..] == winners[i + 1..];
      var prize := WinPrize(winner.amount, prizePool, t);
      if winner.userId !in users {
        return Failure("User " + winner.userId + " not found"), distributed;
      }
      var row := users[winner.userId];
      users := users[winner.userId := row.(balance := Shift(row.balance, prize))];
      history := history + [WinRow(winner.userId, BalanceOf(row), prize, betId, title)];
      distributed := distributed + prize;
      i := i + 1;
    }
    assert winners[i..] == [];
    r := Success(Ledger(users, history));
  }

  /** The `for (const loser of losers)` loop: appends the audit rows
      `LossRows` describes. */
  method RecordLosses(users: map<UserId, UserRow>, history0: seq<LedgerEntry>, losers: seq<Participation>,
                      betId: int, title: string)
    returns (history: seq<LedgerEntry>)
    ensures history == history0 + LossRows(users, losers, betId, title)
  {
    history := history0;
    var j := 0;
    while j < |losers|
      invariant 0 <= j <= |losers|
      invariant history + LossRows(users, losers[j..], betId, title)
             == history0 + LossRows(users, losers, betId, title)
    {
      var loser := losers[j];
      assert losers[j..][0] == loser && losers[j..][1..] == losers[j + 1..];
      if loser.userId in users {
        history := history + [LossRow(loser.userId, BalanceOf(users[loser.userId]), loser.amount, betId, title)];
      }
      j := j + 1;
    }
    assert losers[j..] == [];
  }

  /** `distributePrizes(betId, winningOptionId)`: fails for an unknown bet,
      otherwise commits exactly what `Settle` computes from a fresh read of
      the bet and its participations, or nothing when `Settle` fails. */
  method DistributePrizes(db: Database, betId: int, w: int, now: int) returns (r: Result<Settlement>)
    requires db.Valid()
    modifies db
    ensures db.Valid()
    ensures betId !in old(db.bets) ==> r == Failure("Bet not found") && unchanged(db)
    ensures betId in old(db.bets) ==>
      var out := Settle(Ledger(old(db.users), old(db.history)), old(db.bets[betId]),
                        old(db.ParticipationsOf(betId)), betId, w, now);
      && (out.Failure? ==> r == Failure(out.error) && unchanged(db))
      && (out.Success? ==>
            && r == Success(out.value.2)
            && db.users == out.value.0.users && db.history == out.value.0.history
            && db.bets == old(db.bets)[betId := out.value.1]
            && db.participations == old(db.participations) && db.nextBetId == old(db.nextBetId))
    ensures old(betId in db.bets && db.bets[betId].status == Completed) ==> r == Failure("Bet already completed") && unchanged(db)
    ensures r.Success? ==> betId in db.bets && db.bets[betId].status == Completed && db.bets[betId].winningOptionId == Some(w)
  {
    if betId !in db.bets {
      return Failure("Bet not found");
    }
    var bet := db.bets[betId];
    if bet.status == Completed {
      return Failure("Bet already completed");
    }
    var ps := db.ParticipationsOf(betId);
    var total := Total(ps);
    var commission := Commission(total, RateOrDefault(bet.commissionRate));
    var prizePool := PrizePoolOf(ps, bet.commissionRate);
    var winners := OnOption(ps, w);
    var t := Total(winners);

    if total == 0.0 {
      db.bets := db.bets[betId := Closed(bet, w, 0.0, 0.0, 0.0, now)];
      return Success(Settlement(0.0, 0, 0.0));
    }
    if t == 0.0 {
      db.bets := db.bets[betId := Closed(bet, w, total, commission, prizePool, now)];
      return Success(Settlement(total, 0, 0.0));
    }

    var paid, distributed := PayWinnersLoop(db.users, db.history, winners, prizePool, t, betId, bet.title);
    if paid.Failure? {
      return Failure(paid.error);
    }
    var history := RecordLosses(paid.value.users, paid.value.history, OffOption(ps, w), betId, bet.title);

    db.users, db.history := paid.value.users, history;
    db.bets := db.bets[betId := Closed(bet, w, total, commission, prizePool, now)];
    return Success(Settlement(total, |winners|, distributed));
  }

  /** Calling `distributePrizes` twice on a bet: the second call fails and
      changes nothing. */
  method SettleTwice(db: Database, betId: int, w: int, now: int) returns (first: Result<Settlement>, second: Result<Settlement>)
    requires db.Valid()
    modifies db
    ensures db.Valid()
    ensures first.Success? ==> second == Failure("Bet already completed")
    ensures db.participations == old(db.participations) && db.nextBetId == old(db.nextBetId)
    ensures second.Failure?
  {
    first := DistributePrizes(db, betId, w, now);
    second := DistributePrizes(db, betId, w, now);
  }
}
