/** The admin bets route of src/app/api/admin/bets/route.ts: creating a bet
    (POST), updating its status or commission rate (PUT), and the route's own
    copy of the prize distribution, which differs from the one in the prize
    pool library. */
module AdminBetsRoute {
  import opened Types
  import opened Stakes
  import opened Store
  import PrizePool
  import BalanceValidation

  // ---------------------------------------------------------------------
  // Authorisation

  /** The caller's session id (`auth()`), checked against the users table:
      the reply that refuses the request, or nothing when the caller is an
      admin. */
  function AdminCheck(users: map<UserId, UserRow>, caller: Option<UserId>): (r: Option<(int, string)>)
    ensures r.None? <==> caller.Some? && caller.value in users && users[caller.value].isAdmin
    ensures caller.None? ==> r == Some((401, "Unauthorized"))
    ensures caller.Some? && r.Some? ==> r == Some((403, "Admin access required"))
  {
    if caller.None? then Some((401, "Unauthorized"))
    else if caller.value !in users || !users[caller.value].isAdmin then Some((403, "Admin access required"))
    else None
  }

  // ---------------------------------------------------------------------
  // POST: create a bet

  datatype CreateRequest = CreateRequest(
    title: Option<string>, description: Option<string>, commissionRate: Option<Json>, options: Json)

  /** `typeof commissionRate === 'number'` and within [0, 100]. */
  predicate ValidRate(v: Json) {
    v.JNumber? && 0.0 <= v.n <= 100.0
  }

  /** The request checks, in order: a title and an array of at least two
      options, then a numeric rate in [0, 100]. */
  function CreateError(req: CreateRequest): (r: Option<(int, string)>)
    ensures r.None? <==>
      && req.title.Some? && req.title.value != ""
      && req.options.JArray? && |req.options.items| >= 2
      && req.commissionRate.Some? && ValidRate(req.commissionRate.value)
    ensures r.Some? ==> r.value.0 == 400
  {
    if req.title.None? || req.title.value == "" || !req.options.JArray? || |req.options.items| < 2 then
      Some((400, "Title and at least 2 options are required"))
    else if req.commissionRate.None? || !ValidRate(req.commissionRate.value) then
      Some((400, "Commission rate must be between 0 and 100"))
    else None
  }

  /** `{ id: index + 1, text: option.text || option }`. */
  function NumberOption(index: nat, option: Json): (r: Json)
    ensures r.JObject? && r.fields.Keys == {"id", "text"}
    ensures r.fields["id"] == JNumber((index + 1) as real)
    ensures option.JObject? && "text" in option.fields && Truthy(option.fields["text"]) ==>
      r.fields["text"] == option.fields["text"]
    ensures !(option.JObject? && "text" in option.fields && Truthy(option.fields["text"])) ==>
      r.fields["text"] == option
  {
    var text := if option.JObject? && "text" in option.fields && Truthy(option.fields["text"])
                then option.fields["text"] else option;
    JObject(map["id" := JNumber((index + 1) as real), "text" := text])
  }

  /** `options.map(...)`: reading `.text` of a `null` element throws, so the
      numbering succeeds only when no element is `null`. */
  function NumberOptions(items: seq<Json>): (r: Option<seq<Json>>)
    ensures r.Some? <==> forall i :: 0 <= i < |items| ==> items[i] != JNull
    ensures r.Some? ==> |r.value| == |items|
    ensures r.Some? ==> forall i :: 0 <= i < |items| ==> r.value[i] == NumberOption(i, items[i])
  {
    if forall i :: 0 <= i < |items| ==> items[i] != JNull then
      Some(seq(|items|, i requires 0 <= i < |items| => NumberOption(i, items[i])))
    else None
  }

  /** The numbered options are found by id exactly for the ids 1..n, the
      k-th of them under id k. */
  lemma NumberedOptionsAreOneToN(items: seq<Json>, k: int)
    requires NumberOptions(items).Some?
    ensures var opts := NumberOptions(items).value;
      && (1 <= k <= |opts| ==> BalanceValidation.FindOption(JArray(opts), k) == Success(Some(opts[k - 1])))
      && (k < 1 || k > |opts| ==> BalanceValidation.FindOption(JArray(opts), k) == Success(None))
  {
    BalanceValidation.FindOptionInNumbered(NumberOptions(items).value, k);
  }

  /** The numbered options never pass the prize pool's option type guard,
      which wants a `name`: reading them back yields no options. */
  lemma NumberedOptionsAreNotParsed(items: seq<Json>)
    requires NumberOptions(items).Some? && |items| > 0
    ensures PrizePool.ParseOptionsFromJson(JArray(NumberOptions(items).value)) == []
  {
    var opts := NumberOptions(items).value;
    assert opts[0] == NumberOption(0, items[0]);
    assert !PrizePool.IsBetOptionItem(opts[0]);
  }

  /** `parseFloat(rate.toFixed(2))` for a rate in [0, 100]: the nearest
      cent, halves rounded up. */
  function Round2(x: real): (r: real)
    ensures ((r * 100.0).Floor as real) == r * 100.0
    ensures x - 0.005 < r <= x + 0.005
  {
    var f := (x * 100.0 + 0.5).Floor as real;
    assert x * 100.0 - 0.5 < f <= x * 100.0 + 0.5;
    f / 100.0
  }

  /** Rounding keeps a valid rate valid. */
  lemma RoundedRateInRange(x: real)
    requires 0.0 <= x <= 100.0
    ensures 0.0 <= Round2(x) <= 100.0
  {
    var f := (x * 100.0 + 0.5).Floor;
    assert 0 <= f <= 10000;
  }

  /** The row `bets.create` stores; totals take their column defaults. */
  function NewBet(title: string, description: Option<string>, options: seq<Json>, rate: real, creator: UserId)
    : (b: BetRow)
    ensures b.status == Active && b.options == JArray(options) && b.commissionRate == Some(Round2(rate))
    ensures b.totalPool == 0.0 && b.commissionAmount == 0.0 && b.prizePool == 0.0
    ensures b.winningOptionId.None? && b.completedAt.None?
    ensures b.title == title && b.createdBy == creator
    ensures b.description.Some? <==> description.Some? && description.value != ""
    ensures b.description.Some? ==> b.description == description
  {
    BetRow(title, if description == Some("") then None else description, JArray(options), Active,
           Some(Round2(rate)), 0.0, 0.0, 0.0, None, None, creator)
  }

  /** POST: checks the caller and the request, numbers the options and
      stores an active bet under the next id. */
  method CreateBet(db: Database, caller: Option<UserId>, req: CreateRequest) returns (r: Reply<BetRow>)
    requires db.Valid()
    modifies db
    ensures db.Valid()
    ensures AdminCheck(old(db.users), caller).Some? ==>
      r == Err(AdminCheck(old(db.users), caller).value.0, AdminCheck(old(db.users), caller).value.1) && unchanged(db)
    ensures AdminCheck(old(db.users), caller).None? && CreateError(req).Some? ==>
      r == Err(CreateError(req).value.0, CreateError(req).value.1) && unchanged(db)
    ensures AdminCheck(old(db.users), caller).None? && CreateError(req).None? && NumberOptions(req.options.items).None? ==>
      r == Err(500, "Failed to create bet") && unchanged(db)
    ensures AdminCheck(old(db.users), caller).None? && CreateError(req).None? ==>
      (r.Ok? <==> NumberOptions(req.options.items).Some?)
    ensures r.Ok? ==>
      && r.code == 201
      && AdminCheck(old(db.users), caller).None? && CreateError(req).None?
      && NumberOptions(req.options.items).Some?
      && r.body == NewBet(req.title.value, req.description, NumberOptions(req.options.items).value,
                          req.commissionRate.value.n, caller.value)
      && old(db.nextBetId) !in old(db.bets)
      && db.bets == old(db.bets)[old(db.nextBetId) := r.body]
      && db.nextBetId == old(db.nextBetId) + 1
      && db.users == old(db.users) && db.history == old(db.history) && db.participations == old(db.participations)
  {
    var denied := AdminCheck(db.users, caller);
    if denied.Some? {
      return Err(denied.value.0, denied.value.1);
    }
    var invalid := CreateError(req);
    if invalid.Some? {
      return Err(invalid.value.0, invalid.value.1);
    }
    var numbered := NumberOptions(req.options.items);
    if numbered.None? {
      return Err(500, "Failed to create bet");
    }
    var bet := NewBet(req.title.value, req.description, numbered.value, req.commissionRate.value.n, caller.value);
    db.bets := db.bets[db.nextBetId := bet];
    db.nextBetId := db.nextBetId + 1;
    return Ok(201, bet);
  }

  // ---------------------------------------------------------------------
  // The route's own prize distribution

  /** The winners loop of the route's `distributePrizes`: a winner without
      a user row is skipped; every other winner's balance is incremented by
      the unrounded share and a `bet_win` row appended. */
  function LocalPay(l: PrizePool.Ledger, ws: seq<Participation>, prizePool: real, t: real, betId: int, title: string)
    : (r: PrizePool.Ledger)
    requires t != 0.0
    decreases |ws|
  {
    if ws == [] then l
    else
      var w := ws[0];
      if w.userId !in l.users then LocalPay(l, ws[1..], prizePool, t, betId, title)
      else
        var prize := LocalPrize(w, prizePool, t);
        var row := l.users[w.userId];
        var l' := PrizePool.Ledger(l.users[w.userId := row.(balance := Shift(row.balance, prize))],
                                   l.history + [PrizePool.WinRow(w.userId, BalanceOf(row), prize, betId, title)]);
        LocalPay(l', ws[1..], prizePool, t, betId, title)
  }

  /** `prizePool * (winner.amount / totalWinnerAmount)`: the winner's
      proportional share, not rounded. */
  function LocalPrize(w: Participation, prizePool: real, t: real): (r: real)
    requires t != 0.0
    ensures r == PrizePool.ShareOf(w, prizePool, t).amount
  {
    prizePool * (w.amount / t)
  }

  /** The unrounded prizes `ws` pays to user `u`. */
  function LocalPrizeFor(ws: seq<Participation>, u: UserId, prizePool: real, t: real): real
    requires t != 0.0
  {
    if ws == [] then 0.0
    else (if ws[0].userId == u then LocalPrize(ws[0], prizePool, t) else 0.0) + LocalPrizeFor(ws[1..], u, prizePool, t)
  }

  /** The prizes the loop pays in total: the winners with a user row. */
  function LocalPaid(users: map<UserId, UserRow>, ws: seq<Participation>, prizePool: real, t: real): real
    requires t != 0.0
  {
    if ws == [] then 0.0
    else (if ws[0].userId in users then LocalPrize(ws[0], prizePool, t) else 0.0) + LocalPaid(users, ws[1..], prizePool, t)
  }

  /** The winners whose user row exists. */
  function Present(ids: set<UserId>, ws: seq<Participation>): (r: seq<Participation>)
    ensures |r| <= |ws|
    ensures forall p :: p in r <==> p in ws && p.userId in ids
  {
    if ws == [] then [] else (if ws[0].userId in ids then [ws[0]] else []) + Present(ids, ws[1..])
  }

  /** A winner with a user row is paid as often as it occurs in `ws`, any
      other winner never. */
  lemma {:induction false} PresentCounts(ids: set<UserId>, ws: seq<Participation>, p: Participation)
    ensures multiset(Present(ids, ws))[p] == (if p.userId in ids then multiset(ws)[p] else 0)
  {
    if ws != [] {
      assert ws == [ws[0]] + ws[1..];
      PresentCounts(ids, ws[1..], p);
    }
  }

  /** The winners that are paid keep the order of `ws`. */
  lemma {:induction false} PresentAppend(ids: set<UserId>, a: seq<Participation>, b: seq<Participation>)
    ensures Present(ids, a + b) == Present(ids, a) + Present(ids, b)
  {
    if a == [] {
      assert a + b == b;
    } else {
      assert (a + b)[1..] == a[1..] + b;
      PresentAppend(ids, a[1..], b);
    }
  }

  /** What the loop leaves behind, from `l` to `l2`, having paid `ws`: no
      user row is added or removed; every user's balance moves by exactly
      the prizes paid to them; the ledger keeps its rows and gains one row
      per winner with a user row. */
  predicate PayEffects(l: PrizePool.Ledger, l2: PrizePool.Ledger, ws: seq<Participation>, pp: real, t: real)
    requires t != 0.0
  {
    && l2.users.Keys == l.users.Keys
    && (forall u :: u in l.users ==> l2.users[u].balance == Shift(l.users[u].balance, LocalPrizeFor(ws, u, pp, t)))
    && |l2.history| == |l.history| + |Present(l.users.Keys, ws)|
    && l2.history[..|l.history|] == l.history
  }

  lemma {:induction false} LocalPayEffects(l: PrizePool.Ledger, ws: seq<Participation>, pp: real, t: real, betId: int, title: string)
    requires t != 0.0
    ensures PayEffects(l, LocalPay(l, ws, pp, t, betId, title), ws, pp, t)
    decreases |ws|
  {
    if ws != [] {
      var w := ws[0];
      if w.userId !in l.users {
        LocalPayEffects(l, ws[1..], pp, t, betId, title);
        forall u | u in l.users ensures LocalPrizeFor(ws, u, pp, t) == LocalPrizeFor(ws[1..], u, pp, t) {
        }
      } else {
        var prize := LocalPrize(w, pp, t);
        var row := l.users[w.userId];
        var l' := PrizePool.Ledger(l.users[w.userId := row.(balance := Shift(row.balance, prize))],
                                   l.history + [PrizePool.WinRow(w.userId, BalanceOf(row), prize, betId, title)]);
        LocalPayEffects(l', ws[1..], pp, t, betId, title);
        PaidFirstThenRest(l, l', LocalPay(l', ws[1..], pp, t, betId, title), ws, pp, t, prize);
      }
    }
  }

  /** Paying the first winner, who has a user row, and then the rest has
      the effects of paying them all. */
  lemma PaidFirstThenRest(l: PrizePool.Ledger, l': PrizePool.Ledger, l2: PrizePool.Ledger,
                          ws: seq<Participation>, pp: real, t: real, prize: real)
    requires t != 0.0 && ws != [] && ws[0].userId in l.users
    requires prize == LocalPrize(ws[0], pp, t)
    requires l'.users == l.users[ws[0].userId := l.users[ws[0].userId].(balance := Shift(l.users[ws[0].userId].balance, prize))]
    requires |l'.history| == |l.history| + 1 && l'.history[..|l.history|] == l.history
    requires PayEffects(l', l2, ws[1..], pp, t)
    ensures PayEffects(l, l2, ws, pp, t)
  {
    var w := ws[0];
    assert l'.users.Keys == l.users.Keys;
    assert Present(l.users.Keys, ws) == [w] + Present(l.users.Keys, ws[1..]);
    forall u | u in l.users
      ensures l2.users[u].balance == Shift(l.users[u].balance, LocalPrizeFor(ws, u, pp, t))
    {
      var here := if w.userId == u then prize else 0.0;
      assert l'.users[u].balance == Shift(l.users[u].balance, here);
      PrizePool.ShiftTwice(l.users[u].balance, here, LocalPrizeFor(ws[1..], u, pp, t));
    }
    assert l2.history[..|l.history|] == l'.history[..|l.history|];
  }

  /** A `bet_win` row the loop writes for winner `w`: for `w`'s user, of
      `w`'s unrounded prize, referencing the bet, with an after-balance of
      the before-balance plus the prize. */
  predicate IsLocalWinRow(e: LedgerEntry, w: Participation, pp: real, t: real, betId: int, title: string)
    requires t != 0.0
  {
    e == PrizePool.WinRow(w.userId, e.balanceBefore, LocalPrize(w, pp, t), betId, title)
  }

  /** `h2` is `h` followed by one win row per participation of `paid`, in
      order. */
  predicate WinRowsAppended(h: seq<LedgerEntry>, h2: seq<LedgerEntry>, paid: seq<Participation>,
                            pp: real, t: real, betId: int, title: string)
    requires t != 0.0
  {
    && |h2| == |h| + |paid|
    && h2[..|h|] == h
    && forall k :: 0 <= k < |paid| ==> IsLocalWinRow(h2[|h| + k], paid[k], pp, t, betId, title)
  }

  /** The sum of the amounts of the ledger rows `h`. */
  function AmountOf(h: seq<LedgerEntry>): real {
    if h == [] then 0.0 else h[0].amount + AmountOf(h[1..])
  }

  /** Which winners are paid depends only on which user rows exist. */
  lemma {:induction false} LocalPaidSameKeys(users: map<UserId, UserRow>, users': map<UserId, UserRow>,
                                             ws: seq<Participation>, pp: real, t: real)
    requires t != 0.0 && users.Keys == users'.Keys
    ensures LocalPaid(users, ws, pp, t) == LocalPaid(users', ws, pp, t)
  {
    if ws != [] {
      assert ws[0].userId in users <==> ws[0].userId in users';
      LocalPaidSameKeys(users, users', ws[1..], pp, t);
    }
  }

  /** The rows the winners loop writes: one `bet_win` row per winner with a
      user row, in order, each of that winner's unrounded prize with
      after = before + prize; their amounts add up to what the loop pays. */
  lemma {:induction false} LocalPayRows(l: PrizePool.Ledger, ws: seq<Participation>, pp: real, t: real, betId: int, title: string)
    requires t != 0.0
    ensures WinRowsAppended(l.history, LocalPay(l, ws, pp, t, betId, title).history, Present(l.users.Keys, ws),
                            pp, t, betId, title)
    ensures AmountOf(LocalPay(l, ws, pp, t, betId, title).history[|l.history|..]) == LocalPaid(l.users, ws, pp, t)
    decreases |ws|
  {
    if ws == [] {
      assert l.history[|l.history|..] == [];
    } else if ws[0].userId !in l.users {
      assert LocalPay(l, ws, pp, t, betId, title) == LocalPay(l, ws[1..], pp, t, betId, title);
      assert Present(l.users.Keys, ws) == Present(l.users.Keys, ws[1..]);
      LocalPayRows(l, ws[1..], pp, t, betId, title);
    } else {
      var w := ws[0];
      var prize := LocalPrize(w, pp, t);
      var row := l.users[w.userId];
      var e := PrizePool.WinRow(w.userId, BalanceOf(row), prize, betId, title);
      var l' := PrizePool.Ledger(l.users[w.userId := row.(balance := Shift(row.balance, prize))], l.history + [e]);
      assert LocalPay(l, ws, pp, t, betId, title) == LocalPay(l', ws[1..], pp, t, betId, title);
      LocalPayRows(l', ws[1..], pp, t, betId, title);
      PaidRowsFirstThenRest(l, l', ws, e, pp, t, betId, title);
    }
  }

  /** Paying the first winner, who has a user row, and then the rest
      writes that winner's row and then the rest's rows. */
  lemma PaidRowsFirstThenRest(l: PrizePool.Ledger, l': PrizePool.Ledger, ws: seq<Participation>, e: LedgerEntry,
                              pp: real, t: real, betId: int, title: string)
    requires t != 0.0 && ws != [] && ws[0].userId in l.users
    requires e == PrizePool.WinRow(ws[0].userId, BalanceOf(l.users[ws[0].userId]), LocalPrize(ws[0], pp, t), betId, title)
    requires l'.users.Keys == l.users.Keys && l'.history == l.history + [e]
    requires var h2 := LocalPay(l', ws[1..], pp, t, betId, title).history;
      && WinRowsAppended(l'.history, h2, Present(l'.users.Keys, ws[1..]), pp, t, betId, title)
      && AmountOf(h2[|l'.history|..]) == LocalPaid(l'.users, ws[1..], pp, t)
    ensures var h2 := LocalPay(l', ws[1..], pp, t, betId, title).history;
      && WinRowsAppended(l.history, h2, Present(l.users.Keys, ws), pp, t, betId, title)
      && AmountOf(h2[|l.history|..]) == LocalPaid(l.users, ws, pp, t)
  {
    var h2 := LocalPay(l', ws[1..], pp, t, betId, title).history;
    assert Present(l.users.Keys, ws) == [ws[0]] + Present(l.users.Keys, ws[1..]);
    LocalPaidSameKeys(l.users, l'.users, ws[1..], pp, t);
    RowsFirstThenRest(l.history, l'.history, h2, e, ws[0], Present(l.users.Keys, ws[1..]), pp, t, betId, title);
  }

  /** One win row, then the rows for the rest. */
  lemma RowsFirstThenRest(h: seq<LedgerEntry>, h': seq<LedgerEntry>, h2: seq<LedgerEntry>, e: LedgerEntry,
                          w: Participation, rest: seq<Participation>, pp: real, t: real, betId: int, title: string)
    requires t != 0.0 && h' == h + [e] && IsLocalWinRow(e, w, pp, t, betId, title)
    requires WinRowsAppended(h', h2, rest, pp, t, betId, title)
    ensures WinRowsAppended(h, h2, [w] + rest, pp, t, betId, title)
    ensures AmountOf(h2[|h|..]) == e.amount + AmountOf(h2[|h'|..])
  {
    assert h2[|h|] == h'[|h|] == e;
    assert h2[..|h|] == h'[..|h|];
    forall k | 0 <= k < |[w] + rest| ensures IsLocalWinRow(h2[|h| + k], ([w] + rest)[k], pp, t, betId, title) {
      if k > 0 {
        assert h2[|h| + k] == h2[|h'| + (k - 1)];
      }
    }
    var tail := h2[|h|..];
    assert tail[0] == e && tail[1..] == h2[|h'|..];
  }

  /** With every winner's user row present, the loop pays exactly the
      proportional shares `calculatePrizeDistribution` reports: nothing is
      rounded away. */
  lemma {:induction false} LocalPaidIsShares(users: map<UserId, UserRow>, ws: seq<Participation>, pp: real, t: real)
    requires t != 0.0
    requires forall i :: 0 <= i < |ws| ==> ws[i].userId in users
    ensures LocalPaid(users, ws, pp, t) == PrizePool.AmountSum(PrizePool.Shares(ws, pp, t))
  {
    if ws != [] {
      var ds := PrizePool.Shares(ws, pp, t);
      assert ds[1..] == PrizePool.Shares(ws[1..], pp, t);
      assert ws[0].userId in users;
      LocalPaidIsShares(users, ws[1..], pp, t);
    }
  }

  /** The route's commission rate: `Number(bet.commission_rate)`, where NULL
      reads as 0. */
  function LocalRate(rate: Option<real>): (r: real)
    ensures rate.None? ==> r == 0.0
    ensures rate.Some? ==> r == rate.value
  {
    rate.GetOr(0.0)
  }

  /** The route's commission on the stakes `ps`. */
  function LocalCommission(ps: seq<Participation>, rate: Option<real>): (r: real)
    ensures r == PrizePool.Commission(Total(ps), LocalRate(rate))
  {
    Total(ps) * LocalRate(rate) / 100.0
  }

  /** The totals the route's `distributePrizes` records on the bet row. */
  function Recorded(bet: BetRow, total: real, commission: real, prizePool: real, w: int): (b: BetRow)
    ensures b.totalPool == total && b.commissionAmount == commission && b.prizePool == prizePool
    ensures b.winningOptionId == Some(w) && b.status == bet.status && b.commissionRate == bet.commissionRate
    ensures b.title == bet.title && b.completedAt == bet.completedAt
    ensures b == bet.(totalPool := b.totalPool, commissionAmount := b.commissionAmount, prizePool := b.prizePool,
                      winningOptionId := b.winningOptionId)
  {
    bet.(totalPool := total, commissionAmount := commission, prizePool := prizePool, winningOptionId := Some(w))
  }

  /** The route's `distributePrizes` as one transaction: no guard on the
      bet's status; with no winning participation the prize pool is recorded
      as 0; a winning stake total of 0 makes every share NaN, which the model
      takes as aborting the transaction. */
  function LocalSettle(l: PrizePool.Ledger, bet: BetRow, ps: seq<Participation>, betId: int, w: int)
    : Result<(PrizePool.Ledger, BetRow)>
  {
    var total := Total(ps);
    var commission := LocalCommission(ps, bet.commissionRate);
    var prizePool := total - commission;
    var winners := OnOption(ps, w);
    if winners == [] then Success((l, Recorded(bet, total, commission, 0.0, w)))
    else if Total(winners) == 0.0 then Failure("Failed to update bet")
    else Success((LocalPay(l, winners, prizePool, Total(winners), betId, bet.title),
                  Recorded(bet, total, commission, prizePool, w)))
  }

  /** With every winner's user row present, the route pays out exactly the
      prize pool, so commission and prizes add up to the whole pool. */
  lemma LocalSettlePaysWholePrizePool(l: PrizePool.Ledger, bet: BetRow, ps: seq<Participation>, betId: int, w: int)
    requires OnOption(ps, w) != [] && Total(OnOption(ps, w)) != 0.0
    requires forall i :: 0 <= i < |OnOption(ps, w)| ==> OnOption(ps, w)[i].userId in l.users
    ensures var winners := OnOption(ps, w);
      var b := LocalSettle(l, bet, ps, betId, w).value.1;
      LocalPaid(l.users, winners, b.prizePool, Total(winners)) + b.commissionAmount == b.totalPool
  {
    LocalSettleRecords(l, bet, ps, betId, w);
    LocalPaysPrizePool(l.users, OnOption(ps, w), Total(ps) - LocalCommission(ps, bet.commissionRate));
  }

  /** The same, read off the ledger: with every winner's user row present,
      the `bet_win` rows the settlement writes add up to the prize pool it
      records, so they and the commission make up the whole pool. */
  lemma LocalSettleWritesPrizePool(l: PrizePool.Ledger, bet: BetRow, ps: seq<Participation>, betId: int, w: int)
    requires OnOption(ps, w) != [] && Total(OnOption(ps, w)) != 0.0
    requires forall i :: 0 <= i < |OnOption(ps, w)| ==> OnOption(ps, w)[i].userId in l.users
    ensures LocalSettle(l, bet, ps, betId, w).Success?
    ensures var out := LocalSettle(l, bet, ps, betId, w).value;
      && |l.history| <= |out.0.history|
      && AmountOf(out.0.history[|l.history|..]) == out.1.prizePool
      && AmountOf(out.0.history[|l.history|..]) + out.1.commissionAmount == out.1.totalPool
  {
    var winners := OnOption(ps, w);
    var pp := Total(ps) - LocalCommission(ps, bet.commissionRate);
    LocalSettleRecords(l, bet, ps, betId, w);
    assert LocalSettle(l, bet, ps, betId, w).value.0 == LocalPay(l, winners, pp, Total(winners), betId, bet.title);
    LocalPayRows(l, winners, pp, Total(winners), betId, bet.title);
    LocalPaysPrizePool(l.users, winners, pp);
  }

  /** The bet row a settlement with winners records. */
  lemma LocalSettleRecords(l: PrizePool.Ledger, bet: BetRow, ps: seq<Participation>, betId: int, w: int)
    requires OnOption(ps, w) != [] && Total(OnOption(ps, w)) != 0.0
    ensures LocalSettle(l, bet, ps, betId, w).Success?
    ensures LocalSettle(l, bet, ps, betId, w).value.1
         == Recorded(bet, Total(ps), LocalCommission(ps, bet.commissionRate), Total(ps) - LocalCommission(ps, bet.commissionRate), w)
  {
  }

  /** With every winner's user row present, the winners loop pays out the
      prize pool to the cent and beyond. */
  lemma LocalPaysPrizePool(users: map<UserId, UserRow>, ws: seq<Participation>, pp: real)
    requires Total(ws) != 0.0
    requires forall i :: 0 <= i < |ws| ==> ws[i].userId in users
    ensures LocalPaid(users, ws, pp, Total(ws)) == pp
  {
    LocalPaidIsShares(users, ws, pp, Total(ws));
    PrizePool.SharesAddUp(ws, pp);
  }

  /** With no stake on the winning option the route records a prize pool of
      0, where the library's settlement records `total - commission`. */
  lemma NoWinnerPrizePoolsDiffer(l: PrizePool.Ledger, bet: BetRow, ps: seq<Participation>, betId: int, w: int, now: int)
    requires bet.status != Completed && bet.commissionRate.Some?
    requires Total(ps) != 0.0 && OnOption(ps, w) == []
    ensures LocalSettle(l, bet, ps, betId, w).value.1.prizePool == 0.0
    ensures LocalSettle(l, bet, ps, betId, w).value.0 == l
    ensures PrizePool.Settle(l, bet, ps, betId, w, now).value.1.prizePool
         == Total(ps) - LocalSettle(l, bet, ps, betId, w).value.1.commissionAmount
  {
  }

  /** A winner without a user row does not stop the route's settlement,
      where it aborts the library's. */
  lemma MissingWinnerIsSkipped(l: PrizePool.Ledger, bet: BetRow, ps: seq<Participation>, betId: int, w: int, now: int, i: int)
    requires bet.status != Completed && Total(ps) != 0.0 && Total(OnOption(ps, w)) != 0.0
    requires 0 <= i < |OnOption(ps, w)| && OnOption(ps, w)[i].userId !in l.users
    ensures LocalSettle(l, bet, ps, betId, w).Success?
    ensures LocalSettle(l, bet, ps, betId, w).value.0.users.Keys == l.users.Keys
    ensures PrizePool.Settle(l, bet, ps, betId, w, now).Failure?
  {
    PrizePool.SettleAbortsOnMissingWinner(l, bet, ps, betId, w, now, i);
    assert OnOption(ps, w) != [];
    LocalSettleWithWinners(l, bet, ps, betId, w);
    LocalPayKeepsUsers(l, OnOption(ps, w), Total(ps) - LocalCommission(ps, bet.commissionRate),
                       Total(OnOption(ps, w)), betId, bet.title);
  }

  /** The winners loop never adds or removes a user row. */
  lemma LocalPayKeepsUsers(l: PrizePool.Ledger, ws: seq<Participation>, pp: real, t: real, betId: int, title: string)
    requires t != 0.0
    ensures LocalPay(l, ws, pp, t, betId, title).users.Keys == l.users.Keys
  {
    LocalPayEffects(l, ws, pp, t, betId, title);
  }

  /** The successful branch of the route's settlement, spelled out. */
  lemma LocalSettleWithWinners(l: PrizePool.Ledger, bet: BetRow, ps: seq<Participation>, betId: int, w: int)
    requires OnOption(ps, w) != [] && Total(OnOption(ps, w)) != 0.0
    ensures var pp := Total(ps) - LocalCommission(ps, bet.commissionRate);
      LocalSettle(l, bet, ps, betId, w)
      == Success((LocalPay(l, OnOption(ps, w), pp, Total(OnOption(ps, w)), betId, bet.title),
                  Recorded(bet, Total(ps), LocalCommission(ps, bet.commissionRate), pp, w)))
  {
  }

  /** Settling a second time, on the state the first settlement left, pays
      every winner again: each user's balance has moved by twice their
      prizes. */
  lemma SettlingTwicePaysTwice(l: PrizePool.Ledger, bet: BetRow, ps: seq<Participation>, betId: int, w: int)
    requires OnOption(ps, w) != [] && Total(OnOption(ps, w)) != 0.0
    ensures LocalSettle(l, bet, ps, betId, w).Success?
    ensures var (l1, b1) := LocalSettle(l, bet, ps, betId, w).value;
      && LocalSettle(l1, b1, ps, betId, w).Success?
      && var (l2, b2) := LocalSettle(l1, b1, ps, betId, w).value;
      && b2.prizePool == b1.prizePool
      && forall u :: u in l.users ==>
           u in l2.users
           && l2.users[u].balance == Shift(l.users[u].balance, 2.0 * LocalPrizeFor(OnOption(ps, w), u, b1.prizePool, Total(OnOption(ps, w))))
  {
    var winners := OnOption(ps, w);
    var pp := Total(ps) - LocalCommission(ps, bet.commissionRate);
    SettledTwice(l, bet, ps, betId, w);
    PaidTwice(l, winners, pp, Total(winners), betId, bet.title);
  }

  /** The second settlement runs the winners loop again, with the same
      prize pool, on the ledger the first one left. */
  lemma SettledTwice(l: PrizePool.Ledger, bet: BetRow, ps: seq<Participation>, betId: int, w: int)
    requires OnOption(ps, w) != [] && Total(OnOption(ps, w)) != 0.0
    ensures LocalSettle(l, bet, ps, betId, w).Success?
    ensures var (l1, b1) := LocalSettle(l, bet, ps, betId, w).value;
      var pp := Total(ps) - LocalCommission(ps, bet.commissionRate);
      var t := Total(OnOption(ps, w));
      && b1.prizePool == pp
      && LocalSettle(l1, b1, ps, betId, w).Success?
      && LocalSettle(l1, b1, ps, betId, w).value.1.prizePool == pp
      && LocalSettle(l1, b1, ps, betId, w).value.0
         == LocalPay(LocalPay(l, OnOption(ps, w), pp, t, betId, bet.title), OnOption(ps, w), pp, t, betId, bet.title)
  {
    LocalSettleWithWinners(l, bet, ps, betId, w);
    var (l1, b1) := LocalSettle(l, bet, ps, betId, w).value;
    LocalSettleWithWinners(l1, b1, ps, betId, w);
  }

  /** Running the winners loop twice moves each balance by twice the
      prizes. */
  lemma PaidTwice(l: PrizePool.Ledger, ws: seq<Participation>, pp: real, t: real, betId: int, title: string)
    requires t != 0.0
    ensures var l2 := LocalPay(LocalPay(l, ws, pp, t, betId, title), ws, pp, t, betId, title);
      forall u :: u in l.users ==>
        u in l2.users && l2.users[u].balance == Shift(l.users[u].balance, 2.0 * LocalPrizeFor(ws, u, pp, t))
  {
    var l1 := LocalPay(l, ws, pp, t, betId, title);
    LocalPayEffects(l, ws, pp, t, betId, title);
    LocalPayEffects(l1, ws, pp, t, betId, title);
    forall u | u in l.users
      ensures Shift(l1.users[u].balance, LocalPrizeFor(ws, u, pp, t))
           == Shift(l.users[u].balance, 2.0 * LocalPrizeFor(ws, u, pp, t))
    {
      PrizePool.ShiftTwice(l.users[u].balance, LocalPrizeFor(ws, u, pp, t), LocalPrizeFor(ws, u, pp, t));
    }
  }

  /** The route's winners loop on buffered copies of the users table and
      the ledger. */
  method LocalPayLoop(l0: PrizePool.Ledger, winners: seq<Participation>, prizePool: real, t: real, betId: int, title: string)
    returns (l: PrizePool.Ledger)
    requires t != 0.0
    ensures l == LocalPay(l0, winners, prizePool, t, betId, title)
  {
    var users, history := l0.users, l0.history;
    var i := 0;
    while i < |winners|
      invariant 0 <= i <= |winners|
      invariant LocalPay(PrizePool.Ledger(users, history), winners[i..], prizePool, t, betId, title)
             == LocalPay(l0, winners, prizePool, t, betId, title)
    {
      var winner := winners[i];
      assert winners[i..][0] == winner && winners[i..][1..] == winners[i + 1..];
      ghost var before := PrizePool.Ledger(users, history);
      if winner.userId in users {
        var user := users[winner.userId];
        var prize := LocalPrize(winner, prizePool, t);
        users := users[winner.userId := user.(balance := Shift(user.balance, prize))];
        history := history + [PrizePool.WinRow(winner.userId, BalanceOf(user), prize, betId, title)];
      }
      assert LocalPay(before, winners[i..], prizePool, t, betId, title)
          == LocalPay(PrizePool.Ledger(users, history), winners[i + 1..], prizePool, t, betId, title);
      i := i + 1;
    }
    assert winners[i..] == [];
    l := PrizePool.Ledger(users, history);
  }

  /** The route's `distributePrizes(betId, winningOptionId)` on the store;
      `false` when the transaction throws. */
  method LocalDistributePrizes(db: Database, betId: int, w: int) returns (ok: bool)
    requires betId in db.bets
    requires db.Valid()
    modifies db
    ensures db.Valid()
    ensures var out := LocalSettle(PrizePool.Ledger(old(db.users), old(db.history)), old(db.bets[betId]),
                                   old(db.ParticipationsOf(betId)), betId, w);
      && (ok <==> out.Success?)
      && (out.Failure? ==> unchanged(db))
      && (out.Success? ==>
            && db.users == out.value.0.users && db.history == out.value.0.history
            && db.bets == old(db.bets)[betId := out.value.1]
            && db.participations == old(db.participations) && db.nextBetId == old(db.nextBetId))
  {
    var bet := db.bets[betId];
    var ps := db.ParticipationsOf(betId);
    var totalPool := Total(ps);
    var commissionAmount := LocalCommission(ps, bet.commissionRate);
    var prizePool := totalPool - commissionAmount;
    var winners := OnOption(ps, w);
    if winners == [] {
      db.bets := db.bets[betId := Recorded(bet, totalPool, commissionAmount, 0.0, w)];
      return true;
    }
    var totalWinnerAmount := Total(winners);
    if totalWinnerAmount == 0.0 {
      return false;
    }
    var paid := LocalPayLoop(PrizePool.Ledger(db.users, db.history), winners, prizePool, totalWinnerAmount, betId, bet.title);
    db.users, db.history := paid.users, paid.history;
    db.bets := db.bets[betId := Recorded(bet, totalPool, commissionAmount, prizePool, w)];
    return true;
  }

  // ---------------------------------------------------------------------
  // PUT: update status, commission rate, or complete

  datatype UpdateRequest = UpdateRequest(
    betId: Option<int>, status: Option<string>, commissionRate: Option<Json>, winningOptionId: Option<int>)

  /** A truthy number in the request body: present and not 0. */
  predicate Given(x: Option<int>) {
    x.Some? && x.value != 0
  }

  /** A truthy status string: present and not empty. */
  predicate StatusGiven(s: Option<string>) {
    s.Some? && s.value != ""
  }

  /** Does this request run the route's `distributePrizes` on bet `id`? */
  predicate Distributes(req: UpdateRequest, participants: nat) {
    && StatusGiven(req.status) && req.status.value == "completed"
    && Given(req.winningOptionId) && participants > 0
  }

  /** `updateData` applied to the bet row: only the fields given change, and
      the status is set whatever the current status is. */
  function Updated(bet: BetRow, status: Option<Status>, completedAt: Option<int>, winning: Option<int>, rate: Option<real>)
    : (b: BetRow)
    ensures status.Some? ==> b.status == status.value
    ensures status.None? ==> b.status == bet.status
    ensures b.completedAt == (if completedAt.Some? then completedAt else bet.completedAt)
    ensures b.winningOptionId == (if winning.Some? then winning else bet.winningOptionId)
    ensures b.commissionRate == (if rate.Some? then rate else bet.commissionRate)
    ensures b == bet.(status := b.status, completedAt := b.completedAt,
                      winningOptionId := b.winningOptionId, commissionRate := b.commissionRate)
  {
    bet.(status := if status.Some? then status.value else bet.status,
         completedAt := if completedAt.Some? then completedAt else bet.completedAt,
         winningOptionId := if winning.Some? then winning else bet.winningOptionId,
         commissionRate := if rate.Some? then rate else bet.commissionRate)
  }

  /** The reply of a PUT that got past the status check and whose
      distribution, if it ran, succeeded: an invalid rate is refused with
      400; otherwise 200 with the row the distribution left (or the old row),
      updated with the parsed status, the completion time when completing,
      the winning option when the distribution ran, and the rounded rate. */
  predicate UpdateReply(r: Reply<BetRow>, bet: BetRow, l: PrizePool.Ledger, ps: seq<Participation>, id: int,
                        req: UpdateRequest, runs: bool, now: int)
    requires runs ==> req.winningOptionId.Some? && LocalSettle(l, bet, ps, id, req.winningOptionId.value).Success?
  {
    var base := if runs then LocalSettle(l, bet, ps, id, req.winningOptionId.value).value.1 else bet;
    var status := if StatusGiven(req.status) then ParseStatus(req.status.value) else None;
    var completedAt := if status == Some(Completed) then Some(now) else None;
    var winning := if runs then req.winningOptionId else None;
    if req.commissionRate.Some? && !ValidRate(req.commissionRate.value) then
      r == Err(400, "Commission rate must be between 0 and 100")
    else
      var rate := if req.commissionRate.Some? then Some(Round2(req.commissionRate.value.n)) else None;
      r == Ok(200, Updated(base, status, completedAt, winning, rate))
  }

  /** PUT. The distribution commits in its own transaction before the
      commission rate is checked, so an invalid rate is refused only after
      the prizes have been paid. */
  method UpdateBet(db: Database, caller: Option<UserId>, req: UpdateRequest, now: int) returns (r: Reply<BetRow>)
    requires db.Valid()
    modifies db
    ensures db.Valid()
    ensures AdminCheck(old(db.users), caller).Some? ==>
      r == Err(AdminCheck(old(db.users), caller).value.0, AdminCheck(old(db.users), caller).value.1) && unchanged(db)
    ensures AdminCheck(old(db.users), caller).None? && !Given(req.betId) ==>
      r == Err(400, "Bet ID is required") && unchanged(db)
    ensures AdminCheck(old(db.users), caller).None? && Given(req.betId) && req.betId.value !in old(db.bets) ==>
      r == Err(404, "Bet not found") && unchanged(db)
    ensures AdminCheck(old(db.users), caller).None? && Given(req.betId) && req.betId.value in old(db.bets)
            && StatusGiven(req.status) && ParseStatus(req.status.value).None? ==>
      r == Err(400, "Invalid status") && unchanged(db)
    ensures r.Ok? ==> r.code == 200 && Given(req.betId) && req.betId.value in db.bets && db.bets[req.betId.value] == r.body
    ensures r.Ok? && StatusGiven(req.status) ==> Some(r.body.status) == ParseStatus(req.status.value)
    ensures r.Ok? && req.commissionRate.Some? ==>
      ValidRate(req.commissionRate.value) && r.body.commissionRate == Some(Round2(req.commissionRate.value.n))
    ensures r == Err(400, "Commission rate must be between 0 and 100") ==>
      Given(req.betId) && req.betId.value in old(db.bets) && req.commissionRate.Some? && !ValidRate(req.commissionRate.value)
    ensures (r.Ok? || r == Err(400, "Commission rate must be between 0 and 100")) && Given(req.betId) && req.betId.value in old(db.bets) ==>
      var id := req.betId.value;
      && (Distributes(req, |old(db.ParticipationsOf(id))|) ==>
            var out := LocalSettle(PrizePool.Ledger(old(db.users), old(db.history)), old(db.bets[id]),
                                   old(db.ParticipationsOf(id)), id, req.winningOptionId.value);
            && out.Success? && db.users == out.value.0.users && db.history == out.value.0.history
            && (r.Ok? ==> r.body.prizePool == out.value.1.prizePool && r.body.winningOptionId == req.winningOptionId)
            && (r.Err? ==> db.bets == old(db.bets)[id := out.value.1]))
      && (!Distributes(req, |old(db.ParticipationsOf(id))|) ==>
            && db.users == old(db.users) && db.history == old(db.history)
            && (r.Err? ==> db.bets == old(db.bets)))
    ensures r.Ok? ==> db.bets == old(db.bets)[req.betId.value := r.body]
    ensures r.Err? && r.code == 500 ==> unchanged(db)
    ensures AdminCheck(old(db.users), caller).None? && Given(req.betId) && req.betId.value in old(db.bets)
            && (StatusGiven(req.status) ==> ParseStatus(req.status.value).Some?) ==>
      var id := req.betId.value;
      var runs := Distributes(req, |old(db.ParticipationsOf(id))|);
      var settled := runs && LocalSettle(PrizePool.Ledger(old(db.users), old(db.history)), old(db.bets[id]),
                                         old(db.ParticipationsOf(id)), id, req.winningOptionId.value).Success?;
      (runs && !settled ==> r == Err(500, "Failed to update bet"))
      && (!runs || settled ==> UpdateReply(r, old(db.bets[id]), PrizePool.Ledger(old(db.users), old(db.history)),
                                           old(db.ParticipationsOf(id)), id, req, runs, now))
    ensures db.participations == old(db.participations) && db.nextBetId == old(db.nextBetId)
  {
    var denied := AdminCheck(db.users, caller);
    if denied.Some? {
      return Err(denied.value.0, denied.value.1);
    }
    if !Given(req.betId) {
      return Err(400, "Bet ID is required");
    }
    var id := req.betId.value;
    if id !in db.bets {
      return Err(404, "Bet not found");
    }
    var newStatus: Option<Status> := None;
    var completedAt: Option<int> := None;
    var winning: Option<int> := None;
    if StatusGiven(req.status) {
      var parsed := ParseStatus(req.status.value);
      if parsed.None? {
        return Err(400, "Invalid status");
      }
      newStatus := parsed;
      if parsed.value == Completed {
        completedAt := Some(now);
        if Given(req.winningOptionId) && |db.ParticipationsOf(id)| > 0 {
          var ok := LocalDistributePrizes(db, id, req.winningOptionId.value);
          if !ok {
            return Err(500, "Failed to update bet");
          }
          winning := req.winningOptionId;
        }
      }
    }
    var rate: Option<real> := None;
    if req.commissionRate.Some? {
      if !ValidRate(req.commissionRate.value) {
        return Err(400, "Commission rate must be between 0 and 100");
      }
      rate := Some(Round2(req.commissionRate.value.n));
    }
    var row := Updated(db.bets[id], newStatus, completedAt, winning, rate);
    db.bets := db.bets[id := row];
    return Ok(200, row);
  }
}
