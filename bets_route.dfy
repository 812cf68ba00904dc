/** The public bets route of src/app/api/bets/route.ts: the paged listing
    with each bet's pool figures (GET) and bet creation (POST). */
module BetsRoute {
  import opened Types
  import opened Stakes
  import opened Store
  import PrizePool
  import BalanceValidation
  import AdminBetsRoute

  // ---------------------------------------------------------------------
  // GET: which rows

  /** The query string, already parsed to integers. */
  datatype ListQuery = ListQuery(page: int, limit: int, status: Option<string>)

  /** The status filter: applied only for one of the three known statuses. */
  function StatusFilter(status: Option<string>): (r: Option<Status>)
    ensures r.Some? <==> status.Some? && (status.value == "active" || status.value == "locked" || status.value == "completed")
    ensures r.Some? ==> ParseStatus(status.value) == r
  {
    if status.Some? then ParseStatus(status.value) else None
  }

  /** The bets, in `created_at`-descending order, that pass the filter. */
  function Matching(ids: seq<int>, bets: map<int, BetRow>, filter: Option<Status>): (r: seq<int>)
    ensures |r| <= |ids|
    ensures forall id :: id in r <==> id in ids && id in bets && (filter.None? || bets[id].status == filter.value)
  {
    if ids == [] then []
    else
      var head := ids[0];
      (if head in bets && (filter.None? || bets[head].status == filter.value) then [head] else [])
      + Matching(ids[1..], bets, filter)
  }

  /** A matching bet is listed as often as `ids` holds it, any other bet
      never. */
  lemma {:induction false} MatchingCounts(ids: seq<int>, bets: map<int, BetRow>, filter: Option<Status>, id: int)
    ensures multiset(Matching(ids, bets, filter))[id]
            == (if id in bets && (filter.None? || bets[id].status == filter.value) then multiset(ids)[id] else 0)
  {
    if ids != [] {
      assert ids == [ids[0]] + ids[1..];
      MatchingCounts(ids[1..], bets, filter, id);
    }
  }

  /** The listing keeps the order of `ids`. */
  lemma {:induction false} MatchingAppend(a: seq<int>, b: seq<int>, bets: map<int, BetRow>, filter: Option<Status>)
    ensures Matching(a + b, bets, filter) == Matching(a, bets, filter) + Matching(b, bets, filter)
  {
    if a == [] {
      assert a + b == b;
    } else {
      var rest := a[1..];
      assert (a + b)[1..] == rest + b;
      MatchingAppend(rest, b, bets, filter);
    }
  }

  /** No id is listed twice. */
  predicate Distinct(ids: seq<int>) {
    forall i, j :: 0 <= i < j < |ids| ==> ids[i] != ids[j]
  }

  /** The listed ids whose bet passes the filter. */
  function Passing(ids: seq<int>, bets: map<int, BetRow>, filter: Option<Status>): set<int> {
    set id | id in ids && id in bets && (filter.None? || bets[id].status == filter.value)
  }

  /** The bets of the table that pass the filter. */
  function MatchingBets(bets: map<int, BetRow>, filter: Option<Status>): set<int> {
    set id | id in bets && (filter.None? || bets[id].status == filter.value)
  }

  /** Without repeated ids, the listing holds each passing id once. */
  lemma {:induction false} MatchingCountsDistinct(ids: seq<int>, bets: map<int, BetRow>, filter: Option<Status>)
    requires forall id :: id in ids ==> id in bets
    requires Distinct(ids)
    ensures |Matching(ids, bets, filter)| == |Passing(ids, bets, filter)|
  {
    if ids != [] {
      PassingFirstThenRest(ids, bets, filter);
      MatchingCountsDistinct(ids[1..], bets, filter);
    }
  }

  /** The passing ids of a list without repeats: its first id, if it
      passes, and, apart from it, those of the rest. */
  lemma PassingFirstThenRest(ids: seq<int>, bets: map<int, BetRow>, filter: Option<Status>)
    requires ids != [] && Distinct(ids)
    requires forall id :: id in ids ==> id in bets
    ensures Distinct(ids[1..]) && ids[0] in bets
    ensures ids[0] !in Passing(ids[1..], bets, filter)
    ensures Passing(ids, bets, filter)
         == (if filter.None? || bets[ids[0]].status == filter.value then {ids[0]} else {}) + Passing(ids[1..], bets, filter)
  {
    var h, rest := ids[0], ids[1..];
    forall i, j | 0 <= i < j < |rest| ensures rest[i] != rest[j] {
      assert rest[i] == ids[i + 1] && rest[j] == ids[j + 1];
    }
    forall i | 0 <= i < |rest| ensures rest[i] != h {
      assert rest[i] == ids[i + 1];
    }
    assert forall id :: id in ids <==> id == h || id in rest;
  }

  /** When `ordered` lists every bet of the table once, the listing's count
      is the number of bets that pass the filter. */
  lemma CountIsMatchingBets(ordered: seq<int>, bets: map<int, BetRow>, filter: Option<Status>)
    requires forall id :: id in ordered ==> id in bets
    requires forall id :: id in bets ==> id in ordered
    requires Distinct(ordered)
    ensures |Matching(ordered, bets, filter)| == |MatchingBets(bets, filter)|
  {
    MatchingCountsDistinct(ordered, bets, filter);
    forall id ensures id in Passing(ordered, bets, filter) <==> id in MatchingBets(bets, filter) {
      if id in ordered {
        var i :| 0 <= i < |ordered| && ordered[i] == id;
      }
    }
    assert Passing(ordered, bets, filter) == MatchingBets(bets, filter);
  }

  function Min(a: int, b: int): int { if a <= b then a else b }
  function Max(a: int, b: int): int { if a <= b then b else a }

  /** `skip`/`take` on the ordered rows. A negative `take` takes from the far
      end: the `-take` rows before the last `skip` ones, in order. */
  function Window(rows: seq<int>, skip: nat, take: int): (r: seq<int>)
    ensures |r| == Max(0, Min(if take >= 0 then take else -take, |rows| - skip))
    ensures take >= 0 ==> forall j :: 0 <= j < |r| ==> r[j] == rows[skip + j]
    ensures take < 0 ==> forall j :: 0 <= j < |r| ==> r[j] == rows[|rows| - skip - |r| + j]
    ensures forall x :: x in r ==> x in rows
  {
    var n := |rows|;
    if take >= 0 then rows[Min(skip, n)..Min(skip + take, n)]
    else rows[Max(0, n - skip + take)..Max(0, n - skip)]
  }

  // ---------------------------------------------------------------------
  // GET: each bet's figures

  /** The option ids that hold at least one stake. */
  function OptionIds(ps: seq<Participation>): (r: set<int>)
  {
    if ps == [] then {} else {ps[0].optionId} + OptionIds(ps[1..])
  }

  lemma {:induction false} OptionIdsAppend(a: seq<Participation>, b: seq<Participation>)
    ensures OptionIds(a + b) == OptionIds(a) + OptionIds(b)
  {
    if a == [] {
      assert a + b == b;
    } else {
      assert (a + b)[1..] == a[1..] + b;
      OptionIdsAppend(a[1..], b);
    }
  }

  /** An option id holds a stake exactly when some participation is on it. */
  lemma {:induction false} OptionIdsHaveStakes(ps: seq<Participation>, k: int)
    ensures k in OptionIds(ps) <==> OnOption(ps, k) != []
  {
    if ps != [] {
      OptionIdsHaveStakes(ps[1..], k);
    }
  }

  /** `option_totals`: the stake total for every option that has a stake. */
  function OptionTotalsOf(ps: seq<Participation>): map<int, real> {
    map k | k in OptionIds(ps) :: Total(OnOption(ps, k))
  }

  /** The option totals of a list of stakes. */
  predicate IsOptionTotals(m: map<int, real>, ps: seq<Participation>) {
    && (forall k :: k in m ==> k in OptionIds(ps))
    && (forall k :: k in OptionIds(ps) ==> k in m)
    && forall k :: k in m ==> m[k] == Total(OnOption(ps, k))
  }

  /** The option totals are one map: the one `OptionTotalsOf` builds. */
  lemma OptionTotalsUnique(m: map<int, real>, ps: seq<Participation>)
    ensures IsOptionTotals(m, ps) <==> m == OptionTotalsOf(ps)
  {
    if IsOptionTotals(m, ps) {
      forall k ensures k in m <==> k in OptionTotalsOf(ps) {
      }
    }
  }

  /** The figures the listing attaches to one bet. */
  datatype Summary = Summary(
    id: int, bet: BetRow, totalPool: real, commissionAmount: real, prizePool: real,
    optionTotals: map<int, real>, participationCount: nat)

  /** A bet's figures; the rate defaults to 0 when NULL (`?? 0`). */
  function SummaryOf(id: int, bet: BetRow, ps: seq<Participation>): (s: Summary)
    ensures s.id == id && s.bet == bet && s.totalPool == Total(ps)
    ensures s.commissionAmount + s.prizePool == s.totalPool
    ensures bet.commissionRate.None? ==> s.commissionAmount == 0.0 && s.prizePool == s.totalPool
    ensures s.optionTotals == OptionTotalsOf(ps) && s.participationCount == |ps|
  {
    var total := Total(ps);
    var commission := PrizePool.Commission(total, bet.commissionRate.GetOr(0.0));
    Summary(id, bet, total, commission, total - commission, OptionTotalsOf(ps), |ps|)
  }

  /** Adding one participation adds its stake to its option's total and
      leaves every other option's total as it was. */
  lemma StakeStep(xs: seq<Participation>, p: Participation, k: int)
    ensures Total(OnOption(xs + [p], k)) == Total(OnOption(xs, k)) + (if p.optionId == k then p.amount else 0.0)
    ensures k in OptionIds(xs + [p]) <==> k in OptionIds(xs) || k == p.optionId
  {
    OptionIdsAppend(xs, [p]);
    OnOptionAppend(xs, [p], k);
    TotalAppend(OnOption(xs, k), OnOption([p], k));
    assert OnOption([p], k) == (if p.optionId == k then [p] else []) + OnOption([], k);
  }

  /** One step of the loop keeps the totals right for the longer list. */
  lemma AddStake(m: map<int, real>, m': map<int, real>, xs: seq<Participation>, ys: seq<Participation>, p: Participation)
    requires IsOptionTotals(m, xs)
    requires m' == m[p.optionId := (if p.optionId in m then m[p.optionId] else 0.0) + p.amount]
    requires ys == xs + [p]
    ensures IsOptionTotals(m', ys)
  {
    forall k ensures k in m' <==> k in OptionIds(ys) {
      StakeStep(xs, p, k);
    }
    forall k | k in m' ensures m'[k] == Total(OnOption(ys, k)) {
      AddStakeEntry(m, xs, p, k);
    }
  }

  /** One entry of the map after the step: the stakes on option `k` of the
      longer list. */
  lemma AddStakeEntry(m: map<int, real>, xs: seq<Participation>, p: Participation, k: int)
    requires IsOptionTotals(m, xs)
    requires k in m || k == p.optionId
    ensures m[p.optionId := (if p.optionId in m then m[p.optionId] else 0.0) + p.amount][k]
         == Total(OnOption(xs + [p], k))
  {
    StakeStep(xs, p, k);
    if k !in m {
      OptionIdsHaveStakes(xs, k);
    }
  }

  /** The map after the first `i` stakes have been added, one at a time. */
  function TotalsUpTo(ps: seq<Participation>, i: nat): map<int, real>
    requires i <= |ps|
  {
    if i == 0 then map[]
    else
      var m := TotalsUpTo(ps, i - 1);
      var p := ps[i - 1];
      m[p.optionId := (if p.optionId in m then m[p.optionId] else 0.0) + p.amount]
  }

  /** Adding the stakes one at a time gives the option totals of those
      stakes. */
  lemma {:induction false} TotalsUpToAreOptionTotals(ps: seq<Participation>, i: nat)
    requires i <= |ps|
    ensures IsOptionTotals(TotalsUpTo(ps, i), ps[..i])
  {
    if i == 0 {
      assert ps[..0] == [];
    } else {
      TotalsUpToAreOptionTotals(ps, i - 1);
      AddStakeAt(ps, i - 1);
    }
  }

  /** One more stake: if the map after `i` stakes holds their option
      totals, the map after `i + 1` holds theirs. */
  lemma AddStakeAt(ps: seq<Participation>, i: nat)
    requires i < |ps| && IsOptionTotals(TotalsUpTo(ps, i), ps[..i])
    ensures IsOptionTotals(TotalsUpTo(ps, i + 1), ps[..i + 1])
  {
    StepShape(ps, i);
    AddStake(TotalsUpTo(ps, i), TotalsUpTo(ps, i + 1), ps[..i], ps[..i + 1], ps[i]);
  }

  lemma StepShape(ps: seq<Participation>, i: nat)
    requires i < |ps|
    ensures var m := TotalsUpTo(ps, i);
      TotalsUpTo(ps, i + 1) == m[ps[i].optionId := (if ps[i].optionId in m then m[ps[i].optionId] else 0.0) + ps[i].amount]
    ensures ps[..i + 1] == ps[..i] + [ps[i]]
  {
  }

  /** `optionTotals`, filled in place by a loop over the bet's
      participations: an entry for every option that has a stake, holding
      the sum of its stakes. */
  method OptionTotals(ps: seq<Participation>) returns (m: map<int, real>)
    ensures IsOptionTotals(m, ps)
  {
    m := map[];
    var i := 0;
    while i < |ps|
      invariant 0 <= i <= |ps|
      invariant m == TotalsUpTo(ps, i)
    {
      var p := ps[i];
      var currentTotal := if p.optionId in m then m[p.optionId] else 0.0;
      m := m[p.optionId := currentTotal + p.amount];
      i := i + 1;
    }
    TotalsUpToAreOptionTotals(ps, |ps|);
    assert ps[..|ps|] == ps;
  }

  /** The entries of `m` for the keys `ks`, added up. */
  function EntrySum(m: map<int, real>, ks: seq<int>): real {
    if ks == [] then 0.0 else (if ks[0] in m then m[ks[0]] else 0.0) + EntrySum(m, ks[1..])
  }

  /** The stakes on each option of `ks`, added up. */
  function StakeSum(ps: seq<Participation>, ks: seq<int>): real {
    if ks == [] then 0.0 else Total(OnOption(ps, ks[0])) + StakeSum(ps, ks[1..])
  }

  /** Over keys it holds, a map of option totals adds up to the stakes on
      those options. */
  lemma {:induction false} EntrySumIsStakeSum(m: map<int, real>, ps: seq<Participation>, ks: seq<int>)
    requires IsOptionTotals(m, ps)
    requires forall i :: 0 <= i < |ks| ==> ks[i] in m
    ensures EntrySum(m, ks) == StakeSum(ps, ks)
  {
    if ks != [] {
      EntrySumIsStakeSum(m, ps, ks[1..]);
    }
  }

  /** Removing one option's stakes leaves every other option's stakes. */
  lemma {:induction false} OnOptionOfOffOption(ps: seq<Participation>, k: int, j: int)
    requires j != k
    ensures OnOption(OffOption(ps, k), j) == OnOption(ps, j)
  {
    if ps != [] {
      OnOptionOfOffOption(ps[1..], k, j);
      var head := if ps[0].optionId != k then [ps[0]] else [];
      OnOptionAppend(head, OffOption(ps[1..], k), j);
      assert OnOption(head, j) == (if ps[0].optionId == j then [ps[0]] else []) by {
        if head != [] {
          assert head[1..] == [];
        }
      }
    }
  }

  lemma {:induction false} StakeSumOffOption(ps: seq<Participation>, k: int, ks: seq<int>)
    requires forall i :: 0 <= i < |ks| ==> ks[i] != k
    ensures StakeSum(OffOption(ps, k), ks) == StakeSum(ps, ks)
  {
    if ks != [] {
      OnOptionOfOffOption(ps, k, ks[0]);
      StakeSumOffOption(ps, k, ks[1..]);
    }
  }

  lemma OffOptionIds(ps: seq<Participation>, k: int, j: int)
    ensures j in OptionIds(OffOption(ps, k)) <==> j in OptionIds(ps) && j != k
  {
    var off := OffOption(ps, k);
    OptionIdsHaveStakes(off, j);
    OptionIdsHaveStakes(ps, j);
    if j in OptionIds(off) {
      assert OnOption(off, j)[0] in OnOption(off, j);
    }
    if j in OptionIds(ps) && j != k {
      assert OnOption(ps, j)[0] in OnOption(ps, j);
      assert OnOption(ps, j)[0] in off;
    }
  }

  lemma NoOptionIdsNoStakes(ps: seq<Participation>)
    ensures OptionIds(ps) == {} <==> ps == []
  {
    if ps != [] {
      assert ps[0] in ps;
    }
  }

  /** Listing every option that holds a stake once, the stakes on them add
      up to all the stakes. */
  lemma {:induction false} StakeSumIsTotal(ps: seq<Participation>, ks: seq<int>)
    requires forall i, j :: 0 <= i < j < |ks| ==> ks[i] != ks[j]
    requires forall k :: k in ks <==> k in OptionIds(ps)
    ensures StakeSum(ps, ks) == Total(ps)
    decreases |ks|
  {
    if ks == [] {
      assert OptionIds(ps) == {};
      NoOptionIdsNoStakes(ps);
    } else {
      var k := ks[0];
      var rest := ks[1..];
      var off := OffOption(ps, k);
      forall i | 0 <= i < |rest| ensures rest[i] != k {
        assert ks[i + 1] == rest[i];
      }
      forall j ensures j in rest <==> j in OptionIds(off) {
        OffOptionIds(ps, k, j);
        if j in ks && j != k {
          var i :| 0 <= i < |ks| && ks[i] == j;
          assert rest[i - 1] == j;
        }
      }
      StakeSumIsTotal(off, rest);
      StakeSumOffOption(ps, k, rest);
      TotalSplitsByOption(ps, k);
    }
  }

  /** The option totals add up to the total pool: no stake is lost or
      counted twice. */
  lemma OptionTotalsSumToPool(m: map<int, real>, ps: seq<Participation>, ks: seq<int>)
    requires IsOptionTotals(m, ps)
    requires forall i, j :: 0 <= i < j < |ks| ==> ks[i] != ks[j]
    requires forall k :: k in ks <==> k in m
    ensures EntrySum(m, ks) == Total(ps)
  {
    forall i | 0 <= i < |ks| ensures ks[i] in m {
      var k := ks[i];
      assert k in ks;
    }
    forall k ensures k in ks <==> k in OptionIds(ps) {
      assert k in m <==> k in m.Keys;
    }
    EntrySumIsStakeSum(m, ps, ks);
    StakeSumIsTotal(ps, ks);
  }

  // ---------------------------------------------------------------------
  // GET: pagination

  /** `Math.ceil`. */
  function Ceil(x: real): (r: int)
    ensures r as real - 1.0 < x <= r as real
  {
    -((-x).Floor)
  }

  /** `totalPages` is `None` when `limit` is 0 (the division gives Infinity
      or NaN). */
  datatype Pagination = Pagination(currentPage: int, totalPages: Option<int>, totalCount: nat, hasNext: bool, hasPrev: bool)

  function PaginationOf(page: int, limit: int, count: nat): (p: Pagination)
    ensures p.currentPage == page && p.totalCount == count
    ensures p.hasPrev <==> page > 1
    ensures limit == 0 ==> p.totalPages.None? && (p.hasNext <==> count > 0)
    ensures limit != 0 ==> p.totalPages.Some? && (p.hasNext <==> page < p.totalPages.value)
  {
    if limit == 0 then Pagination(page, None, count, count > 0, page > 1)
    else
      var totalPages := Ceil(count as real / limit as real);
      Pagination(page, Some(totalPages), count, page < totalPages, page > 1)
  }

  lemma ScaleBounds(lo: real, x: real, hi: real, l: real)
    requires l > 0.0 && lo < x <= hi
    ensures lo * l < x * l <= hi * l
  {
  }

  lemma ScaleLess(a: real, x: real, l: real)
    requires l > 0.0
    ensures a < x <==> a * l < x * l
  {
  }

  /** For a positive limit the pages 1..totalPages hold every matching row
      and the last of them is not empty; there is a next page exactly when
      the rows go beyond this page. */
  lemma PagesCoverRows(page: int, limit: int, count: nat)
    requires limit > 0
    ensures var p := PaginationOf(page, limit, count);
      var tp := p.totalPages.value as real;
      && (tp - 1.0) * (limit as real) < count as real <= tp * (limit as real)
      && (p.hasNext <==> (page as real) * (limit as real) < count as real)
  {
    var l := limit as real;
    var c := count as real;
    var x := c / l;
    var tp := Ceil(x);
    assert x * l == c by {
      PrizePool.MulDivCancel(c, l);
    }
    ScaleBounds(tp as real - 1.0, x, tp as real, l);
    ScaleLess(page as real, x, l);
    assert page < tp <==> page as real < x;
  }

  // ---------------------------------------------------------------------
  // GET

  datatype Listing = Listing(bets: seq<Summary>, pagination: Pagination)

  /** GET. `ordered` lists the bet ids in `created_at`-descending order (the
      database's `orderBy`). A negative `skip` is refused by the database. */
  method ListBets(db: Database, ordered: seq<int>, q: ListQuery) returns (r: Reply<Listing>)
    requires forall id :: id in ordered ==> id in db.bets
    requires forall id :: id in db.bets ==> id in ordered
    requires Distinct(ordered)
    ensures (q.page - 1) * q.limit < 0 <==> r == Err(500, "Internal Server Error")
    ensures r.Ok? ==> r.code == 200
    ensures r.Ok? ==>
      var rows := Matching(ordered, db.bets, StatusFilter(q.status));
      var shown := Window(rows, (q.page - 1) * q.limit, q.limit);
      && r.body.pagination == PaginationOf(q.page, q.limit, |rows|)
      && r.body.pagination.totalCount == |MatchingBets(db.bets, StatusFilter(q.status))|
      && |r.body.bets| == |shown|
      && forall j :: 0 <= j < |shown| ==>
           r.body.bets[j] == SummaryOf(shown[j], db.bets[shown[j]], db.ParticipationsOf(shown[j]))
  {
    var skip := (q.page - 1) * q.limit;
    if skip < 0 {
      return Err(500, "Internal Server Error");
    }
    var rows := Matching(ordered, db.bets, StatusFilter(q.status));
    CountIsMatchingBets(ordered, db.bets, StatusFilter(q.status));
    var shown := Window(rows, skip, q.limit);
    var summaries := SummariseAll(db, shown);
    return Ok(200, Listing(summaries, PaginationOf(q.page, q.limit, |rows|)));
  }

  /** `betsWithPools`: the figures of each shown bet, in order. */
  method SummariseAll(db: Database, shown: seq<int>) returns (summaries: seq<Summary>)
    requires forall i :: 0 <= i < |shown| ==> shown[i] in db.bets
    ensures |summaries| == |shown|
    ensures forall j :: 0 <= j < |shown| ==>
      summaries[j] == SummaryOf(shown[j], db.bets[shown[j]], db.ParticipationsOf(shown[j]))
  {
    summaries := [];
    var i := 0;
    while i < |shown|
      invariant 0 <= i <= |shown|
      invariant |summaries| == i
      invariant forall j :: 0 <= j < i ==>
        summaries[j] == SummaryOf(shown[j], db.bets[shown[j]], db.ParticipationsOf(shown[j]))
    {
      var s := Summarise(db, shown[i]);
      summaries := summaries + [s];
      i := i + 1;
    }
  }

  /** The figures `betsWithPools` computes for one listed bet: the Decimal
      total, the commission at the rate or 0, the rest as prize, and the
      option totals filled in by their loop. */
  method Summarise(db: Database, id: int) returns (s: Summary)
    requires id in db.bets
    ensures s == SummaryOf(id, db.bets[id], db.ParticipationsOf(id))
  {
    var bet := db.bets[id];
    var ps := db.ParticipationsOf(id);
    var totalPool := Total(ps);
    var commissionAmount := PrizePool.Commission(totalPool, bet.commissionRate.GetOr(0.0));
    var optionTotals := OptionTotals(ps);
    OptionTotalsUnique(optionTotals, ps);
    s := Summary(id, bet, totalPool, commissionAmount, totalPool - commissionAmount, optionTotals, |ps|);
  }

  // ---------------------------------------------------------------------
  // POST

  datatype CreateRequest = CreateRequest(
    title: Option<string>, description: Option<string>, options: Json, commissionRate: Option<Json>)

  /** The only request check: a title and an array of at least two options. */
  function CreateError(req: CreateRequest): (r: Option<(int, string)>)
    ensures r.None? <==> req.title.Some? && req.title.value != "" && req.options.JArray? && |req.options.items| >= 2
  {
    if req.title.None? || req.title.value == "" || !req.options.JArray? || |req.options.items| < 2 then
      Some((400, "Bad Request: Title and at least two options are required"))
    else None
  }

  /** `{ id: index + 1, text: opt.text }`: an option without a `text` field
      is stored without one. */
  function PublicOption(index: nat, option: Json): (r: Json)
    ensures r.JObject? && "id" in r.fields && r.fields["id"] == JNumber((index + 1) as real)
    ensures "text" in r.fields <==> option.JObject? && "text" in option.fields
    ensures "text" in r.fields ==> r.fields["text"] == option.fields["text"]
    ensures r.fields.Keys <= {"id", "text"}
  {
    var id := map["id" := JNumber((index + 1) as real)];
    if option.JObject? && "text" in option.fields then JObject(id["text" := option.fields["text"]])
    else JObject(id)
  }

  /** Numbering throws on a `null` option. */
  function PublicOptions(items: seq<Json>): (r: Option<seq<Json>>)
    ensures r.Some? <==> forall i :: 0 <= i < |items| ==> items[i] != JNull
    ensures r.Some? ==> |r.value| == |items|
    ensures r.Some? ==> forall i :: 0 <= i < |items| ==> r.value[i] == PublicOption(i, items[i])
  {
    if forall i :: 0 <= i < |items| ==> items[i] != JNull then
      Some(seq(|items|, i requires 0 <= i < |items| => PublicOption(i, items[i])))
    else None
  }

  /** The stored options are found by id exactly for the ids 1..n. */
  lemma PublicOptionsAreOneToN(items: seq<Json>, k: int)
    requires PublicOptions(items).Some?
    ensures var opts := PublicOptions(items).value;
      && (1 <= k <= |opts| ==> BalanceValidation.FindOption(JArray(opts), k) == Success(Some(opts[k - 1])))
      && (k < 1 || k > |opts| ==> BalanceValidation.FindOption(JArray(opts), k) == Success(None))
  {
    BalanceValidation.FindOptionInNumbered(PublicOptions(items).value, k);
  }

  /** `commissionRate ?? 1.0`: a missing or `null` rate becomes 1; a
      number is stored as it is, unchecked and unrounded; anything else is
      refused by the database. */
  function RateOrDefault(v: Option<Json>): (r: Option<real>)
    ensures v.None? || v == Some(JNull) ==> r == Some(1.0)
    ensures v.Some? && v.value.JNumber? ==> r == Some(v.value.n)
    ensures r.None? <==> v.Some? && !v.value.JNull? && !v.value.JNumber?
  {
    if v.None? || v.value.JNull? then Some(1.0)
    else if v.value.JNumber? then Some(v.value.n)
    else None
  }

  /** The public POST's caller check: 401 without a session, and 403 with
      its own message unless the caller is an admin. It admits exactly the
      callers the admin route admits. */
  function CreatorCheck(users: map<UserId, UserRow>, caller: Option<UserId>): (r: Option<(int, string)>)
    ensures r.None? <==> AdminBetsRoute.AdminCheck(users, caller).None?
    ensures caller.None? ==> r == Some((401, "Unauthorized"))
    ensures caller.Some? && r.Some? ==> r == Some((403, "Forbidden: Admin access required"))
  {
    if caller.None? then Some((401, "Unauthorized"))
    else if caller.value in users && users[caller.value].isAdmin then None
    else Some((403, "Forbidden: Admin access required"))
  }

  /** POST: stores an active bet under the next id. */
  method CreateBet(db: Database, caller: Option<UserId>, req: CreateRequest) returns (r: Reply<BetRow>)
    requires db.Valid()
    modifies db
    ensures db.Valid()
    ensures CreatorCheck(old(db.users), caller).Some? ==>
      r == Err(CreatorCheck(old(db.users), caller).value.0, CreatorCheck(old(db.users), caller).value.1) && unchanged(db)
    ensures CreatorCheck(old(db.users), caller).None? && CreateError(req).Some? ==>
      r == Err(CreateError(req).value.0, CreateError(req).value.1) && unchanged(db)
    ensures r.Err? && r.code == 500 ==> unchanged(db)
    ensures r.Ok? ==>
      && r.code == 201
      && CreatorCheck(old(db.users), caller).None? && CreateError(req).None?
      && PublicOptions(req.options.items).Some? && RateOrDefault(req.commissionRate).Some?
      && r.body == BetRow(req.title.value, req.description, JArray(PublicOptions(req.options.items).value), Active,
                          RateOrDefault(req.commissionRate), 0.0, 0.0, 0.0, None, None, caller.value)
      && old(db.nextBetId) !in old(db.bets)
      && db.bets == old(db.bets)[old(db.nextBetId) := r.body]
      && db.nextBetId == old(db.nextBetId) + 1
      && db.users == old(db.users) && db.history == old(db.history) && db.participations == old(db.participations)
    ensures CreatorCheck(old(db.users), caller).None? && CreateError(req).None? ==>
      (r.Ok? <==> PublicOptions(req.options.items).Some? && RateOrDefault(req.commissionRate).Some?)
  {
    var denied := CreatorCheck(db.users, caller);
    if denied.Some? {
      return Err(denied.value.0, denied.value.1);
    }
    var invalid := CreateError(req);
    if invalid.Some? {
      return Err(invalid.value.0, invalid.value.1);
    }
    var formatted := PublicOptions(req.options.items);
    var rate := RateOrDefault(req.commissionRate);
    if formatted.None? || rate.None? {
      return Err(500, "Internal Server Error");
    }
    var bet := BetRow(req.title.value, req.description, JArray(formatted.value), Active, rate, 0.0, 0.0, 0.0,
                      None, None, caller.value);
    db.bets := db.bets[db.nextBetId := bet];
    db.nextBetId := db.nextBetId + 1;
    return Ok(201, bet);
  }

  /** The public route stores a commission rate outside [0, 100] that the
      admin route refuses. */
  lemma RoutesDisagreeOnRate(title: string, items: seq<Json>, rate: real)
    requires title != "" && |items| >= 2 && (rate < 0.0 || rate > 100.0)
    ensures CreateError(CreateRequest(Some(title), None, JArray(items), Some(JNumber(rate)))).None?
    ensures RateOrDefault(Some(JNumber(rate))) == Some(rate)
    ensures AdminBetsRoute.CreateError(AdminBetsRoute.CreateRequest(Some(title), None, Some(JNumber(rate)), JArray(items)))
         == Some((400, "Commission rate must be between 0 and 100"))
  {
  }
}
