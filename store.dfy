/** The relational store the core runs its transactions against, held in
    memory: the users table (balances), the append-only payment_history
    ledger, the bets table and the bet_participations table. */
module Store {
  import opened Types

  class Database {
    var users: map<UserId, UserRow>
    var history: seq<LedgerEntry>
    var bets: map<int, BetRow>
    var participations: seq<Participation>
    /** The id the bets table's sequence hands out next. */
    var nextBetId: int

    /** A store holding the given rows, with an empty ledger; `nextId` is
        above every bet id in use. */
    constructor (users0: map<UserId, UserRow>, bets0: map<int, BetRow>,
                 participations0: seq<Participation>, nextId: int)
      requires forall id :: id in bets0 ==> id < nextId
      ensures users == users0 && bets == bets0 && participations == participations0
      ensures history == [] && nextBetId == nextId
      ensures Valid()
    {
      users := users0;
      history := [];
      bets := bets0;
      participations := participations0;
      nextBetId := nextId;
    }

    /** The id sequence is ahead of every stored bet, so the next id is
        free. */
    predicate Valid()
      reads this
    {
      forall id :: id in bets ==> id < nextBetId
    }

    /** The participations `findUnique({include: {bet_participations}})` loads
        with a bet, in table order. */
    function ParticipationsOf(betId: int): (ps: seq<Participation>)
      reads this
      ensures forall p :: p in ps <==> p in participations && p.betId == betId
    {
      ForBet(participations, betId)
    }
  }

  /** The rows of `ps` that belong to bet `betId`, in order. */
  function ForBet(ps: seq<Participation>, betId: int): (r: seq<Participation>)
    ensures forall p :: p in r <==> p in ps && p.betId == betId
    ensures |r| <= |ps|
  {
    if ps == [] then []
    else (if ps[0].betId == betId then [ps[0]] else []) + ForBet(ps[1..], betId)
  }

  /** A participation of the bet occurs in its rows as often as in the
      table; any other occurs not at all. */
  lemma {:induction false} ForBetCounts(ps: seq<Participation>, betId: int, p: Participation)
    ensures multiset(ForBet(ps, betId))[p] == (if p.betId == betId then multiset(ps)[p] else 0)
  {
    if ps != [] {
      assert ps == [ps[0]] + ps[1..];
      ForBetCounts(ps[1..], betId, p);
    }
  }

  /** The rows of a bet keep table order: selecting from two stretches of
      the table gives the first stretch's rows, then the second's. */
  lemma {:induction false} ForBetAppend(a: seq<Participation>, b: seq<Participation>, betId: int)
    ensures ForBet(a + b, betId) == ForBet(a, betId) + ForBet(b, betId)
  {
    if a == [] {
      assert a + b == b;
    } else {
      assert (a + b)[1..] == a[1..] + b;
      ForBetAppend(a[1..], b, betId);
    }
  }
}
