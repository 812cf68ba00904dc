/** The figures src/components/BetCard.tsx derives from a bet: per-option
    stake statistics, the current user's participation, the prize the card
    shows them, and which action button it offers. */
module BetCard {
  import opened Types
  import opened Stakes
  import PrizePool

  /** The fields of the bet the card reads. `participations` is optional in
      the card's props. */
  datatype CardBet = CardBet(
    status: Status, totalPool: real, prizePool: real, winningOptionId: Option<int>,
    participations: Option<seq<Participation>>)

  datatype OptionStats = OptionStats(amount: real, percentage: real, count: nat)

  /** `getOptionStats(optionId)`. */
  function GetOptionStats(bet: CardBet, optionId: int): (r: OptionStats)
    ensures bet.participations.None? ==> r == OptionStats(0.0, 0.0, 0)
    ensures bet.participations.Some? ==>
      && r.amount == Total(OnOption(bet.participations.value, optionId))
      && r.count == |OnOption(bet.participations.value, optionId)|
      && (bet.totalPool > 0.0 ==> r.percentage * bet.totalPool == r.amount * 100.0)
      && (bet.totalPool <= 0.0 ==> r.percentage == 0.0)
  {
    if bet.participations.None? then OptionStats(0.0, 0.0, 0)
    else
      var optionParticipations := OnOption(bet.participations.value, optionId);
      var amount := Total(optionParticipations);
      var percentage := if bet.totalPool > 0.0 then (amount / bet.totalPool) * 100.0 else 0.0;
      OptionStats(amount, percentage, |optionParticipations|)
  }

  /** When the card's total pool is the sum of the stakes, every option's
      percentage lies between 0 and 100. */
  lemma PercentageWithinHundred(bet: CardBet, optionId: int)
    requires bet.participations.Some? && NonNegativeStakes(bet.participations.value)
    requires bet.totalPool == Total(bet.participations.value)
    ensures 0.0 <= GetOptionStats(bet, optionId).percentage <= 100.0
  {
    var ps := bet.participations.value;
    var r := GetOptionStats(bet, optionId);
    if bet.totalPool > 0.0 {
      assert 0.0 <= r.amount <= bet.totalPool by {
        StakesOnOptionBounded(ps, optionId);
      }
      PercentOfWhole(r.percentage, r.amount, bet.totalPool);
    } else {
      assert r.percentage == 0.0;
    }
  }

  lemma PercentOfWhole(percentage: real, part: real, whole: real)
    requires whole > 0.0 && 0.0 <= part <= whole
    requires percentage * whole == part * 100.0
    ensures 0.0 <= percentage <= 100.0
  {
    ScaleAtMost(percentage, 100.0, whole);
    ScaleAtMost(0.0, percentage, whole);
  }

  lemma ScaleAtMost(x: real, y: real, l: real)
    requires l > 0.0
    ensures x <= y <==> x * l <= y * l
  {
  }

  /** The first participation in `ps` by `userId`. */
  function FirstBy(ps: seq<Participation>, userId: UserId): (r: Option<Participation>)
    ensures r.None? <==> forall i :: 0 <= i < |ps| ==> ps[i].userId != userId
    ensures r.Some? ==> exists i :: (0 <= i < |ps| && ps[i] == r.value && r.value.userId == userId
      && forall j :: 0 <= j < i ==> ps[j].userId != userId)
  {
    if ps == [] then None
    else if ps[0].userId == userId then Some(ps[0])
    else
      var rest := FirstBy(ps[1..], userId);
      if rest.Some? then
        var i :| (0 <= i < |ps| - 1 && ps[1..][i] == rest.value && rest.value.userId == userId
          && forall j :: 0 <= j < i ==> ps[1..][j].userId != userId);
        assert ps[i + 1] == rest.value && forall j :: 0 <= j < i + 1 ==> ps[j].userId != userId;
        rest
      else rest
  }

  /** `userParticipation`: the first of the bet's participations by the
      current user, if the card has any. */
  function UserParticipation(bet: CardBet, userId: UserId): (r: Option<Participation>)
    ensures bet.participations.None? ==> r.None?
    ensures r.Some? ==> r.value in bet.participations.value && r.value.userId == userId
  {
    if bet.participations.None? then None else FirstBy(bet.participations.value, userId)
  }

  /** `getUserPrize()`: nothing unless the bet is completed with a (truthy)
      winning option and the user's participation is on it; otherwise their
      unrounded share of the prize pool. */
  function GetUserPrize(bet: CardBet, userId: UserId): (r: real)
    ensures var p := UserParticipation(bet, userId);
      (|| bet.status != Completed || p.None? || bet.winningOptionId.None? || bet.winningOptionId == Some(0)
       || p.value.optionId != bet.winningOptionId.value) ==> r == 0.0
    ensures var p := UserParticipation(bet, userId);
      (&& bet.status == Completed && p.Some? && bet.winningOptionId.Some? && bet.winningOptionId.value != 0
       && p.value.optionId == bet.winningOptionId.value
       && Total(OnOption(bet.participations.value, bet.winningOptionId.value)) == 0.0) ==> r == 0.0
  {
    var p := UserParticipation(bet, userId);
    if bet.status != Completed || p.None? || bet.winningOptionId.None? || bet.winningOptionId.value == 0 then 0.0
    else if p.value.optionId != bet.winningOptionId.value then 0.0
    else
      var winners := OnOption(bet.participations.value, bet.winningOptionId.value);
      var totalWinnerAmount := Total(winners);
      if totalWinnerAmount == 0.0 then 0.0
      else bet.prizePool * (p.value.amount / totalWinnerAmount)
  }

  /** Whenever the card shows a prize it is the winner's proportional share
      as `calculatePrizeDistribution` computes it, and the prize actually
      paid (floored to cents) is at most a cent below it. */
  lemma ShownPrizeIsShare(bet: CardBet, userId: UserId)
    requires bet.status == Completed && bet.winningOptionId.Some? && bet.winningOptionId.value != 0
    requires UserParticipation(bet, userId).Some?
    requires UserParticipation(bet, userId).value.optionId == bet.winningOptionId.value
    requires Total(OnOption(bet.participations.value, bet.winningOptionId.value)) != 0.0
    ensures var p := UserParticipation(bet, userId).value;
      var t := Total(OnOption(bet.participations.value, bet.winningOptionId.value));
      && GetUserPrize(bet, userId) == PrizePool.ShareOf(p, bet.prizePool, t).amount
      && PrizePool.WinPrize(p.amount, bet.prizePool, t) <= GetUserPrize(bet, userId)
      && GetUserPrize(bet, userId) < PrizePool.WinPrize(p.amount, bet.prizePool, t) + 0.01
  {
  }

  /** The card's action area. */
  datatype Action = Participate | EditParticipation | Disabled(caption: string)

  function ActionFor(bet: CardBet, userId: UserId): (r: Action)
    ensures r.Participate? || r.EditParticipation? <==> bet.status == Active
    ensures r.EditParticipation? <==> bet.status == Active && UserParticipation(bet, userId).Some?
    ensures r.Disabled? ==> (r.caption == "Betting Locked" <==> bet.status == Locked)
    ensures bet.status == Locked ==> r == Disabled("Betting Locked")
    ensures bet.status == Completed ==> r == Disabled("Betting Closed")
  {
    if bet.status == Active then
      (if UserParticipation(bet, userId).None? then Participate else EditParticipation)
    else Disabled(if bet.status == Locked then "Betting Locked" else "Betting Closed")
  }
}
