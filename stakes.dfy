/** Folds over a list of participations that every part of the core uses:
    the sum of the stakes (`reduce((sum, p) => sum + p.amount, 0)`) and the
    split of a list by chosen option (`filter(p => p.option_id === k)`). */
module Stakes {
  import opened Types

  /** The sum of the stakes in `ps`. */
  function Total(ps: seq<Participation>): real {
    if ps == [] then 0.0 else ps[0].amount + Total(ps[1..])
  }

  /** The participations of `ps` on option `k`, in order. */
  function OnOption(ps: seq<Participation>, k: int): (r: seq<Participation>)
    ensures forall p :: p in r <==> p in ps && p.optionId == k
    ensures |r| <= |ps|
  {
    if ps == [] then []
    else (if ps[0].optionId == k then [ps[0]] else []) + OnOption(ps[1..], k)
  }

  /** The participations of `ps` on any option other than `k`, in order. */
  function OffOption(ps: seq<Participation>, k: int): (r: seq<Participation>)
    ensures forall p :: p in r <==> p in ps && p.optionId != k
    ensures |r| <= |ps|
  {
    if ps == [] then []
    else (if ps[0].optionId != k then [ps[0]] else []) + OffOption(ps[1..], k)
  }

  /** Every stake is at least zero. */
  predicate NonNegativeStakes(ps: seq<Participation>) {
    forall i :: 0 <= i < |ps| ==> ps[i].amount >= 0.0
  }

  lemma {:induction false} TotalAppend(a: seq<Participation>, b: seq<Participation>)
    ensures Total(a + b) == Total(a) + Total(b)
  {
    if a == [] {
      assert a + b == b;
    } else {
      assert (a + b)[1..] == a[1..] + b;
      TotalAppend(a[1..], b);
    }
  }

  /** Filtering by option commutes with concatenation. */
  lemma {:induction false} OnOptionAppend(a: seq<Participation>, b: seq<Participation>, k: int)
    ensures OnOption(a + b, k) == OnOption(a, k) + OnOption(b, k)
  {
    if a == [] {
      assert a + b == b;
    } else {
      assert (a + b)[1..] == a[1..] + b;
      OnOptionAppend(a[1..], b, k);
    }
  }

  lemma {:induction false} OffOptionAppend(a: seq<Participation>, b: seq<Participation>, k: int)
    ensures OffOption(a + b, k) == OffOption(a, k) + OffOption(b, k)
  {
    if a == [] {
      assert a + b == b;
    } else {
      assert (a + b)[1..] == a[1..] + b;
      OffOptionAppend(a[1..], b, k);
    }
  }

  /** The two filters split a list without losing or repeating a stake:
      every participation on `k` occurs in the winners as often as in `ps`,
      every other one as often in the losers. */
  lemma {:induction false} OptionSplitCounts(ps: seq<Participation>, k: int, p: Participation)
    ensures multiset(OnOption(ps, k))[p] == (if p.optionId == k then multiset(ps)[p] else 0)
    ensures multiset(OffOption(ps, k))[p] == (if p.optionId != k then multiset(ps)[p] else 0)
  {
    if ps != [] {
      assert ps == [ps[0]] + ps[1..];
      OptionSplitCounts(ps[1..], k, p);
    }
  }

  /** Hence the winners and the losers together are `ps`, as a multiset. */
  lemma OptionSplitPartitions(ps: seq<Participation>, k: int)
    ensures multiset(OnOption(ps, k)) + multiset(OffOption(ps, k)) == multiset(ps)
    ensures |OnOption(ps, k)| + |OffOption(ps, k)| == |ps|
  {
    forall p ensures (multiset(OnOption(ps, k)) + multiset(OffOption(ps, k)))[p] == multiset(ps)[p] {
      OptionSplitCounts(ps, k, p);
    }
    assert multiset(OnOption(ps, k)) + multiset(OffOption(ps, k)) == multiset(ps);
  }

  lemma {:induction false} TotalNonNegative(ps: seq<Participation>)
    requires NonNegativeStakes(ps)
    ensures Total(ps) >= 0.0
  {
    if ps != [] {
      TotalNonNegative(ps[1..]);
    }
  }

  /** Splitting a list into the stakes on `k` and the rest loses nothing. */
  lemma {:induction false} TotalSplitsByOption(ps: seq<Participation>, k: int)
    ensures Total(OnOption(ps, k)) + Total(OffOption(ps, k)) == Total(ps)
  {
    if ps != [] {
      var head := if ps[0].optionId == k then [ps[0]] else [];
      var rest := if ps[0].optionId != k then [ps[0]] else [];
      TotalAppend(head, OnOption(ps[1..], k));
      TotalAppend(rest, OffOption(ps[1..], k));
      TotalSplitsByOption(ps[1..], k);
    }
  }

  /** The stakes on one option never exceed all the stakes. */
  lemma StakesOnOptionBounded(ps: seq<Participation>, k: int)
    requires NonNegativeStakes(ps)
    ensures 0.0 <= Total(OnOption(ps, k)) <= Total(ps)
  {
    TotalSplitsByOption(ps, k);
    OffOptionNonNegative(ps, k);
    OnOptionNonNegative(ps, k);
  }

  lemma OnOptionNonNegative(ps: seq<Participation>, k: int)
    requires NonNegativeStakes(ps)
    ensures NonNegativeStakes(OnOption(ps, k)) && Total(OnOption(ps, k)) >= 0.0
  {
    var r := OnOption(ps, k);
    forall i | 0 <= i < |r| ensures r[i].amount >= 0.0 {
      assert r[i] in r;
    }
    TotalNonNegative(r);
  }

  lemma OffOptionNonNegative(ps: seq<Participation>, k: int)
    requires NonNegativeStakes(ps)
    ensures NonNegativeStakes(OffOption(ps, k)) && Total(OffOption(ps, k)) >= 0.0
  {
    var r := OffOption(ps, k);
    forall i | 0 <= i < |r| ensures r[i].amount >= 0.0 {
      assert r[i] in r;
    }
    TotalNonNegative(r);
  }
}
