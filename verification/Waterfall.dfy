/**
 * First come, first served: a budget is poured over a list of amounts in index
 * order until it runs out. Every loop of the meta-EARGM that takes power away
 * or hands power out has this shape.
 */
module Waterfall {
  import opened Sums

  /** What position `i` gets: as much as it wants of what the earlier ones left. */
  function Share(want: seq<nat>, budget: nat, i: nat): (r: nat)
    requires i < |want|
    ensures r <= want[i]
  {
    Min(want[i], Monus(budget, SumTo(want, i)))
  }

  function Pour(want: seq<nat>, budget: nat): (r: seq<nat>)
    ensures |r| == |want|
    ensures forall i {:trigger r[i]} :: 0 <= i < |want| ==> r[i] == Share(want, budget, i)
  {
    seq(|want|, i requires 0 <= i < |want| => Share(want, budget, i))
  }

  /** Nothing is lost: the whole budget is handed out, up to the whole demand. */
  lemma {:induction false} PourTo(want: seq<nat>, budget: nat, k: nat)
    requires k <= |want|
    ensures SumTo(Pour(want, budget), k) == Min(budget, SumTo(want, k))
  {
    if k > 0 {
      PourTo(want, budget, k - 1);
      SumNat(want, k - 1);
    }
  }

  lemma PourTotal(want: seq<nat>, budget: nat)
    ensures Sum(Pour(want, budget)) == Min(budget, Sum(want))
  {
    PourTo(want, budget, |want|);
  }

  /** One step of a loop that has poured over the first `k` positions. */
  lemma TakeNext(want: seq<nat>, budget: nat, k: nat)
    requires k < |want|
    ensures var r := Pour(want, budget);
            && SumTo(r, k) <= budget
            && r[k] == Min(budget - SumTo(r, k), want[k])
            && SumTo(r, k + 1) == SumTo(r, k) + r[k] <= Sum(want)
  {
    PourTo(want, budget, k);
    SumGrows(want, k, |want|);
  }

  /** The loop may stop at `k`, because it is through or because the budget is gone. */
  lemma TakeEnd(want: seq<nat>, budget: nat, k: nat)
    requires k <= |want|
    requires k == |want| || SumTo(Pour(want, budget), k) == budget
    ensures SumTo(Pour(want, budget), k) == Sum(Pour(want, budget))
    ensures forall j :: k <= j < |want| ==> Pour(want, budget)[j] == 0
  {
    PourTo(want, budget, k);
    PourTo(want, budget, |want|);
    SumGrows(want, k, |want|);
    forall j | k <= j < |want|
      ensures Pour(want, budget)[j] == 0
    {
      SumGrows(want, k, j);
    }
  }

  /** A budget that covers everything serves everyone in full. */
  lemma PourAll(want: seq<nat>, budget: nat)
    requires Sum(want) <= budget
    ensures Pour(want, budget) == want
  {
    forall i | 0 <= i < |want|
      ensures Pour(want, budget)[i] == want[i]
    {
      SumGrows(want, i, |want|);
    }
  }

  /** Budget beyond the whole demand makes no difference. */
  lemma PourCapped(want: seq<nat>, x: nat, y: nat)
    requires Min(x, Sum(want)) == Min(y, Sum(want))
    ensures Pour(want, x) == Pour(want, y)
  {
    if x != y {
      PourAll(want, x);
      PourAll(want, y);
    }
  }

  /** Earlier positions come first: someone is served only if all before them are full. */
  lemma PourInOrder(want: seq<nat>, budget: nat, i: nat, j: nat)
    requires i < j < |want|
    requires Pour(want, budget)[j] > 0
    ensures Pour(want, budget)[i] == want[i]
  {
    SumGrows(want, i, j);
  }

  /** The arithmetic of pouring twice at one position that wants `w` behind a demand of `s`. */
  lemma TwiceAtOne(w: nat, s: nat, x: nat, y: nat)
    ensures Min(w, Monus(x, s)) + Min(w - Min(w, Monus(x, s)), Monus(y, s - Min(x, s))) == Min(w, Monus(x + y, s))
  {
  }

  /** Pouring twice is pouring the two budgets at once. */
  lemma PourTwiceAt(want: seq<nat>, x: nat, y: nat, i: nat)
    requires i < |want|
    ensures Pour(want, x)[i] + Pour(Less(want, Pour(want, x)), y)[i] == Pour(want, x + y)[i]
  {
    var first := Pour(want, x);
    var rest := Less(want, first);
    assert SumTo(rest, i) == SumTo(want, i) - Min(x, SumTo(want, i)) by {
      SumLessTo(want, first, i);
      PourTo(want, x, i);
    }
    SumNat(want, i);
    TwiceAtOne(want[i], SumTo(want, i), x, y);
  }

  /** What is still wanted after pouring twice. */
  lemma LeftAfterTwice(want: seq<nat>, x: nat, y: nat)
    ensures var after := Less(want, Pour(want, x));
            Less(after, Pour(after, y)) == Less(want, Pour(want, x + y))
  {
    var after := Less(want, Pour(want, x));
    var last := Less(after, Pour(after, y));
    forall i | 0 <= i < |want|
      ensures last[i] == Less(want, Pour(want, x + y))[i]
    {
      PourTwiceAt(want, x, y, i);
    }
  }

  /** And pouring three times is pouring the three budgets at once. */
  lemma PourThrice(want: seq<nat>, x: nat, y: nat, z: nat, i: nat)
    requires i < |want|
    ensures var after := Less(want, Pour(want, x));
            var last := Less(after, Pour(after, y));
            Pour(want, x)[i] + Pour(after, y)[i] + Pour(last, z)[i] == Pour(want, x + y + z)[i]
  {
    LeftAfterTwice(want, x, y);
    PourTwiceAt(want, x, y, i);
    PourTwiceAt(want, x + y, z, i);
  }
}
