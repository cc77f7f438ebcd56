/**
 * What one round of the meta-EARGM should decide, said without loops: who is
 * granted how much and who gives back how much, for a list of reports and the
 * power budget that all sub-EARGMs share.
 */
module MetaPlan {
  import opened Sums
  import opened Waterfall
  import opened SubManager

  function Caps(s: seq<Report>): (r: seq<nat>)
    ensures |r| == |s|
  {
    seq(|s|, i requires 0 <= i < |s| => s[i].powercap)
  }

  function Defaults(s: seq<Report>): (r: seq<nat>)
    ensures |r| == |s|
  {
    seq(|s|, i requires 0 <= i < |s| => s[i].defPower)
  }

  function Freeables(s: seq<Report>): (r: seq<nat>)
    ensures |r| == |s|
  {
    seq(|s|, i requires 0 <= i < |s| => s[i].freeable)
  }

  function Extras(s: seq<Report>): (r: seq<nat>)
    ensures |r| == |s|
  {
    seq(|s|, i requires 0 <= i < |s| => s[i].extra)
  }

  /** What is wanted by those below their default. */
  function Asks(s: seq<Report>): (r: seq<nat>)
    ensures |r| == |s|
  {
    seq(|s|, i requires 0 <= i < |s| => if s[i].status == AskDef then s[i].requested else 0)
  }

  /** Greedy, and holding extra power already (or not). */
  predicate Eligible(r: Report, hasExtra: bool)
  {
    r.status == Greedy && (r.extra > 0 <==> hasExtra)
  }

  function Demands(s: seq<Report>, hasExtra: bool): (r: seq<nat>)
    ensures |r| == |s|
  {
    seq(|s|, i requires 0 <= i < |s| => if Eligible(s[i], hasExtra) then s[i].requested else 0)
  }

  /** Power of the budget that no sub-EARGM holds. */
  function FreePower(budget: nat, s: seq<Report>): nat
  {
    Monus(budget, Sum(Caps(s)))
  }

  /** Free and freeable power do not cover what is asked: extra power must go. */
  predicate Short(budget: nat, s: seq<Report>)
  {
    Sum(Asks(s)) > FreePower(budget, s) + Sum(Freeables(s))
  }

  /** Free power covers a part of what is asked and freeable power the rest. */
  predicate FallsThrough(budget: nat, s: seq<Report>)
  {
    FreePower(budget, s) < Sum(Asks(s)) && !Short(budget, s)
  }

  /** Freeable power spent on those below their default. */
  function AskCut(budget: nat, s: seq<Report>): nat
  {
    Monus(Sum(Asks(s)), FreePower(budget, s))
  }

  /**
   * Free power the greedy phases believe they have. After a fall-through it is
   * still the full free power, although all of it was just promised.
   */
  function Spare(budget: nat, s: seq<Report>): nat
  {
    var free := FreePower(budget, s);
    if Sum(Asks(s)) <= free then free - Total(Asks(s)) else free
  }

  /** All the power the greedy phases can hand out. */
  function Pool(budget: nat, s: seq<Report>): nat
    requires !Short(budget, s)
  {
    Spare(budget, s) + Total(Freeables(s)) - AskCut(budget, s)
  }

  function Greed(s: seq<Report>): nat { Total(Demands(s, false)) + Total(Demands(s, true)) }

  /** What the greedy phases hand out in all. */
  function Given(budget: nat, s: seq<Report>): nat
    requires !Short(budget, s)
  {
    Min(Pool(budget, s), Greed(s))
  }

  /** Power granted to and taken from each sub-EARGM, and free power left over. */
  datatype Plan = Plan(grant: seq<nat>, cut: seq<nat>, left: nat)

  function MakePlan(budget: nat, s: seq<Report>): (p: Plan)
    ensures |p.grant| == |p.cut| == |s|
  {
    if Short(budget, s) then
      var missing := Total(Asks(s)) - FreePower(budget, s);
      Plan(Asks(s),
           Add(Freeables(s), Pour(Extras(s), missing - Total(Freeables(s)))),
           0)
    else
      var pool := Pool(budget, s);
      Plan(Add(Asks(s), Add(Pour(Demands(s, false), pool),
                            Pour(Demands(s, true), Monus(pool, Sum(Demands(s, false)))))),
           Pour(Freeables(s), AskCut(budget, s) + Monus(Given(budget, s), Spare(budget, s))),
           Monus(Spare(budget, s), Given(budget, s)))
  }

  predicate AllHonest(s: seq<Report>) { forall i :: 0 <= i < |s| ==> Honest(s[i]) }

  /** The power cap of position `i` once its command is carried out. */
  function NewCap(p: Plan, s: seq<Report>, i: nat): int
    requires |p.grant| == |p.cut| == |s| && i < |s|
  {
    s[i].powercap + p.grant[i] - p.cut[i]
  }

  function NewCaps(p: Plan, s: seq<Report>): (r: seq<int>)
    requires |p.grant| == |p.cut| == |s|
    ensures |r| == |s|
  {
    seq(|s|, i requires 0 <= i < |s| => NewCap(p, s, i))
  }

  // ---- one sub-EARGM ---------------------------------------------------------------

  /**
   * Nobody is told to grow and to shrink, nobody gets more than it requested,
   * and nobody gives more than it offered and held as extra. While extra power
   * is being withdrawn nobody greedy is granted anything.
   */
  lemma PlanPerReport(budget: nat, s: seq<Report>, i: nat)
    requires AllHonest(s) && i < |s|
    ensures var p := MakePlan(budget, s);
            && (p.grant[i] == 0 || p.cut[i] == 0)
            && p.grant[i] <= s[i].requested
            && p.cut[i] <= s[i].freeable + s[i].extra
            && (s[i].status == AskDef ==> p.grant[i] == s[i].requested)
            && (s[i].status == Ok || (s[i].status == Greedy && Short(budget, s)) ==> p.grant[i] == 0)
            && (p.cut[i] > s[i].freeable ==> Short(budget, s))
  {
    if Short(budget, s) {
      ShortPerReport(budget, s, i);
    } else {
      CoveredPerReport(budget, s, i);
    }
  }

  lemma ShortPerReport(budget: nat, s: seq<Report>, i: nat)
    requires i < |s| && Honest(s[i])
    requires Short(budget, s)
    ensures var p := MakePlan(budget, s);
            && p.grant[i] == (if s[i].status == AskDef then s[i].requested else 0)
            && p.cut[i] <= s[i].freeable + s[i].extra
            && (s[i].status == AskDef ==> p.cut[i] == 0)
  {
  }

  lemma CoveredPerReport(budget: nat, s: seq<Report>, i: nat)
    requires i < |s| && Honest(s[i])
    requires !Short(budget, s)
    ensures var p := MakePlan(budget, s);
            && p.grant[i] <= s[i].requested
            && p.cut[i] <= s[i].freeable
            && (s[i].status == AskDef ==> p.grant[i] == s[i].requested)
  {
  }

  // ---- the budget ------------------------------------------------------------------

  lemma {:induction false} SumNewCapsTo(p: Plan, s: seq<Report>, k: nat)
    requires |p.grant| == |p.cut| == |s| && k <= |s|
    ensures SumTo(NewCaps(p, s), k) == SumTo(Caps(s), k) + SumTo(p.grant, k) - SumTo(p.cut, k)
  {
    if k > 0 { SumNewCapsTo(p, s, k - 1); }
  }

  /** Grants minus cuts when extra power has to be withdrawn. */
  lemma NetWhenShort(budget: nat, s: seq<Report>)
    requires Short(budget, s)
    ensures var p := MakePlan(budget, s);
            var missing := Sum(Asks(s)) - FreePower(budget, s) - Sum(Freeables(s));
            Sum(p.grant) - Sum(p.cut) == FreePower(budget, s) + Monus(missing, Sum(Extras(s)))
  {
    var missing := Total(Asks(s)) - FreePower(budget, s) - Total(Freeables(s));
    SumAddTo(Freeables(s), Pour(Extras(s), missing), |s|);
    PourTotal(Extras(s), missing);
  }

  /** What the greedy phases hand out is `Given`, over both classes together. */
  lemma GreedyTotal(budget: nat, s: seq<Report>)
    requires !Short(budget, s)
    ensures Sum(MakePlan(budget, s).grant) == Sum(Asks(s)) + Given(budget, s)
  {
    var pool := Pool(budget, s);
    var d0, d1 := Demands(s, false), Demands(s, true);
    var rest := Monus(pool, Sum(d0));
    SumAddTo(Asks(s), Add(Pour(d0, pool), Pour(d1, rest)), |s|);
    SumAddTo(Pour(d0, pool), Pour(d1, rest), |s|);
    PourTotal(d0, pool);
    PourTotal(d1, rest);
    SumNat(d0, |s|);
    SumNat(d1, |s|);
  }

  /** Grants minus cuts otherwise: the free power spent, counted as the code counts it. */
  lemma NetWhenCovered(budget: nat, s: seq<Report>)
    requires !Short(budget, s)
    ensures var p := MakePlan(budget, s);
            var free := FreePower(budget, s);
            Sum(p.grant) - Sum(p.cut) == Min(Sum(Asks(s)), free) + Min(Given(budget, s), Spare(budget, s))
  {
    GreedyTotal(budget, s);
    PourTotal(Freeables(s), AskCut(budget, s) + Monus(Given(budget, s), Spare(budget, s)));
  }

  /** The sum of caps after the round, in closed form. */
  lemma RoundTotal(budget: nat, s: seq<Report>)
    requires !Short(budget, s)
    ensures var free := FreePower(budget, s);
            Sum(NewCaps(MakePlan(budget, s), s))
            == Sum(Caps(s)) + Min(Sum(Asks(s)), free) + Min(Greed(s), Spare(budget, s))
  {
    NetWhenCovered(budget, s);
    SumNewCapsTo(MakePlan(budget, s), s, |s|);
  }

  /** A greedy phase after a fall-through spends free power that is already promised. */
  predicate SpendsTwice(budget: nat, s: seq<Report>)
  {
    FallsThrough(budget, s) && FreePower(budget, s) > 0 && Greed(s) > 0
  }

  /** What asked-for power adds up to, summed by induction over the reports. */
  lemma {:induction false} AsksBelowDefaults(s: seq<Report>, k: nat)
    requires AllHonest(s) && k <= |s|
    ensures SumTo(Asks(s), k) + SumTo(Caps(s), k) <= SumTo(Defaults(s), k) + SumTo(Extras(s), k)
  {
    if k > 0 {
      AsksBelowDefaults(s, k - 1);
      assert Honest(s[k - 1]);
    }
  }

  /**
   * The shortage the code calls impossible is impossible: free and extra power
   * always cover what is asked, because nobody asks beyond its default.
   */
  lemma NoShortage(budget: nat, s: seq<Report>)
    requires AllHonest(s)
    requires Sum(Defaults(s)) <= budget
    ensures Sum(Asks(s)) <= FreePower(budget, s) + Sum(Extras(s))
  {
    AsksBelowDefaults(s, |s|);
  }

  /** Free power a round spends, on those below their default and on the greedy, as the code counts it. */
  function Growth(budget: nat, s: seq<Report>): nat
  {
    Min(Total(Asks(s)), FreePower(budget, s)) + if Short(budget, s) then 0 else Min(Greed(s), Spare(budget, s))
  }

  /** The sum of caps planned for is that reported, and the free power spent. */
  lemma AfterRound(budget: nat, s: seq<Report>)
    requires AllHonest(s)
    requires Sum(Defaults(s)) <= budget
    ensures Sum(NewCaps(MakePlan(budget, s), s)) == Sum(Caps(s)) + Growth(budget, s)
  {
    if Short(budget, s) {
      NoShortage(budget, s);
      NetWhenShort(budget, s);
      SumNewCapsTo(MakePlan(budget, s), s, |s|);
      SumNat(Freeables(s), |s|);
    } else {
      RoundTotal(budget, s);
    }
  }

  /**
   * One round keeps the sub-EARGMs within a budget they were within, exactly
   * when it does not spend free power twice; then it spends just that too much.
   */
  lemma BudgetKeptExactly(budget: nat, s: seq<Report>)
    requires AllHonest(s)
    requires Sum(Defaults(s)) <= budget
    requires Sum(Caps(s)) <= budget
    ensures Sum(NewCaps(MakePlan(budget, s), s)) <= budget <==> !SpendsTwice(budget, s)
    ensures SpendsTwice(budget, s) ==>
              Sum(NewCaps(MakePlan(budget, s), s)) == budget + Min(Greed(s), FreePower(budget, s)) <= 2 * budget
    ensures Short(budget, s) ==> Sum(NewCaps(MakePlan(budget, s), s)) == budget
  {
    SumNat(Caps(s), |s|);
    SumNat(Asks(s), |s|);
    SumNat(Freeables(s), |s|);
    AfterRound(budget, s);
  }

  /**
   * What the round leaves over is what the plan does not assign, except that after
   * a fall-through the free power counts once more.
   */
  lemma LeftIsUnassigned(budget: nat, s: seq<Report>)
    requires !Short(budget, s) && Sum(Caps(s)) <= budget
    ensures Sum(NewCaps(MakePlan(budget, s), s)) + MakePlan(budget, s).left
            == budget + if FallsThrough(budget, s) then FreePower(budget, s) else 0
  {
    RoundTotal(budget, s);
  }

  /** At or over the budget nothing is free: the sum planned for is exactly the sum reported. */
  lemma NeverFurtherOver(budget: nat, s: seq<Report>)
    requires AllHonest(s)
    requires Sum(Defaults(s)) <= budget
    requires Sum(Caps(s)) >= budget
    ensures Sum(NewCaps(MakePlan(budget, s), s)) == Sum(Caps(s))
    ensures Growth(budget, s) == 0 && !SpendsTwice(budget, s)
  {
    AfterRound(budget, s);
  }

  // ---- cuts that are refused -------------------------------------------------------

  /** What position `i` is told to give up and refuses, because it does not hold that much. */
  function Refused(p: Plan, s: seq<Report>, i: nat): nat
    requires |p.grant| == |p.cut| == |s| && i < |s|
  {
    if p.cut[i] > s[i].powercap then p.cut[i] else 0
  }

  function RefusedCuts(p: Plan, s: seq<Report>): (r: seq<nat>)
    requires |p.grant| == |p.cut| == |s|
    ensures |r| == |s|
  {
    seq(|s|, i requires 0 <= i < |s| => Refused(p, s, i))
  }

  /**
   * Someone is told to give up more than it holds: its offer and its extra power
   * exceed its cap, and what is asked exceeds free power, all offers, the extra
   * power of those before it, and what of its own it could give beyond its offer.
   */
  predicate Overcuts(budget: nat, s: seq<Report>)
  {
    exists i {:trigger s[i]} :: 0 <= i < |s| && OvercutAt(budget, s, i)
  }

  predicate OvercutAt(budget: nat, s: seq<Report>, i: nat)
    requires i < |s|
  {
    && s[i].freeable + s[i].extra > s[i].powercap
    && Sum(Asks(s)) > FreePower(budget, s) + Sum(Freeables(s)) + SumTo(Extras(s), i) + s[i].powercap - s[i].freeable
  }

  /** Offers as they are published: nobody offers more than its cap. */
  predicate Offered(s: seq<Report>) { forall i :: 0 <= i < |s| ==> s[i].freeable <= s[i].powercap }

  /** The reports show who will be cut below zero. */
  lemma OvercutExactly(budget: nat, s: seq<Report>, i: nat)
    requires AllHonest(s) && Offered(s) && i < |s|
    ensures MakePlan(budget, s).cut[i] > s[i].powercap <==> OvercutAt(budget, s, i)
    ensures OvercutAt(budget, s, i) ==> Short(budget, s)
  {
    SumNat(Extras(s), i);
    PlanPerReport(budget, s, i);
  }

  /** When a cut exceeds `c` watts: by the offer alone, or by it and what is withdrawn of extra power. */
  predicate CutAbove(budget: nat, s: seq<Report>, i: nat, c: nat)
    requires i < |s|
  {
    if Short(budget, s) then
      || s[i].freeable > c
      || (s[i].freeable + s[i].extra > c
          && Sum(Asks(s)) > FreePower(budget, s) + Sum(Freeables(s)) + SumTo(Extras(s), i) + c - s[i].freeable)
    else
      s[i].freeable > c && AskCut(budget, s) + Monus(Given(budget, s), Spare(budget, s)) > SumTo(Freeables(s), i) + c
  }

  lemma CutAboveExactly(budget: nat, s: seq<Report>, i: nat, c: nat)
    requires i < |s|
    ensures MakePlan(budget, s).cut[i] > c <==> CutAbove(budget, s, i, c)
  {
    SumNat(Extras(s), i);
    SumNat(Freeables(s), i);
  }

  lemma RefusedExactly(budget: nat, s: seq<Report>)
    requires AllHonest(s) && Offered(s)
    ensures Sum(RefusedCuts(MakePlan(budget, s), s)) >= 0
    ensures Overcuts(budget, s) <==> Sum(RefusedCuts(MakePlan(budget, s), s)) > 0
    ensures Overcuts(budget, s) ==> Short(budget, s)
  {
    var refused := RefusedCuts(MakePlan(budget, s), s);
    SumNat(refused, |s|);
    if Overcuts(budget, s) {
      var i :| 0 <= i < |s| && OvercutAt(budget, s, i);
      OvercutExactly(budget, s, i);
      SumGrows(refused, i, |s|);
    } else {
      forall i | 0 <= i < |s|
        ensures refused[i] == 0
      {
        OvercutExactly(budget, s, i);
      }
      SumConst(refused, 0, |s|);
    }
  }

  /**
   * The caps once every command was carried out or refused: within the budget
   * exactly if the round spends nothing twice and overcuts nobody.
   */
  lemma RoundKeptExactly(budget: nat, s: seq<Report>)
    requires AllHonest(s) && Offered(s)
    requires Sum(Defaults(s)) <= budget
    requires Sum(Caps(s)) <= budget
    ensures var p := MakePlan(budget, s);
            var total := Sum(NewCaps(p, s)) + Sum(RefusedCuts(p, s));
            && (total <= budget <==> !SpendsTwice(budget, s) && !Overcuts(budget, s))
            && (Overcuts(budget, s) ==> total == budget + Sum(RefusedCuts(p, s)))
            && (SpendsTwice(budget, s) ==> total == budget + Min(Greed(s), FreePower(budget, s)))
  {
    BudgetKeptExactly(budget, s);
    RefusedExactly(budget, s);
  }

  /** No grant takes anyone beyond the budget or beyond what all are to hold together. */
  lemma GrantBounded(budget: nat, s: seq<Report>, i: nat)
    requires AllHonest(s) && Offered(s) && i < |s|
    requires Sum(Defaults(s)) <= budget
    ensures var p := MakePlan(budget, s);
            s[i].powercap + p.grant[i] <= budget || NewCap(p, s, i) <= Sum(NewCaps(p, s)) || p.grant[i] == 0
  {
    var p := MakePlan(budget, s);
    PlanPerReport(budget, s, i);
    SumGrows(Defaults(s), i, |s|);
    assert Honest(s[i]);
    if !Short(budget, s) {
      forall j | 0 <= j < |s|
        ensures NewCaps(p, s)[j] >= 0
      {
        PlanPerReport(budget, s, j);
      }
      var caps: seq<nat> := NewCaps(p, s);
      SumGrows(caps, i, |s|);
    }
  }

  // ---- priority --------------------------------------------------------------------

  /** Someone who holds extra power is served only after all who hold none are served in full. */
  lemma ExtraHoldersComeLast(budget: nat, s: seq<Report>, i: nat, j: nat)
    requires AllHonest(s)
    requires i < |s| && j < |s|
    requires s[i].status == Greedy && s[i].extra > 0 && MakePlan(budget, s).grant[i] > 0
    requires s[j].status == Greedy && s[j].extra == 0
    ensures MakePlan(budget, s).grant[j] == s[j].requested
  {
    assert Honest(s[i]);
    var pool := Pool(budget, s);
    SumNat(Demands(s, false), |s|);
    SumNat(Demands(s, true), i);
    PourAll(Demands(s, false), pool);
  }

  /** Among those who hold extra power, and among those who hold none, the first report is served first. */
  lemma GreedyInOrder(budget: nat, s: seq<Report>, i: nat, j: nat)
    requires AllHonest(s)
    requires i < j < |s| && s[i].status == s[j].status == Greedy && (s[i].extra > 0 <==> s[j].extra > 0)
    requires MakePlan(budget, s).grant[j] > 0
    ensures MakePlan(budget, s).grant[i] == s[i].requested
  {
    assert Honest(s[j]);
    var pool, h := Pool(budget, s), s[i].extra > 0;
    PourInOrder(Demands(s, h), if h then Monus(pool, Sum(Demands(s, false))) else pool, i, j);
  }

  /**
   * Offers are called in in the order of the reports. Extra power is withdrawn in
   * their order as well, and only once all offers are called in.
   */
  lemma CutsInOrder(budget: nat, s: seq<Report>, i: nat, j: nat)
    requires i < |s| && j < |s| && i != j
    ensures var cut := MakePlan(budget, s).cut;
            && (i < j && cut[j] > 0 ==> cut[i] >= s[i].freeable)
            && (cut[j] > s[j].freeable ==> cut[i] >= s[i].freeable)
            && (i < j && cut[j] > s[j].freeable ==> cut[i] == s[i].freeable + s[i].extra)
  {
    if Short(budget, s) {
      var missing := Total(Asks(s)) - FreePower(budget, s) - Total(Freeables(s));
      if i < j && Pour(Extras(s), missing)[j] > 0 { PourInOrder(Extras(s), missing, i, j); }
    } else if i < j && MakePlan(budget, s).cut[j] > 0 {
      PourInOrder(Freeables(s), AskCut(budget, s) + Monus(Given(budget, s), Spare(budget, s)), i, j);
    }
  }

  /** Greedy demand left unmet means that no free and no freeable power is left. */
  lemma UnmetMeansNothingLeft(budget: nat, s: seq<Report>, i: nat)
    requires !Short(budget, s)
    requires i < |s| && s[i].status == Greedy
    requires MakePlan(budget, s).grant[i] < s[i].requested
    ensures MakePlan(budget, s).left == 0
    ensures forall k :: 0 <= k < |s| ==> MakePlan(budget, s).cut[k] == s[k].freeable
    ensures Sum(NewCaps(MakePlan(budget, s), s)) >= budget
  {
    RoundTotal(budget, s);
    var pool := Pool(budget, s);
    var d0, d1 := Demands(s, false), Demands(s, true);
    SumNat(d0, |s|);
    SumNat(d1, |s|);
    if Greed(s) <= pool {
      PourAll(d0, pool);
      PourAll(d1, pool - Total(d0));
      assert false;
    }
    PourAll(Freeables(s), AskCut(budget, s) + Monus(Given(budget, s), Spare(budget, s)));
  }

  /** One below its default, one that offers power, and a greedy one. */
  function AskerGiverTaker(): (s: seq<Report>)
    ensures |s| == 3
  {
    [Report(0, AskDef, 0, 1, 10, 9, 0, 0), Report(1, Ok, 0, 10, 10, 0, 5, 0), Report(2, Greedy, 0, 15, 10, 20, 0, 5)]
  }

  /** Three sub-EARGMs of default 10 under a budget of 30 that end up holding 34. */
  lemma SpendsTwiceHappens()
    ensures var s := AskerGiverTaker();
            && AllHonest(s) && Offered(s) && Sum(Defaults(s)) == 30 && Sum(Caps(s)) == 26
            && SpendsTwice(30, s)
            && Sum(NewCaps(MakePlan(30, s), s)) == 34
  {
    var s := AskerGiverTaker();
    SumOfThree(Caps(s));
    SumOfThree(Defaults(s));
    SumOfThree(Asks(s));
    SumOfThree(Freeables(s));
    SumOfThree(Demands(s, false));
    SumOfThree(Demands(s, true));
    RoundTotal(30, s);
  }
}
