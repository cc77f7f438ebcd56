/**
 * Rounds on current reports: everyone has published since its cap last changed.
 * They leave the budget only in two ways, and from the configured defaults only
 * in one.
 */
module CurrentReports {
  import opened Sums
  import opened SubManager
  import opened MetaPlan
  import opened Hierarchy

  /** The reports tell the caps in force. */
  predicate Current(st: State)
    requires Shaped(st)
  {
    forall k :: 0 <= k < |st.subs| ==>
      st.reports[k].powercap == st.subs[k].cap && st.reports[k].defPower == st.subs[k].def
  }

  predicate AllCurrent(run: seq<State>, events: seq<Event>, i: nat)
    requires States(run, events) && i <= |events|
  {
    forall j :: 0 <= j < i && events[j].Round? ==> Current(run[j])
  }

  // ---- one round ---------------------------------------------------------------------

  /** What the round knows of the system is right. */
  lemma CurrentIs(budget: nat, st: State)
    requires Inv(budget, st) && Enabled(st, Round) && Current(st)
    ensures Sum(Caps(st.reports)) == Sum(CurrentCaps(st)) == Sum(SettledCaps(st))
    ensures Refusals(budget, st) == RefusedCuts(MakePlan(budget, st.reports), st.reports)
  {
    BeforeRound(budget, st);
    SumSame(Caps(st.reports), CurrentCaps(st), |st.subs|);
  }

  /** If what is planned for fits into a word, no cap wraps. */
  lemma CurrentNoWrap(budget: nat, st: State)
    requires Inv(budget, st) && Enabled(st, Round) && Current(st)
    requires budget < WORD && Sum(CurrentCaps(st)) < WORD
    requires Sum(NewCaps(MakePlan(budget, st.reports), st.reports)) < WORD
    ensures NoWrap(budget, st)
  {
    BeforeRound(budget, st);
    forall k | 0 <= k < |st.subs|
      ensures st.subs[k].cap + MakePlan(budget, st.reports).grant[k] < WORD
    {
      GrantBounded(budget, st.reports, k);
      PlanPerReport(budget, st.reports, k);
      SumGrows(CurrentCaps(st), k, |st.subs|);
    }
  }

  predicate Leaks(budget: nat, s: seq<Report>) { SpendsTwice(budget, s) || Overcuts(budget, s) }

  /** A round from within the budget leads out of it exactly if it spends free power twice or overcuts. */
  lemma RoundExactly(budget: nat, st: State)
    requires Inv(budget, st) && Enabled(st, Round) && Current(st) && Sum(SettledCaps(st)) <= budget
    ensures Breaks(budget, st) <==> Leaks(budget, st.reports)
    ensures Overcuts(budget, st.reports) ==>
              Sum(SettledCaps(st)) + Added(budget, st) == budget + Sum(Refusals(budget, st))
    ensures SpendsTwice(budget, st.reports) ==>
              Sum(SettledCaps(st)) + Added(budget, st)
              == budget + Min(Greed(st.reports), FreePower(budget, st.reports)) <= 2 * budget
    ensures budget < WORD && (SpendsTwice(budget, st.reports) ==> 2 * budget < WORD) ==> NoWrap(budget, st)
  {
    BeforeRound(budget, st);
    CurrentIs(budget, st);
    AfterRound(budget, st.reports);
    BudgetKeptExactly(budget, st.reports);
    RoundKeptExactly(budget, st.reports);
    RefusedExactly(budget, st.reports);
    if budget < WORD && (SpendsTwice(budget, st.reports) ==> 2 * budget < WORD) { CurrentNoWrap(budget, st); }
  }

  /** A round at or over the budget spends nothing, so it adds exactly the cuts that are refused. */
  lemma RoundOver(budget: nat, st: State)
    requires Inv(budget, st) && Enabled(st, Round) && Current(st) && Sum(SettledCaps(st)) >= budget
    ensures Added(budget, st) == Sum(Refusals(budget, st)) && !SpendsTwice(budget, st.reports)
    ensures Added(budget, st) > 0 <==> Overcuts(budget, st.reports)
    ensures Sum(SettledCaps(st)) < WORD ==> NoWrap(budget, st)
  {
    BeforeRound(budget, st);
    CurrentIs(budget, st);
    NeverFurtherOver(budget, st.reports);
    RefusedExactly(budget, st.reports);
    if Sum(SettledCaps(st)) < WORD { CurrentNoWrap(budget, st); }
  }

  // ---- runs --------------------------------------------------------------------------

  predicate NoneOvercuts(budget: nat, run: seq<State>, events: seq<Event>, i: nat)
    requires States(run, events) && i <= |events|
  {
    forall j :: 0 <= j < i && events[j].Round? ==> !Overcuts(budget, run[j].reports)
  }

  predicate NoneLeaks(budget: nat, run: seq<State>, events: seq<Event>, i: nat)
    requires States(run, events) && i <= |events|
  {
    forall j :: 0 <= j < i && events[j].Round? ==> !Leaks(budget, run[j].reports)
  }

  /** Up to state `i` the caps everyone is heading for are within the budget. */
  predicate WithinTo(budget: nat, run: seq<State>, i: nat)
    requires i < |run| && forall j :: 0 <= j < |run| ==> Shaped(run[j])
  {
    forall j :: 0 <= j <= i ==> Sum(SettledCaps(run[j])) <= budget
  }

  lemma {:induction false} LeaksBreak(budget: nat, run: seq<State>, events: seq<Event>, i: nat)
    requires IsRun(budget, run, events) && i < |run| && AllCurrent(run, events, i) && NoneWraps(budget, run, events, i)
    requires Inv(budget, run[0]) && Sum(SettledCaps(run[0])) <= budget
    ensures NoneBreaks(budget, run, events, i) <==> NoneLeaks(budget, run, events, i)
  {
    if i > 0 {
      LeaksBreak(budget, run, events, i - 1);
      if NoneBreaks(budget, run, events, i - 1) && events[i - 1].Round? {
        BudgetOverRuns(budget, run, events, i - 1);
        RunAccount(budget, run, events, i - 1);
        RoundExactly(budget, run[i - 1]);
      }
      assert NoneBreaks(budget, run, events, i) <==>
             NoneBreaks(budget, run, events, i - 1) && !(events[i - 1].Round? && Breaks(budget, run[i - 1]));
      assert NoneLeaks(budget, run, events, i) <==>
             NoneLeaks(budget, run, events, i - 1) && !(events[i - 1].Round? && Leaks(budget, run[i - 1].reports));
    }
  }

  /** Without a leak nothing wraps and the budget is kept. */
  lemma {:induction false} RunWithin(budget: nat, run: seq<State>, events: seq<Event>, i: nat)
    requires IsRun(budget, run, events) && i < |run| && AllCurrent(run, events, i) && NoneLeaks(budget, run, events, i)
    requires Inv(budget, run[0]) && Sum(SettledCaps(run[0])) <= budget < WORD
    ensures Inv(budget, run[i]) && Sum(SettledCaps(run[i])) <= budget && NoneWraps(budget, run, events, i)
  {
    if i > 0 {
      RunWithin(budget, run, events, i - 1);
      if events[i - 1].Round? { RoundExactly(budget, run[i - 1]); }
      EventAccount(budget, run[i - 1], events[i - 1]);
      if events[i - 1].Round? { BeforeRound(budget, run[i - 1]); }
    }
  }

  /**
   * The budget over every run on current reports from within it: kept in a state
   * exactly if no round so far spends free power twice or overcuts, and up to a
   * state whether or not caps can wrap later.
   */
  lemma {:induction false} CurrentOverRuns(budget: nat, run: seq<State>, events: seq<Event>, i: nat)
    requires IsRun(budget, run, events) && i < |run| && AllCurrent(run, events, i)
    requires Inv(budget, run[0]) && Sum(SettledCaps(run[0])) <= budget
    ensures NoneWraps(budget, run, events, i) ==>
              (Sum(SettledCaps(run[i])) <= budget <==> NoneLeaks(budget, run, events, i))
    ensures 2 * budget < WORD ==> (WithinTo(budget, run, i) <==> NoneLeaks(budget, run, events, i))
  {
    if NoneWraps(budget, run, events, i) {
      BudgetOverRuns(budget, run, events, i);
      LeaksBreak(budget, run, events, i);
    }
    if 2 * budget < WORD { FirstLeak(budget, run, events, i); }
  }

  lemma {:induction false} FirstLeak(budget: nat, run: seq<State>, events: seq<Event>, i: nat)
    requires IsRun(budget, run, events) && i < |run| && AllCurrent(run, events, i)
    requires Inv(budget, run[0]) && Sum(SettledCaps(run[0])) <= budget && 2 * budget < WORD
    ensures WithinTo(budget, run, i) <==> NoneLeaks(budget, run, events, i)
  {
    if NoneLeaks(budget, run, events, i) {
      forall j | 0 <= j <= i
        ensures Sum(SettledCaps(run[j])) <= budget
      {
        RunWithin(budget, run, events, j);
      }
    } else if NoneLeaks(budget, run, events, i - 1) {
      RunWithin(budget, run, events, i - 1);
      assert events[i - 1].Round? && Leaks(budget, run[i - 1].reports);
      RoundExactly(budget, run[i - 1]);
      BeforeRound(budget, run[i - 1]);
      EventAccount(budget, run[i - 1], events[i - 1]);
      assert Sum(SettledCaps(run[i])) > budget;
    } else {
      FirstLeak(budget, run, events, i - 1);
    }
  }

  /** The round at which free power was spent twice, with what the run has been heading for since. */
  predicate SpentTwiceAt(budget: nat, run: seq<State>, events: seq<Event>, j: nat, i: nat)
    requires States(run, events) && j < i < |run|
  {
    && events[j].Round? && SpendsTwice(budget, run[j].reports)
    && Sum(SettledCaps(run[i])) == budget + Min(Greed(run[j].reports), FreePower(budget, run[j].reports))
  }

  /**
   * Where no round overcuts, the overrun is exact and happens once: the caps are
   * heading for the budget at most, or for it and the free power that one round
   * spent twice. That is never more than twice the budget.
   */
  lemma {:induction false} TwiceTheBudget(budget: nat, run: seq<State>, events: seq<Event>, i: nat)
    requires IsRun(budget, run, events) && i < |run| && AllCurrent(run, events, i)
             && NoneOvercuts(budget, run, events, i)
    requires Inv(budget, run[0]) && Sum(SettledCaps(run[0])) <= budget && 2 * budget < WORD
    ensures Inv(budget, run[i]) && Sum(SettledCaps(run[i])) <= 2 * budget
    ensures Sum(SettledCaps(run[i])) <= budget || exists j :: 0 <= j < i && SpentTwiceAt(budget, run, events, j, i)
  {
    if i > 0 {
      TwiceTheBudget(budget, run, events, i - 1);
      var st, e := run[i - 1], events[i - 1];
      if Sum(SettledCaps(st)) <= budget {
        if e.Round? {
          RoundExactly(budget, st);
          BeforeRound(budget, st);
        }
        EventAccount(budget, st, e);
        assert e.Round? && SpendsTwice(budget, st.reports) ==> SpentTwiceAt(budget, run, events, i - 1, i);
      } else {
        if e.Round? { RoundOver(budget, st); }
        EventAccount(budget, st, e);
        var j :| 0 <= j < i - 1 && SpentTwiceAt(budget, run, events, j, i - 1);
        assert SpentTwiceAt(budget, run, events, j, i);
      }
    }
  }

  // ---- runs from the defaults --------------------------------------------------------

  /** Either the whole budget is assigned, or nobody is heading below its default. */
  predicate SpentOrWhole(budget: nat, st: State)
    requires Shaped(st)
  {
    Sum(SettledCaps(st)) >= budget || forall k :: 0 <= k < |st.subs| ==> Settled(st, k) >= st.subs[k].def
  }

  /** Nobody below its default means that nobody asks. */
  lemma WholeAsksNothing(s: seq<Report>)
    requires AllHonest(s) && forall k :: 0 <= k < |s| ==> s[k].powercap >= s[k].defPower
    ensures Sum(Asks(s)) == 0
  {
    forall k | 0 <= k < |s|
      ensures Asks(s)[k] == 0
    {
      assert Honest(s[k]);
    }
    SumConst(Asks(s), 0, |s|);
  }

  /** A round cuts only when it assigns the whole budget. */
  lemma CutsOnlyWhenSpent(budget: nat, s: seq<Report>)
    requires AllHonest(s) && Sum(Defaults(s)) <= budget && Sum(Caps(s)) <= budget
    requires forall k :: 0 <= k < |s| ==> s[k].powercap >= s[k].defPower
    ensures var p := MakePlan(budget, s);
            Sum(NewCaps(p, s)) == budget || forall k :: 0 <= k < |s| ==> p.cut[k] == 0
  {
    WholeAsksNothing(s);
    SumNat(Freeables(s), |s|);
    AfterRound(budget, s);
    if Given(budget, s) <= Spare(budget, s) {
      forall k | 0 <= k < |s|
        ensures MakePlan(budget, s).cut[k] == 0
      {
        SumNat(Freeables(s), k);
      }
    }
  }

  /** The same of one plan: it spends nothing twice and leaves the budget spent or everyone whole. */
  lemma PlanSpentOrWhole(budget: nat, s: seq<Report>)
    requires AllHonest(s) && Sum(Defaults(s)) <= budget && Sum(Caps(s)) <= budget
    requires Sum(Caps(s)) == budget || forall k :: 0 <= k < |s| ==> s[k].powercap >= s[k].defPower
    ensures !SpendsTwice(budget, s)
    ensures var p := MakePlan(budget, s);
            Sum(NewCaps(p, s)) >= budget || forall k :: 0 <= k < |s| ==> NewCap(p, s, k) >= s[k].defPower
  {
    if Sum(Caps(s)) == budget {
      SumNat(Asks(s), |s|);
      AfterRound(budget, s);
    } else {
      WholeAsksNothing(s);
      CutsOnlyWhenSpent(budget, s);
    }
  }

  lemma RoundSpentOrWhole(budget: nat, st: State)
    requires Inv(budget, st) && Enabled(st, Round) && Current(st) && SpentOrWhole(budget, st)
    ensures !SpendsTwice(budget, st.reports)
    ensures NoWrap(budget, st) ==> SpentOrWhole(budget, Next(budget, st, Round))
  {
    if Sum(SettledCaps(st)) >= budget {
      RoundOver(budget, st);
      if NoWrap(budget, st) { RoundSettles(budget, st); }
    } else {
      var s, t, p := st.reports, Next(budget, st, Round), MakePlan(budget, st.reports);
      BeforeRound(budget, st);
      CurrentIs(budget, st);
      PlanSpentOrWhole(budget, s);
      if NoWrap(budget, st) {
        RoundSettles(budget, st);
        SumNat(Refusals(budget, st), |st.subs|);
        forall k | 0 <= k < |s|
          ensures Settled(t, k) >= NewCap(p, s, k) && t.subs[k].def == s[k].defPower
        {
          RoundSettlesAt(budget, st, k);
        }
      }
    }
  }

  lemma {:induction false} DefaultsKeep(budget: nat, run: seq<State>, events: seq<Event>, i: nat)
    requires IsRun(budget, run, events) && Initial(budget, run[0]) && i < |run|
    requires AllCurrent(run, events, i) && NoneWraps(budget, run, events, i)
    ensures Inv(budget, run[i]) && SpentOrWhole(budget, run[i])
  {
    if i == 0 {
      InitialInv(budget, run[0]);
    } else {
      DefaultsKeep(budget, run, events, i - 1);
      var st, e := run[i - 1], events[i - 1];
      match e
      case Published(_, _, _, _) => PublishKeeps(budget, st, e);
      case Round =>
        RoundSpentOrWhole(budget, st);
        RoundSettles(budget, st);
      case Delivered(_) => DeliverKeeps(budget, st, e);
    }
  }

  /**
   * From the configured defaults no round ever spends free power twice: power is
   * called in below a default only once the whole budget is assigned, and then
   * nothing is free any more.
   */
  lemma DefaultsSpendOnce(budget: nat, run: seq<State>, events: seq<Event>, i: nat)
    requires IsRun(budget, run, events) && Initial(budget, run[0]) && i < |events| && events[i].Round?
    requires AllCurrent(run, events, i + 1) && NoneWraps(budget, run, events, i)
    ensures !SpendsTwice(budget, run[i].reports)
  {
    DefaultsKeep(budget, run, events, i);
    RoundSpentOrWhole(budget, run[i]);
  }

  lemma NextLeaksNot(budget: nat, run: seq<State>, events: seq<Event>, i: nat)
    requires IsRun(budget, run, events) && Initial(budget, run[0]) && i < |events| && events[i].Round?
    requires AllCurrent(run, events, i + 1) && NoneLeaks(budget, run, events, i) && budget < WORD
    requires !Overcuts(budget, run[i].reports)
    ensures !Leaks(budget, run[i].reports)
  {
    InitialInv(budget, run[0]);
    RunWithin(budget, run, events, i);
    DefaultsSpendOnce(budget, run, events, i);
  }

  /** Until a round overcuts, none leaks. */
  lemma {:induction false} DefaultsLeakLast(budget: nat, run: seq<State>, events: seq<Event>, i: nat)
    requires IsRun(budget, run, events) && Initial(budget, run[0]) && i < |run| && budget < WORD
    requires AllCurrent(run, events, i) && NoneOvercuts(budget, run, events, i)
    ensures NoneLeaks(budget, run, events, i)
  {
    if i > 0 {
      DefaultsLeakLast(budget, run, events, i - 1);
      if events[i - 1].Round? { NextLeaksNot(budget, run, events, i - 1); }
    }
  }

  /**
   * The budget in every state of every run from the configured defaults: on
   * reports however old, what everyone is heading for is within it exactly if no
   * round so far has added more than was left; on current reports, exactly if no
   * round so far overcuts, and up to a state whether or not caps can wrap later.
   */
  lemma BudgetFromDefaults(budget: nat, run: seq<State>, events: seq<Event>, i: nat)
    requires IsRun(budget, run, events) && Initial(budget, run[0]) && i < |run|
    ensures NoneWraps(budget, run, events, i) ==>
              (Sum(SettledCaps(run[i])) <= budget <==> NoneBreaks(budget, run, events, i))
    ensures NoneWraps(budget, run, events, i) && AllCurrent(run, events, i) ==>
              (Sum(SettledCaps(run[i])) <= budget <==> NoneOvercuts(budget, run, events, i))
    ensures budget < WORD && AllCurrent(run, events, i) ==>
              (WithinTo(budget, run, i) <==> NoneOvercuts(budget, run, events, i))
  {
    InitialInv(budget, run[0]);
    if NoneWraps(budget, run, events, i) { BudgetOverRuns(budget, run, events, i); }
    if NoneWraps(budget, run, events, i) && AllCurrent(run, events, i) {
      LeaksBreak(budget, run, events, i);
      forall j | 0 <= j < i && events[j].Round?
        ensures !SpendsTwice(budget, run[j].reports)
      {
        DefaultsSpendOnce(budget, run, events, j);
      }
    }
    if budget < WORD && AllCurrent(run, events, i) { FirstOvercut(budget, run, events, i); }
  }

  lemma {:induction false} FirstOvercut(budget: nat, run: seq<State>, events: seq<Event>, i: nat)
    requires IsRun(budget, run, events) && Initial(budget, run[0]) && i < |run| && AllCurrent(run, events, i)
    requires budget < WORD
    ensures WithinTo(budget, run, i) <==> NoneOvercuts(budget, run, events, i)
  {
    InitialInv(budget, run[0]);
    if NoneOvercuts(budget, run, events, i) {
      forall j | 0 <= j <= i
        ensures Sum(SettledCaps(run[j])) <= budget
      {
        DefaultsLeakLast(budget, run, events, j);
        RunWithin(budget, run, events, j);
      }
    } else if NoneOvercuts(budget, run, events, i - 1) {
      var st, e := run[i - 1], events[i - 1];
      DefaultsLeakLast(budget, run, events, i - 1);
      RunWithin(budget, run, events, i - 1);
      assert e.Round? && Overcuts(budget, st.reports);
      DefaultsSpendOnce(budget, run, events, i - 1);
      RoundExactly(budget, st);
      BeforeRound(budget, st);
      EventAccount(budget, st, e);
      assert Sum(SettledCaps(run[i])) > budget;
    } else {
      FirstOvercut(budget, run, events, i - 1);
    }
  }
}
