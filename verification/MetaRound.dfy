/**
 * The passes of one round put together, and the proof that what they enter in
 * the command table is what `MetaPlan.MakePlan` decides.
 */
module MetaRound {
  import opened Sums
  import opened Waterfall
  import opened SubManager
  import opened MetaPlan
  import opened MetaPasses

  /** The command that carries out a grant or a cut. */
  function ActionFor(grant: nat, cut: nat): Action
  {
    if grant > 0 then IncPc else if cut > 0 then RedPc else NoCommand
  }

  predicate AllKnown(ids: seq<int>, s: seq<Report>) { forall i :: 0 <= i < |s| ==> s[i].id in ids }

  function All(pass: Pass, ids: seq<int>, b: Board, budget: nat): (c: Board)
    requires Fits(ids, b)
    ensures Fits(ids, c) && |c.status| == |b.status|
  {
    RunPass(pass, ids, b, budget, |b.status|).board
  }

  // ---- passes that do nothing --------------------------------------------------------

  /** A pass whose budget is gone changes nothing any more. */
  lemma {:induction false} PassDry(pass: Pass, ids: seq<int>, b: Board, budget: nat, k: nat, n: nat)
    requires Fits(ids, b) && k <= n <= |b.status| && !pass.Ask?
    requires RunPass(pass, ids, b, budget, k).left == 0
    ensures RunPass(pass, ids, b, budget, n) == RunPass(pass, ids, b, budget, k)
  {
    if k < n { PassDry(pass, ids, b, budget, k, n - 1); }
  }

  /** Nor does a pass without a budget. */
  lemma IdlePass(pass: Pass, ids: seq<int>, b: Board)
    requires Fits(ids, b) && !pass.Ask?
    ensures All(pass, ids, b, 0) == b
  {
    PassDry(pass, ids, b, 0, 0, |b.status|);
  }

  /** Nor does a pass that concerns no report. */
  lemma {:induction false} EmptyPass(pass: Pass, ids: seq<int>, b: Board, budget: nat, k: nat)
    requires Fits(ids, b) && k <= |b.status|
    requires forall i :: 0 <= i < |b.status| ==> !Concerns(pass, ids, b.status[i])
    ensures RunPass(pass, ids, b, budget, k) == Progress(b, budget)
    ensures SumTo(Amounts(pass, ids, b.status), k) == 0
  {
    if k > 0 { EmptyPass(pass, ids, b, budget, k - 1); }
  }

  // ---- the reports after a pass ------------------------------------------------------

  /** Settling a share uses up that much of its own kind and nothing of the others. */
  lemma SettledAmount(pass: Pass, other: Pass, ids: seq<int>, r: Report, share: nat)
    requires share <= Amount(pass, ids, r)
    requires !pass.Extra? && !pass.Ask? && !other.Ask?
    ensures Amount(other, ids, Settle(pass, r, share))
            == Amount(other, ids, r) - if other == pass then share else 0
  {
  }

  lemma AfterPassAt(pass: Pass, ids: seq<int>, b: Board, budget: nat, other: Pass, i: nat)
    requires Fits(ids, b) && i < |b.status|
    requires !pass.Extra? && !pass.Ask? && !other.Ask?
    ensures var t := All(pass, ids, b, budget).status;
            && t[i].id == b.status[i].id
            && Amount(other, ids, t[i]) == Amount(other, ids, b.status[i])
                                           - if other == pass then Shares(pass, ids, b.status, budget)[i] else 0
  {
    PassStatus(pass, ids, b, budget, |b.status|, i);
    SettledAmount(pass, other, ids, b.status[i], Shares(pass, ids, b.status, budget)[i]);
  }

  /** The pass uses up its own amounts. */
  lemma AfterOwnPass(pass: Pass, ids: seq<int>, b: Board, budget: nat)
    requires Fits(ids, b) && !pass.Extra? && !pass.Ask?
    ensures Amounts(pass, ids, All(pass, ids, b, budget).status)
            == Less(Amounts(pass, ids, b.status), Shares(pass, ids, b.status, budget))
  {
    forall i | 0 <= i < |b.status|
      ensures Amount(pass, ids, All(pass, ids, b, budget).status[i])
              == Less(Amounts(pass, ids, b.status), Shares(pass, ids, b.status, budget))[i]
    {
      AfterPassAt(pass, ids, b, budget, pass, i);
    }
  }

  /** It leaves the amounts of the other kinds as they were. */
  lemma AfterOtherPass(pass: Pass, ids: seq<int>, b: Board, budget: nat, other: Pass)
    requires Fits(ids, b) && !pass.Extra? && !pass.Ask? && !other.Ask? && other != pass
    ensures Amounts(other, ids, All(pass, ids, b, budget).status) == Amounts(other, ids, b.status)
  {
    forall i | 0 <= i < |b.status|
      ensures Amount(other, ids, All(pass, ids, b, budget).status[i]) == Amount(other, ids, b.status[i])
    {
      AfterPassAt(pass, ids, b, budget, other, i);
    }
  }

  /** The senders of the reports stay where they are. */
  predicate SameSenders(s: seq<Report>, t: seq<Report>)
  {
    |s| == |t| && forall i :: 0 <= i < |s| ==> s[i].id == t[i].id && s[i].status == t[i].status
  }

  lemma {:induction false} SendersStay(pass: Pass, ids: seq<int>, b: Board, budget: nat, k: nat)
    requires Fits(ids, b) && k <= |b.status|
    ensures SameSenders(b.status, RunPass(pass, ids, b, budget, k).board.status)
  {
    if k > 0 { SendersStay(pass, ids, b, budget, k - 1); }
  }

  /** Asking leaves every report as it was. */
  lemma AfterAsk(ids: seq<int>, b: Board, budget: nat)
    requires Fits(ids, b)
    requires Sum(Amounts(Ask, ids, b.status)) <= budget
    ensures All(Ask, ids, b, budget).status == b.status
  {
    forall i | 0 <= i < |b.status|
      ensures All(Ask, ids, b, budget).status[i] == b.status[i]
    {
      PassStatus(Ask, ids, b, budget, |b.status|, i);
    }
  }

  // ---- one greedy phase --------------------------------------------------------------

  /** The board between two phases, with the free and freeable power still at hand. */
  datatype Stage = Stage(board: Board, free: nat, freeable: nat)

  predicate Sane(ids: seq<int>, st: Stage)
  {
    && Fits(ids, st.board)
    && DistinctReports(st.board.status)
    && st.freeable == Sum(Amounts(Free, ids, st.board.status))
  }

  /** Freeable power the phase has to call in: what its demand exceeds the free power by. */
  function CallIn(h: bool, ids: seq<int>, st: Stage): nat
  {
    Min(st.freeable, Monus(Sum(Amounts(Demand(h), ids, st.board.status)), st.free))
  }

  /** Serve from free power, then call in freeable power and serve again from that. */
  function Serve(h: bool, ids: seq<int>, st: Stage): (t: Stage)
    requires Fits(ids, st.board)
    ensures Fits(ids, t.board) && |t.board.status| == |st.board.status|
  {
    var m := CallIn(h, ids, st);
    var first := All(Demand(h), ids, st.board, st.free);
    Stage(All(Demand(h), ids, All(Free, ids, first, m), m),
          Monus(st.free, Sum(Amounts(Demand(h), ids, st.board.status))),
          st.freeable - m)
  }

  lemma ServeAmounts(h: bool, ids: seq<int>, st: Stage)
    requires Sane(ids, st)
    ensures var s, t := st.board.status, Serve(h, ids, st).board.status;
            && Amounts(Demand(!h), ids, t) == Amounts(Demand(!h), ids, s)
            && Amounts(Free, ids, t) == Less(Amounts(Free, ids, s), Shares(Free, ids, s, CallIn(h, ids, st)))
            && SameSenders(s, t)
    ensures Sane(ids, Serve(h, ids, st))
  {
    var s, m := st.board.status, CallIn(h, ids, st);
    var b1 := All(Demand(h), ids, st.board, st.free);
    var b2 := All(Free, ids, b1, m);
    SendersStay(Demand(h), ids, st.board, st.free, |s|);
    SendersStay(Free, ids, b1, m, |s|);
    SendersStay(Demand(h), ids, b2, m, |s|);
    AfterOtherPass(Demand(h), ids, st.board, st.free, Free);
    AfterOtherPass(Demand(h), ids, st.board, st.free, Demand(!h));
    AfterOwnPass(Free, ids, b1, m);
    AfterOtherPass(Free, ids, b1, m, Demand(!h));
    AfterOtherPass(Demand(h), ids, b2, m, Free);
    AfterOtherPass(Demand(h), ids, b2, m, Demand(!h));
    SumLessTo(Amounts(Free, ids, s), Shares(Free, ids, s, m), |s|);
    PourTotal(Amounts(Free, ids, s), m);
  }

  /** The shares of the two helpings make up the share of free and freeable power together. */
  lemma ServeShares(h: bool, ids: seq<int>, st: Stage, i: nat)
    requires Sane(ids, st) && i < |st.board.status|
    ensures var s, m := st.board.status, CallIn(h, ids, st);
            var b1 := All(Demand(h), ids, st.board, st.free);
            var b2 := All(Free, ids, b1, m);
            Shares(Demand(h), ids, s, st.free)[i] + Shares(Demand(h), ids, b2.status, m)[i]
            == Shares(Demand(h), ids, s, st.free + st.freeable)[i]
  {
    var m := CallIn(h, ids, st);
    var want := Amounts(Demand(h), ids, st.board.status);
    var b1 := All(Demand(h), ids, st.board, st.free);
    AfterOwnPass(Demand(h), ids, st.board, st.free);
    AfterOtherPass(Free, ids, b1, m, Demand(h));
    PourTwiceAt(want, st.free, m, i);
    PourCapped(want, st.free + m, st.free + st.freeable);
  }

  /** Each entry grows by its share of free and freeable power, and by what was called in from it. */
  lemma ServeValue(h: bool, ids: seq<int>, st: Stage, i: nat, p: nat)
    requires Sane(ids, st) && i < |st.board.status| && p < |ids| && st.board.status[i].id == ids[p]
    ensures Serve(h, ids, st).board.values[p]
            == st.board.values[p]
               + Shares(Demand(h), ids, st.board.status, st.free + st.freeable)[i]
               + Shares(Free, ids, st.board.status, CallIn(h, ids, st))[i]
  {
    var s, m := st.board.status, CallIn(h, ids, st);
    var b1 := All(Demand(h), ids, st.board, st.free);
    var b2 := All(Free, ids, b1, m);
    SendersStay(Demand(h), ids, st.board, st.free, |s|);
    SendersStay(Free, ids, b1, m, |s|);
    assert b1.values[p] == st.board.values[p] + Shares(Demand(h), ids, s, st.free)[i] by {
      PassValue(Demand(h), ids, st.board, st.free, |s|, i, p);
    }
    assert b2.values[p] == b1.values[p] + Shares(Free, ids, s, m)[i] by {
      PassValue(Free, ids, b1, m, |s|, i, p);
      AfterOtherPass(Demand(h), ids, st.board, st.free, Free);
    }
    PassValue(Demand(h), ids, b2, m, |s|, i, p);
    ServeShares(h, ids, st, i);
  }

  /** The last of the three passes that touches a report sets its command. */
  lemma ServeTouches(h: bool, ids: seq<int>, st: Stage, i: nat, p: nat)
    requires Sane(ids, st) && i < |st.board.status| && p < |ids| && st.board.status[i].id == ids[p]
    ensures var s, m := st.board.status, CallIn(h, ids, st);
            var b1 := All(Demand(h), ids, st.board, st.free);
            var b2 := All(Free, ids, b1, m);
            Serve(h, ids, st).board.actions[p]
            == if Touched(Demand(h), ids, b2.status, m, i) then IncPc
               else if Touched(Free, ids, b1.status, m, i) then RedPc
               else if Touched(Demand(h), ids, s, st.free, i) then IncPc
               else st.board.actions[p]
  {
    var s, m := st.board.status, CallIn(h, ids, st);
    var b1 := All(Demand(h), ids, st.board, st.free);
    var b2 := All(Free, ids, b1, m);
    SendersStay(Demand(h), ids, st.board, st.free, |s|);
    SendersStay(Free, ids, b1, m, |s|);
    PassAction(Demand(h), ids, st.board, st.free, |s|, i, p);
    PassAction(Free, ids, b1, m, |s|, i, p);
    PassAction(Demand(h), ids, b2, m, |s|, i, p);
  }

  /** Report `i` before the last greedy pass: only its request and its offer may have shrunk. */
  lemma ServedReport(h: bool, ids: seq<int>, st: Stage, i: nat)
    requires Sane(ids, st) && i < |st.board.status|
    ensures var s, m := st.board.status, CallIn(h, ids, st);
            var b1 := All(Demand(h), ids, st.board, st.free);
            var b2 := All(Free, ids, b1, m);
            && b1.status[i].freeable == s[i].freeable
            && (forall g :: Eligible(b2.status[i], g) == Eligible(s[i], g))
            && b2.status[i].id == s[i].id
  {
    var s, m := st.board.status, CallIn(h, ids, st);
    var b1 := All(Demand(h), ids, st.board, st.free);
    PassStatus(Demand(h), ids, st.board, st.free, |s|, i);
    PassStatus(Free, ids, b1, m, |s|, i);
  }

  /** The command of someone the phase does not serve: a reduction if power is called in from it. */
  lemma ServeActionOfOthers(h: bool, ids: seq<int>, st: Stage, i: nat, p: nat)
    requires Sane(ids, st) && i < |st.board.status| && p < |ids| && st.board.status[i].id == ids[p]
    requires !Eligible(st.board.status[i], h)
    ensures Serve(h, ids, st).board.actions[p]
            == if Shares(Free, ids, st.board.status, CallIn(h, ids, st))[i] > 0 then RedPc
               else st.board.actions[p]
  {
    ServeTouches(h, ids, st, i, p);
    ServedReport(h, ids, st, i);
    AfterOtherPass(Demand(h), ids, st.board, st.free, Free);
    AfterPassAt(Demand(h), ids, st.board, st.free, Free, i);
  }

  /** Of two helpings one arrives exactly when the two together leave a share. */
  lemma TouchedOnce(want: seq<nat>, x: nat, y: nat, i: nat)
    requires i < |want| && want[i] > 0
    ensures SumTo(want, i) < x || SumTo(Less(want, Pour(want, x)), i) < y <==> Pour(want, x + y)[i] > 0
  {
    SumLessTo(want, Pour(want, x), i);
    PourTo(want, x, i);
    SumNat(want, i);
  }

  /** The command of someone the phase is for, who offers nothing: an increase if it gets a share. */
  lemma ServeActionOfGreedy(h: bool, ids: seq<int>, st: Stage, i: nat, p: nat)
    requires Sane(ids, st) && i < |st.board.status| && p < |ids| && st.board.status[i].id == ids[p]
    requires Eligible(st.board.status[i], h)
    requires st.board.status[i].requested > 0 && st.board.status[i].freeable == 0
    ensures Serve(h, ids, st).board.actions[p]
            == if Shares(Demand(h), ids, st.board.status, st.free + st.freeable)[i] > 0 then IncPc
               else st.board.actions[p]
  {
    var m := CallIn(h, ids, st);
    var want := Amounts(Demand(h), ids, st.board.status);
    var b1 := All(Demand(h), ids, st.board, st.free);
    ServeTouches(h, ids, st, i, p);
    ServedReport(h, ids, st, i);
    AfterOwnPass(Demand(h), ids, st.board, st.free);
    AfterOtherPass(Free, ids, b1, m, Demand(h));
    TouchedOnce(want, st.free, m, i);
    PourCapped(want, st.free + m, st.free + st.freeable);
  }

  // ---- the round ---------------------------------------------------------------------

  lemma KnownAmounts(ids: seq<int>, s: seq<Report>)
    requires AllKnown(ids, s)
    ensures Amounts(Ask, ids, s) == Asks(s)
    ensures Amounts(Free, ids, s) == Freeables(s)
    ensures Amounts(Extra, ids, s) == Extras(s)
    ensures forall h :: Amounts(Demand(h), ids, s) == Demands(s, h)
  {
  }

  /** Asked-for power is promised first, and freeable power called in for what free power lacks. */
  function Asked(ids: seq<int>, budget: nat, b: Board): (st: Stage)
    requires Fits(ids, b)
    ensures Fits(ids, st.board) && |st.board.status| == |b.status|
  {
    var ask := All(Ask, ids, b, Total(Asks(b.status)));
    var cut := AskCut(budget, b.status);
    Stage(All(Free, ids, ask, cut), Spare(budget, b.status), Monus(Sum(Freeables(b.status)), cut))
  }

  /** The whole round: extra power goes if nothing else covers what is asked, else the greedy are served. */
  function RoundBoard(ids: seq<int>, budget: nat, b: Board): (c: Board)
    requires Fits(ids, b)
    ensures Fits(ids, c)
  {
    var st := Asked(ids, budget, b);
    if Short(budget, b.status) then
      All(Extra, ids, st.board, AskCut(budget, b.status) - Total(Freeables(b.status)))
    else
      Serve(true, ids, Serve(false, ids, st)).board
  }

  /** A table before the round: no command and no amount anywhere. */
  predicate Blank(b: Board)
  {
    && (forall p :: 0 <= p < |b.actions| ==> b.actions[p] == NoCommand)
    && (forall p :: 0 <= p < |b.values| ==> b.values[p] == 0)
  }

  /** What a round starts from. */
  predicate Ready(ids: seq<int>, b: Board)
  {
    Fits(ids, b) && Blank(b) && DistinctReports(b.status) && AllKnown(ids, b.status)
  }

  lemma AskedAmounts(ids: seq<int>, budget: nat, b: Board)
    requires Ready(ids, b)
    ensures var s, t := b.status, Asked(ids, budget, b).board.status;
            && SameSenders(s, t)
            && Amounts(Free, ids, t) == Less(Freeables(s), Pour(Freeables(s), AskCut(budget, s)))
            && Amounts(Extra, ids, t) == Extras(s)
            && (forall h :: Amounts(Demand(h), ids, t) == Demands(s, h))
    ensures Sane(ids, Asked(ids, budget, b))
  {
    var s, cut := b.status, AskCut(budget, b.status);
    var ask := All(Ask, ids, b, Total(Asks(s)));
    KnownAmounts(ids, s);
    AfterAsk(ids, b, Total(Asks(s)));
    SendersStay(Free, ids, ask, cut, |s|);
    AfterOwnPass(Free, ids, ask, cut);
    AfterOtherPass(Free, ids, ask, cut, Extra);
    AfterOtherPass(Free, ids, ask, cut, Demand(false));
    AfterOtherPass(Free, ids, ask, cut, Demand(true));
    forall h: bool
      ensures Amounts(Demand(h), ids, Asked(ids, budget, b).board.status) == Demands(s, h)
    {
      if h { } else { }
    }
    SumLessTo(Freeables(s), Pour(Freeables(s), cut), |s|);
    PourTotal(Freeables(s), cut);
  }

  lemma AskedEntry(ids: seq<int>, budget: nat, b: Board, i: nat, p: nat)
    requires Ready(ids, b) && i < |b.status| && p < |ids| && b.status[i].id == ids[p]
    ensures var st := Asked(ids, budget, b);
            var cut := Pour(Freeables(b.status), AskCut(budget, b.status))[i];
            && st.board.values[p] == Asks(b.status)[i] + cut
            && (Honest(b.status[i]) ==> st.board.actions[p] == ActionFor(Asks(b.status)[i], cut))
  {
    var s, cut := b.status, AskCut(budget, b.status);
    var want := Total(Asks(s));
    var ask := All(Ask, ids, b, want);
    KnownAmounts(ids, s);
    AfterAsk(ids, b, want);
    PourAll(Asks(s), want);
    PassValue(Ask, ids, b, want, |s|, i, p);
    PassAction(Ask, ids, b, want, |s|, i, p);
    PassValue(Free, ids, ask, cut, |s|, i, p);
    PassAction(Free, ids, ask, cut, |s|, i, p);
  }

  /** Power called in by the two greedy phases, and what is left for the second, in closed form. */
  lemma GreedyBudgets(ids: seq<int>, budget: nat, b: Board)
    requires Ready(ids, b) && !Short(budget, b.status)
    ensures var st := Asked(ids, budget, b);
            var t := Serve(false, ids, st);
            && st.free + st.freeable == Pool(budget, b.status)
            && t.free + t.freeable == Monus(Pool(budget, b.status), Sum(Demands(b.status, false)))
            && CallIn(false, ids, st) + CallIn(true, ids, t) == Monus(Given(budget, b.status), Spare(budget, b.status))
  {
    var st := Asked(ids, budget, b);
    AskedAmounts(ids, budget, b);
    ServeAmounts(false, ids, st);
    SumNat(Demands(b.status, false), |b.status|);
    SumNat(Demands(b.status, true), |b.status|);
  }

  lemma ShortPlan(budget: nat, s: seq<Report>, i: nat)
    requires i < |s| && Short(budget, s)
    ensures AskCut(budget, s) >= Sum(Freeables(s))
    ensures var plan := MakePlan(budget, s);
            && plan.grant[i] == Asks(s)[i]
            && plan.cut[i] == Freeables(s)[i] + Pour(Extras(s), AskCut(budget, s) - Total(Freeables(s)))[i]
  {
  }

  lemma ShortValue(ids: seq<int>, budget: nat, b: Board, i: nat, p: nat)
    requires Ready(ids, b) && i < |b.status| && p < |ids| && b.status[i].id == ids[p]
    requires Short(budget, b.status)
    ensures var plan := MakePlan(budget, b.status);
            RoundBoard(ids, budget, b).values[p] == plan.grant[i] + plan.cut[i]
  {
    var s, st := b.status, Asked(ids, budget, b);
    ShortPlan(budget, s, i);
    var more := AskCut(budget, s) - Total(Freeables(s));
    var c := All(Extra, ids, st.board, more);
    assert RoundBoard(ids, budget, b) == c;
    assert st.board.values[p] == Asks(s)[i] + Freeables(s)[i] by {
      AskedEntry(ids, budget, b, i, p);
      PourAll(Freeables(s), AskCut(budget, s));
    }
    assert c.values[p] == st.board.values[p] + Pour(Extras(s), more)[i] by {
      AskedAmounts(ids, budget, b);
      PassValue(Extra, ids, st.board, more, |s|, i, p);
    }
  }

  lemma ShortAction(ids: seq<int>, budget: nat, b: Board, i: nat, p: nat)
    requires Ready(ids, b) && i < |b.status| && p < |ids| && b.status[i].id == ids[p]
    requires Short(budget, b.status) && Honest(b.status[i])
    ensures var plan := MakePlan(budget, b.status);
            RoundBoard(ids, budget, b).actions[p] == ActionFor(plan.grant[i], plan.cut[i])
  {
    var s, st := b.status, Asked(ids, budget, b);
    ShortPlan(budget, s, i);
    var more := AskCut(budget, s) - Total(Freeables(s));
    var c := All(Extra, ids, st.board, more);
    assert RoundBoard(ids, budget, b) == c;
    assert st.board.actions[p] == ActionFor(Asks(s)[i], Freeables(s)[i]) by {
      AskedEntry(ids, budget, b, i, p);
      PourAll(Freeables(s), AskCut(budget, s));
    }
    assert c.actions[p] == if Pour(Extras(s), more)[i] > 0 then RedPc else st.board.actions[p] by {
      AskedAmounts(ids, budget, b);
      PassAction(Extra, ids, st.board, more, |s|, i, p);
    }
  }

  /** The shares of the greedy phases and what they call in, in terms of the plan. */
  lemma CoveredShares(ids: seq<int>, budget: nat, b: Board, i: nat)
    requires Ready(ids, b) && i < |b.status| && !Short(budget, b.status)
    ensures var s, st := b.status, Asked(ids, budget, b);
            var t, plan := Serve(false, ids, st), MakePlan(budget, s);
            && |t.board.status| == |st.board.status| == |s|
            && Asks(s)[i] + Shares(Demand(false), ids, st.board.status, st.free + st.freeable)[i]
               + Shares(Demand(true), ids, t.board.status, t.free + t.freeable)[i] == plan.grant[i]
            && Pour(Freeables(s), AskCut(budget, s))[i] + Shares(Free, ids, st.board.status, CallIn(false, ids, st))[i]
               + Shares(Free, ids, t.board.status, CallIn(true, ids, t))[i] == plan.cut[i]
  {
    var s, st := b.status, Asked(ids, budget, b);
    var t := Serve(false, ids, st);
    AskedAmounts(ids, budget, b);
    ServeAmounts(false, ids, st);
    GreedyBudgets(ids, budget, b);
    PourThrice(Freeables(s), AskCut(budget, s), CallIn(false, ids, st), CallIn(true, ids, t), i);
  }

  lemma CoveredValue(ids: seq<int>, budget: nat, b: Board, i: nat, p: nat)
    requires Ready(ids, b) && i < |b.status| && p < |ids| && b.status[i].id == ids[p]
    requires !Short(budget, b.status)
    ensures var plan := MakePlan(budget, b.status);
            RoundBoard(ids, budget, b).values[p] == plan.grant[i] + plan.cut[i]
  {
    var st := Asked(ids, budget, b);
    var t := Serve(false, ids, st);
    assert Sane(ids, st) && SameSenders(b.status, st.board.status) by { AskedAmounts(ids, budget, b); }
    assert Sane(ids, t) && SameSenders(st.board.status, t.board.status) by { ServeAmounts(false, ids, st); }
    AskedEntry(ids, budget, b, i, p);
    ServeValue(false, ids, st, i, p);
    ServeValue(true, ids, t, i, p);
    CoveredShares(ids, budget, b, i);
  }

  /** The command of each honest reporter is the one its grant or cut calls for. */
  lemma CoveredAction(ids: seq<int>, budget: nat, b: Board, i: nat, p: nat)
    requires Ready(ids, b) && i < |b.status| && p < |ids| && b.status[i].id == ids[p]
    requires !Short(budget, b.status) && Honest(b.status[i])
    ensures var plan := MakePlan(budget, b.status);
            RoundBoard(ids, budget, b).actions[p] == ActionFor(plan.grant[i], plan.cut[i])
  {
    var s, st := b.status, Asked(ids, budget, b);
    var t := Serve(false, ids, st);
    AskedAmounts(ids, budget, b);
    AskedEntry(ids, budget, b, i, p);
    ServeAmounts(false, ids, st);
    CoveredShares(ids, budget, b, i);
    AskedReport(ids, budget, b, i);
    ServedOther(false, ids, st, i);
    if Eligible(s[i], false) {
      ServeActionOfGreedy(false, ids, st, i, p);
      ServeActionOfOthers(true, ids, t, i, p);
    } else if Eligible(s[i], true) {
      ServeActionOfOthers(false, ids, st, i, p);
      ServeActionOfGreedy(true, ids, t, i, p);
    } else {
      ServeActionOfOthers(false, ids, st, i, p);
      ServeActionOfOthers(true, ids, t, i, p);
    }
  }

  /** After the ask phase a report has at most offered less. */
  lemma AskedReport(ids: seq<int>, budget: nat, b: Board, i: nat)
    requires Ready(ids, b) && i < |b.status|
    ensures var r, t := b.status[i], Asked(ids, budget, b).board.status[i];
            t == r.(freeable := t.freeable) && t.freeable <= r.freeable
  {
    var s := b.status;
    var ask := All(Ask, ids, b, Total(Asks(s)));
    KnownAmounts(ids, s);
    AfterAsk(ids, b, Total(Asks(s)));
    PassStatus(Free, ids, ask, AskCut(budget, s), |s|, i);
  }

  /** A greedy phase leaves the request of those it is not for, and whom it may serve. */
  lemma ServedOther(h: bool, ids: seq<int>, st: Stage, i: nat)
    requires Sane(ids, st) && i < |st.board.status|
    ensures var r, t := st.board.status[i], Serve(h, ids, st).board.status[i];
            && (forall g :: Eligible(t, g) == Eligible(r, g))
            && t.freeable <= r.freeable
            && (!Eligible(r, h) ==> t.requested == r.requested)
  {
    var s, m := st.board.status, CallIn(h, ids, st);
    var b1 := All(Demand(h), ids, st.board, st.free);
    var b2 := All(Free, ids, b1, m);
    PassStatus(Demand(h), ids, st.board, st.free, |s|, i);
    PassStatus(Free, ids, b1, m, |s|, i);
    PassStatus(Demand(h), ids, b2, m, |s|, i);
  }

  /**
   * The loops refine the plan: every reporting sub-EARGM finds in the table its
   * grant or cut of `MakePlan`, with the matching command.
   */
  lemma RoundMeetsPlan(ids: seq<int>, budget: nat, b: Board, i: nat, p: nat)
    requires Ready(ids, b) && i < |b.status| && p < |ids| && b.status[i].id == ids[p]
    ensures var plan := MakePlan(budget, b.status);
            var c := RoundBoard(ids, budget, b);
            && c.values[p] == plan.grant[i] + plan.cut[i]
            && (Honest(b.status[i]) ==> c.actions[p] == ActionFor(plan.grant[i], plan.cut[i]))
  {
    if Short(budget, b.status) {
      ShortValue(ids, budget, b, i, p);
      if Honest(b.status[i]) { ShortAction(ids, budget, b, i, p); }
    } else {
      CoveredValue(ids, budget, b, i, p);
      if Honest(b.status[i]) { CoveredAction(ids, budget, b, i, p); }
    }
  }

  /** A sub-EARGM that did not report is sent nothing. */
  lemma RoundSilent(ids: seq<int>, budget: nat, b: Board, p: nat)
    requires Ready(ids, b) && p < |ids|
    requires forall i :: 0 <= i < |b.status| ==> b.status[i].id != ids[p]
    ensures var c := RoundBoard(ids, budget, b);
            c.actions[p] == NoCommand && c.values[p] == 0
  {
    var s, st := b.status, Asked(ids, budget, b);
    var ask := All(Ask, ids, b, Total(Asks(s)));
    PassSilent(Ask, ids, b, Total(Asks(s)), |s|, p);
    SendersStay(Ask, ids, b, Total(Asks(s)), |s|);
    PassSilent(Free, ids, ask, AskCut(budget, s), |s|, p);
    SendersStay(Free, ids, ask, AskCut(budget, s), |s|);
    if Short(budget, s) {
      PassSilent(Extra, ids, st.board, AskCut(budget, s) - Total(Freeables(s)), |s|, p);
    } else {
      ServeSilent(false, ids, st, p);
      ServeSilent(true, ids, Serve(false, ids, st), p);
    }
  }

  lemma ServeSilent(h: bool, ids: seq<int>, st: Stage, p: nat)
    requires Fits(ids, st.board) && p < |ids|
    requires forall i :: 0 <= i < |st.board.status| ==> st.board.status[i].id != ids[p]
    ensures var c := Serve(h, ids, st).board;
            && c.actions[p] == st.board.actions[p] && c.values[p] == st.board.values[p]
            && SameSenders(st.board.status, c.status)
  {
    var n, m := |st.board.status|, CallIn(h, ids, st);
    var b1 := All(Demand(h), ids, st.board, st.free);
    var b2 := All(Free, ids, b1, m);
    SendersStay(Demand(h), ids, st.board, st.free, n);
    SendersStay(Free, ids, b1, m, n);
    SendersStay(Demand(h), ids, b2, m, n);
    PassSilent(Demand(h), ids, st.board, st.free, n, p);
    PassSilent(Free, ids, b1, m, n, p);
    PassSilent(Demand(h), ids, b2, m, n, p);
  }

  /**
   * The command table carries out the plan for reports `s`: the entry of each
   * reporter holds its grant or cut and, if it is honest, the matching command;
   * the entries of those who did not report are empty.
   */
  ghost predicate CarriesPlan(ids: seq<int>, budget: nat, s: seq<Report>, actions: seq<Action>, values: seq<nat>)
    requires |actions| == |values| == |ids|
  {
    var plan := MakePlan(budget, s);
    && (forall i, p :: 0 <= i < |s| && 0 <= p < |ids| && s[i].id == ids[p] ==>
          && values[p] == plan.grant[i] + plan.cut[i]
          && (Honest(s[i]) ==> actions[p] == ActionFor(plan.grant[i], plan.cut[i])))
    && (forall p :: 0 <= p < |ids| && (forall i :: 0 <= i < |s| ==> s[i].id != ids[p]) ==>
          values[p] == 0 && actions[p] == NoCommand)
  }

  lemma RoundCarriesPlan(ids: seq<int>, budget: nat, b: Board)
    requires Ready(ids, b)
    ensures var c := RoundBoard(ids, budget, b);
            CarriesPlan(ids, budget, b.status, c.actions, c.values)
  {
    var plan, c := MakePlan(budget, b.status), RoundBoard(ids, budget, b);
    forall i, p | 0 <= i < |b.status| && 0 <= p < |ids| && b.status[i].id == ids[p]
      ensures c.values[p] == plan.grant[i] + plan.cut[i]
      ensures Honest(b.status[i]) ==> c.actions[p] == ActionFor(plan.grant[i], plan.cut[i])
    {
      RoundMeetsPlan(ids, budget, b, i, p);
    }
    forall p | 0 <= p < |ids| && (forall i :: 0 <= i < |b.status| ==> b.status[i].id != ids[p])
      ensures c.values[p] == 0 && c.actions[p] == NoCommand
    {
      RoundSilent(ids, budget, b, p);
    }
  }
}
