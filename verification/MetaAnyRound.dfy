/**
 * The round of the meta-EARGM on any reports. Totals count every report, but
 * only senders in the table are served or called upon, so a report from
 * elsewhere changes what the others get. With all senders in the table it is
 * the round of `MetaRound`.
 */
module MetaAnyRound {
  import opened Sums
  import opened Waterfall
  import opened SubManager
  import opened MetaPlan
  import opened MetaPasses
  import opened MetaRound

  /** What a pass hands out or takes in all. */
  function Spent(pass: Pass, ids: seq<int>, b: Board, budget: nat): nat { Total(Shares(pass, ids, b.status, budget)) }

  /** The second helping: of what is `left` to serve, as much as is freeable is called in and handed out. */
  function Helping(h: bool, ids: seq<int>, b: Board, free: nat, freeable: nat, left: nat): (t: Stage)
    requires Fits(ids, b)
    ensures Fits(ids, t.board) && |t.board.status| == |b.status|
  {
    var m := Min(freeable, left);
    Stage(All(Demand(h), ids, All(Free, ids, b, m), m), free, Monus(freeable, Spent(Free, ids, b, m)))
  }

  /** A greedy phase in which `wanted` watts are asked for by all reports together. */
  function ServeAny(h: bool, ids: seq<int>, st: Stage, wanted: nat): (t: Stage)
    requires Fits(ids, st.board)
    ensures Fits(ids, t.board) && |t.board.status| == |st.board.status|
  {
    var given := Spent(Demand(h), ids, st.board, st.free);
    Helping(h, ids, All(Demand(h), ids, st.board, st.free), Monus(st.free, given), st.freeable, Monus(wanted, given))
  }

  /** The first phase, and whether the round ends with it. */
  datatype Opening = Opening(done: bool, stage: Stage)

  /** What free power lacks of what is asked is called in, from extra power if nothing else is left. */
  function CallInAny(ids: seq<int>, ask: Board, free: nat, offered: nat, missing: nat): (o: Opening)
    requires Fits(ids, ask)
    ensures Fits(ids, o.stage.board) && |o.stage.board.status| == |ask.status|
  {
    var taken := Spent(Free, ids, ask, missing);
    var rest := All(Free, ids, ask, missing);
    if taken < missing then Opening(true, Stage(All(Extra, ids, rest, missing - taken), free, Monus(offered, taken)))
    else Opening(false, Stage(rest, free, Monus(offered, taken)))
  }

  function AskAny(ids: seq<int>, budget: nat, b: Board): (o: Opening)
    requires Fits(ids, b)
    ensures Fits(ids, o.stage.board) && |o.stage.board.status| == |b.status|
  {
    var ask := All(Ask, ids, b, Total(Amounts(Ask, ids, b.status)));
    var free, wanted, offered := FreePower(budget, b.status), Total(Asks(b.status)), Total(Freeables(b.status));
    if wanted <= free then Opening(false, Stage(ask, free - wanted, offered))
    else CallInAny(ids, ask, free, offered, wanted - free)
  }

  /** The whole round; it ends early when the first greedy phase uses up all freeable power. */
  function RoundAny(ids: seq<int>, budget: nat, b: Board): (st: Stage)
    requires Fits(ids, b)
    ensures Fits(ids, st.board)
  {
    var o := AskAny(ids, budget, b);
    if o.done then o.stage
    else
      var t := ServeAny(false, ids, o.stage, Total(Demands(b.status, false)));
      if o.stage.freeable > 0 && t.freeable == 0 then t else ServeAny(true, ids, t, Total(Demands(b.status, true)))
  }

  // ---- the reports after a pass ------------------------------------------------------

  /** Reports `t` are reports `s` after a pass with these shares. */
  predicate SettledBy(pass: Pass, ids: seq<int>, s: seq<Report>, t: seq<Report>, share: seq<nat>)
  {
    && |t| == |share| == |s|
    && forall i :: 0 <= i < |s| ==> t[i] == Settle(pass, s[i], share[i]) && share[i] <= Amount(pass, ids, s[i])
  }

  lemma PassSettles(pass: Pass, ids: seq<int>, b: Board, budget: nat)
    requires Fits(ids, b) && (pass.Ask? ==> Sum(Amounts(pass, ids, b.status)) <= budget)
    ensures SettledBy(pass, ids, b.status, All(pass, ids, b, budget).status, Shares(pass, ids, b.status, budget))
  {
    forall i | 0 <= i < |b.status|
      ensures All(pass, ids, b, budget).status[i] == Settle(pass, b.status[i], Shares(pass, ids, b.status, budget)[i])
    {
      PassStatus(pass, ids, b, budget, |b.status|, i);
    }
  }

  lemma FreeablesSettled(pass: Pass, ids: seq<int>, s: seq<Report>, t: seq<Report>, share: seq<nat>)
    requires SettledBy(pass, ids, s, t, share) && !pass.Extra?
    ensures Sum(Freeables(t)) == Sum(Freeables(s)) - if pass.Free? then Sum(share) else 0
  {
    if pass.Free? {
      assert Freeables(t) == Less(Freeables(s), share);
      SumLessTo(Freeables(s), share, |s|);
    } else {
      assert Freeables(t) == Freeables(s);
    }
  }

  lemma DemandsSettled(pass: Pass, ids: seq<int>, s: seq<Report>, t: seq<Report>, share: seq<nat>, h: bool)
    requires SettledBy(pass, ids, s, t, share) && !pass.Extra?
    ensures Sum(Demands(t, h)) == Sum(Demands(s, h)) - if pass == Demand(h) then Sum(share) else 0
  {
    if pass == Demand(h) {
      assert Demands(t, h) == Less(Demands(s, h), share);
      SumLessTo(Demands(s, h), share, |s|);
    } else {
      assert Demands(t, h) == Demands(s, h);
    }
  }

  /** What all reports offer and want once a pass has settled its shares. */
  lemma AfterAny(pass: Pass, ids: seq<int>, b: Board, budget: nat)
    requires Fits(ids, b) && !pass.Extra? && (pass.Ask? ==> Sum(Amounts(pass, ids, b.status)) <= budget)
    ensures var s, t := b.status, All(pass, ids, b, budget).status;
            && Sum(Freeables(t)) == Sum(Freeables(s)) - (if pass.Free? then Spent(pass, ids, b, budget) else 0)
            && (forall h {:trigger Demands(t, h)} ::
                  Sum(Demands(t, h))
                  == Sum(Demands(s, h)) - (if pass == Demand(h) then Spent(pass, ids, b, budget) else 0))
            && (forall i, h :: 0 <= i < |s| ==> Eligible(t[i], h) == Eligible(s[i], h))
  {
    var s, t, share := b.status, All(pass, ids, b, budget).status, Shares(pass, ids, b.status, budget);
    PassSettles(pass, ids, b, budget);
    FreeablesSettled(pass, ids, s, t, share);
    DemandsSettled(pass, ids, s, t, share, true);
    DemandsSettled(pass, ids, s, t, share, false);
  }

  /** No pass spends more than its budget, or than all reports have of it. */
  lemma SpentBounded(pass: Pass, ids: seq<int>, b: Board, budget: nat)
    requires Fits(ids, b) && !pass.Ask? && !pass.Extra?
    ensures Spent(pass, ids, b, budget) <= budget
    ensures pass.Free? ==> Spent(pass, ids, b, budget) <= Sum(Freeables(b.status))
    ensures forall h :: pass == Demand(h) ==> Spent(pass, ids, b, budget) <= Sum(Demands(b.status, h))
  {
    PourTotal(Amounts(pass, ids, b.status), budget);
    if pass.Free? {
      SumMonotone(Amounts(pass, ids, b.status), Freeables(b.status), |b.status|);
    } else {
      SumMonotone(Amounts(pass, ids, b.status), Demands(b.status, pass.hasExtra), |b.status|);
    }
  }

  /** The stage knows what all reports offer. */
  predicate Tracks(ids: seq<int>, st: Stage) { Fits(ids, st.board) && st.freeable == Sum(Freeables(st.board.status)) }

  /** A greedy phase keeps that, and leaves the other class as it was. */
  lemma ServeAnyTracks(h: bool, ids: seq<int>, st: Stage, wanted: nat)
    requires Tracks(ids, st)
    ensures var s, t := st.board.status, ServeAny(h, ids, st, wanted).board.status;
            && Tracks(ids, ServeAny(h, ids, st, wanted))
            && Sum(Demands(t, !h)) == Sum(Demands(s, !h))
            && (forall i :: 0 <= i < |s| ==> Eligible(t[i], !h) == Eligible(s[i], !h))
  {
    var given := Spent(Demand(h), ids, st.board, st.free);
    var b1 := All(Demand(h), ids, st.board, st.free);
    var m := Min(st.freeable, Monus(wanted, given));
    var b2 := All(Free, ids, b1, m);
    AfterAny(Demand(h), ids, st.board, st.free);
    AfterAny(Free, ids, b1, m);
    AfterAny(Demand(h), ids, b2, m);
    SpentBounded(Free, ids, b1, m);
  }

  /** So does the first phase, for both classes, unless it ends the round. */
  lemma AskAnyTracks(ids: seq<int>, budget: nat, b: Board)
    requires Fits(ids, b) && !AskAny(ids, budget, b).done
    ensures var s, st := b.status, AskAny(ids, budget, b).stage;
            && Tracks(ids, st)
            && (forall h :: Sum(Demands(st.board.status, h)) == Sum(Demands(s, h)))
            && (forall i, h :: 0 <= i < |s| ==> Eligible(st.board.status[i], h) == Eligible(s[i], h))
  {
    var asks := Total(Amounts(Ask, ids, b.status));
    var ask := All(Ask, ids, b, asks);
    var cut := Monus(Sum(Asks(b.status)), FreePower(budget, b.status));
    AfterAny(Ask, ids, b, asks);
    AfterAny(Free, ids, ask, cut);
    SpentBounded(Free, ids, ask, cut);
  }

  // ---- senders in the table ----------------------------------------------------------

  lemma ServeAnyIs(h: bool, ids: seq<int>, st: Stage, wanted: nat)
    requires Sane(ids, st) && wanted == Sum(Amounts(Demand(h), ids, st.board.status))
    ensures ServeAny(h, ids, st, wanted) == Serve(h, ids, st)
  {
    var b1, m := All(Demand(h), ids, st.board, st.free), CallIn(h, ids, st);
    PourTotal(Amounts(Demand(h), ids, st.board.status), st.free);
    AfterOtherPass(Demand(h), ids, st.board, st.free, Free);
    PourTotal(Amounts(Free, ids, b1.status), m);
  }

  lemma AskAnyIs(ids: seq<int>, budget: nat, b: Board)
    requires Ready(ids, b)
    ensures var o := AskAny(ids, budget, b);
            && (o.done <==> Short(budget, b.status))
            && (o.done ==> o.stage.board == RoundBoard(ids, budget, b))
            && (!o.done ==> o.stage == Asked(ids, budget, b))
  {
    var s := b.status;
    var ask := All(Ask, ids, b, Total(Asks(s)));
    KnownAmounts(ids, s);
    AfterAsk(ids, b, Total(Asks(s)));
    PourTotal(Freeables(s), AskCut(budget, s));
    SumNat(Freeables(s), |s|);
    IdlePass(Free, ids, ask);
  }

  /** With nothing to hand out a greedy phase changes nothing. */
  lemma ServeNothing(h: bool, ids: seq<int>, st: Stage)
    requires Fits(ids, st.board) && st.free == 0 && st.freeable == 0
    ensures Serve(h, ids, st) == st
  {
    SumNat(Amounts(Demand(h), ids, st.board.status), |st.board.status|);
    IdlePass(Demand(h), ids, st.board);
    IdlePass(Free, ids, st.board);
  }

  /** Free power left after both greedy phases. */
  lemma FreeLeft(ids: seq<int>, budget: nat, b: Board)
    requires Ready(ids, b) && !Short(budget, b.status)
    ensures Serve(true, ids, Serve(false, ids, Asked(ids, budget, b))).free == MakePlan(budget, b.status).left
  {
    var st := Asked(ids, budget, b);
    AskedAmounts(ids, budget, b);
    ServeAmounts(false, ids, st);
    SumNat(Demands(b.status, false), |b.status|);
    SumNat(Demands(b.status, true), |b.status|);
  }

  /** With all senders in the table, the round on any reports is the round that carries out the plan. */
  lemma RoundAnyIs(ids: seq<int>, budget: nat, b: Board)
    requires Ready(ids, b)
    ensures RoundAny(ids, budget, b).board == RoundBoard(ids, budget, b)
    ensures !Short(budget, b.status) ==> RoundAny(ids, budget, b).free == MakePlan(budget, b.status).left
  {
    AskAnyIs(ids, budget, b);
    if !Short(budget, b.status) {
      var st := Asked(ids, budget, b);
      var t := Serve(false, ids, st);
      AskedAmounts(ids, budget, b);
      ServeAmounts(false, ids, st);
      ServeAnyIs(false, ids, st, Total(Demands(b.status, false)));
      ServeAnyIs(true, ids, t, Total(Demands(b.status, true)));
      FreeLeft(ids, budget, b);
      if st.freeable > 0 && t.freeable == 0 { ServeNothing(true, ids, t); }
    }
  }

  // ---- senders outside the table -----------------------------------------------------

  /**
   * The second helping of a greedy phase hands out no more than it calls in,
   * exactly if what the greedy in the table still want, up to what is to be called
   * in, is offered by senders in the table.
   */
  lemma HelpingCovered(h: bool, ids: seq<int>, st: Stage, wanted: nat)
    requires Fits(ids, st.board)
    ensures var given := Spent(Demand(h), ids, st.board, st.free);
            var m := Min(st.freeable, Monus(wanted, given));
            var b1 := All(Demand(h), ids, st.board, st.free);
            var b2 := All(Free, ids, b1, m);
            var left := Sum(Amounts(Demand(h), ids, st.board.status)) - given;
            Spent(Demand(h), ids, b2, m) <= Spent(Free, ids, b1, m)
            <==> Min(m, left) <= Sum(Amounts(Free, ids, st.board.status))
  {
    var want := Amounts(Demand(h), ids, st.board.status);
    var given := Spent(Demand(h), ids, st.board, st.free);
    var m := Min(st.freeable, Monus(wanted, given));
    var b1 := All(Demand(h), ids, st.board, st.free);
    var b2 := All(Free, ids, b1, m);
    AfterOtherPass(Demand(h), ids, st.board, st.free, Free);
    PourTotal(Amounts(Free, ids, b1.status), m);
    AfterOwnPass(Demand(h), ids, st.board, st.free);
    SumLessTo(want, Shares(Demand(h), ids, st.board.status, st.free), |want|);
    AfterOtherPass(Free, ids, b1, m, Demand(h));
    PourTotal(Amounts(Demand(h), ids, b2.status), m);
  }

  const INSIDER := Report(0, Greedy, 0, 10, 10, 5, 0, 0)
  const OUTSIDER := Report(9, Ok, 0, 10, 10, 0, 5, 0)
  const START := Board([INSIDER, OUTSIDER], [NoCommand], [0])
  const SERVED := Board([INSIDER.(requested := 0), OUTSIDER], [IncPc], [5])

  /** Five watts for the one greedy sub-EARGM in the table. */
  lemma ServesInsider()
    ensures All(Demand(false), [0], START, 5) == SERVED
  {
    var s := START.status;
    assert RunPass(Demand(false), [0], START, 5, 0) == Progress(START, 5);
    var c := RunPass(Demand(false), [0], START, 5, 1);
    assert c == Progress(SERVED, 0);
    assert RunPass(Demand(false), [0], START, 5, 2) == c;
  }

  /**
   * What a sender outside the table offers is handed out and never called in:
   * under a budget of 20 that is all assigned, the other one is told to grow by 5.
   */
  lemma OutsideOfferBreaksBudget()
    ensures Sum(Caps(START.status)) == 20
    ensures RoundAny([0], 20, START).board.actions == [IncPc] && RoundAny([0], 20, START).board.values == [5]
  {
    var ids, s := [0], START.status;
    SumOfTwo(Caps(s));
    SumOfTwo(Asks(s));
    SumOfTwo(Freeables(s));
    SumOfTwo(Demands(s, false));
    SumOfTwo(Demands(s, true));
    EmptyPass(Ask, ids, START, 0, 2);
    assert AskAny(ids, 20, START) == Opening(false, Stage(START, 0, 5));
    IdlePass(Demand(false), ids, START);
    PourTotal(Amounts(Demand(false), ids, s), 0);
    EmptyPass(Free, ids, START, 5, 2);
    PourTotal(Amounts(Free, ids, s), 5);
    ServesInsider();
    assert ServeAny(false, ids, Stage(START, 0, 5), 5) == Stage(SERVED, 0, 5);
    IdlePass(Demand(true), ids, SERVED);
    IdlePass(Free, ids, SERVED);
    PourTotal(Amounts(Demand(true), ids, SERVED.status), 0);
    PourTotal(Amounts(Free, ids, SERVED.status), 0);
    assert ServeAny(true, ids, Stage(SERVED, 0, 5), 0).board == SERVED;
  }
}
