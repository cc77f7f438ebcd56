/**
 * The meta-EARGM process: the loops of `meta_eargm.c` over its report list and
 * command table, proved to carry out the passes of a round and so the plan.
 */
module MetaManager {
  import opened Sums
  import opened Waterfall
  import opened SubManager
  import opened MetaPlan
  import opened MetaPasses
  import opened MetaRound
  import opened MetaAnyRound

  /** The next report is as it was, and the pass never takes more than there is. */
  lemma AtReport(pass: Pass, ids: seq<int>, b: Board, budget: nat, k: nat)
    requires Fits(ids, b) && k < |b.status| && !pass.Ask?
    ensures RunPass(pass, ids, b, budget, k).board.status[k] == b.status[k]
    ensures budget - RunPass(pass, ids, b, budget, k + 1).left <= Sum(Amounts(pass, ids, b.status))
  {
    PassStatus(pass, ids, b, budget, k, k);
    LeftIs(pass, ids, b, budget, k + 1);
    TakeNext(Amounts(pass, ids, b.status), budget, k);
  }

  /** Amounts that count only reports in the table stay below the plain totals. */
  lemma ListedBelow(ids: seq<int>, s: seq<Report>)
    ensures Sum(Amounts(Free, ids, s)) <= Sum(Freeables(s))
    ensures forall h :: Sum(Amounts(Demand(h), ids, s)) <= Sum(Demands(s, h))
  {
    SumMonotone(Amounts(Free, ids, s), Freeables(s), |s|);
    forall h: bool
      ensures Sum(Amounts(Demand(h), ids, s)) <= Sum(Demands(s, h))
    {
      SumMonotone(Amounts(Demand(h), ids, s), Demands(s, h), |s|);
    }
  }

  /** The totals over the first reports, and how many of them ask or are greedy. */
  datatype Tally = Tally(power: nat, extra: nat, powercap: nat, freeable: nat, ask: nat, noExtra: nat, withExtra: nat,
                         numAsk: nat, numNoExtra: nat, numWithExtra: nat)

  function Powers(s: seq<Report>): (r: seq<nat>)
    ensures |r| == |s|
  {
    seq(|s|, i requires 0 <= i < |s| => s[i].power)
  }

  function Counted(t: Tally, r: Report): Tally
  {
    var bare, rich := r.status == Greedy && r.extra == 0, r.status == Greedy && r.extra != 0;
    Tally(t.power + r.power, t.extra + r.extra, t.powercap + r.powercap, t.freeable + r.freeable,
          t.ask + (if r.status == AskDef then r.requested else 0),
          t.noExtra + (if bare then r.requested else 0),
          t.withExtra + (if rich then r.requested else 0),
          t.numAsk + (if r.status == AskDef then 1 else 0),
          t.numNoExtra + (if bare then 1 else 0),
          t.numWithExtra + (if rich then 1 else 0))
  }

  function TallyTo(s: seq<Report>, k: nat): Tally
    requires k <= |s|
  {
    if k == 0 then Tally(0, 0, 0, 0, 0, 0, 0, 0, 0, 0) else Counted(TallyTo(s, k - 1), s[k - 1])
  }

  lemma {:induction false} TallySums(s: seq<Report>, k: nat)
    requires k <= |s|
    ensures var t := TallyTo(s, k);
            && t.power == SumTo(Powers(s), k) && t.extra == SumTo(Extras(s), k)
            && t.powercap == SumTo(Caps(s), k)
            && t.freeable == SumTo(Freeables(s), k)
            && t.ask == SumTo(Asks(s), k)
            && t.noExtra == SumTo(Demands(s, false), k)
            && t.withExtra == SumTo(Demands(s, true), k)
  {
    if k > 0 { TallySums(s, k - 1); }
  }

  lemma {:induction false} TallyCounts(s: seq<Report>, k: nat)
    requires k <= |s|
    ensures var t := TallyTo(s, k);
            && (t.numAsk == 0 <==> forall i :: 0 <= i < k ==> s[i].status != AskDef)
            && (t.numNoExtra == 0 <==> forall i :: 0 <= i < k ==> !(s[i].status == Greedy && s[i].extra == 0))
            && (t.numWithExtra == 0 <==> forall i :: 0 <= i < k ==> !(s[i].status == Greedy && s[i].extra > 0))
  {
    if k > 0 { TallyCounts(s, k - 1); }
  }

  /** So a count of zero lets a greedy phase be skipped. */
  lemma TallyEligible(s: seq<Report>)
    ensures var t := TallyTo(s, |s|);
            && (t.numAsk == 0 <==> forall i :: 0 <= i < |s| ==> s[i].status != AskDef)
            && (t.numNoExtra == 0 <==> forall i :: 0 <= i < |s| ==> !Eligible(s[i], false))
            && (t.numWithExtra == 0 <==> forall i :: 0 <= i < |s| ==> !Eligible(s[i], true))
  {
    TallyCounts(s, |s|);
  }

  /** The loop of `meta_aggregate_data`. */
  method TallyUp(s: seq<Report>) returns (t: Tally)
    ensures t == TallyTo(s, |s|)
  {
    var power: nat, extra: nat := 0, 0;
    var powercap: nat, freeable: nat, ask: nat, noExtra: nat, withExtra: nat := 0, 0, 0, 0, 0;
    var nAsk: nat, nNoExtra: nat, nWithExtra: nat := 0, 0, 0;
    for i := 0 to |s|
      invariant TallyTo(s, i)
                == Tally(power, extra, powercap, freeable, ask, noExtra, withExtra, nAsk, nNoExtra, nWithExtra)
    {
      power := power + s[i].power;
      extra := extra + s[i].extra;
      powercap := powercap + s[i].powercap;
      freeable := freeable + s[i].freeable;
      if s[i].status == AskDef {
        nAsk := nAsk + 1;
        ask := ask + s[i].requested;
      } else if s[i].status == Greedy {
        if s[i].extra == 0 {
          nNoExtra := nNoExtra + 1;
          noExtra := noExtra + s[i].requested;
        } else {
          nWithExtra := nWithExtra + 1;
          withExtra := withExtra + s[i].requested;
        }
      }
    }
    t := Tally(power, extra, powercap, freeable, ask, noExtra, withExtra, nAsk, nNoExtra, nWithExtra);
  }

  /** No freeable power in all means none in any report. */
  lemma NothingToFree(ids: seq<int>, b: Board, budget: nat)
    requires Fits(ids, b) && Sum(Freeables(b.status)) == 0
    ensures All(Free, ids, b, budget) == b
  {
    forall i | 0 <= i < |b.status|
      ensures b.status[i].freeable == 0
    {
      SumGrows(Freeables(b.status), i, |b.status|);
    }
    EmptyPass(Free, ids, b, budget, |b.status|);
  }

  /** A greedy phase nobody is eligible for changes nothing. */
  lemma ServeNobody(h: bool, ids: seq<int>, st: Stage)
    requires Fits(ids, st.board)
    requires forall i :: 0 <= i < |st.board.status| ==> !Eligible(st.board.status[i], h)
    ensures Sum(Demands(st.board.status, h)) == 0 && ServeAny(h, ids, st, 0) == st
  {
    SumConst(Demands(st.board.status, h), 0, |st.board.status|);
    EmptyPass(Demand(h), ids, st.board, st.free, |st.board.status|);
    PourTotal(Amounts(Demand(h), ids, st.board.status), st.free);
    IdlePass(Free, ids, st.board);
    IdlePass(Demand(h), ids, st.board);
    PourTotal(Amounts(Free, ids, st.board.status), 0);
  }

  /** A loop that stops at `i`, through or with nothing left, has made the whole pass. */
  lemma PassEnd(pass: Pass, ids: seq<int>, b: Board, budget: nat, i: nat)
    requires Fits(ids, b) && i <= |b.status| && !pass.Ask?
    requires i == |b.status| || RunPass(pass, ids, b, budget, i).left == 0
    ensures RunPass(pass, ids, b, budget, i).board == All(pass, ids, b, budget)
    ensures RunPass(pass, ids, b, budget, i).left == budget - Sum(Shares(pass, ids, b.status, budget))
  {
    if i < |b.status| { PassDry(pass, ids, b, budget, i, |b.status|); }
    LeftIs(pass, ids, b, budget, |b.status|);
  }

  class MetaEargm {
    const ids: seq<int>
    const defaultPowercap: nat

    var status: seq<Report>
    var actions: seq<Action>
    var values: seq<nat>
    var totalPower: nat
    var totalExtra: nat
    var totalReq: nat
    var totalReqNoExtra: nat
    var totalReqAskDef: nat
    var totalFreeable: nat
    var totalPowercap: nat
    var numAskDef: nat
    var numGreedy: nat
    var numGreedyNoExtra: nat
    var currentFree: nat

    ghost function State(): Board
      reads this
    {
      Board(status, actions, values)
    }

    ghost predicate Valid()
      reads this
    {
      Fits(ids, State()) && Distinct(ids)
    }

    constructor (ids: seq<int>, defaultPowercap: nat)
      requires Distinct(ids)
      ensures Valid() && this.ids == ids && this.defaultPowercap == defaultPowercap
    {
      this.ids, this.defaultPowercap := ids, defaultPowercap;
      status := [];
      actions := seq(|ids|, _ => NoCommand);
      values := seq(|ids|, _ => 0);
    }

    method GetEargmPosition(id: int) returns (p: int)
      ensures p == -1 <==> id !in ids
      ensures p != -1 ==> 0 <= p < |ids| && ids[p] == id && id !in ids[..p]
    {
      for i := 0 to |ids|
        invariant id !in ids[..i]
      {
        if ids[i] == id {
          return i;
        }
      }
      return -1;
    }

    /**
     * Settles report `i`: if its sender is in the table, the command and the
     * amount are entered there and the report is replaced.
     */
    method Enter(i: nat, act: Action, amount: nat, settled: Report) returns (found: bool)
      requires Valid() && i < |status|
      modifies this`status, this`actions, this`values
      ensures Valid()
      ensures found <==> old(status)[i].id in ids
      ensures var entered := Post(ids, old(State()), old(status)[i].id, act, amount);
              State() == if found then entered.(status := old(status)[i := settled]) else old(State())
    {
      var p := GetEargmPosition(status[i].id);
      found := p >= 0;
      if found {
        ghost var c := Post(ids, State(), status[i].id, act, amount);
        actions := actions[p := act];
        values := values[p := values[p] + amount];
        assert actions == c.actions && values == c.values;
        status := status[i := settled];
      }
    }

    ghost function Tallied(): Tally
      reads this
    {
      Tally(totalPower, totalExtra, totalPowercap, totalFreeable, totalReqAskDef, totalReqNoExtra, totalReq,
            numAskDef, numGreedyNoExtra, numGreedy)
    }

    method SetTotals(t: Tally)
      modifies this`totalPower, this`totalExtra, this`totalReq, this`totalReqNoExtra, this`totalReqAskDef,
               this`totalFreeable
      modifies this`totalPowercap, this`numAskDef, this`numGreedy, this`numGreedyNoExtra
      ensures Tallied() == t
    {
      totalPower, totalExtra := t.power, t.extra;
      totalPowercap, totalFreeable, totalReqAskDef := t.powercap, t.freeable, t.ask;
      totalReqNoExtra, totalReq := t.noExtra, t.withExtra;
      numAskDef, numGreedyNoExtra, numGreedy := t.numAsk, t.numNoExtra, t.numWithExtra;
    }

    /** Totals over all reports, and the power of the budget that nobody holds. */
    method Aggregate()
      modifies this`totalPower, this`totalExtra, this`totalReq, this`totalReqNoExtra, this`totalReqAskDef,
               this`totalFreeable
      modifies this`totalPowercap, this`numAskDef, this`numGreedy, this`numGreedyNoExtra, this`currentFree
      ensures Tallied() == TallyTo(status, |status|)
      ensures currentFree == FreePower(defaultPowercap, status)
    {
      var t := TallyUp(status);
      SetTotals(t);
      assert t.powercap == Sum(Caps(status)) by { TallySums(status, |status|); }
      if defaultPowercap < totalPowercap {
        currentFree := 0;
      } else {
        currentFree := defaultPowercap - totalPowercap;
      }
    }

    /** Promises every sub-EARGM below its default what it asked for. */
    method AssignAskDef()
      requires Valid()
      modifies this`status, this`actions, this`values
      ensures Valid()
      ensures State() == All(Ask, ids, old(State()), Total(Amounts(Ask, ids, old(status))))
    {
      ghost var b0, budget := State(), Total(Amounts(Ask, ids, status));
      for i := 0 to |status|
        invariant Valid() && |status| == |b0.status|
        invariant State() == RunPass(Ask, ids, b0, budget, i).board
      {
        PassStatus(Ask, ids, b0, budget, i, i);
        if status[i].status == AskDef {
          var _ := Enter(i, IncPc, status[i].requested, status[i]);
        }
      }
    }

    /** Takes `pending0` watts from the freeable power of the reports, in order. */
    method ReduceFreeable(pending0: nat) returns (pending: nat)
      requires Valid()
      requires Sum(Freeables(status)) <= totalFreeable
      modifies this`status, this`actions, this`values, this`totalFreeable
      ensures Valid()
      ensures State() == All(Free, ids, old(State()), pending0)
      ensures var taken := Spent(Free, ids, old(State()), pending0);
              pending == pending0 - taken && totalFreeable == old(totalFreeable) - taken
    {
      pending := pending0;
      var freeable: nat := totalFreeable;
      var i := 0;
      ghost var b0 := State();
      ListedBelow(ids, status);
      while pending > 0 && i < |status|
        invariant Fits(ids, State()) && 0 <= i <= |status| == |b0.status|
        invariant RunPass(Free, ids, b0, pending0, i) == Progress(State(), pending)
        invariant totalFreeable == old(totalFreeable) && freeable == totalFreeable - (pending0 - pending)
      {
        AtReport(Free, ids, b0, pending0, i);
        var rep := status[i];
        if rep.freeable > 0 {
          var tmp := Min(pending, rep.freeable);
          var found := Enter(i, RedPc, tmp, rep.(freeable := rep.freeable - tmp));
          if found {
            freeable := freeable - tmp;
            pending := pending - tmp;
          }
        }
        i := i + 1;
      }
      PassEnd(Free, ids, b0, pending0, i);
      totalFreeable := freeable;
    }

    /** Takes `pending0` watts from the extra power of the reports, in order. */
    method ReduceExtra(pending0: nat) returns (pending: nat)
      requires Valid()
      modifies this`status, this`actions, this`values
      ensures Valid()
      ensures State() == All(Extra, ids, old(State()), pending0)
      ensures pending == pending0 - Sum(Shares(Extra, ids, old(status), pending0))
    {
      pending := pending0;
      var i := 0;
      ghost var b0 := State();
      while pending > 0 && i < |status|
        invariant Fits(ids, State()) && 0 <= i <= |status| == |b0.status|
        invariant RunPass(Extra, ids, b0, pending0, i) == Progress(State(), pending)
      {
        AtReport(Extra, ids, b0, pending0, i);
        var rep := status[i];
        if rep.extra > 0 {
          var tmp := Min(pending, rep.extra);
          var found := Enter(i, RedPc, tmp, rep.(extra := rep.extra - tmp));
          if found {
            pending := pending - tmp;
          }
        }
        i := i + 1;
      }
      PassEnd(Extra, ids, b0, pending0, i);
    }

    /** The step of the loop below at report `i`, with `free` watts left. */
    method ServeOne(i: nat, free: nat, hasExtra: bool, ghost b0: Board, ghost free0: nat) returns (given: nat)
      requires Valid() && Fits(ids, b0) && i < |status| == |b0.status| && free > 0 && status[i] == b0.status[i]
      requires RunPass(Demand(hasExtra), ids, b0, free0, i) == Progress(State(), free)
      modifies this`status, this`actions, this`values
      ensures Valid() && |status| == |b0.status| && given <= free
      ensures RunPass(Demand(hasExtra), ids, b0, free0, i + 1) == Progress(State(), free - given)
    {
      given := 0;
      var rep := status[i];
      if rep.status == Greedy && (rep.extra > 0 <==> hasExtra) {
        var tmp := Min(free, rep.requested);
        var found := Enter(i, IncPc, tmp, rep.(requested := rep.requested - tmp));
        if found { given := tmp; }
      }
    }

    /** Hands `free0` watts to the greedy with (or without) extra power, in order. */
    method AssignExtra(free0: nat, pending0: nat, hasExtra: bool) returns (free: nat, pending: nat)
      requires Valid()
      requires Sum(Demands(status, hasExtra)) <= pending0
      modifies this`status, this`actions, this`values
      ensures Valid()
      ensures State() == All(Demand(hasExtra), ids, old(State()), free0)
      ensures var given := Spent(Demand(hasExtra), ids, old(State()), free0);
              free == free0 - given && pending == pending0 - given
    {
      free, pending := free0, pending0;
      var i := 0;
      ghost var b0 := State();
      assert Sum(Amounts(Demand(hasExtra), ids, b0.status)) <= pending0 by { ListedBelow(ids, status); }
      while i < |status| && free > 0
        invariant Fits(ids, State()) && 0 <= i <= |status| == |b0.status|
        invariant RunPass(Demand(hasExtra), ids, b0, free0, i) == Progress(State(), free)
        invariant pending == pending0 - (free0 - free)
      {
        AtReport(Demand(hasExtra), ids, b0, free0, i);
        var given := ServeOne(i, free, hasExtra, b0, free0);
        free, pending := free - given, pending - given;
        i := i + 1;
      }
      PassEnd(Demand(hasExtra), ids, b0, free0, i);
    }

    ghost function At(): Stage
      reads this
    {
      Stage(State(), currentFree, totalFreeable)
    }

    /** The second helping of a greedy phase: call in what is missing and hand it out. */
    method ServeFromFreeable(pending0: nat, hasExtra: bool) returns (pending: nat)
      requires Valid()
      requires totalFreeable == Sum(Freeables(status)) && pending0 == Sum(Demands(status, hasExtra))
      modifies this`status, this`actions, this`values, this`totalFreeable
      ensures Valid()
      ensures At() == Helping(hasExtra, ids, old(State()), currentFree, old(totalFreeable), pending0)
    {
      pending := pending0;
      ghost var b1 := State();
      SpentBounded(Free, ids, b1, Min(totalFreeable, pending));
      if pending > 0 && totalFreeable > 0 {
        var m := Min(totalFreeable, pending);
        AfterAny(Free, ids, b1, m);
        var _ := ReduceFreeable(m);
        var _, after := AssignExtra(m, pending, hasExtra);
        pending := after;
      } else {
        IdlePass(Free, ids, b1);
        IdlePass(Demand(hasExtra), ids, b1);
        PourTotal(Amounts(Free, ids, b1.status), 0);
        SumNat(Amounts(Free, ids, b1.status), |b1.status|);
      }
    }

    /** The first helping of a greedy phase: hand out free power, if there is any. */
    method ServeFromFree(pending0: nat, hasExtra: bool) returns (pending: nat)
      requires Valid() && Tracks(ids, At()) && pending0 == Sum(Demands(status, hasExtra))
      modifies this`status, this`actions, this`values, this`currentFree
      ensures Valid() && Tracks(ids, At())
      ensures State() == All(Demand(hasExtra), ids, old(State()), old(currentFree))
      ensures var given := Spent(Demand(hasExtra), ids, old(State()), old(currentFree));
              currentFree == old(currentFree) - given && pending == pending0 - given == Sum(Demands(status, hasExtra))
    {
      pending := pending0;
      ghost var b0 := State();
      SpentBounded(Demand(hasExtra), ids, b0, currentFree);
      AfterAny(Demand(hasExtra), ids, b0, currentFree);
      if currentFree > 0 {
        currentFree, pending := AssignExtra(currentFree, pending, hasExtra);
      } else {
        IdlePass(Demand(hasExtra), ids, b0);
      }
    }

    /**
     * Serves the greedy with (or without) extra power: first from free power,
     * then from freeable power called in for the rest.
     */
    method ServeGreedy(pending0: nat, hasExtra: bool) returns (pending: nat)
      requires Valid() && Tracks(ids, At())
      requires pending0 == Sum(Demands(status, hasExtra))
      modifies this`status, this`actions, this`values, this`totalFreeable, this`currentFree
      ensures Valid()
      ensures At() == ServeAny(hasExtra, ids, old(At()), pending0)
    {
      pending := ServeFromFree(pending0, hasExtra);
      pending := ServeFromFreeable(pending, hasExtra);
    }

    /** Promises what is asked for, if anyone asks. */
    method PromiseAsked()
      requires Valid()
      requires numAskDef == 0 <==> forall i :: 0 <= i < |status| ==> status[i].status != AskDef
      modifies this`status, this`actions, this`values
      ensures Valid()
      ensures State() == All(Ask, ids, old(State()), Total(Amounts(Ask, ids, old(status))))
    {
      if numAskDef > 0 {
        AssignAskDef();
      } else {
        EmptyPass(Ask, ids, State(), Total(Amounts(Ask, ids, status)), |status|);
      }
    }

    /** Calls in freeable power, if there is any. */
    method CallInFreeable(pending0: nat) returns (pending: nat)
      requires Valid() && totalFreeable == Sum(Freeables(status))
      modifies this`status, this`actions, this`values, this`totalFreeable
      ensures Valid()
      ensures State() == All(Free, ids, old(State()), pending0)
      ensures var taken := Spent(Free, ids, old(State()), pending0);
              taken <= pending0 && pending == pending0 - taken && totalFreeable == Monus(old(totalFreeable), taken)
    {
      pending := pending0;
      SpentBounded(Free, ids, State(), pending0);
      if totalFreeable > 0 {
        pending := ReduceFreeable(pending);
      } else {
        NothingToFree(ids, State(), pending0);
      }
    }

    /** Pays for what is asked with freeable power and, if that does not do, with extra power. */
    method CallIn(missing: nat) returns (done: bool)
      requires Valid() && totalFreeable == Sum(Freeables(status))
      modifies this`status, this`actions, this`values, this`totalFreeable
      ensures Valid()
      ensures Opening(done, At()) == CallInAny(ids, old(State()), currentFree, old(totalFreeable), missing)
    {
      var pending := CallInFreeable(missing);
      done := pending > 0;
      if done {
        pending := ReduceExtra(pending);
      }
    }

    /**
     * The first phase: what is asked for is promised and paid for with free
     * power, freeable power and, if `done`, extra power.
     */
    method AskPhase() returns (done: bool)
      requires Valid()
      requires totalFreeable == Sum(Freeables(status)) && totalReqAskDef == Sum(Asks(status))
      requires numAskDef == 0 <==> forall i :: 0 <= i < |status| ==> status[i].status != AskDef
      requires currentFree == FreePower(defaultPowercap, status)
      modifies this`status, this`actions, this`values, this`totalFreeable, this`currentFree
      ensures Valid()
      ensures Opening(done, At()) == AskAny(ids, defaultPowercap, old(State()))
    {
      AfterAsk(ids, State(), Total(Amounts(Ask, ids, status)));
      PromiseAsked();
      if currentFree >= totalReqAskDef {
        currentFree := currentFree - totalReqAskDef;
        return false;
      }
      done := CallIn(totalReqAskDef - currentFree);
    }

    /** A greedy phase, entered only if its count says that someone is eligible. */
    method GreedyPhase(count: nat, pending0: nat, hasExtra: bool) returns (pending: nat)
      requires Valid() && Tracks(ids, At())
      requires count == 0 <==> forall i :: 0 <= i < |status| ==> !Eligible(status[i], hasExtra)
      requires pending0 == Sum(Demands(status, hasExtra))
      modifies this`status, this`actions, this`values, this`totalFreeable, this`currentFree
      ensures Valid()
      ensures At() == ServeAny(hasExtra, ids, old(At()), pending0)
    {
      pending := pending0;
      if count > 0 {
        pending := ServeGreedy(pending, hasExtra);
      } else {
        ServeNobody(hasExtra, ids, At());
      }
    }

    /** The two greedy phases; without freeable power left the second is skipped. */
    method GreedyPhases()
      requires Valid() && Tracks(ids, At())
      requires numGreedyNoExtra == 0 <==> forall i :: 0 <= i < |status| ==> !Eligible(status[i], false)
      requires numGreedy == 0 <==> forall i :: 0 <= i < |status| ==> !Eligible(status[i], true)
      requires totalReqNoExtra == Sum(Demands(status, false)) && totalReq == Sum(Demands(status, true))
      modifies this
      ensures Valid()
      ensures var t := ServeAny(false, ids, old(At()), old(totalReqNoExtra));
              At() == if old(totalFreeable) > 0 && t.freeable == 0 then t else ServeAny(true, ids, t, old(totalReq))
    {
      ServeAnyTracks(false, ids, At(), totalReqNoExtra);
      var freeable := totalFreeable;
      totalReqNoExtra := GreedyPhase(numGreedyNoExtra, totalReqNoExtra, false);
      if freeable > 0 && totalFreeable == 0 {
        return;
      }
      totalReq := GreedyPhase(numGreedy, totalReq, true);
    }

    /** `meta_reallocate_power` on any reports and from any table. */
    method Reallocate()
      requires Valid()
      modifies this
      ensures Valid()
      ensures var st := RoundAny(ids, defaultPowercap, old(State()));
              State() == st.board && currentFree == st.free
    {
      ghost var b0 := State();
      Aggregate();
      TallySums(status, |status|);
      TallyEligible(status);
      var done := AskPhase();
      if !done {
        AskAnyTracks(ids, defaultPowercap, b0);
        GreedyPhases();
      }
    }

    /** Takes in new reports and empties the command table. */
    method Clear(reports: seq<Report>)
      requires Valid()
      modifies this`status, this`actions, this`values
      ensures Valid() && Blank(State()) && State() == Board(reports, NoCommands(|ids|), Zeros(|ids|))
    {
      status := reports;
      for i := 0 to |ids|
        invariant Valid() && status == reports
        invariant forall p :: 0 <= p < i ==> actions[p] == NoCommand && values[p] == 0
      {
        actions := actions[i := NoCommand];
        values := values[i := 0];
      }
    }

    /**
     * One turn of the meta-EARGM thread: the table is cleared and filled from the
     * reports, if there are any. From known senders the table then holds, for
     * each reporter, its grant or cut of the plan.
     */
    method Round(reports: seq<Report>)
      requires Valid()
      modifies this
      ensures Valid()
      ensures reports == [] ==> State() == old(State())
      ensures var start := Board(reports, NoCommands(|ids|), Zeros(|ids|));
              reports != [] ==> State() == RoundAny(ids, defaultPowercap, start).board
      ensures reports != [] && DistinctReports(reports) && AllKnown(ids, reports) ==>
                && CarriesPlan(ids, defaultPowercap, reports, actions, values)
                && (!Short(defaultPowercap, reports) ==> currentFree == MakePlan(defaultPowercap, reports).left)
    {
      if reports == [] {
        return;
      }
      Clear(reports);
      if DistinctReports(reports) && AllKnown(ids, reports) {
        RoundCarriesPlan(ids, defaultPowercap, State());
        RoundAnyIs(ids, defaultPowercap, State());
      }
      Reallocate();
    }
  }

  function NoCommands(n: nat): seq<Action> { seq(n, _ => NoCommand) }

  function Zeros(n: nat): seq<nat> { seq(n, _ => 0) }
}
