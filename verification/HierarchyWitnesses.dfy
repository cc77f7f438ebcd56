/** Runs of the hierarchy that show what its theorems have to leave out. */
module HierarchyWitnesses {
  import opened Sums
  import opened SubManager
  import opened MetaPlan
  import opened MetaPasses
  import opened MetaRound
  import opened Hierarchy
  import opened CurrentReports

  /** All the sums the plan for two reports is made of. */
  lemma PairSums(s: seq<Report>)
    requires |s| == 2
    ensures Sum(Caps(s)) == Caps(s)[0] + Caps(s)[1] && Sum(Asks(s)) == Asks(s)[0] + Asks(s)[1]
    ensures SumTo(Freeables(s), 1) == Freeables(s)[0] && Sum(Freeables(s)) == Freeables(s)[0] + Freeables(s)[1]
    ensures forall h ::
              SumTo(Demands(s, h), 1) == Demands(s, h)[0] && Sum(Demands(s, h)) == Demands(s, h)[0] + Demands(s, h)[1]
  {
    SumOfTwo(Caps(s));
    SumOfTwo(Asks(s));
    SumOfTwo(Freeables(s));
    forall h
      ensures SumTo(Demands(s, h), 1) == Demands(s, h)[0] && Sum(Demands(s, h)) == Demands(s, h)[0] + Demands(s, h)[1]
    {
      SumOfTwo(Demands(s, h));
    }
  }

  /** A round on these reports sends these orders. */
  predicate Sends(budget: nat, s: seq<Report>, orders: seq<Order>)
  {
    |orders| == |s| && forall k :: 0 <= k < |s| ==> OrderFor(MakePlan(budget, s), k) == orders[k]
  }

  lemma SendsPlan(budget: nat, s: seq<Report>, grant: seq<nat>, cut: seq<nat>, orders: seq<Order>)
    requires MakePlan(budget, s).grant == grant && MakePlan(budget, s).cut == cut && |orders| == |s|
    requires forall k :: 0 <= k < |s| ==> orders[k] == Order(ActionFor(grant[k], cut[k]), grant[k] + cut[k])
    ensures Sends(budget, s, orders)
  {
  }

  // ---- an increase before its reduction ----------------------------------------------

  lemma GiverAndTaker(s: seq<Report>)
    requires s == [Report(0, Greedy, 0, 10, 10, 5, 0, 0), Report(1, Ok, 0, 10, 10, 0, 5, 0)]
    ensures var p := MakePlan(20, s);
            OrderFor(p, 0) == Order(IncPc, 5) && OrderFor(p, 1) == Order(RedPc, 5)
  {
    PairSums(s);
    var p := MakePlan(20, s);
    assert p.grant[0] == 5 && p.cut[0] == 0 && p.grant[1] == 0 && p.cut[1] == 5;
  }

  /** One more event at the end of a run. */
  lemma Extended(budget: nat, run: seq<State>, events: seq<Event>, e: Event, t: State)
    requires IsRun(budget, run, events) && Enabled(run[|events|], e) && t == Next(budget, run[|events|], e)
    ensures IsRun(budget, run + [t], events + [e])
  {
  }

  const TAKER := Report(0, Greedy, 0, 10, 10, 5, 0, 0)
  const GIVER := Report(1, Ok, 0, 10, 10, 0, 5, 0)
  const EQUALS := [Sub(0, 10, 10, 0), Sub(1, 10, 10, 0)]
  const QUIET := [NoOrder, NoOrder]

  const BOTH_REPORTED := State(EQUALS, [TAKER, GIVER], QUIET)
  const BOTH_ORDERED := State(EQUALS, [TAKER, GIVER], [Order(IncPc, 5), Order(RedPc, 5)])
  const INCREASED := State([Sub(0, 10, 15, 5), Sub(1, 10, 10, 0)], [TAKER, GIVER], [NoOrder, Order(RedPc, 5)])

  const ASKING := [Published(0, 0, 0, 5), Published(1, 0, 5, 0)]

  lemma BothReport() returns (run: seq<State>)
    ensures IsRun(20, run, ASKING) && run[2] == BOTH_REPORTED && Initial(20, run[0])
  {
    var s0 := State(EQUALS, [Unpublished(0), Unpublished(1)], QUIET);
    var s1 := State(EQUALS, [TAKER, Unpublished(1)], QUIET);
    SumOfTwo(DefaultCaps(s0));
    assert IsRun(20, [s0], []);
    Extended(20, [s0], [], ASKING[0], s1);
    Extended(20, [s0, s1], [ASKING[0]], ASKING[1], BOTH_REPORTED);
    run := [s0, s1, BOTH_REPORTED];
  }

  lemma BothOrdered()
    ensures Shaped(BOTH_REPORTED) && Enabled(BOTH_REPORTED, Round)
    ensures Next(20, BOTH_REPORTED, Round) == BOTH_ORDERED
  {
    GiverAndTaker(BOTH_REPORTED.reports);
    var t := Next(20, BOTH_REPORTED, Round);
    assert t.orders[0] == Order(IncPc, 5) && t.orders[1] == Order(RedPc, 5);
    assert t.orders == BOTH_ORDERED.orders;
  }

  lemma FirstDelivered()
    ensures Shaped(BOTH_ORDERED) && Enabled(BOTH_ORDERED, Delivered(0))
    ensures Next(20, BOTH_ORDERED, Delivered(0)) == INCREASED
    ensures Shaped(INCREASED) && Sum(CurrentCaps(INCREASED)) == 25 && Sum(SettledCaps(INCREASED)) == 20
  {
    SumOfTwo(CurrentCaps(INCREASED));
    SumOfTwo(SettledCaps(INCREASED));
  }

  /**
   * Commands go out in the order of the table. From the defaults, under a budget
   * of 20, an increase sent before the reduction of a later entry takes the caps
   * in force to 25, although everyone is heading for 20.
   */
  lemma IncreaseFirstOvershoots() returns (run: seq<State>)
    ensures IsRun(20, run, ASKING + [Round, Delivered(0)]) && Initial(20, run[0])
    ensures Sum(CurrentCaps(run[4])) == 25 && Sum(SettledCaps(run[4])) == 20
  {
    run := BothReport();
    BothOrdered();
    FirstDelivered();
    Extended(20, run, ASKING, Round, BOTH_ORDERED);
    Extended(20, run + [BOTH_ORDERED], ASKING + [Round], Delivered(0), INCREASED);
    assert ASKING + [Round] + [Delivered(0)] == ASKING + [Round, Delivered(0)];
    run := run + [BOTH_ORDERED] + [INCREASED];
  }

  // ---- a report that is never renewed ------------------------------------------------

  const EAGER := Report(0, Greedy, 0, 10, 10, 10, 0, 0)
  const STILL_EAGER := Report(0, Greedy, 0, 20, 10, 10, 0, 10)
  const ALL_FREE := Report(1, Ok, 0, 10, 10, 0, 10, 0)
  const MOVE_TEN := [Order(IncPc, 10), Order(RedPc, 10)]

  lemma FirstTen(s: seq<Report>)
    requires s == [EAGER, ALL_FREE]
    ensures MakePlan(20, s).grant == [10, 0] && MakePlan(20, s).cut == [0, 10]
  {
    PairSums(s);
    var p := MakePlan(20, s);
    assert p.grant[0] == 10 && p.cut[0] == 0 && p.grant[1] == 0 && p.cut[1] == 10;
  }

  lemma SecondTen(s: seq<Report>)
    requires s == [STILL_EAGER, ALL_FREE]
    ensures MakePlan(20, s).grant == [10, 0] && MakePlan(20, s).cut == [0, 10]
    ensures !Leaks(20, s)
  {
    PairSums(s);
    var p := MakePlan(20, s);
    assert p.grant[0] == 10 && p.cut[0] == 0 && p.grant[1] == 0 && p.cut[1] == 10;
    assert !OvercutAt(20, s, 0) && !OvercutAt(20, s, 1);
  }

  /** Both before and after the first round, ten watts are to move from the second to the first. */
  lemma MovesTen(s: seq<Report>)
    requires s == [EAGER, ALL_FREE] || s == [STILL_EAGER, ALL_FREE]
    ensures Sends(20, s, MOVE_TEN)
  {
    if s == [EAGER, ALL_FREE] { FirstTen(s); } else { SecondTen(s); }
    SendsPlan(20, s, [10, 0], [0, 10], MOVE_TEN);
  }

  /** Two deliveries of these orders. */
  lemma TenDelivered(reports: seq<Report>, a: Sub, b: Sub) returns (run: seq<State>)
    requires |reports| == 2
    ensures IsRun(20, run, [Delivered(0), Delivered(1)]) && run[0] == State([a, b], reports, MOVE_TEN)
    ensures run[2] == State([Carry(a, MOVE_TEN[0]), Carry(b, MOVE_TEN[1])], reports, QUIET)
  {
    var s0 := State([a, b], reports, MOVE_TEN);
    var s1 := State([Carry(a, MOVE_TEN[0]), b], reports, [NoOrder, MOVE_TEN[1]]);
    var s2 := State([Carry(a, MOVE_TEN[0]), Carry(b, MOVE_TEN[1])], reports, QUIET);
    assert IsRun(20, [s0], []);
    Extended(20, [s0], [], Delivered(0), s1);
    Extended(20, [s0, s1], [Delivered(0)], Delivered(1), s2);
    run := [s0, s1, s2];
  }

  /** A round on these reports and the deliveries after it. */
  lemma TenMoved(reports: seq<Report>, a: Sub, b: Sub) returns (run: seq<State>)
    requires reports == [EAGER, ALL_FREE] || reports == [STILL_EAGER, ALL_FREE]
    ensures IsRun(20, run, [Round, Delivered(0), Delivered(1)]) && run[0] == State([a, b], reports, QUIET)
    ensures run[3] == State([Carry(a, MOVE_TEN[0]), Carry(b, MOVE_TEN[1])], reports, QUIET)
  {
    var s0 := State([a, b], reports, QUIET);
    MovesTen(reports);
    var more := TenDelivered(reports, a, b);
    assert IsRun(20, [s0], []);
    assert Next(20, s0, Round).orders == MOVE_TEN;
    Extended(20, [s0], [], Round, more[0]);
    Joined(20, [s0, more[0]], [Round], more, [Delivered(0), Delivered(1)]);
    run := [s0, more[0]] + more[1..];
    assert [Round] + [Delivered(0), Delivered(1)] == [Round, Delivered(0), Delivered(1)];
  }

  const EAGER_START := [Published(0, 0, 0, 10), Published(1, 0, 10, 0)]
  const MOVING := [Round, Delivered(0), Delivered(1)]

  lemma EagerReports() returns (run: seq<State>)
    ensures IsRun(20, run, EAGER_START) && run[2] == State(EQUALS, [EAGER, ALL_FREE], QUIET) && Initial(20, run[0])
  {
    var s0 := State(EQUALS, [Unpublished(0), Unpublished(1)], QUIET);
    var s1 := State(EQUALS, [EAGER, Unpublished(1)], QUIET);
    var s2 := State(EQUALS, [EAGER, ALL_FREE], QUIET);
    SumOfTwo(DefaultCaps(s0));
    assert IsRun(20, [s0], []);
    Extended(20, [s0], [], EAGER_START[0], s1);
    Extended(20, [s0, s1], [EAGER_START[0]], EAGER_START[1], s2);
    run := [s0, s1, s2];
  }

  /**
   * A sub-EARGM that has given up its whole cap publishes no more, and its last
   * offer is taken at every round. From the defaults, under a budget of 20, the
   * second round grants ten watts that nobody has to give, and 30 are in force.
   */
  lemma StaleReportBreaksBudget() returns (run: seq<State>, events: seq<Event>)
    ensures IsRun(20, run, events) && Initial(20, run[0]) && |events| == 9
    ensures events[6].Round? && |run[6].subs| == 2 && run[6].subs[1].cap == 0 && !Leaks(20, run[6].reports)
    ensures Sum(CurrentCaps(run[9])) == 30 && run[9].orders == QUIET
  {
    var a := EagerReports();
    var b := TenMoved([EAGER, ALL_FREE], EQUALS[0], EQUALS[1]);
    var again := State([Sub(0, 10, 20, 10), Sub(1, 10, 0, 0)], [STILL_EAGER, ALL_FREE], QUIET);
    var c := TenMoved([STILL_EAGER, ALL_FREE], again.subs[0], again.subs[1]);
    Joined(20, a, EAGER_START, b, MOVING);
    var ab := a + b[1..];
    Extended(20, ab, EAGER_START + MOVING, Published(0, 0, 0, 10), again);
    Joined(20, ab + [again], EAGER_START + MOVING + [Published(0, 0, 0, 10)], c, MOVING);
    run := ab + [again] + c[1..];
    events := EAGER_START + MOVING + [Published(0, 0, 0, 10)] + MOVING;
    SecondTen(again.reports);
    SumOfTwo(CurrentCaps(run[9]));
  }

  // ---- an offer below the default ----------------------------------------------------

  const GREEDY_ONES :=
    [Report(0, Greedy, 0, 5, 5, 15, 0, 0), Report(1, Greedy, 0, 10, 10, 30, 0, 0), Report(2, Ok, 0, 41, 41, 0, 40, 0)]

  const OFFERING :=
    [Report(0, Ok, 0, 20, 5, 0, 18, 15), Report(1, Ok, 0, 40, 10, 0, 0, 30), Report(2, AskDef, 0, 1, 41, 40, 0, 0)]

  lemma GreedySums()
    ensures var s := GREEDY_ONES;
            && Sum(Caps(s)) == 56 && Sum(Asks(s)) == 0
            && SumTo(Freeables(s), 1) == SumTo(Freeables(s), 2) == 0 && Sum(Freeables(s)) == 40
            && SumTo(Demands(s, false), 1) == 15 && SumTo(Demands(s, false), 2) == 45 == Sum(Demands(s, false))
            && SumTo(Demands(s, true), 1) == SumTo(Demands(s, true), 2) == Sum(Demands(s, true)) == 0
  {
    SumOfThree(Caps(GREEDY_ONES));
    SumOfThree(Asks(GREEDY_ONES));
    SumOfThree(Freeables(GREEDY_ONES));
    SumOfThree(Demands(GREEDY_ONES, false));
    SumOfThree(Demands(GREEDY_ONES, true));
  }

  lemma FirstPlan()
    ensures MakePlan(61, GREEDY_ONES).grant == [15, 30, 0] && MakePlan(61, GREEDY_ONES).cut == [0, 0, 40]
  {
    var s := GREEDY_ONES;
    GreedySums();
    var p := MakePlan(61, s);
    assert p.grant[0] == 15 && p.grant[1] == 30 && p.grant[2] == 0;
    assert p.cut[0] == 0 && p.cut[1] == 0 && p.cut[2] == 40;
  }

  lemma SecondPlan()
    ensures MakePlan(61, OFFERING).grant == [0, 0, 40] && MakePlan(61, OFFERING).cut == [33, 7, 0]
    ensures Overcuts(61, OFFERING)
  {
    var s := OFFERING;
    SumOfThree(Caps(s));
    SumOfThree(Asks(s));
    SumOfThree(Freeables(s));
    SumOfThree(Extras(s));
    var p := MakePlan(61, s);
    assert p.grant[0] == 0 && p.grant[1] == 0 && p.grant[2] == 40;
    assert p.cut[0] == 33 && p.cut[1] == 7 && p.cut[2] == 0;
    assert OvercutAt(61, s, 0);
  }

  const STILL := [NoOrder, NoOrder, NoOrder]
  const BLANKS := [Unpublished(0), Unpublished(1), Unpublished(2)]
  const SMALL := [Sub(0, 5, 5, 0), Sub(1, 10, 10, 0), Sub(2, 41, 41, 0)]
  const MOVED := [Sub(0, 5, 20, 15), Sub(1, 10, 40, 30), Sub(2, 41, 1, 0)]
  const FIRST_ORDERS := [Order(IncPc, 15), Order(IncPc, 30), Order(RedPc, 40)]
  const SECOND_ORDERS := [Order(RedPc, 33), Order(RedPc, 7), Order(IncPc, 40)]

  /** Everyone publishes what its event says. */
  predicate Publishes(subs: seq<Sub>, after: seq<Report>, e: seq<Event>)
  {
    && |subs| == |after| == |e|
    && forall k :: 0 <= k < |subs| ==>
         && e[k].Published? && e[k].k == k && 0 < subs[k].cap && e[k].freeable <= subs[k].cap
         && after[k] == Publish(subs[k], e[k].power, e[k].freeable, e[k].requested)
  }

  /** Everyone moves by its order. */
  predicate Carries(subs: seq<Sub>, orders: seq<Order>, moved: seq<Sub>)
  {
    && |subs| == |orders| == |moved|
    && forall k :: 0 <= k < |subs| ==> moved[k] == Carry(subs[k], orders[k])
  }

  /** Three publications, one after the other. */
  lemma AllPublish(budget: nat, subs: seq<Sub>, before: seq<Report>, after: seq<Report>, e: seq<Event>)
    returns (run: seq<State>)
    requires |subs| == |before| == |after| == |e| == 3
    requires Publishes(subs, after, e)
    ensures IsRun(budget, run, e) && run[0] == State(subs, before, STILL) && run[3] == State(subs, after, STILL)
  {
    var s0 := State(subs, before, STILL);
    var s1 := State(subs, [after[0], before[1], before[2]], STILL);
    var s2 := State(subs, [after[0], after[1], before[2]], STILL);
    var s3 := State(subs, after, STILL);
    assert IsRun(budget, [s0], []);
    Extended(budget, [s0], [], e[0], s1);
    Extended(budget, [s0, s1], [e[0]], e[1], s2);
    Extended(budget, [s0, s1, s2], [e[0], e[1]], e[2], s3);
    run := [s0, s1, s2, s3];
    assert e == [e[0], e[1]] + [e[2]];
  }

  const DELIVERIES := [Delivered(0), Delivered(1), Delivered(2)]

  /** Three deliveries, one after the other. */
  lemma AllDeliver(budget: nat, subs: seq<Sub>, reports: seq<Report>, orders: seq<Order>, moved: seq<Sub>)
    returns (run: seq<State>)
    requires |subs| == |reports| == |orders| == |moved| == 3
    requires Carries(subs, orders, moved)
    ensures IsRun(budget, run, DELIVERIES) && run[0] == State(subs, reports, orders)
    ensures run[3] == State(moved, reports, STILL)
  {
    var s0 := State(subs, reports, orders);
    var s1 := State([moved[0], subs[1], subs[2]], reports, [NoOrder, orders[1], orders[2]]);
    var s2 := State([moved[0], moved[1], subs[2]], reports, [NoOrder, NoOrder, orders[2]]);
    var s3 := State(moved, reports, STILL);
    assert IsRun(budget, [s0], []);
    Extended(budget, [s0], [], Delivered(0), s1);
    Extended(budget, [s0, s1], [Delivered(0)], Delivered(1), s2);
    Extended(budget, [s0, s1, s2], [Delivered(0), Delivered(1)], Delivered(2), s3);
    run := [s0, s1, s2, s3];
  }

  /** Two runs, the second from where the first ends. */
  lemma Joined(budget: nat, a: seq<State>, d: seq<Event>, b: seq<State>, e: seq<Event>)
    requires IsRun(budget, a, d) && IsRun(budget, b, e) && a[|d|] == b[0]
    ensures IsRun(budget, a + b[1..], d + e)
    ensures (a + b[1..])[0] == a[0] && (a + b[1..])[|d| + |e|] == b[|e|]
  {
    var run := a + b[1..];
    forall i | 0 <= i < |d| + |e|
      ensures Enabled(run[i], (d + e)[i]) && run[i + 1] == Next(budget, run[i], (d + e)[i])
    {
      if i >= |d| { assert run[i] == b[i - |d|] && run[i + 1] == b[i - |d| + 1]; }
    }
  }

  /** One full turn: everyone publishes, a round is held, and all commands are delivered. */
  lemma Turn(budget: nat, subs: seq<Sub>, before: seq<Report>, after: seq<Report>, e: seq<Event>,
             orders: seq<Order>, moved: seq<Sub>)
    returns (run: seq<State>)
    requires |subs| == |before| == |after| == |e| == |orders| == |moved| == 3
    requires Publishes(subs, after, e)
    requires Sends(budget, after, orders)
    requires Carries(subs, orders, moved)
    ensures IsRun(budget, run, e + [Round] + DELIVERIES)
    ensures run[0] == State(subs, before, STILL) && run[7] == State(moved, after, STILL)
    ensures Current(run[3]) && run[3].reports == after
  {
    var a := AllPublish(budget, subs, before, after, e);
    var b := AllDeliver(budget, subs, after, orders, moved);
    assert Next(budget, a[3], Round).orders == orders;
    Extended(budget, a, e, Round, b[0]);
    Joined(budget, a + [b[0]], e + [Round], b, DELIVERIES);
    run := a + [b[0]] + b[1..];
  }

  const FIRST_REPORTS := [Published(0, 0, 0, 15), Published(1, 0, 0, 30), Published(2, 0, 40, 0)]
  const SECOND_REPORTS := [Published(0, 0, 18, 0), Published(1, 0, 0, 0), Published(2, 0, 0, 40)]

  lemma FirstMoves()
    ensures Publishes(SMALL, GREEDY_ONES, FIRST_REPORTS) && Carries(SMALL, FIRST_ORDERS, MOVED)
  {
  }

  lemma FirstTurn() returns (run: seq<State>)
    ensures IsRun(61, run, FIRST_REPORTS + [Round] + DELIVERIES)
    ensures run[0] == State(SMALL, BLANKS, STILL) && run[7] == State(MOVED, GREEDY_ONES, STILL) && Current(run[3])
  {
    FirstPlan();
    SendsPlan(61, GREEDY_ONES, [15, 30, 0], [0, 0, 40], FIRST_ORDERS);
    FirstMoves();
    run := Turn(61, SMALL, BLANKS, GREEDY_ONES, FIRST_REPORTS, FIRST_ORDERS, MOVED);
  }

  const REFUSED := [Sub(0, 5, 20, 15), Sub(1, 10, 33, 23), Sub(2, 41, 41, 0)]

  lemma SecondMoves()
    ensures Publishes(MOVED, OFFERING, SECOND_REPORTS) && Carries(MOVED, SECOND_ORDERS, REFUSED)
  {
  }

  lemma SecondTurn() returns (run: seq<State>)
    ensures IsRun(61, run, SECOND_REPORTS + [Round] + DELIVERIES)
    ensures run[0] == State(MOVED, GREEDY_ONES, STILL) && run[7] == State(REFUSED, OFFERING, STILL)
    ensures Current(run[3]) && run[3].reports == OFFERING
  {
    SecondPlan();
    SendsPlan(61, OFFERING, [0, 0, 40], [33, 7, 0], SECOND_ORDERS);
    SecondMoves();
    run := Turn(61, MOVED, GREEDY_ONES, OFFERING, SECOND_REPORTS, SECOND_ORDERS, REFUSED);
  }

  /**
   * Two turns from the defaults, under a budget of 61. In the second a sub-EARGM
   * at 20 offers 18 and holds 15 as extra power; it is told to give up 33 and
   * refuses, and with what others are granted 94 are in force.
   */
  lemma OverOfferBreaksBudget() returns (run: seq<State>, events: seq<Event>)
    ensures IsRun(61, run, events) && Initial(61, run[0]) && |events| == 14
    ensures events[3].Round? && Current(run[3]) && events[10].Round? && Current(run[10])
            && Overcuts(61, run[10].reports)
    ensures Sum(CurrentCaps(run[14])) == 94 && run[14].orders == STILL
  {
    var a := FirstTurn();
    var b := SecondTurn();
    events := FIRST_REPORTS + [Round] + DELIVERIES + (SECOND_REPORTS + [Round] + DELIVERIES);
    Joined(61, a, FIRST_REPORTS + [Round] + DELIVERIES, b, SECOND_REPORTS + [Round] + DELIVERIES);
    run := a + b[1..];
    assert run[10] == b[3];
    SumOfThree(DefaultCaps(run[0]));
    SumOfThree(CurrentCaps(run[14]));
    SecondPlan();
  }
}
