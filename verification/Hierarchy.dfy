/**
 * The meta-EARGM and its sub-EARGMs as one system: reports are published,
 * rounds turn the last reports into commands, and commands are delivered one by
 * one. The sum of the caps the sub-EARGMs are heading for is accounted for over
 * every run, whether the reports are current or not.
 */
module Hierarchy {
  import opened Sums
  import opened SubManager
  import opened MetaPlan
  import opened MetaPasses
  import opened MetaRound

  /** An entry of the command table on its way to the sub-EARGM. */
  datatype Order = Order(action: Action, value: nat)

  const NoOrder := Order(NoCommand, 0)

  function Carry(s: Sub, o: Order): Sub
  {
    match o.action
    case NoCommand => s
    case IncPc => Apply(s, Inc(o.value))
    case RedPc => Apply(s, Red(o.value))
  }

  /** The order for position `k` of the table, as `MetaManager.Round` fills it. */
  function OrderFor(p: Plan, k: nat): Order
    requires k < |p.grant| && k < |p.cut|
  {
    Order(ActionFor(p.grant[k], p.cut[k]), p.grant[k] + p.cut[k])
  }

  /** `reports[k]` is the last one sub-EARGM `k` has published. */
  datatype State = State(subs: seq<Sub>, reports: seq<Report>, orders: seq<Order>)

  datatype Event = Published(k: nat, power: nat, freeable: nat, requested: nat) | Round | Delivered(k: nat)

  predicate Shaped(st: State) { |st.reports| == |st.orders| == |st.subs| }

  /**
   * What can happen next. A sub-EARGM without a cap publishes nothing, and none
   * offers more than its cap; a round waits for all commands to be delivered. It
   * uses the last report of everyone, however old.
   */
  predicate Enabled(st: State, e: Event)
    requires Shaped(st)
  {
    match e
    case Published(k, _, freeable, _) => k < |st.subs| && 0 < st.subs[k].cap && freeable <= st.subs[k].cap
    case Round => forall k :: 0 <= k < |st.subs| ==> st.orders[k] == NoOrder
    case Delivered(k) => k < |st.subs|
  }

  function Next(budget: nat, st: State, e: Event): (t: State)
    requires Shaped(st) && Enabled(st, e)
    ensures Shaped(t) && |t.subs| == |st.subs|
  {
    match e
    case Published(k, power, freeable, requested) =>
      st.(reports := st.reports[k := Publish(st.subs[k], power, freeable, requested)])
    case Round =>
      var p := MakePlan(budget, st.reports);
      st.(orders := seq(|st.subs|, k requires 0 <= k < |st.subs| => OrderFor(p, k)))
    case Delivered(k) =>
      st.(subs := st.subs[k := Carry(st.subs[k], st.orders[k])], orders := st.orders[k := NoOrder])
  }

  /** The cap sub-EARGM `k` is heading for: once its order is carried out, or refused. */
  function Settled(st: State, k: nat): nat
    requires Shaped(st) && k < |st.subs|
  {
    Carry(st.subs[k], st.orders[k]).cap
  }

  function SettledCaps(st: State): (r: seq<nat>)
    requires Shaped(st)
    ensures |r| == |st.subs|
  {
    seq(|st.subs|, k requires 0 <= k < |st.subs| => Settled(st, k))
  }

  function CurrentCaps(st: State): (r: seq<nat>)
    ensures |r| == |st.subs|
  {
    seq(|st.subs|, k requires 0 <= k < |st.subs| => st.subs[k].cap)
  }

  function DefaultCaps(st: State): (r: seq<nat>)
    ensures |r| == |st.subs|
  {
    seq(|st.subs|, k requires 0 <= k < |st.subs| => st.subs[k].def)
  }

  /** A report of sub-EARGM `s`, of now or of before; the very first one is blank. */
  predicate Dated(r: Report, s: Sub)
  {
    Honest(r) && r.id == s.id && r.defPower <= s.def && r.freeable <= r.powercap
  }

  /** Sub-EARGM `k` in a run: its records agree, and no order under way makes its cap wrap. */
  predicate Orderly(st: State, k: nat)
    requires Shaped(st) && k < |st.subs|
  {
    && Sound(st.subs[k])
    && Dated(st.reports[k], st.subs[k])
    && (st.orders[k].action == NoCommand ==> st.orders[k] == NoOrder)
    && (st.orders[k].action == IncPc ==> st.subs[k].cap + st.orders[k].value < WORD)
  }

  predicate Inv(budget: nat, st: State)
  {
    && Shaped(st)
    && (forall k :: 0 <= k < |st.subs| ==> Orderly(st, k))
    && Sum(DefaultCaps(st)) <= budget
  }

  /** What the status of a sub-EARGM holds before it publishes. */
  function Unpublished(id: int): Report { Report(id, Ok, 0, 0, 0, 0, 0, 0) }

  /** Everyone starts at its default, with nothing published and nothing under way. */
  predicate Initial(budget: nat, st: State)
  {
    && Shaped(st)
    && Sum(DefaultCaps(st)) <= budget
    && (forall k :: 0 <= k < |st.subs| ==>
          && st.subs[k].cap == st.subs[k].def && st.subs[k].extra == 0
          && st.reports[k] == Unpublished(st.subs[k].id) && st.orders[k] == NoOrder)
  }

  lemma InitialInv(budget: nat, st: State)
    requires Initial(budget, st)
    ensures Inv(budget, st)
    ensures Sum(SettledCaps(st)) == Sum(CurrentCaps(st)) <= budget
  {
    SumSame(SettledCaps(st), DefaultCaps(st), |st.subs|);
    SumSame(CurrentCaps(st), DefaultCaps(st), |st.subs|);
  }

  // ---- publishing and delivering -----------------------------------------------------

  /** Two states in which everyone is heading for the same cap. */
  predicate SameCourse(st: State, t: State)
    requires Shaped(st) && Shaped(t)
  {
    && |t.subs| == |st.subs|
    && (forall k :: 0 <= k < |st.subs| ==> Settled(t, k) == Settled(st, k) && t.subs[k].def == st.subs[k].def)
    && Sum(SettledCaps(t)) == Sum(SettledCaps(st))
  }

  lemma PublishKeeps(budget: nat, st: State, e: Event)
    requires Inv(budget, st) && e.Published? && Enabled(st, e)
    ensures Inv(budget, Next(budget, st, e)) && SameCourse(st, Next(budget, st, e))
  {
    var t := Next(budget, st, e);
    SumSame(DefaultCaps(t), DefaultCaps(st), |st.subs|);
    SumSame(SettledCaps(t), SettledCaps(st), |st.subs|);
    forall k | 0 <= k < |st.subs|
      ensures Orderly(t, k)
    {
      assert Orderly(st, k);
    }
  }

  /** Where an order brings the cap: a reduction is refused exactly if it exceeds the cap. */
  lemma CarryIsExact(st: State, k: nat)
    requires Shaped(st) && k < |st.subs| && Orderly(st, k)
    ensures var s, o := st.subs[k], st.orders[k];
            && Settled(st, k) == (match o.action
                                  case NoCommand => s.cap
                                  case IncPc => s.cap + o.value
                                  case RedPc => if o.value <= s.cap then s.cap - o.value else s.cap)
            && Sound(Carry(s, o)) && Carry(s, o).def == s.def && Carry(s, o).id == s.id
  {
  }

  lemma DeliverKeeps(budget: nat, st: State, e: Event)
    requires Inv(budget, st) && e.Delivered? && Enabled(st, e)
    ensures Inv(budget, Next(budget, st, e)) && SameCourse(st, Next(budget, st, e))
  {
    var t := Next(budget, st, e);
    CarryIsExact(st, e.k);
    forall k | 0 <= k < |st.subs|
      ensures Orderly(t, k) && Settled(t, k) == Settled(st, k) && t.subs[k].def == st.subs[k].def
    {
      assert Orderly(st, k);
    }
    SumSame(DefaultCaps(t), DefaultCaps(st), |st.subs|);
    SumSame(SettledCaps(t), SettledCaps(st), |st.subs|);
  }

  // ---- rounds ------------------------------------------------------------------------

  /** Before a round nothing is under way, and what the reports say can be planned with. */
  lemma BeforeRound(budget: nat, st: State)
    requires Inv(budget, st) && Enabled(st, Round)
    ensures AllHonest(st.reports) && Offered(st.reports) && Sum(Defaults(st.reports)) <= budget
    ensures Sum(SettledCaps(st)) == Sum(CurrentCaps(st))
  {
    forall k | 0 <= k < |st.subs|
      ensures Dated(st.reports[k], st.subs[k])
    {
      assert Orderly(st, k);
    }
    SumSame(CurrentCaps(st), SettledCaps(st), |st.subs|);
    SumMonotone(Defaults(st.reports), DefaultCaps(st), |st.subs|);
  }

  /** No grant of the round makes a cap wrap. */
  predicate NoWrap(budget: nat, st: State)
    requires Shaped(st)
  {
    forall k {:trigger st.subs[k]} :: 0 <= k < |st.subs| ==>
      st.subs[k].cap + MakePlan(budget, st.reports).grant[k] < WORD
  }

  /** What sub-EARGM `k` is told to give up and refuses, because it does not hold that much now. */
  function Refusal(budget: nat, st: State, k: nat): nat
    requires Shaped(st) && k < |st.subs|
  {
    var cut := MakePlan(budget, st.reports).cut[k];
    if cut > st.subs[k].cap then cut else 0
  }

  function Refusals(budget: nat, st: State): (r: seq<nat>)
    requires Shaped(st)
    ensures |r| == |st.subs|
  {
    seq(|st.subs|, k requires 0 <= k < |st.subs| => Refusal(budget, st, k))
  }

  /** What a round adds to the caps everyone is heading for: free power spent and cuts refused. */
  function Added(budget: nat, st: State): nat
    requires Shaped(st)
  {
    Growth(budget, st.reports) + Total(Refusals(budget, st))
  }

  lemma RoundSettlesAt(budget: nat, st: State, k: nat)
    requires Inv(budget, st) && Enabled(st, Round) && k < |st.subs| && NoWrap(budget, st)
    ensures var t, p := Next(budget, st, Round), MakePlan(budget, st.reports);
            && Orderly(t, k)
            && Settled(t, k) == st.subs[k].cap + p.grant[k] - p.cut[k] + Refusal(budget, st, k)
            && t.subs[k].def == st.subs[k].def
  {
    var s, p := st.reports, MakePlan(budget, st.reports);
    BeforeRound(budget, st);
    assert Orderly(st, k);
    assert p.grant[k] == 0 || p.cut[k] == 0 by { PlanPerReport(budget, s, k); }
    assert Next(budget, st, Round).orders[k] == OrderFor(p, k);
    assert st.subs[k].cap + p.grant[k] < WORD;
    CarryIsExact(Next(budget, st, Round), k);
  }

  /**
   * What a round does, on reports however old: everyone heads for its present cap
   * and its grant or cut, or for its present cap if it refuses. The sum is what is
   * planned, what the reports have missed, and the cuts refused; so it grows by
   * exactly the free power spent and the cuts refused.
   */
  lemma RoundSettles(budget: nat, st: State)
    requires Inv(budget, st) && Enabled(st, Round) && NoWrap(budget, st)
    ensures var s, t, p := st.reports, Next(budget, st, Round), MakePlan(budget, st.reports);
            && Inv(budget, t)
            && Sum(SettledCaps(t))
               == Sum(NewCaps(p, s)) + (Sum(CurrentCaps(st)) - Sum(Caps(s))) + Sum(Refusals(budget, st))
            && Sum(SettledCaps(t)) == Sum(SettledCaps(st)) + Added(budget, st)
  {
    var s, t, p := st.reports, Next(budget, st, Round), MakePlan(budget, st.reports);
    forall k | 0 <= k < |st.subs|
      ensures Orderly(t, k)
      ensures SettledCaps(t)[k] + p.cut[k] == CurrentCaps(st)[k] + p.grant[k] + Refusals(budget, st)[k]
    {
      RoundSettlesAt(budget, st, k);
    }
    SumMixed(SettledCaps(t), CurrentCaps(st), p.grant, p.cut, Refusals(budget, st), |s|);
    BeforeRound(budget, st);
    SumNewCapsTo(p, s, |s|);
    AfterRound(budget, s);
    SumSame(DefaultCaps(t), DefaultCaps(st), |st.subs|);
  }

  // ---- the command table -------------------------------------------------------------

  /**
   * The table `MetaManager.Round` fills is what a round of the system sends: the
   * entry of each sub-EARGM is its order.
   */
  lemma TableIsOrders(budget: nat, st: State, ids: seq<int>, actions: seq<Action>, values: seq<nat>)
    requires Inv(budget, st) && Enabled(st, Round)
    requires |ids| == |actions| == |values| == |st.subs|
    requires forall k :: 0 <= k < |ids| ==> ids[k] == st.subs[k].id
    requires CarriesPlan(ids, budget, st.reports, actions, values)
    ensures forall k :: 0 <= k < |ids| ==> Next(budget, st, Round).orders[k] == Order(actions[k], values[k])
  {
    forall k | 0 <= k < |ids|
      ensures Next(budget, st, Round).orders[k] == Order(actions[k], values[k])
    {
      assert Orderly(st, k);
      assert st.reports[k].id == ids[k];
    }
  }

  // ---- runs --------------------------------------------------------------------------

  /** States `[s0, s1, ...]` linked by events. */
  predicate IsRun(budget: nat, run: seq<State>, events: seq<Event>)
  {
    && |run| == |events| + 1
    && (forall i :: 0 <= i < |run| ==> Shaped(run[i]))
    && (forall i :: 0 <= i < |events| ==>
          Enabled(run[i], events[i]) && run[i + 1] == Next(budget, run[i], events[i]))
  }

  predicate States(run: seq<State>, events: seq<Event>)
  {
    |run| == |events| + 1 && forall i :: 0 <= i < |run| ==> Shaped(run[i])
  }

  /** None of the first `i` events is a round that makes a cap wrap. */
  predicate NoneWraps(budget: nat, run: seq<State>, events: seq<Event>, i: nat)
    requires States(run, events) && i <= |events|
  {
    forall j :: 0 <= j < i && events[j].Round? ==> NoWrap(budget, run[j])
  }

  /** What the rounds among the first `i` events add. */
  function AddedTo(budget: nat, run: seq<State>, events: seq<Event>, i: nat): nat
    requires States(run, events) && i <= |events|
  {
    if i == 0 then 0
    else AddedTo(budget, run, events, i - 1) + if events[i - 1].Round? then Added(budget, run[i - 1]) else 0
  }

  lemma EventAccount(budget: nat, st: State, e: Event)
    requires Inv(budget, st) && Enabled(st, e) && (e.Round? ==> NoWrap(budget, st))
    ensures var t := Next(budget, st, e);
            && Inv(budget, t)
            && Sum(SettledCaps(t)) == Sum(SettledCaps(st)) + if e.Round? then Added(budget, st) else 0
  {
    match e
    case Published(_, _, _, _) => PublishKeeps(budget, st, e);
    case Round => RoundSettles(budget, st);
    case Delivered(_) => DeliverKeeps(budget, st, e);
  }

  /**
   * The account of every run: what everyone is heading for is what it was at the
   * start, and what the rounds have added since.
   */
  lemma {:induction false} RunAccount(budget: nat, run: seq<State>, events: seq<Event>, i: nat)
    requires IsRun(budget, run, events) && i < |run| && Inv(budget, run[0]) && NoneWraps(budget, run, events, i)
    ensures Inv(budget, run[i])
    ensures Sum(SettledCaps(run[i])) == Sum(SettledCaps(run[0])) + AddedTo(budget, run, events, i)
  {
    if i > 0 {
      RunAccount(budget, run, events, i - 1);
      EventAccount(budget, run[i - 1], events[i - 1]);
    }
  }

  lemma {:induction false} AddedGrows(budget: nat, run: seq<State>, events: seq<Event>, j: nat, i: nat)
    requires States(run, events) && j <= i <= |events|
    ensures AddedTo(budget, run, events, j) <= AddedTo(budget, run, events, i)
    ensures j < i && events[j].Round? ==>
              AddedTo(budget, run, events, j) + Added(budget, run[j]) <= AddedTo(budget, run, events, i)
    decreases i
  {
    if j < i { AddedGrows(budget, run, events, j, i - 1); }
  }

  /** An overrun is never taken back: the sum grows from any state to any later one. */
  lemma NeverTakenBack(budget: nat, run: seq<State>, events: seq<Event>, j: nat, i: nat)
    requires IsRun(budget, run, events) && j <= i < |run| && Inv(budget, run[0]) && NoneWraps(budget, run, events, i)
    ensures Sum(SettledCaps(run[j])) <= Sum(SettledCaps(run[i]))
  {
    RunAccount(budget, run, events, j);
    RunAccount(budget, run, events, i);
    AddedGrows(budget, run, events, j, i);
  }

  /** A round that adds more than is left of the budget. */
  predicate Breaks(budget: nat, st: State)
    requires Shaped(st)
  {
    Added(budget, st) > budget - Sum(CurrentCaps(st))
  }

  /** None of the first `i` events is one. */
  predicate NoneBreaks(budget: nat, run: seq<State>, events: seq<Event>, i: nat)
    requires States(run, events) && i <= |events|
  {
    forall j :: 0 <= j < i && events[j].Round? ==> !Breaks(budget, run[j])
  }

  /**
   * The budget in every state of every run from within it, on reports however
   * old: what everyone is heading for is within it exactly if no round so far
   * has added more than was left.
   */
  lemma {:induction false} BudgetOverRuns(budget: nat, run: seq<State>, events: seq<Event>, i: nat)
    requires IsRun(budget, run, events) && i < |run| && NoneWraps(budget, run, events, i)
    requires Inv(budget, run[0]) && Sum(SettledCaps(run[0])) <= budget
    ensures Sum(SettledCaps(run[i])) <= budget <==> NoneBreaks(budget, run, events, i)
  {
    if i > 0 {
      BudgetOverRuns(budget, run, events, i - 1);
      RunAccount(budget, run, events, i - 1);
      EventAccount(budget, run[i - 1], events[i - 1]);
      if events[i - 1].Round? { BeforeRound(budget, run[i - 1]); }
      assert NoneBreaks(budget, run, events, i) <==>
             NoneBreaks(budget, run, events, i - 1) && !(events[i - 1].Round? && Breaks(budget, run[i - 1]));
    }
  }

  /** In every round of every run, free and extra power cover what is asked. */
  lemma AskedIsCovered(budget: nat, run: seq<State>, events: seq<Event>, i: nat)
    requires IsRun(budget, run, events) && i < |events| && NoneWraps(budget, run, events, i) && events[i].Round?
    requires Inv(budget, run[0])
    ensures Sum(Asks(run[i].reports)) <= FreePower(budget, run[i].reports) + Sum(Extras(run[i].reports))
  {
    RunAccount(budget, run, events, i);
    BeforeRound(budget, run[i]);
    NoShortage(budget, run[i].reports);
  }
}
