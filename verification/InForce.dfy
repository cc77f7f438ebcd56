/**
 * The caps in force while commands are on their way. They are not those the
 * sub-EARGMs are heading for: an increase that arrives before the reduction
 * that pays for it takes them over the budget for a while.
 */
module InForce {
  import opened Sums
  import opened SubManager
  import opened MetaPasses
  import opened Hierarchy
  import opened CurrentReports

  /** What sub-EARGM `k` is still to gain by its order. */
  function Rise(st: State, k: nat): nat
    requires Shaped(st) && k < |st.subs|
  {
    if st.orders[k].action == IncPc then st.orders[k].value else 0
  }

  /** What it is still to give up; a reduction it will refuse does not count. */
  function Fall(st: State, k: nat): nat
    requires Shaped(st) && k < |st.subs|
  {
    if st.orders[k].action == RedPc && st.orders[k].value <= st.subs[k].cap then st.orders[k].value else 0
  }

  function Rises(st: State): (r: seq<nat>)
    requires Shaped(st)
    ensures |r| == |st.subs|
  {
    seq(|st.subs|, k requires 0 <= k < |st.subs| => Rise(st, k))
  }

  function Falls(st: State): (r: seq<nat>)
    requires Shaped(st)
    ensures |r| == |st.subs|
  {
    seq(|st.subs|, k requires 0 <= k < |st.subs| => Fall(st, k))
  }

  lemma {:induction false} InForceTo(st: State, k: nat)
    requires Shaped(st) && k <= |st.subs| && forall j :: 0 <= j < |st.subs| ==> Orderly(st, j)
    ensures SumTo(CurrentCaps(st), k) == SumTo(SettledCaps(st), k) + SumTo(Falls(st), k) - SumTo(Rises(st), k)
  {
    if k > 0 {
      InForceTo(st, k - 1);
      CarryIsExact(st, k - 1);
    }
  }

  /**
   * In every state of every run the caps in force are those everyone is heading
   * for, plus the reductions and minus the increases under way.
   */
  lemma CapsInForce(budget: nat, run: seq<State>, events: seq<Event>, i: nat)
    requires IsRun(budget, run, events) && i < |run| && NoneWraps(budget, run, events, i)
    requires Inv(budget, run[0])
    ensures var st := run[i];
            Sum(CurrentCaps(st)) == Sum(SettledCaps(st)) + Sum(Falls(st)) - Sum(Rises(st))
  {
    RunAccount(budget, run, events, i);
    InForceTo(run[i], |run[i].subs|);
  }

  /**
   * A command that is lost changes no cap in force, but what everyone is heading
   * for: by the whole reduction or increase that is not carried out.
   */
  lemma LostCommand(budget: nat, st: State, k: nat)
    requires Inv(budget, st) && k < |st.subs|
    ensures var t := st.(orders := st.orders[k := NoOrder]);
            && Inv(budget, t) && Sum(CurrentCaps(t)) == Sum(CurrentCaps(st))
            && Sum(SettledCaps(t)) == Sum(SettledCaps(st)) + Fall(st, k) - Rise(st, k)
  {
    var t := st.(orders := st.orders[k := NoOrder]);
    forall j | 0 <= j < |st.subs|
      ensures Orderly(t, j)
    {
      assert Orderly(st, j);
    }
    CarryIsExact(st, k);
    assert SettledCaps(t) == SettledCaps(st)[k := st.subs[k].cap];
    SumUpdate(SettledCaps(st), k, st.subs[k].cap, |st.subs|);
    SumSame(CurrentCaps(t), CurrentCaps(st), |st.subs|);
    SumSame(DefaultCaps(t), DefaultCaps(st), |st.subs|);
  }

  // ---- reductions first --------------------------------------------------------------

  predicate ReductionUnderWay(st: State) { exists k :: 0 <= k < |st.orders| && st.orders[k].action == RedPc }

  /** An increase is delivered only when no reduction is under way any more. */
  predicate InTurn(st: State, e: Event)
    requires Shaped(st) && Enabled(st, e)
  {
    e.Delivered? && st.orders[e.k].action == IncPc ==> !ReductionUnderWay(st)
  }

  lemma NoFalls(st: State)
    requires Shaped(st) && !ReductionUnderWay(st) && forall j :: 0 <= j < |st.subs| ==> Orderly(st, j)
    ensures Sum(CurrentCaps(st)) <= Sum(SettledCaps(st))
  {
    InForceTo(st, |st.subs|);
    SumConst(Falls(st), 0, |st.subs|);
    SumNat(Rises(st), |st.subs|);
  }

  lemma EventInForce(budget: nat, st: State, e: Event)
    requires Inv(budget, st) && Enabled(st, e) && InTurn(st, e) && Inv(budget, Next(budget, st, e))
    requires Sum(CurrentCaps(st)) <= budget && Sum(SettledCaps(Next(budget, st, e))) <= budget
    ensures Sum(CurrentCaps(Next(budget, st, e))) <= budget
  {
    var t := Next(budget, st, e);
    if e.Delivered? && st.orders[e.k].action == IncPc {
      assert forall k :: 0 <= k < |t.orders| ==> t.orders[k] == st.orders[k] || t.orders[k] == NoOrder;
      NoFalls(t);
    } else {
      SumMonotone(CurrentCaps(t), CurrentCaps(st), |st.subs|);
    }
  }

  /**
   * Reductions first keep the caps in force within the budget: in every run in
   * which everyone has been heading for no more than it and the increases wait
   * for the reductions, they never exceed it.
   */
  lemma {:induction false} ReductionsFirst(budget: nat, run: seq<State>, events: seq<Event>, i: nat)
    requires IsRun(budget, run, events) && i < |run| && Inv(budget, run[0]) && NoneWraps(budget, run, events, i)
    requires WithinTo(budget, run, i) && Sum(CurrentCaps(run[0])) <= budget
    requires forall j :: 0 <= j < i ==> InTurn(run[j], events[j])
    ensures Sum(CurrentCaps(run[i])) <= budget
  {
    if i > 0 {
      ReductionsFirst(budget, run, events, i - 1);
      RunAccount(budget, run, events, i - 1);
      RunAccount(budget, run, events, i);
      EventInForce(budget, run[i - 1], events[i - 1]);
    }
  }

  /** From the defaults and on current reports it is enough that no round overcuts. */
  lemma ReductionsFirstFromDefaults(budget: nat, run: seq<State>, events: seq<Event>, i: nat)
    requires IsRun(budget, run, events) && i < |run| && AllCurrent(run, events, i)
             && NoneOvercuts(budget, run, events, i)
    requires Initial(budget, run[0]) && budget < WORD
    requires forall j :: 0 <= j < i ==> InTurn(run[j], events[j])
    ensures Sum(CurrentCaps(run[i])) <= budget
  {
    InitialInv(budget, run[0]);
    DefaultsLeakLast(budget, run, events, i);
    RunWithin(budget, run, events, i);
    BudgetFromDefaults(budget, run, events, i);
    ReductionsFirst(budget, run, events, i);
  }
}
