/**
 * The hard power cap of one EARGM: each period the cap is shared among the
 * nodes it manages. Nodes that need power for new jobs come first; what is left
 * goes to the greedy nodes, and when nothing is left they give extra power back.
 */
module HardPowercap {
  import opened Sums
  import opened Waterfall
  import SubManager

  /** A greedy node: the power it wants on top and the extra power it already holds. */
  datatype Node = Node(requested: nat, extra: nat)

  function Requests(s: seq<Node>): (r: seq<nat>)
    ensures |r| == |s|
  {
    seq(|s|, i requires 0 <= i < |s| => s[i].requested)
  }

  function Extras(s: seq<Node>): (r: seq<nat>)
    ensures |r| == |s|
  {
    seq(|s|, i requires 0 <= i < |s| => s[i].extra)
  }

  /** Wants power and holds no extra power yet. */
  predicate IsNew(n: Node) { n.requested > 0 && n.extra == 0 }

  function NewRequests(s: seq<Node>): (r: seq<nat>)
    ensures |r| == |s|
  {
    seq(|s|, i requires 0 <= i < |s| => if IsNew(s[i]) then s[i].requested else 0)
  }

  /** One for each position where the amount is positive. */
  function Marks(a: seq<nat>): (r: seq<nat>)
    ensures |r| == |a|
  {
    seq(|a|, i requires 0 <= i < |a| => if a[i] > 0 then 1 else 0)
  }

  /** How many amounts are positive. */
  function Count(a: seq<nat>): nat { Total(Marks(a)) }

  lemma {:induction false} CountTo(a: seq<nat>, k: nat)
    requires k <= |a|
    ensures SumTo(Marks(a), k) == |set i | 0 <= i < k && a[i] > 0|
  {
    if k > 0 {
      CountTo(a, k - 1);
      var before, now := set i | 0 <= i < k - 1 && a[i] > 0, set i | 0 <= i < k && a[i] > 0;
      assert now == if a[k - 1] > 0 then before + {k - 1} else before;
    }
  }

  lemma CountIs(a: seq<nat>)
    ensures Count(a) == |set i | 0 <= i < |a| && a[i] > 0|
  {
    CountTo(a, |a|);
  }

  lemma CountPositive(a: seq<nat>, i: nat)
    requires i < |a| && a[i] > 0
    ensures Count(a) > 0
  {
    SumGrows(Marks(a), i, |a|);
  }

  /** A count of zero means that all amounts are zero. */
  lemma NoneCounted(a: seq<nat>)
    requires Count(a) == 0
    ensures forall i {:trigger a[i]} :: 0 <= i < |a| ==> a[i] == 0
    ensures Sum(a) == 0
  {
    forall i | 0 <= i < |a|
      ensures a[i] == 0
    {
      if a[i] > 0 { CountPositive(a, i); }
    }
    SumConst(a, 0, |a|);
  }

  // ---- equal shares ------------------------------------------------------------------

  /** Everyone gets the same share, or less if it wants less. */
  function Capped(want: seq<nat>, share: nat): (r: seq<nat>)
    ensures |r| == |want|
  {
    seq(|want|, i requires 0 <= i < |want| => Min(want[i], share) as nat)
  }

  lemma {:induction false} CappedTo(want: seq<nat>, share: nat, k: nat)
    requires k <= |want|
    ensures SumTo(Capped(want, share), k) <= share * SumTo(Marks(want), k)
  {
    if k > 0 {
      CappedTo(want, share, k - 1);
      assert share * (SumTo(Marks(want), k - 1) + 1) == share * SumTo(Marks(want), k - 1) + share;
    }
  }

  /** An integer share of `amount` for each of those who want something never exceeds it. */
  lemma EqualShareFits(want: seq<nat>, amount: nat)
    requires Count(want) > 0
    ensures Sum(Capped(want, amount / Count(want))) <= amount
  {
    CappedTo(want, amount / Count(want), |want|);
  }

  // ---- partial grants ----------------------------------------------------------------

  /** First stage: nodes without extra power, in full if that leaves something, else equal shares. */
  function FirstGrants(s: seq<Node>, free: nat): (r: seq<nat>)
    ensures |r| == |s|
  {
    var want := NewRequests(s);
    if Sum(want) < free then want
    else if Count(want) == 0 then want
    else Capped(want, free / Count(want))
  }

  /** What those who got nothing in the first stage still want. */
  function Unserved(s: seq<Node>, first: seq<nat>): (r: seq<nat>)
    requires |first| == |s|
    ensures |r| == |s|
  {
    seq(|s|, i requires 0 <= i < |s| => if first[i] == 0 then s[i].requested else 0)
  }

  /** Both stages together. */
  function Grants(s: seq<Node>, free: nat): (r: seq<nat>)
    ensures |r| == |s|
  {
    var first := FirstGrants(s, free);
    var left := Monus(free, Sum(first));
    if left == 0 || Count(Requests(s)) == 0 then first
    else Add(first, Capped(Unserved(s, first), left / Count(Requests(s))))
  }

  lemma FirstGrantsFit(s: seq<Node>, free: nat)
    ensures Sum(FirstGrants(s, free)) <= free
    ensures forall i {:trigger FirstGrants(s, free)[i]} :: 0 <= i < |s| ==> FirstGrants(s, free)[i] <= s[i].requested
  {
    var want := NewRequests(s);
    if Sum(want) >= free {
      if Count(want) == 0 {
        NoneCounted(want);
      } else {
        EqualShareFits(want, free);
      }
    }
  }

  lemma {:induction false} UnservedMarks(s: seq<Node>, first: seq<nat>, k: nat)
    requires |first| == |s| && k <= |s|
    ensures SumTo(Marks(Unserved(s, first)), k) <= SumTo(Marks(Requests(s)), k)
  {
    if k > 0 { UnservedMarks(s, first, k - 1); }
  }

  /**
   * Partial granting conserves power and never runs below zero: what is handed
   * out fits into what is free, and nobody gets more than it wants.
   */
  lemma GrantsFit(s: seq<Node>, free: nat)
    ensures Sum(Grants(s, free)) <= free
    ensures forall i {:trigger Grants(s, free)[i]} :: 0 <= i < |s| ==> Grants(s, free)[i] <= s[i].requested
  {
    var first := FirstGrants(s, free);
    FirstGrantsFit(s, free);
    var left := Monus(free, Sum(first));
    if left > 0 && Count(Requests(s)) > 0 {
      SecondStageFits(s, first, left);
      SumAddTo(first, Capped(Unserved(s, first), left / Count(Requests(s))), |s|);
    }
  }

  /**
   * What a node without extra power gets, exactly: all it wants if all such
   * nodes together want less than is free, else an equal integer share of it.
   */
  lemma NewNodeGrant(s: seq<Node>, free: nat, i: nat)
    requires i < |s| && s[i].requested > 0 && s[i].extra == 0
    ensures Count(NewRequests(s)) > 0
    ensures Grants(s, free)[i] == if Sum(NewRequests(s)) < free then s[i].requested
                                  else Min(s[i].requested, free / Count(NewRequests(s)))
  {
    var want := NewRequests(s);
    CountPositive(want, i);
    FirstGrantsFit(s, free);
    NewMarks(s, |s|);
    var first := FirstGrants(s, free);
    SumNat(first, |s|);
    if first[i] == 0 {
      var left := Monus(free, Sum(first));
      assert free < Count(want) <= Count(Requests(s)) by {
        assert free / Count(want) == 0;
      }
      assert left / Count(Requests(s)) == 0;
    }
  }

  /** The power that is left once the nodes without extra power have their part. */
  function AfterNew(s: seq<Node>, free: nat): int
  {
    var want := NewRequests(s);
    if Sum(want) < free then free - Sum(want)
    else if Count(want) == 0 then free
    else free - Sum(Capped(want, free / Count(want)))
  }

  /**
   * What a greedy node that holds extra power already gets, exactly: an equal
   * integer share, among all greedy nodes, of what the others left.
   */
  lemma HolderGrant(s: seq<Node>, free: nat, i: nat)
    requires i < |s| && s[i].requested > 0 && s[i].extra > 0
    ensures Count(Requests(s)) > 0 && AfterNew(s, free) >= 0
    ensures Grants(s, free)[i] == Min(s[i].requested, AfterNew(s, free) / Count(Requests(s)))
  {
    CountPositive(Requests(s), i);
    FirstGrantsFit(s, free);
    var first := FirstGrants(s, free);
    assert Sum(first) == free - AfterNew(s, free) by {
      if Count(NewRequests(s)) == 0 { NoneCounted(NewRequests(s)); }
    }
  }

  /** What the nodes without extra power are granted. */
  function NewGrants(s: seq<Node>, free: nat): (r: seq<nat>)
    ensures |r| == |s|
  {
    seq(|s|, i requires 0 <= i < |s| => if s[i].extra == 0 then Grants(s, free)[i] else 0)
  }

  /** What they leave is what is free without their grants. */
  lemma AfterNewIs(s: seq<Node>, free: nat)
    ensures AfterNew(s, free) == free - Sum(NewGrants(s, free))
  {
    var first := FirstGrants(s, free);
    GrantsFit(s, free);
    forall i | 0 <= i < |s|
      ensures NewGrants(s, free)[i] == first[i]
    {
      if s[i].requested > 0 && s[i].extra == 0 { NewNodeGrant(s, free, i); }
    }
    assert NewGrants(s, free) == first;
    if Count(NewRequests(s)) == 0 { NoneCounted(NewRequests(s)); }
  }

  lemma {:induction false} NewMarks(s: seq<Node>, k: nat)
    requires k <= |s|
    ensures SumTo(Marks(NewRequests(s)), k) <= SumTo(Marks(Requests(s)), k)
  {
    if k > 0 { NewMarks(s, k - 1); }
  }

  lemma SecondStageFits(s: seq<Node>, first: seq<nat>, left: nat)
    requires |first| == |s| && Count(Requests(s)) > 0
    ensures Sum(Capped(Unserved(s, first), left / Count(Requests(s)))) <= left
  {
    var share := left / Count(Requests(s));
    CappedTo(Unserved(s, first), share, |s|);
    UnservedMarks(s, first, |s|);
    MulMonotone(share, Sum(Marks(Unserved(s, first))), Count(Requests(s)));
    assert share * Count(Requests(s)) <= left;
  }

  lemma MulMonotone(a: nat, x: int, y: int)
    requires x <= y
    ensures a * x <= a * y
  {
  }

  // ---- giving extra power back -------------------------------------------------------

  /** First round: everyone with extra power gives an equal integer share, or all it has. */
  function FirstCuts(s: seq<Node>, amount: nat): (r: seq<nat>)
    ensures |r| == |s|
  {
    var extra := Extras(s);
    if Count(extra) == 0 then extra else Capped(extra, amount / Count(extra))
  }

  /** Both rounds: what is still missing is taken in order from what is left. */
  function Cuts(s: seq<Node>, amount: nat): (r: seq<nat>)
    ensures |r| == |s|
  {
    var first := FirstCuts(s, amount);
    Add(first, Pour(Less(Extras(s), first), Monus(amount, Sum(first))))
  }

  lemma FirstCutsFit(s: seq<Node>, amount: nat)
    ensures Sum(FirstCuts(s, amount)) <= amount
  {
    var extra := Extras(s);
    if Count(extra) == 0 {
      forall i | 0 <= i < |s|
        ensures extra[i] == 0
      {
        if extra[i] > 0 { CountPositive(extra, i); }
      }
      SumConst(extra, 0, |s|);
    } else {
      EqualShareFits(extra, amount);
    }
  }

  /**
   * Together the nodes give back exactly what is asked, or all they hold if that
   * is less; nobody gives more than it holds, and everyone at least the equal
   * share or all it holds.
   */
  lemma CutsExact(s: seq<Node>, amount: nat)
    ensures Sum(Cuts(s, amount)) == Min(amount, Sum(Extras(s)))
    ensures forall i {:trigger Cuts(s, amount)[i]} :: 0 <= i < |s| ==>
              && Cuts(s, amount)[i] <= s[i].extra
              && (s[i].extra > 0 ==>
                    && Count(Extras(s)) > 0
                    && Cuts(s, amount)[i] >= Min(s[i].extra, amount / Count(Extras(s))))
  {
    var first := FirstCuts(s, amount);
    var rest := Less(Extras(s), first);
    var more := Monus(amount, Sum(first));
    FirstCutsFit(s, amount);
    SumAddTo(first, Pour(rest, more), |s|);
    SumLessTo(Extras(s), first, |s|);
    PourTotal(rest, more);
    forall i | 0 <= i < |s| && s[i].extra > 0
      ensures Count(Extras(s)) > 0
    {
      CountPositive(Extras(s), i);
    }
  }

  /** A node gives more than the equal share only if all before it give all they hold. */
  lemma CutsInOrder(s: seq<Node>, amount: nat, i: nat, j: nat)
    requires i < j < |s| && s[j].extra > 0
    ensures Count(Extras(s)) > 0
    ensures Cuts(s, amount)[j] > amount / Count(Extras(s)) ==> Cuts(s, amount)[i] == s[i].extra
  {
    CountPositive(Extras(s), j);
    var first := FirstCuts(s, amount);
    var rest, more := Less(Extras(s), first), Monus(amount, Sum(first));
    if Pour(rest, more)[j] > 0 { PourInOrder(rest, more, i, j); }
  }

  // ---- one period --------------------------------------------------------------------

  function Neg(n: int): int { -n }

  function Negated(a: seq<nat>): (r: seq<int>)
    ensures |r| == |a|
    ensures forall i {:trigger r[i]} :: 0 <= i < |a| ==> r[i] == Neg(a[i])
  {
    seq(|a|, i requires 0 <= i < |a| => Neg(a[i]))
  }

  /** What the options tell each node, once `held` and `requested` power are set against the cap. */
  function Decision(s: seq<Node>, cap: nat, held: nat, requested: nat): (r: seq<int>)
    ensures |r| == |s|
  {
    if held + requested > cap then
      Negated(Cuts(s, held + requested - cap))
    else
      var free := cap - held - requested;
      if Sum(Requests(s)) <= free then Requests(s) else Grants(s, free)
  }

  /**
   * When a node without extra power is told all it wants: exactly if all that is
   * wanted fits, or what such nodes want leaves something, or its own request is
   * within the equal integer share. If power has to be withdrawn it is told nothing.
   */
  lemma NewNodeTold(s: seq<Node>, cap: nat, held: nat, requested: nat, i: nat)
    requires i < |s| && s[i].requested > 0 && s[i].extra == 0
    ensures Count(NewRequests(s)) > 0
    ensures var free := cap - held - requested;
            var told := Decision(s, cap, held, requested)[i];
            && (free < 0 ==> told == 0)
            && (free >= 0 ==>
                  (told == s[i].requested <==>
                   || Sum(Requests(s)) <= free
                   || Sum(NewRequests(s)) < free
                   || s[i].requested <= free / Count(NewRequests(s))))
  {
    CountPositive(NewRequests(s), i);
    if held + requested > cap {
      CutsWithinCap(s, cap, held, requested);
      assert Neg(s[i].extra) <= Decision(s, cap, held, requested)[i] <= 0;
    } else {
      NewNodeGrant(s, cap - held - requested, i);
    }
  }

  /** When all that is wanted fits, every node is told all it wants, with or without extra power. */
  lemma AllToldWhenAllFits(s: seq<Node>, cap: nat, held: nat, requested: nat, i: nat)
    requires i < |s| && held + requested + Sum(Requests(s)) <= cap
    ensures Decision(s, cap, held, requested)[i] == s[i].requested
  {
    SumNat(Requests(s), |s|);
  }

  /**
   * When not all fits, a greedy node that holds extra power is told an equal
   * integer share, among all greedy nodes, of what those without leave; if power
   * has to be withdrawn it is told to give some of its own or nothing.
   */
  lemma HolderTold(s: seq<Node>, cap: nat, held: nat, requested: nat, i: nat)
    requires i < |s| && s[i].requested > 0 && s[i].extra > 0
    requires held + requested + Sum(Requests(s)) > cap
    ensures Count(Requests(s)) > 0
    ensures var told := Decision(s, cap, held, requested)[i];
            if held + requested > cap then Neg(s[i].extra) <= told <= 0
            else
              var free := cap - held - requested;
              AfterNew(s, free) >= 0 && told == Min(s[i].requested, AfterNew(s, free) / Count(Requests(s)))
  {
    CountPositive(Requests(s), i);
    if held + requested > cap {
      CutsWithinCap(s, cap, held, requested);
      assert Neg(s[i].extra) <= Decision(s, cap, held, requested)[i] <= 0;
    } else {
      HolderGrant(s, cap - held - requested, i);
    }
  }

  /**
   * Requests without extra power that add up to exactly what is free are not all
   * met once another node wants more, too: 10 and 2 out of 12 get 6 and 2.
   */
  lemma ExactFitIsNotServed()
    ensures var s := [Node(10, 0), Node(2, 0), Node(5, 3)];
            && Sum(NewRequests(s)) == 12
            && Decision(s, 12, 0, 0)[0] == 6 && Decision(s, 12, 0, 0)[1] == 2
  {
    var s := [Node(10, 0), Node(2, 0), Node(5, 3)];
    SumOfThree(NewRequests(s));
    SumOfThree(Requests(s));
    SumOfThree(Marks(NewRequests(s)));
    NewNodeGrant(s, 12, 0);
    NewNodeGrant(s, 12, 1);
  }

  /** There is something to tell the nodes. */
  predicate MustTell(s: seq<Node>, cap: nat, held: nat, requested: nat)
  {
    requested > 0 || held + requested > cap || (Sum(Requests(s)) > 0 && held + requested < cap)
  }

  /** The options are sent exactly for new jobs, for power withdrawn, or for free power and a node that wants some. */
  lemma MustTellExactly(s: seq<Node>, cap: nat, held: nat, requested: nat)
    ensures MustTell(s, cap, held, requested) <==>
            || requested > 0
            || held + requested > cap
            || (held + requested < cap && exists i :: 0 <= i < |s| && s[i].requested > 0)
  {
    SumNat(Requests(s), |s|);
    if Sum(Requests(s)) == 0 {
      NobodyWants(s);
      assert forall i {:trigger s[i]} :: 0 <= i < |s| ==> s[i].requested == Requests(s)[i];
    } else if forall i :: 0 <= i < |s| ==> s[i].requested == 0 {
      SumConst(Requests(s), 0, |s|);
    }
  }

  /** Otherwise nothing changes for any of them. */
  lemma NothingUntold(s: seq<Node>, cap: nat, held: nat, requested: nat)
    requires !MustTell(s, cap, held, requested)
    ensures var d := Decision(s, cap, held, requested);
            forall i {:trigger d[i]} :: 0 <= i < |s| ==> d[i] == 0
  {
    SumNat(Requests(s), |s|);
    if Sum(Requests(s)) == 0 {
      NobodyWants(s);
    } else {
      NothingGranted(s, 0);
    }
  }

  lemma {:induction false} SumNegated(a: seq<nat>, b: seq<int>, k: nat)
    requires |a| == |b| && k <= |a|
    requires forall i {:trigger b[i]} :: 0 <= i < |a| ==> b[i] == Neg(a[i])
    ensures SumTo(b, k) == -SumTo(a, k)
  {
    if k > 0 { SumNegated(a, b, k - 1); }
  }

  /**
   * The cap after the decision: held, requested, granted and withdrawn
   * power stay within it exactly when withdrawing all extra power would do.
   * Nobody is granted more than it wants or loses more than it holds.
   */
  lemma DecisionWithinCap(s: seq<Node>, cap: nat, held: nat, requested: nat)
    ensures var d := Decision(s, cap, held, requested);
            && (held + requested + Sum(d) <= cap <==> held + requested <= cap + Sum(Extras(s)))
            && (held + requested > cap ==>
                  Sum(d) == -Min(held + requested - cap, Sum(Extras(s))))
            && (forall i {:trigger d[i]} :: 0 <= i < |s| ==> Neg(s[i].extra) <= d[i] <= s[i].requested)
  {
    SumNat(Extras(s), |s|);
    if held + requested > cap {
      CutsWithinCap(s, cap, held, requested);
    } else {
      GrantsFit(s, cap - held - requested);
    }
  }

  lemma CutsWithinCap(s: seq<Node>, cap: nat, held: nat, requested: nat)
    requires held + requested > cap
    ensures var d := Decision(s, cap, held, requested);
            && Sum(d) == -Min(held + requested - cap, Sum(Extras(s)))
            && (forall i {:trigger d[i]} :: 0 <= i < |s| ==> Neg(s[i].extra) <= d[i] <= 0)
  {
    NegatedCuts(s, held + requested - cap);
  }

  lemma NegatedCuts(s: seq<Node>, amount: nat)
    ensures var d := Negated(Cuts(s, amount));
            && Sum(d) == -Min(amount, Sum(Extras(s)))
            && (forall i {:trigger d[i]} :: 0 <= i < |s| ==> Neg(s[i].extra) <= d[i] <= 0)
  {
    CutsExact(s, amount);
    SumNegated(Cuts(s, amount), Negated(Cuts(s, amount)), |s|);
  }

  lemma MarksStep(a: seq<nat>, i: nat)
    requires i < |a|
    ensures SumTo(Marks(a), i + 1) == SumTo(Marks(a), i) + if a[i] > 0 then 1 else 0
  {
  }

  /** Without anyone who wants power, or without power, nobody is granted any. */
  lemma NothingGranted(s: seq<Node>, free: nat)
    requires free == 0 || Count(Requests(s)) == 0
    ensures forall i {:trigger Grants(s, free)[i]} :: 0 <= i < |s| ==> Grants(s, free)[i] == 0
    ensures Sum(Grants(s, free)) == 0
  {
    GrantsFit(s, free);
    SumNat(Grants(s, free), |s|);
    forall i | 0 <= i < |s|
      ensures Grants(s, free)[i] == 0
    {
      if s[i].requested > 0 {
        CountPositive(Requests(s), i);
        SumGrows(Grants(s, free), i, |s|);
      }
    }
    SumConst(Grants(s, free), 0, |s|);
  }

  /** The two stages, put together from what each of them leaves. */
  lemma StagesAddUp(s: seq<Node>, free: nat)
    requires Count(Requests(s)) > 0
    ensures var first := FirstGrants(s, free);
            var second := Capped(Unserved(s, first), Monus(free, Sum(first)) / Count(Requests(s)));
            && Sum(first) <= free
            && (Sum(first) == free ==> Grants(s, free) == first)
            && (Sum(first) < free ==>
                  && Grants(s, free) == Add(first, second)
                  && Sum(Grants(s, free)) == Sum(first) + Sum(second))
  {
    var first := FirstGrants(s, free);
    FirstGrantsFit(s, free);
    SumAddTo(first, Capped(Unserved(s, first), Monus(free, Sum(first)) / Count(Requests(s))), |s|);
  }

  lemma CutsDecision(s: seq<Node>, cap: nat, held: nat, requested: nat, x: seq<int>)
    requires held + requested > cap && |x| == |s|
    requires forall i {:trigger x[i]} :: 0 <= i < |s| ==> x[i] == Neg(Cuts(s, held + requested - cap)[i])
    ensures x == Decision(s, cap, held, requested)
  {
  }

  class ClusterPowercap {
    const nodes: seq<Node>
    const cap: nat
    const requested: nat
    const extraPower: array<int>
    var totalPowercap: nat
    var released: nat

    var totalReqGreedy: nat
    var reqNoExtra: nat
    var numNoExtra: nat
    var numGreedy: nat
    var numExtra: nat
    var totalExtra: nat
    var extraAlloc: nat
    var greedyAllocated: nat
    var totalFree: nat
    var mustSend: bool

    /** A period starts from the status of the nodes; `allocatedBefore` is left over from earlier ones. */
    constructor (nodes: seq<Node>, cap: nat, totalPowercap: nat, requested: nat, released: nat, allocatedBefore: nat)
      ensures Untouched() && !mustSend
      ensures this.nodes == nodes && this.cap == cap && this.requested == requested
      ensures this.totalPowercap == totalPowercap && this.released == released
      ensures fresh(extraPower)
    {
      this.nodes, this.cap, this.requested := nodes, cap, requested;
      this.totalPowercap, this.released := totalPowercap, released;
      greedyAllocated, totalFree, mustSend := allocatedBefore, 0, false;
      extraPower := new int[|nodes|](_ => 0);
    }

    /** The options as held: nothing for anyone. */
    ghost predicate Untouched()
      reads this, extraPower
    {
      extraPower.Length == |nodes| && forall i {:trigger extraPower[i]} :: 0 <= i < |nodes| ==> extraPower[i] == 0
    }

    ghost predicate Counted()
      reads this
    {
      && totalReqGreedy == Sum(Requests(nodes)) && reqNoExtra == Sum(NewRequests(nodes))
      && numNoExtra == Count(NewRequests(nodes)) && numGreedy == Count(Requests(nodes))
      && numExtra == Count(Extras(nodes)) && totalExtra == extraAlloc == Sum(Extras(nodes))
    }

    /** `aggregate_data`. */
    method Aggregate()
      modifies this`totalReqGreedy, this`reqNoExtra, this`numNoExtra, this`numGreedy, this`numExtra
      modifies this`totalExtra, this`extraAlloc
      ensures Counted()
    {
      var req: nat, reqNew: nat, nNew: nat, nGreedy: nat, nExtra: nat := 0, 0, 0, 0, 0;
      var extra: nat, alloc: nat := 0, 0;
      for i := 0 to |nodes|
        invariant req == SumTo(Requests(nodes), i) && reqNew == SumTo(NewRequests(nodes), i)
        invariant nNew == SumTo(Marks(NewRequests(nodes)), i)
        invariant nGreedy == SumTo(Marks(Requests(nodes)), i)
        invariant nExtra == SumTo(Marks(Extras(nodes)), i) && extra == alloc == SumTo(Extras(nodes), i)
      {
        MarksStep(NewRequests(nodes), i);
        MarksStep(Requests(nodes), i);
        MarksStep(Extras(nodes), i);
        req := req + nodes[i].requested;
        extra := extra + nodes[i].extra;
        if nodes[i].extra > 0 {
          nExtra := nExtra + 1;
          alloc := alloc + nodes[i].extra;
        }
        if nodes[i].requested > 0 { nGreedy := nGreedy + 1; }
        if nodes[i].requested > 0 && nodes[i].extra == 0 {
          reqNew := reqNew + nodes[i].requested;
          nNew := nNew + 1;
        }
      }
      totalReqGreedy, reqNoExtra, numNoExtra, numGreedy, numExtra := req, reqNew, nNew, nGreedy, nExtra;
      totalExtra, extraAlloc := extra, alloc;
    }

    /** First stage of the partial grant; returns what is still free. */
    method GrantNew(free: nat) returns (pending: nat)
      requires Untouched() && Counted() && numNoExtra > 0
      modifies extraPower
      ensures forall i {:trigger extraPower[i]} :: 0 <= i < |nodes| ==> extraPower[i] == FirstGrants(nodes, free)[i]
      ensures pending == free - Sum(FirstGrants(nodes, free))
    {
      pending := free;
      ghost var first := FirstGrants(nodes, free);
      FirstGrantsFit(nodes, free);
      var more := if reqNoExtra < pending then -1 else pending / numNoExtra;
      for i := 0 to |nodes|
        invariant pending == free - SumTo(first, i)
        invariant forall j {:trigger extraPower[j]} :: 0 <= j < |nodes| ==>
                  extraPower[j] == if j < i then first[j] else 0
      {
        SumGrows(first, i, |nodes|);
        if nodes[i].requested > 0 && nodes[i].extra == 0 {
          var grant := if more < 0 then nodes[i].requested else Min(more, nodes[i].requested);
          extraPower[i] := grant;
          pending := pending - grant;
        }
      }
    }

    /** Second stage: those who got nothing share what is still free. */
    method GrantRest(pending0: nat, ghost first: seq<nat>) returns (pending: nat)
      requires extraPower.Length == |nodes| == |first| && Counted() && numGreedy > 0
      requires forall i {:trigger extraPower[i]} :: 0 <= i < |nodes| ==> extraPower[i] == first[i]
      modifies extraPower
      ensures var second := Capped(Unserved(nodes, first), pending0 / numGreedy);
              && (forall i {:trigger extraPower[i]} :: 0 <= i < |nodes| ==> extraPower[i] == first[i] + second[i])
              && pending == pending0 - Sum(second)
    {
      pending := pending0;
      var more := pending / numGreedy;
      ghost var second := Capped(Unserved(nodes, first), more);
      SecondStageFits(nodes, first, pending0);
      for i := 0 to |nodes|
        invariant pending == pending0 - SumTo(second, i)
        invariant forall j {:trigger extraPower[j]} :: 0 <= j < |nodes| ==>
                  extraPower[j] == first[j] + if j < i then second[j] else 0
      {
        SumGrows(second, i, |nodes|);
        if nodes[i].requested > 0 && extraPower[i] == 0 {
          var grant := Min(nodes[i].requested, more);
          extraPower[i] := grant;
          pending := pending - grant;
        }
      }
    }

    /** `allocate_free_power_to_greedy_nodes`: all of `totalFree` that the stages can place. */
    method AllocateFree()
      requires Untouched() && Counted()
      modifies extraPower, this`totalFree, this`greedyAllocated, this`mustSend
      ensures extraPower[..] == Grants(nodes, old(totalFree))
      ensures totalFree == old(totalFree) - Sum(Grants(nodes, old(totalFree)))
      ensures greedyAllocated == if numGreedy == 0 || old(totalFree) == 0 then old(greedyAllocated)
                                 else Sum(Grants(nodes, old(totalFree)))
      ensures mustSend <==> old(mustSend) || (numGreedy > 0 && old(totalFree) > 0)
    {
      var free := totalFree;
      GrantsFit(nodes, free);
      SumNat(Grants(nodes, free), |nodes|);
      if numGreedy == 0 || free == 0 {
        NothingGranted(nodes, free);
        assert extraPower[..] == Grants(nodes, free);
        return;
      }
      mustSend := true;
      totalFree := PlaceAll(free);
      greedyAllocated := free - totalFree;
    }

    /** Both stages over `free` watts; returns what they leave. */
    method PlaceAll(free: nat) returns (pending: nat)
      requires Untouched() && Counted() && numGreedy > 0
      modifies extraPower
      ensures extraPower[..] == Grants(nodes, free)
      ensures pending == free - Sum(Grants(nodes, free))
    {
      pending := free;
      ghost var first := FirstGrants(nodes, free);
      StagesAddUp(nodes, free);
      if numNoExtra > 0 {
        pending := GrantNew(free);
      } else {
        NobodyNew(nodes, free);
      }
      if pending > 0 {
        pending := GrantRest(pending, first);
      }
      assert extraPower[..] == Grants(nodes, free);
    }

    /** First round of the reduction: an equal share from everyone with extra power. */
    method CutShares(amount: nat) returns (missing: nat)
      requires Untouched() && Counted() && numExtra > 0
      modifies extraPower
      ensures forall i {:trigger extraPower[i]} :: 0 <= i < |nodes| ==>
              extraPower[i] == Neg(FirstCuts(nodes, amount)[i])
      ensures missing == amount - Sum(FirstCuts(nodes, amount))
    {
      missing := amount;
      var i := 0;
      var share := amount / numExtra;
      ghost var first := FirstCuts(nodes, amount);
      FirstCutsFit(nodes, amount);
      while missing > 0 && i < |nodes|
        invariant 0 <= i <= |nodes|
        invariant missing == amount - SumTo(first, i)
        invariant forall j {:trigger extraPower[j]} :: 0 <= j < |nodes| ==>
                  extraPower[j] == if j < i then Neg(first[j]) else 0
      {
        SumGrows(first, i, |nodes|);
        if nodes[i].extra > 0 {
          var red := Min(Min(share, nodes[i].extra), missing);
          extraPower[i] := -red;
          missing := missing - red;
        }
        i := i + 1;
      }
      forall j | i <= j < |nodes|
        ensures first[j] == 0
      {
        SumGrows(first, i, j);
        SumGrows(first, j, |nodes|);
      }
      SumGrows(first, i, |nodes|);
    }

    /** Takes up to `missing` watts from what node `i` has left. */
    method CutOne(i: nat, missing: nat) returns (red: nat)
      requires extraPower.Length == |nodes| && i < |nodes|
      modifies extraPower
      ensures nodes[i].extra + old(extraPower[i]) >= 0 ==> red == Min(missing, nodes[i].extra + old(extraPower[i]))
      ensures extraPower[i] == old(extraPower[i]) - red
      ensures forall j :: 0 <= j < |nodes| && j != i ==> extraPower[j] == old(extraPower[j])
    {
      red := 0;
      if nodes[i].extra + extraPower[i] > 0 {
        red := Min(nodes[i].extra + extraPower[i], missing);
        extraPower[i] := extraPower[i] - red;
      }
    }

    /** Second round: what is still missing, in order, from what the nodes have left. */
    method CutRest(missing0: nat, ghost first: seq<nat>) returns (missing: nat)
      requires extraPower.Length == |nodes| == |first|
      requires forall i {:trigger extraPower[i]} :: 0 <= i < |nodes| ==> extraPower[i] == Neg(first[i])
      requires forall i {:trigger first[i]} :: 0 <= i < |nodes| ==> first[i] <= nodes[i].extra
      modifies extraPower
      ensures var more := Pour(Less(Extras(nodes), first), missing0);
              && (forall i {:trigger extraPower[i]} :: 0 <= i < |nodes| ==> extraPower[i] == Neg(first[i] + more[i]))
              && missing == missing0 - Sum(more)
    {
      missing := missing0;
      var i := 0;
      ghost var left := Less(Extras(nodes), first);
      ghost var more := Pour(left, missing0);
      while missing > 0 && i < |nodes|
        invariant 0 <= i <= |nodes|
        invariant missing == missing0 - SumTo(more, i)
        invariant forall j {:trigger extraPower[j]} :: 0 <= j < |nodes| ==>
                    extraPower[j] == Neg(first[j] + if j < i then more[j] else 0)
      {
        TakeNext(left, missing0, i);
        assert nodes[i].extra + extraPower[i] == left[i];
        var red := CutOne(i, missing);
        missing := missing - red;
        i := i + 1;
      }
      TakeEnd(left, missing0, i);
    }

    /** `reduce_allocation`: the nodes give back `amount` watts of extra power. */
    method Reduce(amount: nat)
      requires Untouched() && Counted()
      modifies extraPower
      ensures forall i {:trigger extraPower[i]} :: 0 <= i < |nodes| ==> extraPower[i] == Neg(Cuts(nodes, amount)[i])
    {
      if numExtra == 0 {
        forall i | 0 <= i < |nodes|
          ensures nodes[i].extra == 0
        {
          if nodes[i].extra > 0 { CountPositive(Extras(nodes), i); }
        }
        return;
      }
      ghost var first := FirstCuts(nodes, amount);
      FirstCutsFit(nodes, amount);
      var missing := CutShares(amount);
      missing := CutRest(missing, first);
    }

    /** Every greedy node gets all it wants. */
    method GrantAll()
      requires Untouched()
      modifies extraPower
      ensures extraPower[..] == Requests(nodes)
    {
      for i := 0 to |nodes|
        invariant forall j :: 0 <= j < i ==> extraPower[j] == nodes[j].requested
      {
        extraPower[i] := nodes[i].requested;
      }
    }

    /** Enough power for new jobs: the greedy nodes are served from what is left. */
    method ServeGreedy() returns (done: bool)
      requires Untouched() && Counted() && totalPowercap + requested <= cap
      requires totalFree == cap - totalPowercap - requested
      modifies extraPower, this`totalFree, this`greedyAllocated, this`mustSend
      ensures done <==> released == 0 || Sum(Requests(nodes)) == 0 || Sum(Requests(nodes)) <= old(totalFree)
      ensures done ==> extraPower[..] == Decision(nodes, cap, totalPowercap, requested)
      ensures done ==> totalFree == old(totalFree) - Sum(extraPower[..])
      ensures !done ==> Untouched() && mustSend == old(mustSend)
      ensures done ==> (mustSend <==> old(mustSend) || (Sum(Requests(nodes)) > 0 && old(totalFree) > 0))
    {
      if totalReqGreedy == 0 {
        NobodyWants(nodes);
        assert extraPower[..] == Requests(nodes);
        return true;
      }
      if totalReqGreedy <= totalFree {
        totalFree := totalFree - totalReqGreedy;
        GrantAll();
        mustSend := true;
      } else if released == 0 {
        if numGreedy == 0 { NoneCounted(Requests(nodes)); }
        AllocateFree();
      } else {
        return false;
      }
      return true;
    }

    /** What is free before anything is decided, as an unsigned number. */
    method SetFree()
      modifies this`totalFree
    {
      totalFree := (cap - totalPowercap) % SubManager.WORD;
    }

    /** Not enough power for new jobs: extra power is withdrawn. */
    method CutBack()
      requires Untouched() && Counted() && totalPowercap + requested > cap
      modifies extraPower, this`totalFree, this`mustSend
      ensures extraPower[..] == Decision(nodes, cap, totalPowercap, requested)
      ensures mustSend
    {
      totalFree := 0;
      Reduce(totalPowercap + requested - cap);
      mustSend := true;
      CutsDecision(nodes, cap, totalPowercap, requested, extraPower[..]);
    }

    /**
     * `powercap_reallocation`: decides for all nodes, or asks (by `false`) for
     * idle power to be released first.
     */
    method ReallocateOnce() returns (done: bool)
      requires Untouched() && Counted()
      modifies extraPower, this`totalFree, this`greedyAllocated, this`mustSend
      ensures done <==> released == 0 || totalPowercap + requested + Sum(Requests(nodes)) <= cap
      ensures done ==> extraPower[..] == Decision(nodes, cap, totalPowercap, requested)
      ensures done && totalPowercap + requested <= cap ==>
                totalFree == cap - totalPowercap - requested - Sum(extraPower[..])
      ensures done ==> (mustSend <==> old(mustSend) || MustTell(nodes, cap, totalPowercap, requested))
      ensures !done ==> Untouched() && (mustSend <==> old(mustSend) || requested > 0)
    {
      SumNat(Requests(nodes), |nodes|);
      SetFree();
      if requested > 0 { mustSend := true; }
      if totalPowercap + requested <= cap {
        totalFree := cap - (totalPowercap + requested);
        done := ServeGreedy();
      } else if released == 0 {
        CutBack();
        done := true;
      } else {
        done := false;
      }
    }

    /** Decides, and if idle power can be released, releases `idle` watts of it and decides again. */
    method Decide(idle: nat)
      requires Untouched() && !mustSend && idle <= totalPowercap
      modifies this, extraPower
      ensures var short := old(totalPowercap) + requested + Sum(Requests(nodes)) > cap;
              totalPowercap == old(totalPowercap) - if old(released) > 0 && short then idle else 0
      ensures extraPower[..] == Decision(nodes, cap, totalPowercap, requested)
      ensures totalPowercap + requested <= cap ==>
                totalFree == cap - totalPowercap - requested - Sum(extraPower[..])
      ensures mustSend <==> MustTell(nodes, cap, totalPowercap, requested)
    {
      Aggregate();
      var done := ReallocateOnce();
      if !done {
        released := 0;
        totalPowercap := totalPowercap - idle;
        done := ReallocateOnce();
        assert done;
      }
    }

    /** One period; the second decision never asks for another release. */
    method Period(idle: nat)
      requires Untouched() && !mustSend && idle <= totalPowercap
      modifies this, extraPower
      ensures var short := old(totalPowercap) + requested + Sum(Requests(nodes)) > cap;
              totalPowercap == old(totalPowercap) - if old(released) > 0 && short then idle else 0
      ensures extraPower[..] == Decision(nodes, cap, totalPowercap, requested)
      ensures totalPowercap + requested + Sum(extraPower[..]) <= cap <==>
              totalPowercap + requested <= cap + Sum(Extras(nodes))
      ensures forall i {:trigger extraPower[i]} :: 0 <= i < |nodes| ==>
                Neg(nodes[i].extra) <= extraPower[i] <= nodes[i].requested
      ensures totalPowercap + requested + Sum(Requests(nodes)) <= cap ==>
                forall i {:trigger extraPower[i]} :: 0 <= i < |nodes| ==> extraPower[i] == nodes[i].requested
      ensures totalPowercap + requested <= cap ==>
                totalFree == cap - totalPowercap - requested - Sum(extraPower[..])
      ensures mustSend <==>
              || requested > 0
              || totalPowercap + requested > cap
              || (totalPowercap + requested < cap && exists i :: 0 <= i < |nodes| && nodes[i].requested > 0)
    {
      Decide(idle);
      DecisionWithinCap(nodes, cap, totalPowercap, requested);
      MustTellExactly(nodes, cap, totalPowercap, requested);
      if totalPowercap + requested + Sum(Requests(nodes)) <= cap {
        forall i | 0 <= i < |nodes|
          ensures extraPower[..][i] == nodes[i].requested
        {
          AllToldWhenAllFits(nodes, cap, totalPowercap, requested, i);
        }
      }
      assert forall i {:trigger extraPower[i]} :: 0 <= i < |nodes| ==> extraPower[i] == extraPower[..][i];
    }
  }

  lemma NobodyWants(s: seq<Node>)
    requires Sum(Requests(s)) == 0
    ensures forall i {:trigger Requests(s)[i]} :: 0 <= i < |s| ==> Requests(s)[i] == 0
  {
    forall i | 0 <= i < |s|
      ensures Requests(s)[i] == 0
    {
      SumGrows(Requests(s), i, |s|);
    }
  }

  /** Without new nodes the first stage grants nothing. */
  lemma NobodyNew(s: seq<Node>, free: nat)
    requires Count(NewRequests(s)) == 0
    ensures forall i {:trigger FirstGrants(s, free)[i]} :: 0 <= i < |s| ==> FirstGrants(s, free)[i] == 0
    ensures Sum(FirstGrants(s, free)) == 0
  {
    NoneCounted(NewRequests(s));
    SumConst(FirstGrants(s, free), 0, |s|);
  }
}
