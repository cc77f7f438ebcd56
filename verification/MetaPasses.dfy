/**
 * One pass over the reports, as every loop of `meta_eargm.c` makes it: a budget
 * is poured over the reports in order, the share of each is entered in the
 * command table and settled in the report.
 */
module MetaPasses {
  import opened Sums
  import opened Waterfall
  import opened SubManager
  import opened MetaPlan

  datatype Action = NoCommand | IncPc | RedPc

  /** The reports and the two columns of the command table. */
  datatype Board = Board(status: seq<Report>, actions: seq<Action>, values: seq<nat>)

  /** What a pass hands out or takes: asked-for power, freeable power, extra power, greedy demand. */
  datatype Pass = Ask | Free | Extra | Demand(hasExtra: bool)

  predicate Distinct(ids: seq<int>) { forall p, q :: 0 <= p < q < |ids| ==> ids[p] != ids[q] }

  predicate DistinctReports(s: seq<Report>)
  {
    forall i, j :: 0 <= i < j < |s| ==> s[i].id != s[j].id
  }

  predicate Fits(ids: seq<int>, b: Board) { |b.actions| == |b.values| == |ids| }

  /** What the pass is about in one report; reports from outside the table are skipped. */
  function Amount(pass: Pass, ids: seq<int>, r: Report): nat
  {
    if r.id !in ids then 0
    else match pass
      case Ask => if r.status == AskDef then r.requested else 0
      case Free => r.freeable
      case Extra => r.extra
      case Demand(h) => if Eligible(r, h) then r.requested else 0
  }

  function Amounts(pass: Pass, ids: seq<int>, s: seq<Report>): (r: seq<nat>)
    ensures |r| == |s|
  {
    seq(|s|, i requires 0 <= i < |s| => Amount(pass, ids, s[i]))
  }

  /** The report once its share is settled; asked-for power stays on record. */
  function Settle(pass: Pass, r: Report, amount: nat): (t: Report)
    ensures t.id == r.id && t.status == r.status && t.powercap == r.powercap
    ensures amount == 0 ==> t == r
  {
    match pass
    case Ask => r
    case Free => r.(freeable := Monus(r.freeable, amount))
    case Extra => r.(extra := Monus(r.extra, amount))
    case Demand(_) => r.(requested := Monus(r.requested, amount))
  }

  function Act(pass: Pass): Action { if pass.Ask? || pass.Demand? then IncPc else RedPc }

  /** The table with a command and an added amount in the entry of `id`, if there is one. */
  function Post(ids: seq<int>, b: Board, id: int, act: Action, amount: nat): (c: Board)
    requires Fits(ids, b)
    ensures Fits(ids, c) && c.status == b.status
  {
    b.(actions := seq(|ids|, p requires 0 <= p < |ids| => if ids[p] == id then act else b.actions[p]),
       values := seq(|ids|, p requires 0 <= p < |ids| => if ids[p] == id then b.values[p] + amount else b.values[p]))
  }

  /** Whether a report is one the pass is about. */
  predicate Concerns(pass: Pass, ids: seq<int>, r: Report)
  {
    && r.id in ids
    && match pass
       case Ask => r.status == AskDef
       case Free => r.freeable > 0
       case Extra => r.extra > 0
       case Demand(h) => Eligible(r, h)
  }

  /** A pass on its way: the board, and the budget still to be handed out or taken. */
  datatype Progress = Progress(board: Board, left: nat)

  /** The pass at report `k`, which is `r`; asked-for power is not limited by the budget. */
  function Step(pass: Pass, ids: seq<int>, c: Progress, r: Report, k: nat): (d: Progress)
    requires Fits(ids, c.board) && k < |c.board.status|
    ensures Fits(ids, d.board) && |d.board.status| == |c.board.status|
  {
    if Concerns(pass, ids, r) && (pass.Ask? || c.left > 0) then
      var share := if pass.Ask? then Amount(pass, ids, r) else Min(c.left, Amount(pass, ids, r));
      Progress(Post(ids, c.board, r.id, Act(pass), share).(status := c.board.status[k := Settle(pass, r, share)]),
               if pass.Ask? then c.left else c.left - share)
    else c
  }

  /** The pass after the first `k` reports. */
  function RunPass(pass: Pass, ids: seq<int>, b: Board, budget: nat, k: nat): (c: Progress)
    requires Fits(ids, b) && k <= |b.status|
    ensures Fits(ids, c.board) && |c.board.status| == |b.status|
  {
    if k == 0 then Progress(b, budget)
    else Step(pass, ids, RunPass(pass, ids, b, budget, k - 1), b.status[k - 1], k - 1)
  }

  /** Whether the pass enters a command for report `k`; a greedy one may get zero watts. */
  predicate Touched(pass: Pass, ids: seq<int>, s: seq<Report>, budget: nat, k: nat)
    requires k < |s|
  {
    && s[k].id in ids
    && match pass
       case Ask => s[k].status == AskDef
       case Demand(h) => Eligible(s[k], h) && SumTo(Amounts(pass, ids, s), k) < budget
       case _ => Share(Amounts(pass, ids, s), budget, k) > 0
  }

  /** The shares of a pass. */
  function Shares(pass: Pass, ids: seq<int>, s: seq<Report>, budget: nat): (r: seq<nat>)
    ensures |r| == |s|
  {
    Pour(Amounts(pass, ids, s), budget)
  }

  // ---- what a pass does, report by report and entry by entry -------------------------

  /** A step spends what its report is about, as far as the budget reaches. */
  lemma StepLeft(pass: Pass, ids: seq<int>, b: Board, budget: nat, k: nat)
    requires Fits(ids, b) && k < |b.status| && !pass.Ask?
    ensures var left := RunPass(pass, ids, b, budget, k).left;
            RunPass(pass, ids, b, budget, k + 1).left == left - Min(left, Amount(pass, ids, b.status[k]))
  {
  }

  /** So does the waterfall. */
  lemma LeftNext(pass: Pass, ids: seq<int>, b: Board, budget: nat, k: nat)
    requires Fits(ids, b) && k < |b.status| && !pass.Ask?
    requires RunPass(pass, ids, b, budget, k).left == budget - SumTo(Shares(pass, ids, b.status, budget), k)
    ensures RunPass(pass, ids, b, budget, k + 1).left == budget - SumTo(Shares(pass, ids, b.status, budget), k + 1)
  {
    StepLeft(pass, ids, b, budget, k);
    TakeNext(Amounts(pass, ids, b.status), budget, k);
  }

  /** What is left of the budget is what the waterfall has not yet poured. */
  lemma {:induction false} LeftIs(pass: Pass, ids: seq<int>, b: Board, budget: nat, k: nat)
    requires Fits(ids, b) && k <= |b.status| && !pass.Ask?
    ensures RunPass(pass, ids, b, budget, k).left == budget - SumTo(Shares(pass, ids, b.status, budget), k)
  {
    if k > 0 {
      LeftIs(pass, ids, b, budget, k - 1);
      LeftNext(pass, ids, b, budget, k - 1);
    }
  }

  /** The step at report `k`, with its share of the waterfall. */
  lemma StepIs(pass: Pass, ids: seq<int>, b: Board, budget: nat, k: nat)
    requires Fits(ids, b) && k < |b.status|
    requires pass.Ask? ==> Sum(Amounts(pass, ids, b.status)) <= budget
    ensures var c, d := RunPass(pass, ids, b, budget, k).board, RunPass(pass, ids, b, budget, k + 1).board;
            var share := Shares(pass, ids, b.status, budget)[k];
            && (Touched(pass, ids, b.status, budget, k) ==>
                  d == Post(ids, c, b.status[k].id, Act(pass), share)
                       .(status := c.status[k := Settle(pass, b.status[k], share)]))
            && (!Touched(pass, ids, b.status, budget, k) ==> d == c && share == 0)
  {
    var want := Amounts(pass, ids, b.status);
    if pass.Ask? {
      SumGrows(want, k, |want|);
    } else {
      LeftIs(pass, ids, b, budget, k);
      TakeNext(want, budget, k);
      PourTo(want, budget, k);
      SumNat(want, k);
    }
  }

  lemma {:induction false} PassStatus(pass: Pass, ids: seq<int>, b: Board, budget: nat, k: nat, i: nat)
    requires Fits(ids, b) && k <= |b.status| && i < |b.status|
    requires pass.Ask? ==> Sum(Amounts(pass, ids, b.status)) <= budget
    ensures RunPass(pass, ids, b, budget, k).board.status[i]
            == if i < k then Settle(pass, b.status[i], Shares(pass, ids, b.status, budget)[i]) else b.status[i]
  {
    if k > 0 {
      PassStatus(pass, ids, b, budget, k - 1, i);
      StepIs(pass, ids, b, budget, k - 1);
    }
  }

  /** What a pass takes from a report or hands to it goes off its offer, extra power or request, and nothing else. */
  lemma PassTakes(pass: Pass, ids: seq<int>, b: Board, budget: nat, i: nat)
    requires Fits(ids, b) && i < |b.status| && !pass.Ask?
    ensures var r, t := b.status[i], RunPass(pass, ids, b, budget, |b.status|).board.status[i];
            var share := Shares(pass, ids, b.status, budget)[i];
            && (pass.Free? ==> share <= r.freeable && t == r.(freeable := r.freeable - share))
            && (pass.Extra? ==> share <= r.extra && t == r.(extra := r.extra - share))
            && (pass.Demand? ==> share <= r.requested && t == r.(requested := r.requested - share))
  {
    PassStatus(pass, ids, b, budget, |b.status|, i);
  }

  lemma ValueNext(pass: Pass, ids: seq<int>, b: Board, budget: nat, k: nat, i: nat, p: nat)
    requires Fits(ids, b) && k < |b.status| && i < |b.status| && p < |ids|
    requires DistinctReports(b.status) && b.status[i].id == ids[p]
    requires pass.Ask? ==> Sum(Amounts(pass, ids, b.status)) <= budget
    ensures RunPass(pass, ids, b, budget, k + 1).board.values[p]
            == RunPass(pass, ids, b, budget, k).board.values[p]
               + if i == k then Shares(pass, ids, b.status, budget)[i] else 0
  {
    StepIs(pass, ids, b, budget, k);
  }

  /** The entry of a reporting sub-EARGM grows by exactly its share. */
  lemma {:induction false} PassValue(pass: Pass, ids: seq<int>, b: Board, budget: nat, k: nat, i: nat, p: nat)
    requires Fits(ids, b) && k <= |b.status| && i < |b.status| && p < |ids|
    requires DistinctReports(b.status) && b.status[i].id == ids[p]
    requires pass.Ask? ==> Sum(Amounts(pass, ids, b.status)) <= budget
    ensures RunPass(pass, ids, b, budget, k).board.values[p]
            == b.values[p] + if i < k then Shares(pass, ids, b.status, budget)[i] else 0
  {
    if k > 0 {
      PassValue(pass, ids, b, budget, k - 1, i, p);
      ValueNext(pass, ids, b, budget, k - 1, i, p);
    }
  }

  /** Its command is the one of the pass if it was touched. */
  lemma {:induction false} PassAction(pass: Pass, ids: seq<int>, b: Board, budget: nat, k: nat, i: nat, p: nat)
    requires Fits(ids, b) && k <= |b.status| && i < |b.status| && p < |ids|
    requires DistinctReports(b.status) && b.status[i].id == ids[p]
    requires pass.Ask? ==> Sum(Amounts(pass, ids, b.status)) <= budget
    ensures RunPass(pass, ids, b, budget, k).board.actions[p]
            == if i < k && Touched(pass, ids, b.status, budget, i) then Act(pass) else b.actions[p]
  {
    if k > 0 {
      PassAction(pass, ids, b, budget, k - 1, i, p);
      StepIs(pass, ids, b, budget, k - 1);
    }
  }

  /** The entry of a sub-EARGM that did not report is left alone. */
  lemma {:induction false} PassSilent(pass: Pass, ids: seq<int>, b: Board, budget: nat, k: nat, p: nat)
    requires Fits(ids, b) && k <= |b.status| && p < |ids|
    requires forall i :: 0 <= i < |b.status| ==> b.status[i].id != ids[p]
    ensures RunPass(pass, ids, b, budget, k).board.values[p] == b.values[p]
    ensures RunPass(pass, ids, b, budget, k).board.actions[p] == b.actions[p]
  {
    if k > 0 { PassSilent(pass, ids, b, budget, k - 1, p); }
  }
}
