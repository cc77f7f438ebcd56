/**
 * The energy guard of an EARGM: at every tick T1 the energy of the last period
 * is turned into a warning level, and the level into actions, risks sent to the
 * nodes and restorations, with grace periods in between.
 */
module Warnings {
  import opened EnergyWindow

  datatype Level = NoProblem | Warning1 | Warning2 | Panic

  /** The three limits of `defcon`, in percent of the energy budget. */
  datatype Limits = Limits(l4: real, l3: real, l2: real)

  function Defcon(perc: real, l: Limits): Level
  {
    if perc < l.l4 then NoProblem
    else if perc >= l.l4 && perc < l.l3 then Warning1
    else if perc >= l.l3 && perc < l.l2 then Warning2
    else Panic
  }

  function Percent(energy: nat, budget: nat): real
    requires budget > 0
  {
    energy as real / budget as real * 100.0
  }

  function Rank(v: Level): nat { match v case NoProblem => 0 case Warning1 => 1 case Warning2 => 2 case Panic => 3 }

  /** The energy is `limit` percent of the budget or more. */
  predicate Reached(energy: int, budget: nat, limit: real) { energy as real * 100.0 >= limit * budget as real }

  lemma PercentReached(energy: nat, budget: nat, limit: real)
    requires budget > 0
    ensures Percent(energy, budget) >= limit <==> Reached(energy, budget, limit)
  {
    var e, b := energy as real, budget as real;
    assert e / b * 100.0 * b == e * 100.0;
    if Percent(energy, budget) >= limit {
      assert e / b * 100.0 * b >= limit * b;
    } else {
      assert e / b * 100.0 * b < limit * b;
    }
  }

  /** The levels by the number of limits reached. */
  const LEVELS := [NoProblem, Warning1, Warning2, Panic]

  function ReachedLimits(energy: int, budget: nat, l: Limits): (n: nat)
    ensures n < |LEVELS|
  {
    (if Reached(energy, budget, l.l4) then 1 else 0)
    + (if Reached(energy, budget, l.l3) then 1 else 0)
    + (if Reached(energy, budget, l.l2) then 1 else 0)
  }

  /** There is no problem below the first limit, and each limit reached, if they are in order, is one level more. */
  lemma LevelIs(energy: nat, budget: nat, l: Limits)
    requires budget > 0
    ensures var level := Defcon(Percent(energy, budget), l);
            && (level == NoProblem <==> !Reached(energy, budget, l.l4))
            && (l.l4 <= l.l3 <= l.l2 ==> level == LEVELS[ReachedLimits(energy, budget, l)])
  {
    PercentReached(energy, budget, l.l4);
    PercentReached(energy, budget, l.l3);
    PercentReached(energy, budget, l.l2);
  }

  /** More energy never lowers the level, whatever the limits. */
  lemma DefconMonotone(e: nat, f: nat, budget: nat, l: Limits)
    requires budget > 0 && e <= f
    ensures Rank(Defcon(Percent(e, budget), l)) <= Rank(Defcon(Percent(f, budget), l))
  {
    assert e as real / budget as real <= f as real / budget as real;
  }

  /** `in_action`, `last_level`, `last_risk_sent` and `default_state`. */
  datatype Guard = Guard(inAction: nat, lastLevel: Level, lastRisk: Level, atDefault: bool)

  const START := Guard(0, NoProblem, NoProblem, true)

  /** One tick: the level found and whether the EARGM may act on the nodes by itself. */
  datatype Tick = Tick(level: Level, automatic: bool)

  /** Warning or panic, outside any grace period: mail and action are due. */
  predicate Acts(g: Guard, t: Tick) { g.inAction == 0 && t.level != NoProblem }

  /** The level is sent to the nodes as a risk. */
  predicate Sends(g: Guard, t: Tick) { Acts(g, t) && t.automatic && g.lastRisk != t.level }

  /** The default configuration is restored on the nodes. */
  predicate Restores(g: Guard, t: Tick)
  {
    g.inAction == 0 && t.level == NoProblem && t.automatic && g.lastLevel == NoProblem && !g.atDefault
  }

  function Next(g: Guard, t: Tick, grace: nat): Guard
  {
    Guard(if g.inAction > 0 then g.inAction - 1 else if Acts(g, t) then grace else 0,
          t.level,
          if Sends(g, t) then t.level else if Restores(g, t) then NoProblem else g.lastRisk,
          if Sends(g, t) then false else if Restores(g, t) then true else g.atDefault)
  }

  /** The guard before tick `k`. */
  function At(ts: seq<Tick>, grace: nat, k: nat): Guard
    requires k <= |ts|
  {
    if k == 0 then START else Next(At(ts, grace, k - 1), ts[k - 1], grace)
  }

  predicate ActsAt(ts: seq<Tick>, grace: nat, k: nat) requires k < |ts| { Acts(At(ts, grace, k), ts[k]) }

  predicate SendsAt(ts: seq<Tick>, grace: nat, k: nat) requires k < |ts| { Sends(At(ts, grace, k), ts[k]) }

  predicate RestoresAt(ts: seq<Tick>, grace: nat, k: nat) requires k < |ts| { Restores(At(ts, grace, k), ts[k]) }

  // ---- grace periods -----------------------------------------------------------------

  lemma {:induction false} GraceRuns(ts: seq<Tick>, grace: nat, i: nat, k: nat)
    requires i < k <= |ts| && ActsAt(ts, grace, i)
    requires k <= i + 1 + grace
    ensures At(ts, grace, k).inAction == grace - (k - i - 1)
    decreases k
  {
    if k > i + 1 { GraceRuns(ts, grace, i, k - 1); }
  }

  /** Two ticks that act are more than the grace periods apart. */
  lemma ActingTicksApart(ts: seq<Tick>, grace: nat, i: nat, j: nat)
    requires i < j < |ts| && ActsAt(ts, grace, i) && ActsAt(ts, grace, j)
    ensures j - i >= grace + 1
  {
    if j < i + 1 + grace {
      GraceRuns(ts, grace, i, j);
      assert false;
    }
  }

  lemma {:induction false} GraceFrom(ts: seq<Tick>, grace: nat, k: nat) returns (i: nat)
    requires k <= |ts| && At(ts, grace, k).inAction > 0
    ensures i < k <= i + grace && ActsAt(ts, grace, i) && At(ts, grace, k).inAction == grace - (k - i - 1)
  {
    if At(ts, grace, k - 1).inAction == 0 { i := k - 1; } else { i := GraceFrom(ts, grace, k - 1); }
  }

  /** One of the last ticks, as many as the grace periods, has acted. */
  predicate InGrace(ts: seq<Tick>, grace: nat, k: nat)
    requires k <= |ts|
  {
    exists i :: 0 <= i < k <= i + grace && ActsAt(ts, grace, i)
  }

  lemma GraceIs(ts: seq<Tick>, grace: nat, k: nat)
    requires k <= |ts|
    ensures At(ts, grace, k).inAction > 0 <==> InGrace(ts, grace, k)
  {
    if At(ts, grace, k).inAction > 0 {
      var i := GraceFrom(ts, grace, k);
    } else if i :| 0 <= i < k <= i + grace && ActsAt(ts, grace, i) {
      GraceRuns(ts, grace, i, k);
      assert false;
    }
  }

  /** A tick acts exactly if it finds a problem and none of the last ones, as many as the grace periods, has acted. */
  lemma ActsExactly(ts: seq<Tick>, grace: nat, k: nat)
    requires k < |ts|
    ensures ActsAt(ts, grace, k) <==> ts[k].level != NoProblem && !InGrace(ts, grace, k)
  {
    GraceIs(ts, grace, k);
  }

  lemma {:induction false} GraceBounded(ts: seq<Tick>, grace: nat, k: nat)
    requires k <= |ts|
    ensures At(ts, grace, k).inAction <= grace
  {
    if k > 0 { GraceBounded(ts, grace, k - 1); }
  }

  lemma {:induction false} GraceRunsOut(ts: seq<Tick>, grace: nat, i: nat, m: nat)
    requires i + m <= |ts| && m <= At(ts, grace, i).inAction
    ensures At(ts, grace, i + m).inAction == At(ts, grace, i).inAction - m
  {
    if m > 0 { GraceRunsOut(ts, grace, i, m - 1); }
  }

  /** From any tick on, one of the next ticks, as many as the grace periods and one, is outside them. */
  lemma OutsideGrace(ts: seq<Tick>, grace: nat, i: nat) returns (k: nat)
    requires i + grace < |ts|
    ensures i <= k <= i + grace && At(ts, grace, k).inAction == 0
  {
    GraceBounded(ts, grace, i);
    k := i + At(ts, grace, i).inAction;
    GraceRunsOut(ts, grace, i, k - i);
  }

  /** A problem that lasts longer than the grace periods is acted upon. */
  lemma LastingProblemActs(ts: seq<Tick>, grace: nat, i: nat)
    requires i + grace < |ts| && forall k :: i <= k <= i + grace ==> ts[k].level != NoProblem
    ensures exists k :: i <= k <= i + grace && ActsAt(ts, grace, k)
  {
    var k := OutsideGrace(ts, grace, i);
    assert ActsAt(ts, grace, k);
  }

  // ---- risks -------------------------------------------------------------------------

  lemma {:induction false} RiskStays(ts: seq<Tick>, grace: nat, i: nat, k: nat)
    requires i < k <= |ts| && SendsAt(ts, grace, i)
    requires forall m :: i < m < k ==> !SendsAt(ts, grace, m) && !RestoresAt(ts, grace, m)
    ensures At(ts, grace, k).lastRisk == ts[i].level
    decreases k
  {
    if k > i + 1 {
      RiskStays(ts, grace, i, k - 1);
      assert !SendsAt(ts, grace, k - 1) && !RestoresAt(ts, grace, k - 1);
    }
  }

  /** A risk was sent at `i`, and up to `k` no other was sent and nothing restored. */
  predicate Standing(ts: seq<Tick>, grace: nat, i: nat, k: nat)
    requires i < k <= |ts|
  {
    SendsAt(ts, grace, i) && forall m :: i < m < k ==> !SendsAt(ts, grace, m) && !RestoresAt(ts, grace, m)
  }

  /** The last risk on record is one that stands. */
  lemma {:induction false} RiskOnRecord(ts: seq<Tick>, grace: nat, k: nat) returns (i: nat)
    requires k <= |ts| && At(ts, grace, k).lastRisk != NoProblem
    ensures i < k && Standing(ts, grace, i, k) && ts[i].level == At(ts, grace, k).lastRisk
  {
    if SendsAt(ts, grace, k - 1) {
      i := k - 1;
    } else {
      i := RiskOnRecord(ts, grace, k - 1);
    }
  }

  /** A tick sends its level exactly if it acts, in automatic mode, and that is not the risk that stands. */
  lemma SendsExactly(ts: seq<Tick>, grace: nat, j: nat)
    requires j < |ts|
    ensures SendsAt(ts, grace, j) <==>
            && ActsAt(ts, grace, j) && ts[j].automatic
            && !exists i :: 0 <= i < j && Standing(ts, grace, i, j) && ts[i].level == ts[j].level
  {
    if ActsAt(ts, grace, j) && ts[j].automatic && !SendsAt(ts, grace, j) {
      var i := RiskOnRecord(ts, grace, j);
    } else if i :| 0 <= i < j && Standing(ts, grace, i, j) && ts[i].level == ts[j].level {
      RiskStays(ts, grace, i, j);
    }
  }

  /** So with another risk in between the same one is sent again, without any restoration. */
  lemma RiskSentAgain()
    ensures var ts := [Tick(Warning1, true), Tick(Warning2, true), Tick(Warning1, true)];
            && SendsAt(ts, 0, 0) && SendsAt(ts, 0, 2)
            && forall m :: 0 <= m < 3 ==> !RestoresAt(ts, 0, m)
  {
    var ts := [Tick(Warning1, true), Tick(Warning2, true), Tick(Warning1, true)];
    assert At(ts, 0, 1) == Guard(0, Warning1, Warning1, false);
    assert At(ts, 0, 2) == Guard(0, Warning2, Warning2, false);
  }

  /** The same risk is not sent twice in a row: in between there was a restoration or another risk. */
  lemma NoRiskTwice(ts: seq<Tick>, grace: nat, i: nat, j: nat)
    requires i < j < |ts| && SendsAt(ts, grace, i) && SendsAt(ts, grace, j)
    requires ts[i].level == ts[j].level
    ensures exists m :: i < m < j && (RestoresAt(ts, grace, m) || (SendsAt(ts, grace, m) && ts[m].level != ts[j].level))
    decreases j - i
  {
    if forall m :: i < m < j ==> !SendsAt(ts, grace, m) && !RestoresAt(ts, grace, m) {
      RiskStays(ts, grace, i, j);
      assert false;
    } else {
      var m :| i < m < j && (SendsAt(ts, grace, m) || RestoresAt(ts, grace, m));
      if SendsAt(ts, grace, m) && ts[m].level == ts[j].level { NoRiskTwice(ts, grace, m, j); }
    }
  }

  // ---- restorations ------------------------------------------------------------------

  /** A risk was sent at `i` and nothing has been restored up to `k`. */
  predicate Outstanding(ts: seq<Tick>, grace: nat, i: nat, k: nat)
    requires i < k <= |ts|
  {
    SendsAt(ts, grace, i) && forall m :: i < m < k ==> !RestoresAt(ts, grace, m)
  }

  lemma {:induction false} AwayFromDefault(ts: seq<Tick>, grace: nat, k: nat) returns (i: nat)
    requires k <= |ts| && !At(ts, grace, k).atDefault
    ensures i < k && Outstanding(ts, grace, i, k)
  {
    if SendsAt(ts, grace, k - 1) {
      i := k - 1;
    } else {
      i := AwayFromDefault(ts, grace, k - 1);
    }
  }

  lemma {:induction false} StaysAway(ts: seq<Tick>, grace: nat, i: nat, k: nat)
    requires i < k <= |ts| && Outstanding(ts, grace, i, k)
    ensures !At(ts, grace, k).atDefault
    decreases k
  {
    if k > i + 1 {
      StaysAway(ts, grace, i, k - 1);
      assert !RestoresAt(ts, grace, k - 1);
    }
  }

  /**
   * The defaults are restored exactly on the second of two calm ticks, in
   * automatic mode, outside the grace periods, if a risk is outstanding.
   */
  lemma RestoresExactly(ts: seq<Tick>, grace: nat, k: nat)
    requires k < |ts|
    ensures RestoresAt(ts, grace, k) <==>
            && k > 0 && ts[k - 1].level == NoProblem && ts[k].level == NoProblem && ts[k].automatic
            && !InGrace(ts, grace, k)
            && exists i :: 0 <= i < k && Outstanding(ts, grace, i, k)
  {
    GraceIs(ts, grace, k);
    if i :| 0 <= i < k && Outstanding(ts, grace, i, k) {
      StaysAway(ts, grace, i, k);
    } else if !At(ts, grace, k).atDefault {
      var i := AwayFromDefault(ts, grace, k);
    }
  }

  /**
   * A restoration comes only after a risk that is still outstanding, and on the
   * second of two consecutive ticks without a problem.
   */
  lemma RestoresOnlyAfterRisk(ts: seq<Tick>, grace: nat, k: nat)
    requires k < |ts| && RestoresAt(ts, grace, k)
    ensures k > 0 && ts[k - 1].level == NoProblem && ts[k].level == NoProblem
    ensures exists i :: 0 <= i < k && Outstanding(ts, grace, i, k)
  {
    var i := AwayFromDefault(ts, grace, k);
  }

  /** Calm that lasts one tick longer than that brings the defaults back, if they are managed at all. */
  lemma LastingCalmRestores(ts: seq<Tick>, grace: nat, i: nat)
    requires i + 1 + grace < |ts|
    requires forall k :: i <= k <= i + 1 + grace ==> ts[k] == Tick(NoProblem, true)
    ensures exists k :: i + 1 < k <= i + 2 + grace && At(ts, grace, k).atDefault
  {
    var k := OutsideGrace(ts, grace, i + 1);
    assert ts[k - 1] == ts[k] == Tick(NoProblem, true);
    assert At(ts, grace, k + 1).atDefault;
  }

  // ---- the process -------------------------------------------------------------------

  class EnergyGuard {
    const window: Window
    const budget: nat
    const limits: Limits
    const grace: nat
    var inAction: nat
    var lastLevel: Level
    var lastRisk: Level
    var atDefault: bool

    ghost function State(): Guard
      reads this
    {
      Guard(inAction, lastLevel, lastRisk, atDefault)
    }

    ghost predicate Valid()
      reads this, window, window.slots
    {
      window.Valid() && budget > 0
    }

    constructor (window: Window, budget: nat, limits: Limits, grace: nat)
      requires window.Valid() && budget > 0
      ensures Valid() && State() == START && this.window == window && this.grace == grace
    {
      this.window, this.budget, this.limits, this.grace := window, budget, limits, grace;
      inAction, lastLevel, lastRisk, atDefault := 0, NoProblem, NoProblem, true;
    }

    /** `create_risk` with its sending: the level becomes the last risk sent. */
    method SendRisk(level: Level)
      modifies this`lastRisk, this`atDefault
      ensures lastRisk == level && !atDefault
    {
      lastRisk := level;
      atDefault := false;
    }

    /** The reaction to a level: which of action, risk and restoration it brings. */
    method React(t: Tick) returns (acts: bool, sends: bool, restores: bool)
      modifies this`inAction, this`lastLevel, this`lastRisk, this`atDefault
      ensures acts == Acts(old(State()), t) && sends == Sends(old(State()), t) && restores == Restores(old(State()), t)
      ensures State() == Next(old(State()), t, grace)
    {
      acts, sends, restores := false, false, false;
      if inAction == 0 {
        match t.level {
          case NoProblem =>
            if t.automatic && lastLevel == NoProblem && !atDefault {
              restores := true;
              lastRisk := NoProblem;
              atDefault := true;
            }
          case _ =>
            acts := true;
            inAction := inAction + grace;
            if t.automatic && lastRisk != t.level {
              sends := true;
              SendRisk(t.level);
            }
        }
      } else {
        inAction := inAction - 1;
      }
      lastLevel := t.level;
    }

    /** One tick T1: `energy` is what the last period consumed. */
    method T1Tick(energy: nat, automatic: bool) returns (level: Level, acts: bool, sends: bool, restores: bool)
      requires Valid()
      modifies this`inAction, this`lastLevel, this`lastRisk, this`atDefault, window, window.slots
      ensures Valid() && window.log == old(window.log) + [energy]
      ensures Recent(window.log, window.slots.Length) >= 0
      ensures level == Defcon(Percent(Recent(window.log, window.slots.Length), budget), limits)
      ensures level == NoProblem <==> !Reached(Recent(window.log, window.slots.Length), budget, limits.l4)
      ensures limits.l4 <= limits.l3 <= limits.l2 ==>
                level == LEVELS[ReachedLimits(Recent(window.log, window.slots.Length), budget, limits)]
      ensures var t := Tick(level, automatic);
              && acts == Acts(old(State()), t)
              && sends == Sends(old(State()), t)
              && restores == Restores(old(State()), t)
              && State() == Next(old(State()), t, grace)
    {
      window.NewEnergySample(energy);
      var e := window.ComputeEnergyT2();
      level := Defcon(Percent(e, budget), limits);
      LevelIs(e, budget, limits);
      acts, sends, restores := React(Tick(level, automatic));
    }
  }
}
