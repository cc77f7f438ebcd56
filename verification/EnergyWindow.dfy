/**
 * The energy of the last period T2, kept as a ring of one value for each
 * period T1. Its sum is shown to be that of the most recent values.
 */
module EnergyWindow {
  import opened Sums

  /** `energy_consumed`, `current_sample` and `total_samples`. */
  datatype Ring = Ring(slots: seq<nat>, current: nat, total: nat)

  predicate Sane(r: Ring) { 0 < |r.slots| && r.current < |r.slots| && r.total <= |r.slots| }

  function Push(r: Ring, x: nat): (q: Ring)
    requires Sane(r)
    ensures Sane(q) && |q.slots| == |r.slots|
  {
    Ring(r.slots[r.current := x], if r.current + 1 == |r.slots| then 0 else r.current + 1,
         if r.total < |r.slots| then r.total + 1 else r.total)
  }

  /** All slots hold an equal share of the energy of the past. */
  function Filled(n: nat, energy: nat): (r: Ring)
    requires n > 0
    ensures Sane(r) && |r.slots| == n
  {
    Ring(Past(n, energy / n), 0, n)
  }

  function Past(n: nat, share: nat): (r: seq<nat>)
    ensures |r| == n
  {
    seq(n, _ => share)
  }

  function PushAll(r: Ring, xs: seq<nat>, k: nat): (q: Ring)
    requires Sane(r) && k <= |xs|
    ensures Sane(q) && |q.slots| == |r.slots|
  {
    if k == 0 then r else Push(PushAll(r, xs, k - 1), xs[k - 1])
  }

  /** What `compute_energy_t2` adds up. */
  function Energy(r: Ring): int
    requires Sane(r)
  {
    SumTo(r.slots, r.total)
  }

  // ---- the log it stands for ---------------------------------------------------------

  /** The sum of the last `n` values of a log, or of all of them if there are fewer. */
  function Recent(log: seq<nat>, n: nat): int { Sum(log) - SumTo(log, Monus(|log|, n)) }

  /** How many values slot `i` lies after the oldest one in the ring. */
  function Age(r: Ring, i: nat): nat
    requires Sane(r) && i < |r.slots|
  {
    if i >= r.current then i - r.current else i - r.current + |r.slots|
  }

  /** The ring holds the most recent values of the log, oldest at `current`. */
  predicate Holds(r: Ring, log: seq<nat>)
  {
    && Sane(r)
    && r.total == Min(|log|, |r.slots|)
    && (|log| < |r.slots| ==> r.current == |log| && forall i :: 0 <= i < |log| ==> r.slots[i] == log[i])
    && (|log| >= |r.slots| ==>
          forall i {:trigger r.slots[i]} :: 0 <= i < |r.slots| ==> r.slots[i] == log[|log| - |r.slots| + Age(r, i)])
  }

  lemma PushHolds(r: Ring, log: seq<nat>, x: nat)
    requires Holds(r, log)
    ensures Holds(Push(r, x), log + [x])
  {
  }

  lemma RecentAppend(log: seq<nat>, x: nat, n: nat)
    requires n > 0
    ensures Recent(log + [x], n) == Recent(log, n) + x - if |log| < n then 0 else log[|log| - n]
  {
    SumSame(log + [x], log, |log|);
    SumSame(log + [x], log, Monus(|log|, n));
  }

  lemma PushEnergy(r: Ring, log: seq<nat>, x: nat)
    requires Holds(r, log) && Energy(r) == Recent(log, |r.slots|)
    ensures Energy(Push(r, x)) == Recent(log + [x], |r.slots|)
  {
    var n := |r.slots|;
    RecentAppend(log, x, n);
    if |log| < n {
      SumSame(Push(r, x).slots, r.slots, |log|);
    } else {
      SumUpdate(r.slots, r.current, x, n);
      assert r.slots[r.current] == log[|log| - n];
    }
  }

  /** A ring of equal values holds them as its log. */
  lemma EvenRing(n: nat, share: nat)
    requires n > 0
    ensures var r := Ring(Past(n, share), 0, n);
            Holds(r, Past(n, share)) && Energy(r) == Recent(Past(n, share), n)
  {
  }

  /**
   * However many values have been taken in, the ring adds up to the last T2/T1
   * of them, the equal shares of the initial fill counting as past values.
   */
  lemma {:induction false} RingIsRecentEnergy(n: nat, energy: nat, xs: seq<nat>, k: nat)
    requires n > 0 && k <= |xs|
    ensures var r, log := PushAll(Filled(n, energy), xs, k), Past(n, energy / n) + xs[..k];
            Holds(r, log) && Energy(r) == Recent(log, n)
  {
    var past := Past(n, energy / n);
    if k == 0 {
      assert past + xs[..0] == past;
      EvenRing(n, energy / n);
    } else {
      RingIsRecentEnergy(n, energy, xs, k - 1);
      assert past + xs[..k] == past + xs[..k - 1] + [xs[k - 1]];
      var r := PushAll(Filled(n, energy), xs, k - 1);
      PushHolds(r, past + xs[..k - 1], xs[k - 1]);
      PushEnergy(r, past + xs[..k - 1], xs[k - 1]);
    }
  }

  /** Spreading the energy of the past loses less than one unit per slot. */
  lemma FillLoss(n: nat, energy: nat)
    requires n > 0
    ensures 0 <= energy - Energy(Filled(n, energy)) < n
  {
    SumConst(Filled(n, energy).slots, energy / n, n);
  }

  /** The number of slots: as many periods T1 as it takes to cover T2, and no more. */
  method AggregateSamples(periodT1: nat, periodT2: nat) returns (n: nat)
    requires periodT1 > 0 && periodT2 > 0
    ensures n > 0 && (n - 1) * periodT1 < periodT2 <= n * periodT1
  {
    n := periodT2 / periodT1;
    assert periodT2 == periodT1 * n + periodT2 % periodT1;
    if periodT2 % periodT1 != 0 {
      n := n + 1;
    }
  }

  /** The index moves on and wraps around at the end of the ring. */
  method NextSlot(current: nat, n: nat) returns (next: nat)
    requires current < n
    ensures next == if current + 1 == n then 0 else current + 1
  {
    next := (current + 1) % n;
  }

  class Window {
    const slots: array<nat>
    var current: nat
    var total: nat
    ghost var log: seq<nat>

    ghost function State(): Ring
      reads this, slots
    {
      Ring(slots[..], current, total)
    }

    ghost predicate Valid()
      reads this, slots
    {
      Holds(State(), log) && Energy(State()) == Recent(log, slots.Length)
    }

    /** One slot for each period T1 in T2, a last partial one included, filled with the past. */
    constructor (periodT1: nat, periodT2: nat, energy: nat)
      requires periodT1 > 0 && periodT2 > 0
      ensures Valid() && fresh(slots)
      ensures (slots.Length - 1) * periodT1 < periodT2 <= slots.Length * periodT1
      ensures State() == Filled(slots.Length, energy)
    {
      var n := AggregateSamples(periodT1, periodT2);
      slots := new nat[n];
      current, total := 0, 0;
      log := Past(n, energy / n);
      new;
      FillPeriods(energy);
    }

    /** `fill_periods`. */
    method FillPeriods(energy: nat)
      requires slots.Length > 0
      modifies this, slots
      ensures Valid() && State() == Filled(slots.Length, energy)
      ensures log == Past(slots.Length, energy / slots.Length)
    {
      FillWith(energy / slots.Length);
    }

    method FillWith(share: nat)
      requires slots.Length > 0
      modifies this, slots
      ensures Valid() && State() == Ring(log, 0, slots.Length) && log == Past(slots.Length, share)
    {
      for i := 0 to slots.Length
        invariant forall j :: 0 <= j < i ==> slots[j] == share
      {
        slots[i] := share;
      }
      total, current := slots.Length, 0;
      log := Past(slots.Length, share);
      assert slots[..] == log;
      EvenRing(slots.Length, share);
    }

    /** `new_energy_sample`. */
    method NewEnergySample(x: nat)
      requires Valid()
      modifies this, slots
      ensures Valid() && State() == Push(old(State()), x) && log == old(log) + [x]
    {
      PushHolds(State(), log, x);
      PushEnergy(State(), log, x);
      slots[current] := x;
      current := NextSlot(current, slots.Length);
      if total < slots.Length {
        total := total + 1;
      }
      log := log + [x];
    }

    /** `compute_energy_t2`: the energy of the most recent values. */
    method ComputeEnergyT2() returns (energy: nat)
      requires Valid()
      ensures energy == Recent(log, slots.Length)
    {
      energy := 0;
      var limit := slots.Length;
      if total < slots.Length {
        limit := total;
      }
      for i := 0 to limit
        invariant energy == SumTo(slots[..], i)
      {
        energy := energy + slots[i];
      }
    }
  }
}
