/**
 * How the energy of a node is shared among the contexts of its jobs: first the
 * CPUs of every context are counted anew, then each context is charged by its
 * part of them. CPUs of a job that is not in the list are left out of the total.
 */
module EnergySharing {
  import opened JobTable

  function Lesser(a: nat, b: nat): nat { if a < b then a else b }

  /** The CPUs a context is charged for: those of its tasks, unless it only holds other steps. */
  function CpusOf(app: App, contexts: nat): nat
  {
    if app.isMpi then app.mask
    else if !app.isJob || contexts == 1 then Lesser(app.mask, app.plug)
    else app.cpus
  }

  function Recount(apps: seq<Slot>, jobs: seq<Entry>, i: nat): Slot
    requires i < |apps|
  {
    if i == 0 || apps[i].Free? then apps[i]
    else Used(apps[i].app.(cpus := CpusOf(apps[i].app, RecordedTo(jobs, apps[i].app.job, |jobs|))))
  }

  function Recounted(apps: seq<Slot>, jobs: seq<Entry>): (r: seq<Slot>)
    ensures |r| == |apps|
  {
    seq(|apps|, i requires 0 <= i < |apps| => Recount(apps, jobs, i))
  }

  function Cpus(s: Slot): nat { if s.Used? then s.app.cpus else 0 }

  predicate IsListed(s: Slot, jobs: seq<Entry>) { s.Used? && RecordedTo(jobs, s.app.job, |jobs|) > 0 }

  /** CPUs of all contexts in slots 1 to `k - 1`; slot 0 is the idle context. */
  function AllCpusTo(apps: seq<Slot>, k: nat): nat
    requires k <= |apps|
  {
    if k <= 1 then 0 else AllCpusTo(apps, k - 1) + Cpus(apps[k - 1])
  }

  /** Those of listed jobs. */
  function CpusTo(apps: seq<Slot>, jobs: seq<Entry>, k: nat): nat
    requires k <= |apps|
  {
    if k <= 1 then 0 else CpusTo(apps, jobs, k - 1) + if IsListed(apps[k - 1], jobs) then Cpus(apps[k - 1]) else 0
  }

  /** Those of one job. */
  function JobCpusTo(apps: seq<Slot>, job: nat, k: nat): nat
    requires k <= |apps|
  {
    if k <= 1 then 0 else JobCpusTo(apps, job, k - 1) + if Has(apps[k - 1], job) then Cpus(apps[k - 1]) else 0
  }

  /** How many of these contexts have CPUs. */
  function HoldersTo(apps: seq<Slot>, k: nat): nat
    requires k <= |apps|
  {
    if k <= 1 then 0 else HoldersTo(apps, k - 1) + if Cpus(apps[k - 1]) > 0 then 1 else 0
  }

  function JobsTo(jobs: seq<Entry>, k: nat): nat
    requires k <= |jobs|
  {
    if k == 0 then 0 else JobsTo(jobs, k - 1) + if jobs[k - 1].id != 0 then 1 else 0
  }

  lemma {:induction false} JobsCounted(jobs: seq<Entry>, k: nat)
    requires k <= |jobs|
    ensures JobsTo(jobs, k) == |set i | 0 <= i < k && jobs[i].id != 0|
  {
    if k > 0 {
      JobsCounted(jobs, k - 1);
      var before, now := set i | 0 <= i < k - 1 && jobs[i].id != 0, set i | 0 <= i < k && jobs[i].id != 0;
      assert now == if jobs[k - 1].id != 0 then before + {k - 1} else before;
    }
  }

  /** A positive denominator makes it a fraction. */
  datatype Fraction = Fraction(num: nat, den: nat)

  /**
   * The part of the node's energy a context is charged, with `numJobs` listed
   * jobs in the node. The denominator is zero if only unlisted jobs have CPUs.
   */
  function Ratio(apps: seq<Slot>, jobs: seq<Entry>, numJobs: nat, i: nat): Fraction
    requires 0 < i < |apps| && apps[i].Used?
  {
    var total := CpusTo(apps, jobs, |apps|);
    var ofJob := JobCpusTo(apps, apps[i].app.job, |apps|);
    if apps[i].app.cpus > 0 then (if numJobs > 1 then Fraction(apps[i].app.cpus, total) else Fraction(1, 1))
    else if !IsListed(apps[i], jobs) then Fraction(1, if numJobs > 0 then numJobs else 1)
    else if total > 0 && ofJob > 0 then Fraction(ofJob, total)
    else Fraction(1, 1)
  }

  /** `a` times an even share of the energy among `total`. */
  function Part(energy: real, a: nat, total: nat): real
    requires total > 0
  {
    if a == 0 then 0.0 else Part(energy, a - 1, total) + energy / total as real
  }

  function Charge(apps: seq<Slot>, jobs: seq<Entry>, numJobs: nat, energy: real, i: nat): real
    requires 0 < i < |apps| && apps[i].Used? && Ratio(apps, jobs, numJobs, i).den > 0
  {
    var f := Ratio(apps, jobs, numJobs, i);
    Part(energy, f.num, f.den)
  }

  /** A context after it is charged. */
  function ChargedSlot(apps: seq<Slot>, jobs: seq<Entry>, numJobs: nat, energy: real, i: nat): Slot
    requires i < |apps|
  {
    if i == 0 || apps[i].Free? then apps[i]
    else if Ratio(apps, jobs, numJobs, i).den == 0 then Used(apps[i].app.(broken := true))
    else Used(apps[i].app.(energy := apps[i].app.energy + Charge(apps, jobs, numJobs, energy, i)))
  }

  function Charged(apps: seq<Slot>, jobs: seq<Entry>, numJobs: nat, energy: real): (r: seq<Slot>)
    ensures |r| == |apps|
  {
    seq(|apps|, i requires 0 <= i < |apps| => ChargedSlot(apps, jobs, numJobs, energy, i))
  }

  /** The energy accumulated by the contexts with CPUs in slots 1 to `k - 1`. */
  function EnergyTo(apps: seq<Slot>, k: nat): real
    requires k <= |apps|
  {
    if k <= 1 then 0.0
    else EnergyTo(apps, k - 1) + if Cpus(apps[k - 1]) > 0 then apps[k - 1].app.energy else 0.0
  }

  /** The same of one job. */
  function JobEnergyTo(apps: seq<Slot>, job: nat, k: nat): real
    requires k <= |apps|
  {
    if k <= 1 then 0.0
    else JobEnergyTo(apps, job, k - 1)
         + if Has(apps[k - 1], job) && Cpus(apps[k - 1]) > 0 then apps[k - 1].app.energy else 0.0
  }

  // ---- parts of the energy -----------------------------------------------------------

  lemma OneMore(energy: real, a: nat, total: nat)
    requires total > 0 && a > 0
    ensures energy * (a as real / total as real) == energy * ((a - 1) as real / total as real) + energy / total as real
  {
  }

  /** A charge is the energy times the ratio. */
  lemma {:induction false} PartIs(energy: real, a: nat, total: nat)
    requires total > 0
    ensures Part(energy, a, total) == energy * (a as real / total as real)
  {
    if a > 0 {
      PartIs(energy, a - 1, total);
      OneMore(energy, a, total);
    }
  }

  lemma {:induction false} PartAdds(energy: real, a: nat, b: nat, total: nat)
    requires total > 0
    ensures Part(energy, a + b, total) == Part(energy, a, total) + Part(energy, b, total)
  {
    if b > 0 { PartAdds(energy, a, b - 1, total); }
  }

  lemma ShareSign(energy: real, total: nat)
    requires total > 0
    ensures (energy > 0.0 ==> energy / total as real > 0.0) && (energy < 0.0 ==> energy / total as real < 0.0)
  {
  }

  lemma {:induction false} PartSign(energy: real, a: nat, total: nat)
    requires total > 0 && a > 0
    ensures (energy > 0.0 ==> Part(energy, a, total) > 0.0) && (energy < 0.0 ==> Part(energy, a, total) < 0.0)
  {
    ShareSign(energy, total);
    if a > 1 { PartSign(energy, a - 1, total); }
  }

  lemma PartOfAll(energy: real, total: nat)
    requires total > 0
    ensures Part(energy, total, total) == energy
  {
    PartIs(energy, total, total);
    assert total as real / total as real == 1.0;
  }

  /** A part is the whole only if all shares are in it. */
  lemma PartWhole(energy: real, a: nat, total: nat)
    requires total > 0 && energy != 0.0
    ensures Part(energy, a, total) == energy <==> a == total
  {
    PartOfAll(energy, total);
    if a < total {
      PartAdds(energy, a, total - a, total);
      PartSign(energy, total - a, total);
    } else if a > total {
      PartAdds(energy, total, a - total, total);
      PartSign(energy, a - total, total);
    }
  }

  /** The joules of a sample: power times a ratio times the seconds. */
  method Joules(power: real, time: nat, num: nat, den: nat) returns (joules: real)
    requires den > 0
    ensures joules == Part(power * time as real, num, den)
  {
    var ratio := num as real / den as real;
    joules := power * ratio * time as real;
    PartIs(power * time as real, num, den);
    assert power * ratio * time as real == power * time as real * ratio;
  }

  // ---- which CPUs are counted --------------------------------------------------------

  /**
   * The CPUs a context is charged for: those in the mask of an MPI step; for
   * another step, and for a job listed with one context, the lesser of mask and
   * plugin; any other job keeps those it had.
   */
  lemma CpusCounted(apps: seq<Slot>, jobs: seq<Entry>, i: nat)
    requires ListOk(apps, jobs) && 0 < i < |apps| && apps[i].Used? && apps[i].app.job > 0
    ensures var a, s := apps[i].app, Recounted(apps, jobs)[i];
            var alone := exists k :: 0 <= k < |jobs| && jobs[k].id == a.job && jobs[k].contexts == 1;
            && s.Used? && s.app == a.(cpus := s.app.cpus)
            && (a.isMpi ==> s.app.cpus == a.mask)
            && (!a.isMpi && (!a.isJob || alone) ==>
                  && s.app.cpus <= a.mask && s.app.cpus <= a.plug
                  && (s.app.cpus == a.mask || s.app.cpus == a.plug))
            && (!a.isMpi && a.isJob && !alone ==> s.app.cpus == a.cpus)
  {
    RecordedRight(apps, jobs, apps[i].app.job);
    if k :| 0 <= k < |jobs| && jobs[k].id == apps[i].app.job { RecordedAt(jobs, k, |jobs|); }
  }

  /** CPUs in the masks of the contexts in slots 1 to `k - 1`. */
  function MasksTo(apps: seq<Slot>, k: nat): nat
    requires k <= |apps|
  {
    if k <= 1 then 0 else MasksTo(apps, k - 1) + if apps[k - 1].Used? then apps[k - 1].app.mask else 0
  }

  /** There are only MPI steps, all of listed jobs. */
  predicate OnlyListedMpi(apps: seq<Slot>, jobs: seq<Entry>)
  {
    forall i :: 0 < i < |apps| && apps[i].Used? ==>
      apps[i].app.isMpi && apps[i].app.job > 0 && Listed(jobs, apps[i].app.job)
  }

  lemma {:induction false} MasksCounted(apps: seq<Slot>, jobs: seq<Entry>, k: nat)
    requires k <= |apps| && ListOk(apps, jobs) && OnlyListedMpi(apps, jobs)
    ensures CpusTo(Recounted(apps, jobs), jobs, k) == MasksTo(apps, k)
  {
    if k > 1 {
      MasksCounted(apps, jobs, k - 1);
      if apps[k - 1].Used? { RecordedRight(apps, jobs, apps[k - 1].app.job); }
    }
  }

  lemma {:induction false} MaskWithin(apps: seq<Slot>, i: nat, k: nat)
    requires 0 < i < k <= |apps| && apps[i].Used?
    ensures apps[i].app.mask <= MasksTo(apps, k)
  {
    if i < k - 1 { MaskWithin(apps, i, k - 1); }
  }

  /** A context is charged the energy times its ratio, unless that is divided by zero. */
  lemma GainIs(apps: seq<Slot>, jobs: seq<Entry>, numJobs: nat, energy: real, i: nat, num: nat, den: nat)
    requires 0 < i < |apps| && apps[i].Used? && den > 0 && Ratio(apps, jobs, numJobs, i) == Fraction(num, den)
    ensures Charged(apps, jobs, numJobs, energy)[i]
            == Used(apps[i].app.(energy := apps[i].app.energy + energy * (num as real / den as real)))
  {
    PartIs(energy, num, den);
  }

  /** MPI steps of several jobs share the energy by their masks, whatever the plugin announced. */
  lemma ChargedByMask(apps: seq<Slot>, jobs: seq<Entry>, numJobs: nat, energy: real, i: nat)
    requires ListOk(apps, jobs) && OnlyListedMpi(apps, jobs) && numJobs > 1
    requires 0 < i < |apps| && apps[i].Used? && apps[i].app.mask > 0
    ensures var a, all := apps[i].app, MasksTo(apps, |apps|);
            && all > 0
            && Charged(Recounted(apps, jobs), jobs, numJobs, energy)[i]
               == Used(a.(cpus := a.mask, energy := a.energy + energy * (a.mask as real / all as real)))
  {
    MasksCounted(apps, jobs, |apps|);
    MaskWithin(apps, i, |apps|);
    GainIs(Recounted(apps, jobs), jobs, numJobs, energy, i, apps[i].app.mask, MasksTo(apps, |apps|));
  }

  /** A context with CPUs is charged its part of them, or everything if only one job is listed. */
  lemma ChargedWithCpus(apps: seq<Slot>, jobs: seq<Entry>, numJobs: nat, energy: real, i: nat)
    requires 0 < i < |apps| && apps[i].Used? && apps[i].app.cpus > 0 && numJobs > 0
    requires numJobs > 1 ==> CpusTo(apps, jobs, |apps|) > 0
    ensures var a, s := apps[i].app, Charged(apps, jobs, numJobs, energy)[i];
            && s.Used?
            && s.app.energy == a.energy + if numJobs == 1 then energy
                                          else energy * (a.cpus as real / CpusTo(apps, jobs, |apps|) as real)
  {
    var f := Ratio(apps, jobs, numJobs, i);
    GainIs(apps, jobs, numJobs, energy, i, f.num, f.den);
  }

  /**
   * A context without CPUs is charged the part of its job; everything, if that
   * has none; and an equal share by the number of jobs, if it is not listed.
   */
  lemma ChargedWithoutCpus(apps: seq<Slot>, jobs: seq<Entry>, numJobs: nat, energy: real, i: nat)
    requires ListOk(apps, jobs) && 0 < i < |apps| && apps[i].Used? && apps[i].app.job > 0 && numJobs > 0
    requires apps[i].app.cpus == 0
    ensures var a, s := apps[i].app, Charged(apps, jobs, numJobs, energy)[i];
            var total, ofJob := CpusTo(apps, jobs, |apps|), JobCpusTo(apps, a.job, |apps|);
            && s.Used?
            && (!Listed(jobs, a.job) ==> s.app.energy == a.energy + energy * (1 as real / numJobs as real))
            && (Listed(jobs, a.job) && ofJob == 0 ==> s.app.energy == a.energy + energy)
            && (Listed(jobs, a.job) && ofJob > 0 ==>
                  total > 0 && s.app.energy == a.energy + energy * (ofJob as real / total as real))
  {
    var f := Ratio(apps, jobs, numJobs, i);
    RecordedRight(apps, jobs, apps[i].app.job);
    if Listed(jobs, apps[i].app.job) { JobWithinTotal(apps, jobs, apps[i].app.job, |apps|); }
    GainIs(apps, jobs, numJobs, energy, i, f.num, f.den);
  }

  // ---- what is charged in all --------------------------------------------------------

  /** Several jobs: contexts with CPUs gain the energy in parts of the listed CPUs. */
  lemma {:induction false} SharedTo(apps: seq<Slot>, jobs: seq<Entry>, numJobs: nat, energy: real, k: nat)
    requires k <= |apps| && CpusTo(apps, jobs, |apps|) > 0 && numJobs > 1
    ensures EnergyTo(Charged(apps, jobs, numJobs, energy), k)
            == EnergyTo(apps, k) + Part(energy, AllCpusTo(apps, k), CpusTo(apps, jobs, |apps|))
  {
    if k > 1 {
      SharedTo(apps, jobs, numJobs, energy, k - 1);
      PartAdds(energy, AllCpusTo(apps, k - 1), Cpus(apps[k - 1]), CpusTo(apps, jobs, |apps|));
    }
  }

  lemma {:induction false} JobSharedTo(apps: seq<Slot>, jobs: seq<Entry>, numJobs: nat, energy: real, job: nat, k: nat)
    requires k <= |apps| && CpusTo(apps, jobs, |apps|) > 0 && numJobs > 1
    ensures JobEnergyTo(Charged(apps, jobs, numJobs, energy), job, k)
            == JobEnergyTo(apps, job, k) + Part(energy, JobCpusTo(apps, job, k), CpusTo(apps, jobs, |apps|))
  {
    if k > 1 {
      JobSharedTo(apps, jobs, numJobs, energy, job, k - 1);
      PartAdds(energy, JobCpusTo(apps, job, k - 1), Cpus(apps[k - 1]), CpusTo(apps, jobs, |apps|));
    }
  }

  /** A single job: each of them gains all of it. */
  lemma {:induction false} AllChargedTo(apps: seq<Slot>, jobs: seq<Entry>, energy: real, k: nat)
    requires k <= |apps|
    ensures EnergyTo(Charged(apps, jobs, 1, energy), k) == EnergyTo(apps, k) + Part(energy, HoldersTo(apps, k), 1)
  {
    if k > 1 {
      AllChargedTo(apps, jobs, energy, k - 1);
      PartAdds(energy, HoldersTo(apps, k - 1), 1, 1);
    }
  }

  /** Without listed CPUs nothing is shared: whoever has CPUs is divided by zero. */
  lemma {:induction false} NothingSharedTo(apps: seq<Slot>, jobs: seq<Entry>, numJobs: nat, energy: real, k: nat)
    requires k <= |apps| && CpusTo(apps, jobs, |apps|) == 0 && numJobs > 1
    ensures EnergyTo(Charged(apps, jobs, numJobs, energy), k) == EnergyTo(apps, k)
  {
    if k > 1 { NothingSharedTo(apps, jobs, numJobs, energy, k - 1); }
  }

  /**
   * The contexts with CPUs gain exactly the energy of the node if several listed
   * jobs share it, some of them has CPUs and no unlisted one has. With a single
   * listed job each of them gains all of it, so the sum is right exactly if there
   * is just one.
   */
  lemma EnergySharedExactly(apps: seq<Slot>, jobs: seq<Entry>, numJobs: nat, energy: real)
    requires numJobs > 0 && energy != 0.0
    ensures EnergyTo(Charged(apps, jobs, numJobs, energy), |apps|) == EnergyTo(apps, |apps|) + energy
            <==> if numJobs > 1 then AllCpusTo(apps, |apps|) == CpusTo(apps, jobs, |apps|) > 0
                 else HoldersTo(apps, |apps|) == 1
  {
    if numJobs == 1 {
      AllChargedTo(apps, jobs, energy, |apps|);
      PartWhole(energy, HoldersTo(apps, |apps|), 1);
    } else if CpusTo(apps, jobs, |apps|) == 0 {
      NothingSharedTo(apps, jobs, numJobs, energy, |apps|);
    } else {
      SharedTo(apps, jobs, numJobs, energy, |apps|);
      PartWhole(energy, AllCpusTo(apps, |apps|), CpusTo(apps, jobs, |apps|));
    }
  }

  /** With every job listed, all CPUs are in the total. */
  lemma {:induction false} AllListedTo(apps: seq<Slot>, jobs: seq<Entry>, k: nat)
    requires k <= |apps| && forall i :: 0 < i < |apps| && apps[i].Used? ==> Exact(apps, jobs, apps[i].app.job)
    ensures AllCpusTo(apps, k) == CpusTo(apps, jobs, k)
  {
    if k > 1 {
      AllListedTo(apps, jobs, k - 1);
      if apps[k - 1].Used? { JobCounted(apps, apps[k - 1].app.job, k - 1, |apps|); }
    }
  }

  /** No charge is divided by zero exactly if a listed job has CPUs, or none has, or only one job is listed. */
  lemma BrokenExactly(apps: seq<Slot>, jobs: seq<Entry>, numJobs: nat, energy: real, i: nat)
    requires 0 < i < |apps| && apps[i].Used? && !apps[i].app.broken && numJobs > 0
    ensures var s := Charged(apps, jobs, numJobs, energy)[i];
            s.Used? && (s.app.broken <==> numJobs > 1 && apps[i].app.cpus > 0 && CpusTo(apps, jobs, |apps|) == 0)
  {
  }

  /** A context without CPUs of a listed job is charged what the others of its job gain together. */
  lemma BatchChargedLikeItsSteps(apps: seq<Slot>, jobs: seq<Entry>, numJobs: nat, energy: real, i: nat)
    requires 0 < i < |apps| && apps[i].Used? && apps[i].app.cpus == 0 && numJobs > 1
    requires IsListed(apps[i], jobs) && JobCpusTo(apps, apps[i].app.job, |apps|) > 0
    ensures var after, job := Charged(apps, jobs, numJobs, energy), apps[i].app.job;
            && after[i].Used?
            && after[i].app.energy - apps[i].app.energy
               == JobEnergyTo(after, job, |apps|) - JobEnergyTo(apps, job, |apps|)
  {
    JobWithinTotal(apps, jobs, apps[i].app.job, |apps|);
    JobSharedTo(apps, jobs, numJobs, energy, apps[i].app.job, |apps|);
  }

  lemma {:induction false} JobWithinTotal(apps: seq<Slot>, jobs: seq<Entry>, job: nat, k: nat)
    requires k <= |apps| && RecordedTo(jobs, job, |jobs|) > 0
    ensures JobCpusTo(apps, job, k) <= CpusTo(apps, jobs, k)
  {
    if k > 1 { JobWithinTotal(apps, jobs, job, k - 1); }
  }

  // ---- counting ----------------------------------------------------------------------

  /** Slots that differ at most in CPUs and energy. */
  predicate Alike(s: seq<Slot>, t: seq<Slot>)
  {
    |s| == |t| && forall i :: 0 <= i < |s| ==>
      s[i].Used? == t[i].Used? && (s[i].Used? ==> s[i].app.job == t[i].app.job && s[i].app.step == t[i].app.step)
  }

  /** Entries that differ at most in CPUs. */
  predicate AlikeJobs(jobs: seq<Entry>, list: seq<Entry>)
  {
    |jobs| == |list| && forall k :: 0 <= k < |jobs| ==> list[k].id == jobs[k].id && list[k].contexts == jobs[k].contexts
  }

  lemma {:induction false} AlikeCounts(s: seq<Slot>, t: seq<Slot>, job: nat, k: nat)
    requires Alike(s, t) && k <= |s|
    ensures UsedTo(s, k) == UsedTo(t, k) && JobTo(s, job, k) == JobTo(t, job, k)
  {
    if k > 0 { AlikeCounts(s, t, job, k - 1); }
  }

  lemma {:induction false} AlikeRecorded(jobs: seq<Entry>, list: seq<Entry>, job: nat, k: nat)
    requires AlikeJobs(jobs, list) && k <= |jobs|
    ensures RecordedTo(jobs, job, k) == RecordedTo(list, job, k)
  {
    if k > 0 { AlikeRecorded(jobs, list, job, k - 1); }
  }

  /** CPUs and energy play no part in the table's invariant. */
  lemma AlikeOk(s: seq<Slot>, t: seq<Slot>, jobs: seq<Entry>, list: seq<Entry>, num: nat, max: nat)
    requires Alike(s, t) && AlikeJobs(jobs, list) && SlotsOk(s, num, max) && ListOk(s, jobs)
    ensures SlotsOk(t, num, max) && ListOk(t, list)
    ensures forall j :: j > 0 ==> (Exact(t, list, j) <==> Exact(s, jobs, j))
  {
    AlikeCounts(s, t, 0, |s|);
    forall k | 0 <= k < |jobs|
      ensures EntryOk(t, list[k])
    {
      assert EntryOk(s, jobs[k]);
      AlikeCounts(s, t, jobs[k].id, |s|);
    }
    forall j | j > 0
      ensures Exact(t, list, j) <==> Exact(s, jobs, j)
    {
      AlikeCounts(s, t, j, |s|);
      AlikeRecorded(jobs, list, j, |jobs|);
    }
  }

  /** Beyond the highest slot in use nothing is added. */
  lemma {:induction false} NothingBeyond(apps: seq<Slot>, jobs: seq<Entry>, job: nat, m: nat, k: nat)
    requires 1 <= m <= k <= |apps| && forall i :: m <= i < k ==> apps[i].Free?
    ensures CpusTo(apps, jobs, k) == CpusTo(apps, jobs, m) && JobCpusTo(apps, job, k) == JobCpusTo(apps, job, m)
    decreases k
  {
    if m < k { NothingBeyond(apps, jobs, job, m, k - 1); }
  }
}
