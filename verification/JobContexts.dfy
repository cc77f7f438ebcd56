/**
 * The context management of the node daemon: `current_ear_app`, the list of
 * jobs in the node and their two counters, over creations, ends and clean-ups.
 */
module JobContexts {
  import opened JobTable
  import opened EnergySharing

  const IDLE := App(0, 0, false, false, 0, 0, 0, 0.0, false)

  class Contexts {
    /** MAX_NESTED_LEVELS slots and MAX_CPUS_SUPPORTED jobs. */
    const apps: array<Slot>
    const jobs: array<Entry>
    var numContexts: nat
    var maxContext: nat

    ghost predicate Slotted()
      reads this, apps
    {
      SlotsOk(apps[..], numContexts, maxContext)
    }

    ghost predicate Valid()
      reads this, apps, jobs
    {
      Slotted() && ListOk(apps[..], jobs[..])
    }

    /** `init_contexts` and the idle context. */
    constructor (slots: nat, entries: nat)
      requires slots > 0
      ensures Valid() && fresh(apps) && fresh(jobs)
      ensures apps.Length == slots && jobs.Length == entries
      ensures apps[0] == Used(IDLE) && forall i :: 0 < i < slots ==> apps[i].Free?
      ensures forall j :: j > 0 ==> Exact(apps[..], jobs[..], j)
    {
      apps := new Slot[slots](i => if i == 0 then Used(IDLE) else Free);
      jobs := new Entry[entries](_ => Entry(0, 0, 0));
      numContexts, maxContext := 1, 0;
      new;
      OnlyIdle(apps[..], jobs[..]);
    }

    /** The position of a job in the list, or the length of the list. */
    method FindJob(id: nat) returns (k: nat)
      ensures k <= jobs.Length && (k < jobs.Length ==> jobs[k].id == id)
      ensures forall j :: 0 <= j < k ==> jobs[j].id != id
      ensures k < jobs.Length <==> Listed(jobs[..], id)
    {
      k := 0;
      while k < jobs.Length && jobs[k].id != id
        invariant k <= jobs.Length
        invariant forall j :: 0 <= j < k ==> jobs[j].id != id
      {
        k := k + 1;
      }
      assert k < jobs.Length ==> jobs[..][k].id == id;
      assert forall j :: 0 <= j < jobs.Length ==> jobs[..][j] == jobs[j];
    }

    /** `add_job_in_node`: one more context for a job; fails if it is new and the list is full. */
    method AddJob(id: nat) returns (recorded: bool, ghost k: nat)
      requires id > 0
      modifies jobs
      ensures recorded <==> Listed(old(jobs[..]), id) || Listed(old(jobs[..]), 0)
      ensures recorded ==> k < jobs.Length && jobs[..] == Entered(old(jobs[..]), id, k)
      ensures recorded ==> old(jobs[k]).id == id || (old(jobs[k]).id == 0 && !Listed(old(jobs[..]), id))
      ensures recorded ==> forall j :: 0 <= j < k ==> old(jobs[j]).id != old(jobs[k]).id
      ensures !recorded ==> jobs[..] == old(jobs[..])
    {
      var i := FindJob(id);
      k := i;
      if i < jobs.Length {
        jobs[i] := jobs[i].(contexts := jobs[i].contexts + 1);
        return true, i;
      }
      i := FindJob(0);
      k := i;
      if i == jobs.Length {
        return false, i;
      }
      jobs[i] := jobs[i].(id := id, contexts := 1);
      return true, i;
    }

    /** `del_job_in_node`: one context less, the last one frees the entry; an unlisted job is ignored. */
    method DelJob(id: nat) returns (ghost k: nat)
      requires id > 0 && forall j :: 0 <= j < jobs.Length && jobs[j].id == id ==> jobs[j].contexts > 0
      modifies jobs
      ensures !Listed(old(jobs[..]), id) ==> jobs[..] == old(jobs[..])
      ensures Listed(old(jobs[..]), id) ==>
                && k < jobs.Length && old(jobs[k]).id == id && old(jobs[k]).contexts > 0
                && jobs[..] == Left(old(jobs[..]), k)
    {
      var i := FindJob(id);
      k := i;
      if i < jobs.Length {
        var rest := jobs[i].contexts - 1;
        jobs[i] := jobs[i].(contexts := rest);
        if rest == 0 {
          jobs[i] := jobs[i].(id := 0);
        }
      }
    }

    /** The first free slot, or -1 if all are used. */
    method FindEmptyContext() returns (pos: int)
      requires Slotted()
      ensures pos == -1 <==> numContexts == apps.Length
      ensures pos != -1 ==> 0 < pos < apps.Length && apps[pos].Free? && forall i :: 0 <= i < pos ==> apps[i].Used?
    {
      if numContexts == apps.Length {
        return -1;
      }
      var i := 0;
      while i < apps.Length && apps[i].Used?
        invariant i <= apps.Length
        invariant forall j :: 0 <= j < i ==> apps[j].Used?
      {
        i := i + 1;
      }
      if i == apps.Length {
        AllUsed(apps[..], apps.Length);
        assert false;
      }
      SomeFree(apps[..], i, apps.Length);
      return i;
    }

    /**
     * The first context of a job step, or -1: the search stops at the highest
     * slot in use, and yet no context anywhere is missed.
     */
    method FindContext(job: nat, step: nat) returns (pos: int)
      requires Slotted()
      ensures pos == -1 <==> forall i :: 0 <= i < apps.Length ==> !(Has(apps[i], job) && apps[i].app.step == step)
      ensures pos != -1 ==> 0 <= pos < apps.Length && Has(apps[pos], job) && apps[pos].app.step == step
    {
      var i := 0;
      while i <= maxContext
        invariant 0 <= i <= maxContext + 1
        invariant forall j :: 0 <= j < i ==> !(Has(apps[j], job) && apps[j].app.step == step)
      {
        if apps[i].Used? && apps[i].app.job == job && apps[i].app.step == step {
          return i;
        }
        i := i + 1;
      }
      assert forall j :: maxContext < j < apps.Length ==> apps[..][j].Free?;
      return -1;
    }

    /**
     * `new_context`: a free slot for a new job step. It fails when all slots are
     * used. The list goes on counting a job right exactly if it can take it.
     */
    method NewContext(app: App) returns (pos: int, recorded: bool)
      requires Valid() && app.job > 0
      modifies this, apps, jobs
      ensures Valid()
      ensures pos == -1 <==> old(numContexts) == apps.Length
      ensures pos == -1 ==> apps[..] == old(apps[..]) && jobs[..] == old(jobs[..])
      ensures pos != -1 ==> 0 < pos < apps.Length && old(apps[pos]).Free? && apps[..] == old(apps[..])[pos := Used(app)]
      ensures pos != -1 ==> forall i :: 0 <= i < pos ==> old(apps[i]).Used?
      ensures pos != -1 ==> (recorded <==> Listed(old(jobs[..]), app.job) || Listed(old(jobs[..]), 0))
      ensures forall j :: j > 0 ==>
                (Exact(apps[..], jobs[..], j) <==>
                 Exact(old(apps[..]), old(jobs[..]), j) && (pos == -1 || recorded || j != app.job))
    {
      recorded := false;
      pos := FindEmptyContext();
      if pos == -1 {
        return;
      }
      ghost var before, list := apps[..], jobs[..];
      assert before == old(apps[..]) && list == old(jobs[..]);
      UsedUpdate(before, pos, Used(app), |before|);
      apps[pos] := Used(app);
      assert apps[..] == before[pos := Used(app)];
      if pos > maxContext {
        maxContext := pos;
      }
      ghost var k;
      recorded, k := AddJob(app.job);
      numContexts := numContexts + 1;
      if recorded {
        EnteredOk(before, list, pos, app, k);
        assert jobs[..] == Entered(list, app.job, k);
      } else {
        UnrecordedOk(before, list, pos, app);
        assert jobs[..] == list;
      }
      assert apps[..] == before[pos := Used(app)];
      assert forall j :: j > 0 ==>
          (Exact(apps[..], jobs[..], j) <==> Exact(before, list, j) && (recorded || j != app.job));
    }

    /** The highest slot in use among the first `bound + 1`; slot 0 always is. */
    method HighestUsed(bound: nat) returns (max: nat)
      requires bound < apps.Length && apps[0].Used?
      ensures max <= bound && apps[max].Used?
      ensures forall i :: max < i <= bound ==> apps[i].Free?
    {
      max := 0;
      for i := 0 to bound + 1
        invariant max < apps.Length && max <= bound && apps[max].Used?
        invariant forall j :: max < j < i ==> apps[j].Free?
      {
        if apps[i].Used? && i > max {
          max := i;
        }
      }
    }

    /**
     * `end_context`: the slot is free again and its job has one context less. A
     * job the list does not have is right again once its last context ends.
     */
    method EndContext(cc: nat)
      requires Valid() && 0 < cc < apps.Length
      modifies this, apps, jobs
      ensures Valid()
      ensures apps[..] == old(apps[..])[cc := Free]
      ensures maxContext <= old(maxContext)
      ensures cc != old(maxContext) ==> maxContext == old(maxContext)
      ensures forall j :: j > 0 ==>
                (Exact(apps[..], jobs[..], j) <==>
                 Exact(old(apps[..]), old(jobs[..]), j)
                 || (Has(old(apps[..])[cc], j) && !Listed(old(jobs[..]), j)
                   && JobTo(old(apps[..]), j, apps.Length) == 1))
    {
      ghost var before, list := apps[..], jobs[..];
      assert before == old(apps[..]) && list == old(jobs[..]);
      if apps[cc].Free? {
        assert before[cc := Free] == before;
        return;
      }
      var job := apps[cc].app.job;
      ghost var listed := Listed(list, job);
      Positive(before, list, job);
      ghost var k := DelJob(job);
      if listed { LeftOk(before, list, cc, k); } else { UnlistedLeftOk(before, list, cc); }
      UsedUpdate(before, cc, Free, |before|);
      numContexts := numContexts - 1;
      apps[cc] := Free;
      assert apps[..] == before[cc := Free];
      assert jobs[..] == if listed then Left(list, k) else list;
      assert forall j :: j > 0 ==>
          (Exact(apps[..], jobs[..], j) <==>
           Exact(before, list, j) || (Has(before[cc], j) && !Listed(list, j) && JobTo(before, j, |before|) == 1));
      if cc == maxContext {
        var top := maxContext;
        maxContext := HighestUsed(top);
      }
    }

    /**
     * `clean_job_contexts`: ends every context of a job and no other, although
     * the bound of the loop shrinks while it runs. The job is right afterwards
     * even if the list had missed some of its contexts.
     */
    method CleanJob(job: nat)
      requires Valid() && job > 0
      modifies this, apps, jobs
      ensures Valid()
      ensures forall i :: 0 <= i < apps.Length ==> apps[i] == if Has(old(apps[i]), job) then Free else old(apps[i])
      ensures !Listed(jobs[..], job)
      ensures forall j :: j > 0 ==> (Exact(apps[..], jobs[..], j) <==>
              Exact(old(apps[..]), old(jobs[..]), j) || j == job)
    {
      var i := 0;
      while i <= maxContext
        invariant Valid() && maxContext <= old(maxContext) < apps.Length && i <= old(maxContext) + 1
        invariant forall j :: 0 <= j < i && j < apps.Length ==>
                    apps[j] == if Has(old(apps[j]), job) then Free else old(apps[j])
        invariant forall j :: i <= j < apps.Length ==> apps[j] == old(apps[j])
        invariant SameElsewhere(old(apps[..]), old(jobs[..]), apps[..], jobs[..], job)
        decreases old(maxContext) + 1 - i
      {
        if apps[i].Used? && apps[i].app.job == job {
          assert i > 0 by { assert Has(apps[..][0], 0); }
          ghost var mid := apps[..];
          EndContext(i);
          assert forall j :: 0 <= j < apps.Length && j != i ==> apps[j] == mid[j];
        }
        i := i + 1;
      }
      assert forall j :: maxContext < j < apps.Length ==> apps[..][j].Free?;
      Gone(apps[..], jobs[..], job);
    }

    /** `num_jobs_in_node`. */
    method NumJobs() returns (n: nat)
      ensures n == JobsTo(jobs[..], jobs.Length) == |set k | 0 <= k < jobs.Length && jobs[..][k].id != 0|
    {
      n := 0;
      for k := 0 to jobs.Length
        invariant n == JobsTo(jobs[..], k)
      {
        if jobs[k].id != 0 { n := n + 1; }
      }
      JobsCounted(jobs[..], jobs.Length);
    }

    /** `clean_cpus_in_jobs`. */
    method CleanCpus()
      modifies jobs
      ensures forall k :: 0 <= k < jobs.Length ==> jobs[k] == old(jobs[k]).(cpus := 0)
    {
      for k := 0 to jobs.Length
        invariant forall j :: 0 <= j < jobs.Length ==>
                    jobs[j] == if j < k then old(jobs[j]).(cpus := 0) else old(jobs[j])
      {
        jobs[k] := jobs[k].(cpus := 0);
      }
    }

    /** The step of the first loop of `update_pmapps` at one context: its CPUs, added to its job. */
    method CountOne(cc: nat, ghost before: seq<Slot>, ghost list: seq<Entry>) returns (cpus: nat)
      requires ListOk(before, list) && 0 < cc < |before|
      requires before[cc].Used? ==> before[cc].app.job > 0
      requires CountedSlots(before, list, cc, apps[..]) && CountedJobs(before, list, cc, jobs[..])
      modifies apps, jobs
      ensures CountedSlots(before, list, cc + 1, apps[..]) && CountedJobs(before, list, cc + 1, jobs[..])
      ensures var s := Recounted(before, list)[cc]; cpus == if IsListed(s, list) then Cpus(s) else 0
    {
      cpus := 0;
      if apps[cc].Used? {
        var app := apps[cc].app;
        RecordedRight(before, list, app.job);
        SameIds(list, jobs[..], app.job);
        var k := FindJob(app.job);
        var inNode := k < jobs.Length;
        if inNode { RecordedAt(list, k, |list|); }
        var own := app.cpus;
        if app.isMpi {
          own := app.mask;
        } else if !app.isJob || (inNode && jobs[k].contexts == 1) {
          own := Lesser(app.mask, app.plug);
        }
        assert Used(app.(cpus := own)) == Recount(before, list, cc);
        CountedStep(before, list, cc, k, jobs[..]);
        apps[cc] := Used(app.(cpus := own));
        ghost var now := jobs[..];
        if own > 0 && inNode {
          cpus := own;
          jobs[k] := jobs[k].(cpus := jobs[k].cpus + own);
        }
        assert jobs[..] == if inNode then now[k := now[k].(cpus := now[k].cpus + own)] else now;
      }
    }

    /** First loop of `update_pmapps`: the CPUs of every context, of every job and of all listed ones. */
    method CountCpus() returns (tcpus: nat)
      requires Valid()
      modifies apps, jobs
      ensures Valid()
      ensures forall j :: j > 0 ==> (Exact(apps[..], jobs[..], j) <==> Exact(old(apps[..]), old(jobs[..]), j))
      ensures apps[..] == Recounted(old(apps[..]), old(jobs[..]))
      ensures tcpus == CpusTo(apps[..], old(jobs[..]), apps.Length)
      ensures CountedJobs(old(apps[..]), old(jobs[..]), apps.Length, jobs[..])
    {
      ghost var before, list := apps[..], jobs[..];
      ghost var target := Recounted(before, list);
      CleanCpus();
      tcpus := 0;
      for cc := 1 to maxContext + 1
        invariant tcpus == CpusTo(target, list, cc)
        invariant CountedSlots(before, list, cc, apps[..]) && CountedJobs(before, list, cc, jobs[..])
      {
        var cpus := CountOne(cc, before, list);
        tcpus := tcpus + cpus;
      }
      CountedEnd(before, list, numContexts, maxContext, apps[..], jobs[..]);
      CountedAll(before, list, maxContext, jobs[..]);
    }

    /** The ratio a context is charged by: its CPUs, or those of its job, or one of the number of jobs. */
    method RatioOf(app: App, tcpus: nat, numJobs: nat, ghost cc: nat, ghost counted: seq<Slot>)
      returns (num: nat, den: nat)
      requires ListOk(counted, jobs[..]) && CpusKnown(counted, jobs[..])
      requires 0 < cc < |counted| && counted[cc] == Used(app) && app.job > 0
      requires tcpus == CpusTo(counted, jobs[..], |counted|)
      ensures Ratio(counted, jobs[..], numJobs, cc) == Fraction(num, den)
    {
      num, den := 1, 1;
      if app.cpus > 0 {
        if numJobs > 1 {
          num, den := app.cpus, tcpus;
        }
      } else {
        RecordedRight(counted, jobs[..], app.job);
        var k := FindJob(app.job);
        if k < jobs.Length {
          if tcpus > 0 && jobs[k].cpus > 0 {
            num, den := jobs[k].cpus, tcpus;
          }
        } else if numJobs > 0 {
          den := numJobs;
        }
      }
    }

    /** The step of the second loop of `update_pmapps` at one context: its part of the energy. */
    method ChargeOne(cc: nat, tcpus: nat, numJobs: nat, power: real, time: nat, ghost counted: seq<Slot>)
      requires ChargedSlots(counted, jobs[..], numJobs, power * time as real, cc, apps[..]) && ListOk(counted, jobs[..])
      requires 0 < cc < |counted| && tcpus == CpusTo(counted, jobs[..], |counted|) && CpusKnown(counted, jobs[..])
      requires counted[cc].Used? ==> counted[cc].app.job > 0
      modifies apps
      ensures ChargedSlots(counted, jobs[..], numJobs, power * time as real, cc + 1, apps[..])
    {
      if apps[cc].Used? {
        var app := apps[cc].app;
        var num, den := RatioOf(app, tcpus, numJobs, cc, counted);
        if den == 0 {
          apps[cc] := Used(app.(broken := true));
        } else {
          var joules := Joules(power, time, num, den);
          apps[cc] := Used(app.(energy := app.energy + joules));
        }
      }
    }

    /** Second loop of `update_pmapps`. */
    method ChargeAll(tcpus: nat, numJobs: nat, power: real, time: nat)
      requires Valid() && tcpus == CpusTo(apps[..], jobs[..], apps.Length) && CpusKnown(apps[..], jobs[..])
      modifies apps
      ensures Valid() && forall j :: j > 0 ==> (Exact(apps[..], jobs[..], j) <==> Exact(old(apps[..]), jobs[..], j))
      ensures apps[..] == Charged(old(apps[..]), jobs[..], numJobs, power * time as real)
    {
      ghost var counted, energy := apps[..], power * time as real;
      for cc := 1 to maxContext + 1
        invariant ChargedSlots(counted, jobs[..], numJobs, energy, cc, apps[..])
      {
        ChargeOne(cc, tcpus, numJobs, power, time, counted);
      }
      ChargedEnd(counted, jobs[..], numJobs, energy, maxContext, apps[..]);
      AlikeOk(counted, apps[..], jobs[..], jobs[..], numContexts, maxContext);
    }

    /**
     * `update_pmapps`: every context is charged its part of the energy of the
     * node, by the CPUs counted at this sample, and nothing else changes.
     */
    method UpdatePmapps(power: real, time: nat)
      requires Valid()
      modifies apps, jobs
      ensures Valid()
      ensures forall j :: j > 0 ==> (Exact(apps[..], jobs[..], j) <==> Exact(old(apps[..]), old(jobs[..]), j))
      ensures var numJobs := JobsTo(old(jobs[..]), jobs.Length);
              var counted := Recounted(old(apps[..]), old(jobs[..]));
              apps[..] == if numJobs == 0 then old(apps[..])
                          else Charged(counted, old(jobs[..]), numJobs, power * time as real)
      ensures JobsTo(old(jobs[..]), jobs.Length) > 1 && OnlyListedMpi(old(apps[..]), old(jobs[..])) ==>
                SharedByMask(old(apps[..]), apps[..], power * time as real)
      ensures OnlyCharged(old(apps[..]), apps[..])
      ensures forall k :: 0 <= k < jobs.Length ==> jobs[k] == old(jobs[k]).(cpus := jobs[k].cpus)
    {
      var numJobs := NumJobs();
      if numJobs == 0 {
        return;
      }
      ghost var list := jobs[..];
      if numJobs > 1 && OnlyListedMpi(apps[..], list) {
        AllChargedByMask(apps[..], list, numJobs, power * time as real);
      }
      var tcpus := CountCpus();
      SameList(apps[..], list, jobs[..], numJobs, power * time as real);
      ChargesOnly(old(apps[..]), list, numJobs, power * time as real);
      ChargeAll(tcpus, numJobs, power, time);
    }
  }

  /** The other jobs are counted right exactly if they were. */
  ghost predicate SameElsewhere(apps: seq<Slot>, jobs: seq<Entry>, apps': seq<Slot>, jobs': seq<Entry>, job: nat)
  {
    forall j :: j > 0 && j != job ==> (Exact(apps', jobs', j) <==> Exact(apps, jobs, j))
  }

  /** Slots up to `cc` are counted anew, the others are as before. */
  ghost predicate CountedSlots(before: seq<Slot>, list: seq<Entry>, cc: nat, apps: seq<Slot>)
  {
    && |apps| == |before|
    && forall i {:trigger apps[i]} :: 0 <= i < |before| ==>
         apps[i] == if i < cc then Recount(before, list, i) else before[i]
  }

  /** Every entry holds the CPUs counted so far for its job, and is otherwise as before. */
  ghost predicate CountedJobs(before: seq<Slot>, list: seq<Entry>, cc: nat, jobs: seq<Entry>)
    requires cc <= |before|
  {
    && |jobs| == |list|
    && forall k {:trigger jobs[k]} :: 0 <= k < |list| ==>
         jobs[k] == list[k].(cpus := JobCpusTo(Recounted(before, list), list[k].id, cc))
  }

  /** One more context: its CPUs go to entry `k` of its job, if it has one. */
  lemma CountedStep(before: seq<Slot>, list: seq<Entry>, cc: nat, k: nat, jobs: seq<Entry>)
    requires DistinctJobs(list) && 0 < cc < |before| && k <= |list|
    requires before[cc].Used? && before[cc].app.job > 0 && (k < |list| ==> list[k].id == before[cc].app.job)
    requires k == |list| ==> !Listed(list, before[cc].app.job)
    requires CountedJobs(before, list, cc, jobs)
    ensures var cpus := Cpus(Recounted(before, list)[cc]);
            CountedJobs(before, list, cc + 1,
                        if k < |list| then jobs[k := jobs[k].(cpus := jobs[k].cpus + cpus)] else jobs)
  {
    var cpus := Cpus(Recounted(before, list)[cc]);
    forall l | 0 <= l < |list|
      ensures JobCpusTo(Recounted(before, list), list[l].id, cc + 1)
              == JobCpusTo(Recounted(before, list), list[l].id, cc) + if l == k then cpus else 0
    {
      assert list[l].id == before[cc].app.job ==> Listed(list, before[cc].app.job);
    }
  }

  lemma CountedEnd(before: seq<Slot>, list: seq<Entry>, num: nat, max: nat, apps: seq<Slot>, jobs: seq<Entry>)
    requires SlotsOk(before, num, max) && ListOk(before, list)
    requires CountedSlots(before, list, max + 1, apps) && CountedJobs(before, list, max + 1, jobs)
    ensures apps == Recounted(before, list)
    ensures SlotsOk(apps, num, max) && ListOk(apps, jobs)
    ensures forall j :: j > 0 ==> (Exact(apps, jobs, j) <==> Exact(before, list, j))
  {
    AlikeOk(before, apps, list, jobs, num, max);
  }

  lemma CountedAll(before: seq<Slot>, list: seq<Entry>, max: nat, jobs: seq<Entry>)
    requires max < |before| && forall i :: max < i < |before| ==> before[i].Free?
    requires CountedJobs(before, list, max + 1, jobs)
    ensures CpusTo(Recounted(before, list), list, max + 1) == CpusTo(Recounted(before, list), list, |before|)
    ensures CountedJobs(before, list, |before|, jobs)
  {
    var target := Recounted(before, list);
    NothingBeyond(target, list, 0, max + 1, |before|);
    forall k | 0 <= k < |list|
      ensures JobCpusTo(target, list[k].id, max + 1) == JobCpusTo(target, list[k].id, |before|)
    {
      NothingBeyond(target, list, list[k].id, max + 1, |before|);
    }
  }

  /** Slots up to `cc` are charged, the others are as before. */
  ghost predicate ChargedSlots(counted: seq<Slot>, jobs: seq<Entry>, numJobs: nat, energy: real, cc: nat,
                               apps: seq<Slot>)
  {
    && |apps| == |counted|
    && forall i {:trigger apps[i]} :: 0 <= i < |counted| ==>
         apps[i] == if i < cc then ChargedSlot(counted, jobs, numJobs, energy, i) else counted[i]
  }

  /** Every entry holds the CPUs of its job. */
  ghost predicate CpusKnown(counted: seq<Slot>, jobs: seq<Entry>)
  {
    forall k {:trigger jobs[k]} :: 0 <= k < |jobs| ==> jobs[k].cpus == JobCpusTo(counted, jobs[k].id, |counted|)
  }

  lemma ChargedEnd(counted: seq<Slot>, jobs: seq<Entry>, numJobs: nat, energy: real, max: nat, apps: seq<Slot>)
    requires max < |counted| && forall i :: max < i < |counted| ==> counted[i].Free?
    requires ChargedSlots(counted, jobs, numJobs, energy, max + 1, apps)
    ensures apps == Charged(counted, jobs, numJobs, energy) && Alike(counted, apps)
  {
  }

  /** The idle context is as before, and the others but for CPUs and energy. */
  ghost predicate OnlyCharged(before: seq<Slot>, after: seq<Slot>)
  {
    && |after| == |before|
    && (|before| > 0 ==> after[0] == before[0])
    && forall i {:trigger after[i]} :: 0 <= i < |before| ==>
         match before[i]
         case Free => after[i].Free?
         case Used(a) =>
           && after[i].Used?
           && after[i].app
              == a.(cpus := after[i].app.cpus, energy := after[i].app.energy, broken := after[i].app.broken)
  }

  lemma ChargesOnly(apps: seq<Slot>, jobs: seq<Entry>, numJobs: nat, energy: real)
    ensures OnlyCharged(apps, Charged(Recounted(apps, jobs), jobs, numJobs, energy))
  {
  }

  /** Every context has gained the part of the energy that its mask is of all masks. */
  ghost predicate SharedByMask(before: seq<Slot>, after: seq<Slot>, energy: real)
  {
    var all := MasksTo(before, |before|);
    && |after| == |before|
    && forall i {:trigger after[i]} :: 0 < i < |before| && before[i].Used? && before[i].app.mask > 0 ==>
         all > 0 && after[i].Used?
         && after[i].app.energy == before[i].app.energy + energy * (before[i].app.mask as real / all as real)
  }

  lemma AllChargedByMask(apps: seq<Slot>, jobs: seq<Entry>, numJobs: nat, energy: real)
    requires ListOk(apps, jobs) && OnlyListedMpi(apps, jobs) && numJobs > 1
    ensures SharedByMask(apps, Charged(Recounted(apps, jobs), jobs, numJobs, energy), energy)
  {
    forall i | 0 < i < |apps| && apps[i].Used? && apps[i].app.mask > 0
      ensures MasksTo(apps, |apps|) > 0
      ensures var s := Charged(Recounted(apps, jobs), jobs, numJobs, energy)[i];
              s.Used? && s.app.energy
              == apps[i].app.energy + energy * (apps[i].app.mask as real / MasksTo(apps, |apps|) as real)
    {
      ChargedByMask(apps, jobs, numJobs, energy, i);
    }
  }

  lemma {:induction false} SameTotal(apps: seq<Slot>, list: seq<Entry>, jobs: seq<Entry>, k: nat)
    requires AlikeJobs(list, jobs) && k <= |apps|
    ensures CpusTo(apps, list, k) == CpusTo(apps, jobs, k)
  {
    if k > 1 {
      SameTotal(apps, list, jobs, k - 1);
      if apps[k - 1].Used? { AlikeRecorded(list, jobs, apps[k - 1].app.job, |list|); }
    }
  }

  /** The CPUs in the entries play no part in what is charged. */
  lemma SameList(apps: seq<Slot>, list: seq<Entry>, jobs: seq<Entry>, numJobs: nat, energy: real)
    requires AlikeJobs(list, jobs)
    ensures CpusTo(apps, list, |apps|) == CpusTo(apps, jobs, |apps|)
    ensures Charged(apps, list, numJobs, energy) == Charged(apps, jobs, numJobs, energy)
  {
    SameTotal(apps, list, jobs, |apps|);
    forall i | 0 <= i < |apps|
      ensures ChargedSlot(apps, list, numJobs, energy, i) == ChargedSlot(apps, jobs, numJobs, energy, i)
    {
      if apps[i].Used? { AlikeRecorded(list, jobs, apps[i].app.job, |list|); }
    }
  }

  lemma SameIds(list: seq<Entry>, jobs: seq<Entry>, id: nat)
    requires |list| == |jobs| && forall k :: 0 <= k < |list| ==> jobs[k].id == list[k].id
    ensures Listed(list, id) == Listed(jobs, id)
  {
    if Listed(list, id) {
      var k :| 0 <= k < |list| && list[k].id == id;
      assert jobs[k].id == id;
    }
  }

  /** A listed job has contexts. */
  lemma Positive(apps: seq<Slot>, jobs: seq<Entry>, id: nat)
    requires ListOk(apps, jobs) && id > 0
    ensures forall k :: 0 <= k < |jobs| && jobs[k].id == id ==> jobs[k].contexts > 0
  {
    forall k | 0 <= k < |jobs| && jobs[k].id == id
      ensures jobs[k].contexts > 0
    {
      assert EntryOk(apps, jobs[k]);
    }
  }

  /** A job without a context has no entry. */
  lemma Gone(apps: seq<Slot>, jobs: seq<Entry>, job: nat)
    requires ListOk(apps, jobs) && job > 0
    requires forall i :: 0 <= i < |apps| ==> !Has(apps[i], job)
    ensures !Listed(jobs, job) && Exact(apps, jobs, job)
  {
    if JobTo(apps, job, |apps|) > 0 {
      var i := CountedJob(apps, job, |apps|);
      assert false;
    }
    RecordedRight(apps, jobs, job);
  }

  // ---- what goes wrong ---------------------------------------------------------------

  /** A list without a free entry misses the context of any job that is not on it. */
  lemma FullListMisses(apps: seq<Slot>, jobs: seq<Entry>, i: nat, app: App)
    requires ListOk(apps, jobs) && !Listed(jobs, 0) && app.job > 0 && !Listed(jobs, app.job)
    requires i < |apps| && apps[i].Free?
    ensures !Exact(apps[i := Used(app)], jobs, app.job)
    ensures ListOk(apps[i := Used(app)], jobs)
  {
    UnrecordedOk(apps, jobs, i, app);
    JobUpdate(apps, i, Used(app), app.job, |apps|);
    RecordedRight(apps, jobs, app.job);
  }

  function Plain(job: nat, mask: nat): App { App(job, 0, true, false, mask, mask, 0, 0.0, false) }

  /** `n` jobs of one context each, that fill a list of `n` entries, and a slot to spare. */
  function FullTable(n: nat): (apps: seq<Slot>)
    ensures |apps| == n + 2
  {
    seq(n + 2, i requires 0 <= i < n + 2 => if i == 0 then Used(IDLE) else if i <= n then Used(Plain(i, 4)) else Free)
  }

  function FullList(n: nat): (jobs: seq<Entry>)
    ensures |jobs| == n
  {
    seq(n, k requires 0 <= k < n => Entry(k + 1, 1, 0))
  }

  lemma {:induction false} FullCounts(n: nat, job: nat, k: nat)
    requires k <= n + 2
    ensures UsedTo(FullTable(n), k) == if k <= n + 1 then k else n + 1
    ensures job > 0 ==> JobTo(FullTable(n), job, k) == if job < k && job <= n then 1 else 0
  {
    if k > 0 { FullCounts(n, job, k - 1); }
  }

  /** However long the list is, it can be full while the table is not. */
  lemma FullListHappens(n: nat)
    ensures SlotsOk(FullTable(n), n + 1, n) && ListOk(FullTable(n), FullList(n))
    ensures !Listed(FullList(n), 0) && !Listed(FullList(n), n + 1) && FullTable(n)[n + 1].Free?
    ensures !Exact(FullTable(n)[n + 1 := Used(Plain(n + 1, 4))], FullList(n), n + 1)
  {
    var apps, jobs := FullTable(n), FullList(n);
    FullCounts(n, 0, n + 2);
    forall k | 0 <= k < n
      ensures EntryOk(apps, jobs[k])
    {
      FullCounts(n, k + 1, n + 2);
    }
    FullListMisses(apps, jobs, n + 1, Plain(n + 1, 4));
  }

  /** The counts of a table, one slot further. */
  lemma OneSlotMore(apps: seq<Slot>, jobs: seq<Entry>, job: nat, k: nat)
    requires k < |apps|
    ensures UsedTo(apps, k + 1) == UsedTo(apps, k) + if apps[k].Used? then 1 else 0
    ensures JobTo(apps, job, k + 1) == JobTo(apps, job, k) + if Has(apps[k], job) then 1 else 0
    ensures k > 0 ==> HoldersTo(apps, k + 1) == HoldersTo(apps, k) + if Cpus(apps[k]) > 0 then 1 else 0
    ensures k > 0 ==>
              CpusTo(apps, jobs, k + 1) == CpusTo(apps, jobs, k) + if IsListed(apps[k], jobs) then Cpus(apps[k]) else 0
  {
  }

  lemma OneEntryMore(jobs: seq<Entry>, k: nat)
    requires k < |jobs|
    ensures JobsTo(jobs, k + 1) == JobsTo(jobs, k) + if jobs[k].id != 0 then 1 else 0
  {
  }

  /** One job with two steps of four CPUs each. */
  const TWO_STEPS := [Used(IDLE), Used(Plain(1, 4)), Used(Plain(1, 4))]
  const ONE_JOB := [Entry(1, 2, 0)]

  lemma TwoStepsOk()
    ensures SlotsOk(TWO_STEPS, 3, 2) && ListOk(TWO_STEPS, ONE_JOB) && JobsTo(ONE_JOB, 1) == 1
  {
    OneSlotMore(TWO_STEPS, ONE_JOB, 1, 0);
    OneSlotMore(TWO_STEPS, ONE_JOB, 1, 1);
    OneSlotMore(TWO_STEPS, ONE_JOB, 1, 2);
    OneEntryMore(ONE_JOB, 0);
    assert EntryOk(TWO_STEPS, ONE_JOB[0]);
  }

  /** The only job of a node is charged the energy of the node for each of its steps. */
  lemma EnergyChargedTwice(energy: real)
    ensures SlotsOk(TWO_STEPS, 3, 2) && ListOk(TWO_STEPS, ONE_JOB) && JobsTo(ONE_JOB, 1) == 1
    ensures var counted := Recounted(TWO_STEPS, ONE_JOB);
            EnergyTo(Charged(counted, ONE_JOB, 1, energy), 3) == EnergyTo(counted, 3) + energy + energy
  {
    TwoStepsOk();
    var counted := Recounted(TWO_STEPS, ONE_JOB);
    assert Cpus(counted[1]) == 4 && Cpus(counted[2]) == 4;
    OneSlotMore(counted, ONE_JOB, 1, 1);
    OneSlotMore(counted, ONE_JOB, 1, 2);
    AllChargedTo(counted, ONE_JOB, energy, 3);
    PartAdds(energy, 1, 1, 1);
    PartOfAll(energy, 1);
  }

  /** Two listed jobs without CPUs, and one with CPUs that the list could not take. */
  const THREE_JOBS := [Used(IDLE), Used(Plain(1, 0)), Used(Plain(2, 0)), Used(Plain(3, 4))]
  const TWO_JOBS := [Entry(1, 1, 0), Entry(2, 1, 0)]

  lemma ThreeJobsCount(job: nat)
    requires job == 1 || job == 2
    ensures UsedTo(THREE_JOBS, 4) == 4 && JobTo(THREE_JOBS, job, 4) == 1
  {
    OneSlotMore(THREE_JOBS, TWO_JOBS, job, 0);
    OneSlotMore(THREE_JOBS, TWO_JOBS, job, 1);
    OneSlotMore(THREE_JOBS, TWO_JOBS, job, 2);
    OneSlotMore(THREE_JOBS, TWO_JOBS, job, 3);
  }

  lemma ThreeJobsOk()
    ensures SlotsOk(THREE_JOBS, 4, 3) && ListOk(THREE_JOBS, TWO_JOBS) && JobsTo(TWO_JOBS, 2) == 2
  {
    ThreeJobsCount(1);
    ThreeJobsCount(2);
    OneEntryMore(TWO_JOBS, 0);
    OneEntryMore(TWO_JOBS, 1);
    assert EntryOk(THREE_JOBS, TWO_JOBS[0]) && EntryOk(THREE_JOBS, TWO_JOBS[1]);
  }

  /** Its charge is divided by the CPUs of the others, of which there are none. */
  lemma ChargeDividedByZero(energy: real)
    ensures SlotsOk(THREE_JOBS, 4, 3) && ListOk(THREE_JOBS, TWO_JOBS) && JobsTo(TWO_JOBS, 2) == 2
    ensures var s := Charged(Recounted(THREE_JOBS, TWO_JOBS), TWO_JOBS, 2, energy)[3]; s.Used? && s.app.broken
  {
    ThreeJobsOk();
    RecordedElsewhere(TWO_JOBS, 3, 2);
    var counted := Recounted(THREE_JOBS, TWO_JOBS);
    assert Cpus(counted[1]) == 0 && Cpus(counted[2]) == 0 && Cpus(counted[3]) == 4 && !IsListed(counted[3], TWO_JOBS);
    OneSlotMore(counted, TWO_JOBS, 3, 1);
    OneSlotMore(counted, TWO_JOBS, 3, 2);
    OneSlotMore(counted, TWO_JOBS, 3, 3);
    BrokenExactly(counted, TWO_JOBS, 2, energy, 3);
  }

  lemma {:induction false} NoneRecorded(jobs: seq<Entry>, job: nat, k: nat)
    requires k <= |jobs| && forall l :: 0 <= l < |jobs| ==> jobs[l] == Entry(0, 0, 0)
    ensures RecordedTo(jobs, job, k) == 0
  {
    if k > 0 { NoneRecorded(jobs, job, k - 1); }
  }

  lemma {:induction false} OnlyIdleTo(apps: seq<Slot>, job: nat, k: nat)
    requires 0 < k <= |apps| && job > 0
    requires apps[0] == Used(IDLE) && forall i :: 0 < i < |apps| ==> apps[i].Free?
    ensures UsedTo(apps, k) == 1 && JobTo(apps, job, k) == 0
  {
    if k > 1 { OnlyIdleTo(apps, job, k - 1); }
  }

  lemma OnlyIdle(apps: seq<Slot>, jobs: seq<Entry>)
    requires 0 < |apps| && forall l :: 0 <= l < |jobs| ==> jobs[l] == Entry(0, 0, 0)
    requires apps[0] == Used(IDLE) && forall i :: 0 < i < |apps| ==> apps[i].Free?
    ensures UsedTo(apps, |apps|) == 1 && forall j :: j > 0 ==> Exact(apps, jobs, j)
  {
    OnlyIdleTo(apps, 1, |apps|);
    forall j | j > 0
      ensures Exact(apps, jobs, j)
    {
      OnlyIdleTo(apps, j, |apps|);
      NoneRecorded(jobs, j, |jobs|);
    }
  }
}
