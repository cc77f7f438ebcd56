/**
 * The contexts of the jobs on a node as values: which slots are used, and how
 * many contexts each job has according to the list of jobs.
 */
module JobTable {
  /**
   * A job step under power monitoring. `mask` and `plug` are the CPUs its tasks
   * announced, `cpus` those it is charged for, `energy` what it was charged.
   * `broken` tells that a charge was divided by zero CPUs.
   */
  datatype App = App(job: nat, step: nat, isMpi: bool, isJob: bool, mask: nat, plug: nat, cpus: nat,
                     energy: real, broken: bool)

  datatype Slot = Free | Used(app: App)

  /** An entry of the list of jobs; `id` 0 is a free entry. */
  datatype Entry = Entry(id: nat, contexts: nat, cpus: nat)

  predicate Has(s: Slot, job: nat) { s.Used? && s.app.job == job }

  /** How many of the first `k` slots are used. */
  function UsedTo(apps: seq<Slot>, k: nat): nat
    requires k <= |apps|
  {
    if k == 0 then 0 else UsedTo(apps, k - 1) + if apps[k - 1].Used? then 1 else 0
  }

  /** How many of the first `k` slots belong to a job. */
  function JobTo(apps: seq<Slot>, job: nat, k: nat): nat
    requires k <= |apps|
  {
    if k == 0 then 0 else JobTo(apps, job, k - 1) + if Has(apps[k - 1], job) then 1 else 0
  }

  lemma {:induction false} UsedUpdate(apps: seq<Slot>, i: nat, s: Slot, k: nat)
    requires i < |apps| && k <= |apps|
    ensures UsedTo(apps[i := s], k)
            == UsedTo(apps, k) + if i < k then (if s.Used? then 1 else 0) - (if apps[i].Used? then 1 else 0) else 0
  {
    if k > 0 { UsedUpdate(apps, i, s, k - 1); }
  }

  lemma {:induction false} JobUpdate(apps: seq<Slot>, i: nat, s: Slot, job: nat, k: nat)
    requires i < |apps| && k <= |apps|
    ensures JobTo(apps[i := s], job, k)
            == JobTo(apps, job, k)
               + if i < k then (if Has(s, job) then 1 else 0) - (if Has(apps[i], job) then 1 else 0) else 0
  {
    if k > 0 { JobUpdate(apps, i, s, job, k - 1); }
  }

  /** A job with a context is counted. */
  lemma {:induction false} JobCounted(apps: seq<Slot>, job: nat, i: nat, k: nat)
    requires i < k <= |apps| && Has(apps[i], job)
    ensures JobTo(apps, job, k) > 0
  {
    if i < k - 1 { JobCounted(apps, job, i, k - 1); }
  }

  /** A count means that there is a context. */
  lemma {:induction false} CountedJob(apps: seq<Slot>, job: nat, k: nat) returns (i: nat)
    requires k <= |apps| && JobTo(apps, job, k) > 0
    ensures i < k && Has(apps[i], job)
  {
    if Has(apps[k - 1], job) { i := k - 1; } else { i := CountedJob(apps, job, k - 1); }
  }

  lemma {:induction false} AllUsed(apps: seq<Slot>, k: nat)
    requires k <= |apps| && forall i :: 0 <= i < k ==> apps[i].Used?
    ensures UsedTo(apps, k) == k
  {
    if k > 0 { AllUsed(apps, k - 1); }
  }

  lemma {:induction false} SomeFree(apps: seq<Slot>, i: nat, k: nat)
    requires i < k <= |apps| && apps[i].Free?
    ensures UsedTo(apps, k) < k
  {
    if i < k - 1 { SomeFree(apps, i, k - 1); } else { UsedBelow(apps, i); }
  }

  lemma {:induction false} UsedBelow(apps: seq<Slot>, k: nat)
    requires k <= |apps|
    ensures UsedTo(apps, k) <= k
  {
    if k > 0 { UsedBelow(apps, k - 1); }
  }

  // ---- the invariant -----------------------------------------------------------------

  /**
   * The idle context sits in slot 0 and belongs to no job, all others belong to
   * one; `num` counts the used slots and `max` is the highest of them.
   */
  predicate SlotsOk(apps: seq<Slot>, num: nat, max: nat)
  {
    && max < |apps| && apps[max].Used?
    && Has(apps[0], 0)
    && (forall i :: max < i < |apps| ==> apps[i].Free?)
    && (forall i :: 0 < i < |apps| && apps[i].Used? ==> apps[i].app.job > 0)
    && num == UsedTo(apps, |apps|)
  }

  predicate Listed(jobs: seq<Entry>, id: nat) { exists k :: 0 <= k < |jobs| && jobs[k].id == id }

  predicate DistinctJobs(jobs: seq<Entry>)
  {
    forall k, l :: 0 <= k < l < |jobs| && jobs[k].id != 0 ==> jobs[k].id != jobs[l].id
  }

  /** The contexts of a job according to the first `k` entries. */
  function RecordedTo(jobs: seq<Entry>, job: nat, k: nat): nat
    requires k <= |jobs|
  {
    if k == 0 then 0 else RecordedTo(jobs, job, k - 1) + if jobs[k - 1].id == job then jobs[k - 1].contexts else 0
  }

  /** Entry `e` counts contexts of its job, and never more than there are. */
  predicate EntryOk(apps: seq<Slot>, e: Entry)
  {
    if e.id == 0 then e.contexts == 0 else 0 < e.contexts <= JobTo(apps, e.id, |apps|)
  }

  /** No job has two entries and no entry counts too much. */
  predicate ListOk(apps: seq<Slot>, jobs: seq<Entry>)
  {
    (forall k :: 0 <= k < |jobs| ==> EntryOk(apps, jobs[k])) && DistinctJobs(jobs)
  }

  /** The list counts all contexts of a job. */
  predicate Exact(apps: seq<Slot>, jobs: seq<Entry>, job: nat)
  {
    RecordedTo(jobs, job, |jobs|) == JobTo(apps, job, |apps|)
  }

  // ---- looking a job up --------------------------------------------------------------

  lemma {:induction false} RecordedElsewhere(jobs: seq<Entry>, job: nat, k: nat)
    requires k <= |jobs| && forall l :: 0 <= l < k ==> jobs[l].id != job
    ensures RecordedTo(jobs, job, k) == 0
  {
    if k > 0 { RecordedElsewhere(jobs, job, k - 1); }
  }

  lemma {:induction false} RecordedAt(jobs: seq<Entry>, l: nat, k: nat)
    requires DistinctJobs(jobs) && l < k <= |jobs| && jobs[l].id != 0
    ensures RecordedTo(jobs, jobs[l].id, k) == jobs[l].contexts
  {
    if l == k - 1 { RecordedElsewhere(jobs, jobs[l].id, l); } else { RecordedAt(jobs, l, k - 1); }
  }

  lemma {:induction false} RecordedUpdate(jobs: seq<Entry>, l: nat, e: Entry, job: nat, k: nat)
    requires l < |jobs| && k <= |jobs|
    ensures RecordedTo(jobs[l := e], job, k)
            == RecordedTo(jobs, job, k)
               + if l < k then
                   (if e.id == job then e.contexts else 0) - (if jobs[l].id == job then jobs[l].contexts else 0)
                 else 0
  {
    if k > 0 { RecordedUpdate(jobs, l, e, job, k - 1); }
  }

  /** A listed job has recorded contexts, no more than it has; a job that is not listed has none. */
  lemma RecordedRight(apps: seq<Slot>, jobs: seq<Entry>, job: nat)
    requires ListOk(apps, jobs) && job > 0
    ensures RecordedTo(jobs, job, |jobs|) > 0 <==> Listed(jobs, job)
    ensures RecordedTo(jobs, job, |jobs|) <= JobTo(apps, job, |apps|)
  {
    if Listed(jobs, job) {
      var l :| 0 <= l < |jobs| && jobs[l].id == job;
      RecordedAt(jobs, l, |jobs|);
      assert EntryOk(apps, jobs[l]);
    } else {
      RecordedElsewhere(jobs, job, |jobs|);
    }
  }

  // ---- one context more --------------------------------------------------------------

  /** The list with one more context of job `id` at entry `k`. */
  function Entered(jobs: seq<Entry>, id: nat, k: nat): seq<Entry>
    requires k < |jobs|
  {
    jobs[k := if jobs[k].id == id then jobs[k].(contexts := jobs[k].contexts + 1)
              else jobs[k].(id := id, contexts := 1)]
  }

  lemma EnteredOk(apps: seq<Slot>, jobs: seq<Entry>, i: nat, app: App, k: nat)
    requires ListOk(apps, jobs) && i < |apps| && apps[i].Free? && app.job > 0 && k < |jobs|
    requires jobs[k].id == app.job || (jobs[k].id == 0 && !Listed(jobs, app.job))
    ensures ListOk(apps[i := Used(app)], Entered(jobs, app.job, k))
    ensures forall j :: j > 0 ==> (Exact(apps[i := Used(app)], Entered(jobs, app.job, k), j) <==> Exact(apps, jobs, j))
  {
    var apps', jobs' := apps[i := Used(app)], Entered(jobs, app.job, k);
    forall l | 0 <= l < |jobs|
      ensures EntryOk(apps', jobs'[l])
    {
      assert EntryOk(apps, jobs[l]);
      JobUpdate(apps, i, Used(app), jobs'[l].id, |apps|);
    }
    forall j | j > 0
      ensures Exact(apps', jobs', j) <==> Exact(apps, jobs, j)
    {
      JobUpdate(apps, i, Used(app), j, |apps|);
      RecordedUpdate(jobs, k, jobs'[k], j, |jobs|);
      assert EntryOk(apps, jobs[k]);
    }
  }

  /** A context the list cannot take: its job is no longer counted right, all others as before. */
  lemma UnrecordedOk(apps: seq<Slot>, jobs: seq<Entry>, i: nat, app: App)
    requires ListOk(apps, jobs) && i < |apps| && apps[i].Free? && app.job > 0
    ensures ListOk(apps[i := Used(app)], jobs)
    ensures forall j :: j > 0 ==> (Exact(apps[i := Used(app)], jobs, j) <==> Exact(apps, jobs, j) && j != app.job)
  {
    var apps' := apps[i := Used(app)];
    forall l | 0 <= l < |jobs|
      ensures EntryOk(apps', jobs[l])
    {
      assert EntryOk(apps, jobs[l]);
      JobUpdate(apps, i, Used(app), jobs[l].id, |apps|);
    }
    forall j | j > 0
      ensures Exact(apps', jobs, j) <==> Exact(apps, jobs, j) && j != app.job
    {
      JobUpdate(apps, i, Used(app), j, |apps|);
      RecordedRight(apps, jobs, j);
    }
  }

  // ---- one context less --------------------------------------------------------------

  /** The list once one context of a job at entry `k` has ended. */
  function Left(jobs: seq<Entry>, k: nat): seq<Entry>
    requires k < |jobs| && jobs[k].contexts > 0
  {
    jobs[k := jobs[k].(contexts := jobs[k].contexts - 1, id := if jobs[k].contexts == 1 then 0 else jobs[k].id)]
  }

  lemma LeftOk(apps: seq<Slot>, jobs: seq<Entry>, i: nat, k: nat)
    requires ListOk(apps, jobs) && i < |apps| && k < |jobs|
    requires apps[i].Used? && apps[i].app.job > 0 && jobs[k].id == apps[i].app.job && jobs[k].contexts > 0
    ensures ListOk(apps[i := Free], Left(jobs, k))
    ensures forall j :: j > 0 ==> (Exact(apps[i := Free], Left(jobs, k), j) <==> Exact(apps, jobs, j))
  {
    var apps', jobs' := apps[i := Free], Left(jobs, k);
    forall l | 0 <= l < |jobs|
      ensures EntryOk(apps', jobs'[l])
    {
      assert EntryOk(apps, jobs[l]);
      JobUpdate(apps, i, Free, jobs[l].id, |apps|);
    }
    forall j | j > 0
      ensures Exact(apps', jobs', j) <==> Exact(apps, jobs, j)
    {
      JobUpdate(apps, i, Free, j, |apps|);
      RecordedUpdate(jobs, k, jobs'[k], j, |jobs|);
    }
  }

  /** The end of a context whose job is not listed: right again if it was the last one. */
  lemma UnlistedLeftOk(apps: seq<Slot>, jobs: seq<Entry>, i: nat)
    requires ListOk(apps, jobs) && i < |apps|
    requires apps[i].Used? && apps[i].app.job > 0 && !Listed(jobs, apps[i].app.job)
    ensures ListOk(apps[i := Free], jobs)
    ensures var job := apps[i].app.job;
            forall j :: j > 0 ==>
              (Exact(apps[i := Free], jobs, j) <==> Exact(apps, jobs, j) || (j == job && JobTo(apps, job, |apps|) == 1))
  {
    var apps', job := apps[i := Free], apps[i].app.job;
    forall l | 0 <= l < |jobs|
      ensures EntryOk(apps', jobs[l])
    {
      assert EntryOk(apps, jobs[l]) && jobs[l].id != job;
      JobUpdate(apps, i, Free, jobs[l].id, |apps|);
    }
    JobCounted(apps, job, i, |apps|);
    RecordedRight(apps, jobs, job);
    forall j | j > 0
      ensures Exact(apps', jobs, j) <==> Exact(apps, jobs, j) || (j == job && JobTo(apps, job, |apps|) == 1)
    {
      JobUpdate(apps, i, Free, j, |apps|);
    }
  }
}
