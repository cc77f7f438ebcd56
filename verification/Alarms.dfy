/**
 * The two alarms of an EARDBD process. The code keeps two countdowns and sleeps
 * for the shorter one; each alarm goes off when its countdown is exactly zero.
 * This is shown to be the same as keeping two deadlines in absolute time, also
 * when a mirror's question postpones the insertion in the middle of a sleep.
 */
module Alarms {

  /** Seconds added to the insertion time when a full synchronisation resets it. */
  const SYNC_OFFSET := 5

  /**
   * `insr` and `aggr` count down to the alarms; the present sleep lasts `slct`
   * seconds, of which `left` remained when the process last looked.
   */
  datatype Timer = Timer(timeInsr: nat, timeAggr: nat, insr: int, aggr: int, slct: int, left: int)

  function ResetSelect(t: Timer): Timer
  {
    var slct := if t.insr < t.aggr then t.insr else t.aggr;
    t.(slct := slct, left := slct)
  }

  function Started(timeInsr: nat, timeAggr: nat): Timer
  {
    ResetSelect(Timer(timeInsr, timeAggr, timeInsr, timeAggr, 0, 0))
  }

  function Count(t: Timer): Timer { t.(insr := t.insr - t.slct, aggr := t.aggr - t.slct) }

  predicate AggrFires(t: Timer) { Count(t).aggr == 0 }

  predicate InsrFires(t: Timer) { Count(t).insr == 0 }

  /** The sleep is over: count down, restart what went off, sleep again. */
  function Expired(t: Timer): Timer
  {
    ResetSelect(Count(t).(aggr := if AggrFires(t) then t.timeAggr else Count(t).aggr,
                          insr := if InsrFires(t) then t.timeInsr else Count(t).insr))
  }

  /** A full synchronisation `remaining` seconds before the end of the sleep. */
  function Postponed(t: Timer, remaining: nat): Timer
  {
    t.(insr := t.timeInsr + (t.slct - remaining) + SYNC_OFFSET, left := remaining)
  }

  datatype Event = Expires | Question(remaining: nat)

  /** Time passes: a question finds no more of the sleep left than the one before. */
  predicate Enabled(t: Timer, e: Event) { e.Question? ==> e.remaining <= t.left }

  function Next(t: Timer, e: Event): Timer
  {
    match e
    case Expires => Expired(t)
    case Question(remaining) => Postponed(t, remaining)
  }

  /** The sleep is positive and ends no later than either countdown. */
  predicate Inv(t: Timer)
  {
    && t.timeInsr > 0
    && 0 < t.slct <= t.aggr <= t.timeAggr
    && 0 <= t.left <= t.slct <= t.timeInsr + SYNC_OFFSET
    && t.slct <= t.insr <= t.timeInsr + SYNC_OFFSET + (t.slct - t.left)
  }

  lemma StartedInv(timeInsr: nat, timeAggr: nat)
    requires timeInsr > 0 && timeAggr > 0
    ensures Inv(Started(timeInsr, timeAggr))
  {
  }

  lemma NextInv(t: Timer, e: Event)
    requires Inv(t) && Enabled(t, e)
    ensures Inv(Next(t, e))
    ensures Next(t, e).timeInsr == t.timeInsr && Next(t, e).timeAggr == t.timeAggr
  {
  }

  // ---- absolute time -----------------------------------------------------------------

  /** When the present sleep began, when each alarm is due, and how often they went off. */
  datatype Clock = Clock(start: int, dueInsr: int, dueAggr: int, rolls: nat, inserts: nat)

  /** Deadlines alone: an alarm goes off when its time has come, and is then due one period later. */
  function Tick(c: Clock, t: Timer, now: int): Clock
  {
    Clock(now,
          if c.dueInsr == now then now + t.timeInsr else c.dueInsr,
          if c.dueAggr == now then now + t.timeAggr else c.dueAggr,
          if c.dueAggr == now then c.rolls + 1 else c.rolls,
          if c.dueInsr == now then c.inserts + 1 else c.inserts)
  }

  function Advance(c: Clock, t: Timer, e: Event): Clock
  {
    match e
    case Expires => Tick(c, t, c.start + t.slct)
    case Question(remaining) => c.(dueInsr := c.start + t.slct - remaining + t.timeInsr + SYNC_OFFSET)
  }

  predicate Matches(t: Timer, c: Clock)
  {
    c.dueInsr == c.start + t.insr && c.dueAggr == c.start + t.aggr
  }

  /** Timer and clock after the first `k` events. */
  function TimerAt(t: Timer, es: seq<Event>, k: nat): Timer
    requires k <= |es|
  {
    if k == 0 then t else Next(TimerAt(t, es, k - 1), es[k - 1])
  }

  function ClockAt(c: Clock, t: Timer, es: seq<Event>, k: nat): Clock
    requires k <= |es|
  {
    if k == 0 then c else Advance(ClockAt(c, t, es, k - 1), TimerAt(t, es, k - 1), es[k - 1])
  }

  predicate AllEnabled(t: Timer, es: seq<Event>)
  {
    forall i {:trigger TimerAt(t, es, i)} :: 0 <= i < |es| ==> Enabled(TimerAt(t, es, i), es[i])
  }

  /**
   * Countdowns and deadlines agree: the sleep ends at or before both deadlines,
   * and each alarm goes off then exactly if its deadline has come.
   */
  predicate InStep(t: Timer, c: Clock)
  {
    var now := c.start + t.slct;
    && Inv(t) && Matches(t, c)
    && c.start < now <= c.dueInsr && now <= c.dueAggr
    && (AggrFires(t) <==> c.dueAggr == now)
    && (InsrFires(t) <==> c.dueInsr == now)
  }

  /** There was one roll-over for every full aggregation period. */
  predicate RollsCounted(t: Timer, c: Clock)
  {
    c.dueAggr == (c.rolls + 1) * t.timeAggr && c.rolls * t.timeAggr <= c.start < c.dueAggr
  }

  lemma NextInStep(t: Timer, c: Clock, e: Event)
    requires InStep(t, c) && Enabled(t, e)
    ensures InStep(Next(t, e), Advance(c, t, e))
    ensures e.Question? ==> c.dueInsr <= Advance(c, t, e).dueInsr
  {
  }

  /** A full question `remaining` seconds before waking makes the insertion due five seconds after a whole period. */
  lemma QuestionPostpones(t: Timer, c: Clock, remaining: nat)
    requires InStep(t, c) && remaining <= t.left
    ensures var asked := c.start + t.slct - remaining;
            && Advance(c, t, Question(remaining)).dueInsr == asked + t.timeInsr + 5
            && c.start + Next(t, Question(remaining)).insr == asked + t.timeInsr + 5
            && Next(t, Question(remaining)).aggr == t.aggr
  {
  }

  lemma NextRollsCounted(t: Timer, c: Clock, e: Event)
    requires InStep(t, c) && RollsCounted(t, c) && Enabled(t, e)
    ensures RollsCounted(Next(t, e), Advance(c, t, e))
  {
  }

  /**
   * No deadline is skipped in any run, however often questions postpone the
   * insertion: countdowns and deadlines agree at every moment, and a question
   * never brings the insertion forward.
   */
  lemma {:induction false} NoDeadlineSkipped(timeInsr: nat, timeAggr: nat, es: seq<Event>, k: nat)
    requires timeInsr > 0 && timeAggr > 0
    requires AllEnabled(Started(timeInsr, timeAggr), es) && k <= |es|
    ensures var t0 := Started(timeInsr, timeAggr);
            var t, c := TimerAt(t0, es, k), ClockAt(Clock(0, timeInsr, timeAggr, 0, 0), t0, es, k);
            && InStep(t, c) && RollsCounted(t, c)
            && (k < |es| && es[k].Question? ==> c.dueInsr <= Advance(c, t, es[k]).dueInsr)
  {
    var t0, c0 := Started(timeInsr, timeAggr), Clock(0, timeInsr, timeAggr, 0, 0);
    if k == 0 {
      StartedInv(timeInsr, timeAggr);
    } else {
      var t, c, e := TimerAt(t0, es, k - 1), ClockAt(c0, t0, es, k - 1), es[k - 1];
      NoDeadlineSkipped(timeInsr, timeAggr, es, k - 1);
      assert InStep(Next(t, e), Advance(c, t, e)) by { NextInStep(t, c, e); }
      assert RollsCounted(Next(t, e), Advance(c, t, e)) by { NextRollsCounted(t, c, e); }
    }
    if k < |es| { NextInStep(TimerAt(t0, es, k), ClockAt(c0, t0, es, k), es[k]); }
  }

  // ---- the process -------------------------------------------------------------------

  class Clockwork {
    const timeInsr: nat
    const timeAggr: nat
    var timeoutInsr: int
    var timeoutAggr: int
    var timeSlct: int
    var timeoutSlct: int

    ghost function State(): Timer
      reads this
    {
      Timer(timeInsr, timeAggr, timeoutInsr, timeoutAggr, timeSlct, timeoutSlct)
    }

    constructor (insr: nat, aggr: nat)
      ensures timeInsr == (if insr == 0 then 300 else insr) && timeAggr == (if aggr == 0 then 60 else aggr)
      ensures State() == Started(timeInsr, timeAggr) && Inv(State())
    {
      timeInsr := if insr == 0 then 300 else insr;
      timeAggr := if aggr == 0 then 60 else aggr;
      timeoutInsr := if insr == 0 then 300 else insr;
      timeoutAggr := if aggr == 0 then 60 else aggr;
      timeSlct, timeoutSlct := 0, 0;
      new;
      ResetTimeoutSlct();
    }

    method ResetTimeoutSlct()
      modifies this`timeSlct, this`timeoutSlct
      ensures State() == ResetSelect(old(State()))
    {
      timeSlct := timeoutAggr;
      if timeoutInsr < timeoutAggr {
        timeSlct := timeoutInsr;
      }
      timeoutSlct := timeSlct;
    }

    /** `manage_alarms` at the end of a sleep, and which alarms it serves. */
    method ManageAlarms() returns (rolls: bool, inserts: bool)
      requires Inv(State())
      modifies this`timeoutInsr, this`timeoutAggr, this`timeSlct, this`timeoutSlct
      ensures rolls == AggrFires(old(State())) && inserts == InsrFires(old(State()))
      ensures State() == Expired(old(State())) && Inv(State())
    {
      NextInv(State(), Expires);
      timeoutInsr := timeoutInsr - timeSlct;
      timeoutAggr := timeoutAggr - timeSlct;
      rolls := timeoutAggr == 0;
      if rolls {
        timeoutAggr := timeAggr;
      }
      inserts := timeoutInsr == 0;
      if inserts {
        timeoutInsr := timeInsr;
      }
      ResetTimeoutSlct();
    }

    /** The reset of the insertion alarm by a full synchronisation, `remaining` seconds before waking. */
    method SyncReset(remaining: nat)
      requires Inv(State()) && remaining <= timeoutSlct
      modifies this`timeoutInsr, this`timeoutSlct
      ensures State() == Postponed(old(State()), remaining) && Inv(State())
      ensures timeoutInsr == timeInsr + 5 + (timeSlct - remaining)
    {
      NextInv(State(), Question(remaining));
      timeoutSlct := remaining;
      var passed := timeSlct - timeoutSlct;
      timeoutInsr := timeInsr + passed + SYNC_OFFSET;
    }
  }
}
