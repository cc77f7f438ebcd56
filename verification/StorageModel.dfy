/**
 * The EARDBD cache as values: a buffer of samples for each type, energy
 * aggregations, and what was handed on to the database. The server's buffers
 * are shown to be a plain log cut into batches, and its energy to be conserved.
 */
module StorageModel {
  /** Indices of the sample buffers; aggregations have a buffer of their own. */
  const APPS_MPI := 0
  const APPS_SEQ := 1
  const APPS_LEARN := 2
  const LOOPS := 3
  const EVENTS := 4
  const ENERGY := 5
  const TYPES := 6

  /** A received sample; only periodic metrics carry energy. */
  datatype Sample = Sample(tag: int, energy: nat)

  datatype Aggregation = Aggregation(energy: nat, count: nat)

  const EMPTY := Aggregation(0, 0)

  function Include(a: Aggregation, x: Sample): Aggregation { Aggregation(a.energy + x.energy, a.count + 1) }

  /** What an insertion is asked for: everything, some sample types, aggregations. */
  datatype Option = Option(all: bool, kinds: set<nat>, aggregations: bool)

  const ALL := Option(true, {}, false)

  predicate Wanted(o: Option, t: nat) { o.all || t in o.kinds }

  /**
   * `held[t]` are the samples of type `t` in the buffer of length `room[t]`;
   * `closed` are the finished aggregations and `open` the running one. `handed`
   * and `inserted` is what has gone to the database so far.
   */
  datatype Store = Store(
    room: seq<nat>, held: seq<seq<Sample>>, handed: seq<seq<Sample>>,
    slots: nat, closed: seq<Aggregation>, open: Aggregation, inserted: seq<Aggregation>,
    veteran: bool)

  predicate Shaped(s: Store) { |s.room| == |s.held| == |s.handed| == TYPES }

  /** The buffers of types `ks` are handed on and emptied. */
  function Flush(s: Store, ks: set<nat>): (r: Store)
    requires Shaped(s)
    ensures Shaped(r)
  {
    s.(held := seq(TYPES, t requires 0 <= t < TYPES => if t in ks then [] else s.held[t]),
       handed := seq(TYPES, t requires 0 <= t < TYPES => if t in ks then s.handed[t] + s.held[t] else s.handed[t]))
  }

  /** Finished aggregations are handed on; the running one moves to the front of its buffer. */
  function FlushAggregations(s: Store): (r: Store)
    requires Shaped(s)
    ensures Shaped(r)
  {
    if s.closed == [] then s
    else s.(closed := [], inserted := s.inserted + s.closed,
            open := if |s.closed| < s.slots && s.open.count > 0 then s.open else EMPTY)
  }

  function WantedKinds(o: Option): set<nat> { set t: nat | t < TYPES && Wanted(o, t) }

  /** An insertion: the wanted buffers, and the finished aggregations if they are wanted. */
  function InsertHub(s: Store, o: Option): (r: Store)
    requires Shaped(s)
    ensures Shaped(r)
  {
    var r := Flush(s, WantedKinds(o));
    if o.all || o.aggregations then FlushAggregations(r) else r
  }

  /** A sample enters its buffer; a full buffer is handed on at once. */
  function Store1(s: Store, t: nat, x: Sample): (r: Store)
    requires Shaped(s) && t < TYPES
    ensures Shaped(r)
  {
    if s.room[t] == 0 then s
    else
      var r := s.(held := s.held[t := s.held[t] + [x]]);
      if |r.held[t]| == s.room[t] then Flush(r, {t}) else r
  }

  /** In the mirror a full buffer waits if the server answers that it knows. */
  function MirrorStore1(s: Store, t: nat, x: Sample, answered: bool): (r: Store)
    requires Shaped(s) && t < TYPES
    ensures Shaped(r)
  {
    if answered && |s.held[t]| + 1 == s.room[t] then s.(held := s.held[t := s.held[t] + [x]]) else Store1(s, t, x)
  }

  /** A periodic metric also counts into the running aggregation. */
  function Metric(s: Store, t: nat, x: Sample): Store
  {
    if t == ENERGY then s.(open := Include(s.open, x)) else s
  }

  function Receive(s: Store, t: nat, x: Sample): (r: Store)
    requires Shaped(s) && t < TYPES
    ensures Shaped(r)
  {
    Store1(Metric(s, t, x), t, x)
  }

  function MirrorReceive(s: Store, t: nat, x: Sample, answered: bool): (r: Store)
    requires Shaped(s) && t < TYPES
    ensures Shaped(r)
  {
    MirrorStore1(Metric(s, t, x), t, x, answered)
  }

  /** The aggregation alarm: the running aggregation is finished and a new one begun. */
  function Rollover(s: Store): (r: Store)
    requires Shaped(s)
    ensures Shaped(r)
  {
    if s.slots == 0 || s.open.count == 0 then s
    else
      var r := s.(closed := s.closed + [s.open]);
      (if |r.closed| == s.slots then FlushAggregations(r) else r).(open := EMPTY)
  }

  /** In the mirror a full buffer waits if the server answers that it knows. */
  function MirrorRollover(s: Store, answered: bool): (r: Store)
    requires Shaped(s)
    ensures Shaped(r)
  {
    if answered && s.slots > 0 && s.open.count > 0 then s.(closed := s.closed + [s.open], open := EMPTY)
    else Rollover(s)
  }

  /** The insertion alarm of the server. */
  function TimedInsert(s: Store): (r: Store)
    requires Shaped(s)
    ensures Shaped(r)
  {
    InsertHub(s, ALL).(veteran := true)
  }

  /** The mirror forgets everything but a running aggregation. */
  function Forget(s: Store): (r: Store)
    requires Shaped(s)
    ensures Shaped(r)
  {
    s.(held := seq(TYPES, _ => []), closed := [],
       open := if |s.closed| < s.slots && s.open.count > 0 then s.open else EMPTY)
  }

  /**
   * The insertion alarm of the mirror: without an answer, or with one from a
   * server that is less of a veteran, it inserts; otherwise it forgets.
   */
  function MirrorAlarm(s: Store, answered: bool, answer: bool): (r: Store)
    requires Shaped(s)
    ensures Shaped(r)
  {
    (if !answered || (!answer && s.veteran) then InsertHub(s, ALL) else Forget(s)).(veteran := true)
  }

  /** A mirror's question: insert what it wants unless only the mirror is a veteran. */
  function Answer(s: Store, o: Option, asker: bool): (r: Store)
    requires Shaped(s)
    ensures Shaped(r)
  {
    var r := if s.veteran || !asker then InsertHub(s, o) else s;
    if o.all then r.(veteran := true) else r
  }

  datatype Event = Arrives(t: nat, x: Sample) | Rolls | Inserts | Asks(o: Option, asker: bool)

  predicate Proper(e: Event) { e.Arrives? ==> e.t < TYPES }

  function Next(s: Store, e: Event): (r: Store)
    requires Shaped(s) && Proper(e)
    ensures Shaped(r)
  {
    match e
    case Arrives(t, x) => Receive(s, t, x)
    case Rolls => Rollover(s)
    case Inserts => TimedInsert(s)
    case Asks(o, asker) => Answer(s, o, asker)
  }

  predicate AllProper(es: seq<Event>) { forall i :: 0 <= i < |es| ==> Proper(es[i]) }

  /** The store after the first `k` events. */
  function Run(s: Store, es: seq<Event>, k: nat): (r: Store)
    requires Shaped(s) && AllProper(es) && k <= |es|
    ensures Shaped(r)
  {
    if k == 0 then s else Next(Run(s, es, k - 1), es[k - 1])
  }

  // ---- the log -----------------------------------------------------------------------

  /** The samples of type `t` among the first `k` events, in order of arrival. */
  function Arrivals(es: seq<Event>, t: nat, k: nat): seq<Sample>
    requires k <= |es|
  {
    if k == 0 then []
    else Arrivals(es, t, k - 1) + if es[k - 1].Arrives? && es[k - 1].t == t then [es[k - 1].x] else []
  }

  /** Everything of type `t` the store ever took in: what was handed on, then what is held. */
  function Log(s: Store, t: nat): seq<Sample>
    requires Shaped(s) && t < TYPES
  {
    s.handed[t] + s.held[t]
  }

  /** Buffers between two events: never full, and the running aggregation has a slot. */
  predicate Ready(s: Store)
  {
    && Shaped(s)
    && (forall t :: 0 <= t < TYPES ==> |s.held[t]| < s.room[t] || s.held[t] == [])
    && |s.closed| < s.slots
    && (s.open.count == 0 ==> s.open == EMPTY)
  }

  /** An insertion moves samples along the log and leaves nothing wanted behind. */
  lemma InsertKeepsLog(s: Store, o: Option, t: nat)
    requires Shaped(s) && t < TYPES
    ensures var r := InsertHub(s, o);
            Log(r, t) == Log(s, t) && r.held[t] == (if Wanted(o, t) then [] else s.held[t]) && r.room == s.room
  {
  }

  /** Each event adds its own sample to the log of its type, and nothing to any other. */
  lemma NextExtendsLog(s: Store, e: Event, t: nat)
    requires Shaped(s) && Proper(e) && t < TYPES && s.room[t] > 0
    ensures Log(Next(s, e), t) == Log(s, t) + if e.Arrives? && e.t == t then [e.x] else []
    ensures Next(s, e).room == s.room
  {
    match e
    case Arrives(u, x) => ReceiveExtendsLog(s, u, x, t);
    case Rolls =>
    case Inserts => InsertKeepsLog(s, ALL, t);
    case Asks(o, asker) => InsertKeepsLog(s, o, t);
  }

  lemma ReceiveExtendsLog(s: Store, u: nat, x: Sample, t: nat)
    requires Shaped(s) && u < TYPES && t < TYPES && s.room[t] > 0
    ensures Log(Receive(s, u, x), t) == Log(s, t) + if u == t then [x] else []
    ensures Receive(s, u, x).room == s.room
  {
  }

  /** A store that has received nothing yet, with room for aggregations. */
  predicate Fresh(s: Store)
  {
    && Shaped(s) && s.slots > 0
    && (forall t :: 0 <= t < TYPES ==> s.held[t] == [] && s.handed[t] == [])
    && s.closed == [] && s.open == EMPTY && s.inserted == []
  }

  /** Every event leaves the buffers as they should be between events. */
  lemma NextReady(s: Store, e: Event)
    requires Ready(s) && Proper(e)
    ensures Ready(Next(s, e))
    ensures Next(s, e).slots == s.slots && Next(s, e).room == s.room
  {
    match e
    case Arrives(u, x) =>
    case Rolls =>
    case Inserts => InsertReady(s, ALL);
    case Asks(o, asker) => InsertReady(s, o);
  }

  lemma InsertReady(s: Store, o: Option)
    requires Ready(s)
    ensures Ready(InsertHub(s, o))
    ensures InsertHub(s, o).slots == s.slots && InsertHub(s, o).room == s.room
    ensures o.all ==> InsertHub(s, o).closed == []
  {
  }

  lemma {:induction false} RunReady(s: Store, es: seq<Event>, k: nat)
    requires Fresh(s) && AllProper(es) && k <= |es|
    ensures Ready(Run(s, es, k)) && Run(s, es, k).room == s.room && Run(s, es, k).slots == s.slots
  {
    if k > 0 {
      RunReady(s, es, k - 1);
      NextReady(Run(s, es, k - 1), es[k - 1]);
    }
  }

  lemma StepExtendsLog(s: Store, es: seq<Event>, k: nat, t: nat)
    requires Fresh(s) && AllProper(es) && 0 < k <= |es| && t < TYPES && s.room[t] > 0
    requires Log(Run(s, es, k - 1), t) == Arrivals(es, t, k - 1)
    ensures Log(Run(s, es, k), t) == Arrivals(es, t, k)
  {
    RunReady(s, es, k - 1);
    NextExtendsLog(Run(s, es, k - 1), es[k - 1], t);
  }

  /**
   * The server's buffers refine a plain log: in every run, for every type with
   * a buffer, the batches handed on followed by what is held are exactly the
   * samples received, in order, and no buffer is full between two events.
   */
  lemma {:induction false} BuffersAreALog(s: Store, es: seq<Event>, k: nat, t: nat)
    requires Fresh(s) && AllProper(es) && k <= |es| && t < TYPES && s.room[t] > 0
    ensures Log(Run(s, es, k), t) == Arrivals(es, t, k)
    ensures |Run(s, es, k).held[t]| < s.room[t]
  {
    RunReady(s, es, k);
    if k > 0 {
      BuffersAreALog(s, es, k - 1, t);
      StepExtendsLog(s, es, k, t);
    }
  }

  /** Whether an event makes the server insert everything. */
  predicate InsertsAll(s: Store, e: Event) { e.Inserts? || (e.Asks? && e.o.all && (s.veteran || !e.asker)) }

  lemma NextInsertsAll(s: Store, e: Event, t: nat)
    requires Shaped(s) && t < TYPES && InsertsAll(s, e)
    ensures Next(s, e).held[t] == [] && Next(s, e).closed == []
  {
  }

  /**
   * Whenever the insertion alarm goes off, or a full question makes the server
   * insert, everything received so far is in the database: nothing is held back,
   * of samples or of finished aggregations.
   */
  lemma AlarmHandsOnAll(s: Store, es: seq<Event>, k: nat, t: nat)
    requires Fresh(s) && AllProper(es) && 0 < k <= |es| && t < TYPES && s.room[t] > 0
    requires InsertsAll(Run(s, es, k - 1), es[k - 1])
    ensures Run(s, es, k).handed[t] == Arrivals(es, t, k) && Run(s, es, k).held[t] == []
    ensures Run(s, es, k).closed == []
  {
    BuffersAreALog(s, es, k, t);
    NextInsertsAll(Run(s, es, k - 1), es[k - 1], t);
    assert Run(s, es, k) == Next(Run(s, es, k - 1), es[k - 1]);
  }

  // ---- energy ------------------------------------------------------------------------

  function Plus(a: Aggregation, b: Aggregation): Aggregation { Aggregation(a.energy + b.energy, a.count + b.count) }

  /** Energy and number of metrics of the first `k` aggregations together. */
  function CombinedTo(a: seq<Aggregation>, k: nat): Aggregation
    requires k <= |a|
  {
    if k == 0 then EMPTY else Plus(CombinedTo(a, k - 1), a[k - 1])
  }

  function Combined(a: seq<Aggregation>): Aggregation { CombinedTo(a, |a|) }

  lemma {:induction false} CombinedPrefix(a: seq<Aggregation>, b: seq<Aggregation>, k: nat)
    requires k <= |a|
    ensures CombinedTo(a + b, k) == CombinedTo(a, k)
  {
    if k > 0 { CombinedPrefix(a, b, k - 1); }
  }

  lemma CombinedOneMore(a: seq<Aggregation>, x: Aggregation)
    ensures Combined(a + [x]) == Plus(Combined(a), x)
  {
    CombinedPrefix(a, [x], |a|);
  }

  lemma {:induction false} CombinedAppend(a: seq<Aggregation>, b: seq<Aggregation>)
    ensures Combined(a + b) == Plus(Combined(a), Combined(b))
  {
    if b == [] {
      assert a + b == a;
    } else {
      var rest, x := b[..|b| - 1], b[|b| - 1];
      assert b == rest + [x] && a + b == a + rest + [x];
      CombinedAppend(a, rest);
      CombinedOneMore(a + rest, x);
      CombinedOneMore(rest, x);
    }
  }

  /** All energy the store accounts for: inserted, finished and running. */
  function Account(s: Store): Aggregation
  {
    Plus(Plus(Combined(s.inserted), Combined(s.closed)), s.open)
  }

  /** An account after an event: one metric more, if it is one. */
  function Metering(a: Aggregation, e: Event): Aggregation
  {
    if e.Arrives? && e.t == ENERGY then Aggregation(a.energy + e.x.energy, a.count + 1) else a
  }

  function EnergyOf(xs: seq<Sample>): nat
  {
    if xs == [] then 0 else EnergyOf(xs[..|xs| - 1]) + xs[|xs| - 1].energy
  }

  /** Energy and number of the metrics among the first `k` events. */
  function Metered(es: seq<Event>, k: nat): Aggregation
    requires k <= |es|
  {
    Aggregation(EnergyOf(Arrivals(es, ENERGY, k)), |Arrivals(es, ENERGY, k)|)
  }

  lemma MeteredNext(es: seq<Event>, k: nat)
    requires 0 < k <= |es|
    ensures Metered(es, k) == Metering(Metered(es, k - 1), es[k - 1])
  {
    var before, now := Arrivals(es, ENERGY, k - 1), Arrivals(es, ENERGY, k);
    if es[k - 1].Arrives? && es[k - 1].t == ENERGY {
      assert now[..|now| - 1] == before;
    } else {
      assert now == before;
    }
  }

  lemma FlushAggregationsConserves(s: Store)
    requires Shaped(s)
    requires |s.closed| < s.slots && (s.open.count == 0 ==> s.open == EMPTY)
    ensures Account(FlushAggregations(s)) == Account(s)
  {
    CombinedAppend(s.inserted, s.closed);
  }

  lemma InsertConserves(s: Store, o: Option)
    requires Ready(s)
    ensures Account(InsertHub(s, o)) == Account(s)
  {
    FlushAggregationsConserves(Flush(s, WantedKinds(o)));
  }

  /** The alarm finishes a running aggregation that has metrics, and begins a new one. */
  lemma RolloverFinishes(s: Store)
    requires Shaped(s) && |s.closed| < s.slots && s.open.count > 0
    ensures var r := Rollover(s);
            && r.open == EMPTY && r.inserted + r.closed == s.inserted + s.closed + [s.open]
            && r.closed == if |s.closed| + 1 < s.slots then s.closed + [s.open] else []
  {
  }

  /** What a mirror that forgets keeps: a running aggregation, and what it has handed on. */
  lemma ForgetKeepsRunning(s: Store, t: nat)
    requires Shaped(s) && t < TYPES
    ensures var r := Forget(s);
            && r.held[t] == [] && r.closed == [] && r.handed == s.handed && r.inserted == s.inserted
            && (|s.closed| < s.slots && (s.open.count == 0 ==> s.open == EMPTY) ==> r.open == s.open)
  {
  }

  /** Finishing the running aggregation moves it; a full buffer then moves all of them. */
  lemma RolloverConserves(s: Store)
    requires Ready(s)
    ensures Account(Rollover(s)) == Account(s)
  {
    if s.open.count > 0 {
      var all := s.closed + [s.open];
      assert Combined(all) == Plus(Combined(s.closed), s.open) by {
        CombinedAppend(s.closed, [s.open]);
        assert CombinedTo([s.open], 1) == Plus(CombinedTo([s.open], 0), s.open);
      }
      if |all| == s.slots {
        assert Rollover(s).inserted == s.inserted + all && Rollover(s).closed == [];
        CombinedAppend(s.inserted, all);
      } else {
        assert Rollover(s).inserted == s.inserted && Rollover(s).closed == all;
      }
    }
  }

  lemma ReceiveConserves(s: Store, t: nat, x: Sample)
    requires Shaped(s) && t < TYPES
    ensures Account(Receive(s, t, x)) == if t == ENERGY then Include(Account(s), x) else Account(s)
  {
    var r := Receive(s, t, x);
    assert r.inserted == s.inserted && r.closed == s.closed;
    assert r.open == if t == ENERGY then Include(s.open, x) else s.open;
  }

  /** Each event adds the energy of its own metric to the account, and nothing else. */
  lemma NextConserves(s: Store, e: Event)
    requires Ready(s) && Proper(e)
    ensures Account(Next(s, e)) == Metering(Account(s), e)
  {
    match e
    case Arrives(u, x) => ReceiveConserves(s, u, x);
    case Rolls => RolloverConserves(s);
    case Inserts => InsertConserves(s, ALL);
    case Asks(o, asker) => InsertConserves(s, o);
  }

  lemma FreshAccount(s: Store)
    requires Fresh(s)
    ensures Account(s) == EMPTY
  {
    assert Combined(s.inserted) == EMPTY;
    assert Combined(s.closed) == EMPTY;
  }

  lemma StepConserves(s: Store, es: seq<Event>, k: nat, before: Store, after: Store)
    requires Fresh(s) && AllProper(es) && 0 < k <= |es| && before == Run(s, es, k - 1) && after == Run(s, es, k)
    ensures Account(after) == Metering(Account(before), es[k - 1])
  {
    assert Ready(before) by { RunReady(s, es, k - 1); }
    assert after == Next(before, es[k - 1]);
    NextConserves(before, es[k - 1]);
  }

  /**
   * Energy is conserved on the server: in every run the energy (and number) of
   * all metrics received is what was inserted, plus what is finished, plus what
   * is running, wherever in the buffer that is.
   */
  lemma {:induction false} EnergyIsConserved(s: Store, es: seq<Event>, k: nat)
    requires Fresh(s) && AllProper(es) && k <= |es|
    ensures Account(Run(s, es, k)) == Metered(es, k)
  {
    if k == 0 {
      FreshAccount(s);
    } else {
      EnergyIsConserved(s, es, k - 1);
      MeteredNext(es, k);
      StepConserves(s, es, k, Run(s, es, k - 1), Run(s, es, k));
    }
  }
}
