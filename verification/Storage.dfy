/**
 * The storage of an EARDBD process: the buffers of `eardbd_storage.c`
 * and the alarms of `eardbd_body.c` that empty them, proved to do what
 * `StorageModel` says.
 */
module Storage {
  import opened StorageModel

  /** The live prefix of each allocation. */
  function Live(chunks: seq<seq<Sample>>, index: seq<nat>): (r: seq<seq<Sample>>)
    requires |chunks| == |index| && forall t :: 0 <= t < |index| ==> index[t] <= |chunks[t]|
    ensures |r| == |chunks|
  {
    seq(|chunks|, t requires 0 <= t < |chunks| => chunks[t][..index[t]])
  }

  function Lengths(chunks: seq<seq<Sample>>): (r: seq<nat>)
    ensures |r| == |chunks|
  {
    seq(|chunks|, t requires 0 <= t < |chunks| => |chunks[t]|)
  }

  /** Handing on some types and then others is handing on all of them. */
  lemma FlushBoth(s: Store, ks: set<nat>, ls: set<nat>)
    requires Shaped(s)
    ensures Flush(Flush(s, ks), ls) == Flush(s, ks + ls)
  {
    assert Flush(Flush(s, ks), ls).held == Flush(s, ks + ls).held;
    forall t | 0 <= t < TYPES
      ensures Flush(Flush(s, ks), ls).handed[t] == Flush(s, ks + ls).handed[t]
    {
      assert s.handed[t] + s.held[t] + [] == s.handed[t] + s.held[t];
    }
    assert Flush(Flush(s, ks), ls).handed == Flush(s, ks + ls).handed;
  }

  lemma FlushNone(s: Store)
    requires Shaped(s)
    ensures Flush(s, {}) == s
  {
  }

  /** The types are handed on one by one, aggregations among them. */
  function One(o: Option, t: nat): set<nat> { if Wanted(o, t) then {t} else {} }

  lemma AllTypes(o: Option)
    ensures One(o, 0) + One(o, 1) + One(o, 2) + One(o, 5) + One(o, 4) + One(o, 3) == WantedKinds(o)
  {
  }

  /** Samples and aggregations do not get in each other's way. */
  lemma FlushCommutes(s: Store, ks: set<nat>)
    requires Shaped(s)
    ensures Flush(FlushAggregations(s), ks) == FlushAggregations(Flush(s, ks))
  {
  }

  class Cache {
    /** `type_chunk` and `samples_index`; an allocation never changes its length. */
    var chunks: seq<seq<Sample>>
    var index: seq<nat>
    /** The allocation for aggregations; the running one is at `slot`. */
    var aggregations: seq<Aggregation>
    var slot: nat
    var veteran: bool
    /** What was handed to the report plugins so far. */
    ghost var handed: seq<seq<Sample>>
    ghost var inserted: seq<Aggregation>

    ghost predicate Whole()
      reads this
    {
      && |chunks| == |index| == |handed| == TYPES
      && (forall t :: 0 <= t < TYPES ==> index[t] <= |chunks[t]|)
      && slot <= |aggregations|
    }

    ghost function State(): (s: Store)
      requires Whole()
      reads this
      ensures Shaped(s)
    {
      Store(Lengths(chunks), Live(chunks, index), handed, |aggregations|, aggregations[..slot],
            if slot < |aggregations| then aggregations[slot] else EMPTY, inserted, veteran)
    }

    ghost predicate Valid()
      reads this
    {
      Whole() && slot < |aggregations| && Ready(State())
    }

    constructor (lengths: seq<nat>, slots: nat)
      requires |lengths| == TYPES && slots > 0
      ensures Valid() && Fresh(State()) && !veteran && Lengths(chunks) == lengths && |aggregations| == slots
    {
      chunks := seq(TYPES, t requires 0 <= t < TYPES => seq(lengths[t], _ => Sample(0, 0)));
      index := seq(TYPES, _ => 0);
      aggregations := seq(slots, _ => EMPTY);
      slot, veteran := 0, false;
      handed, inserted := seq(TYPES, _ => []), [];
      new;
      assert Lengths(chunks) == lengths;
    }

    /** One buffer goes to the database and starts over. */
    method InsertKind(t: nat)
      requires Whole() && t < TYPES
      modifies this`index, this`handed
      ensures Whole()
      ensures State() == Flush(old(State()), {t})
      ensures index == old(index)[t := 0] && handed == old(handed)[t := old(handed[t] + chunks[t][..index[t]])]
    {
      assert index[t] == 0 ==> handed[t] + chunks[t][..index[t]] == handed[t];
      if index[t] > 0 {
        handed := handed[t := handed[t] + chunks[t][..index[t]]];
        index := index[t := 0];
      }
      assert old(State()).held[t] == [] ==> handed[t] + old(State()).held[t] == handed[t];
      assert State().held == Flush(old(State()), {t}).held;
      assert State().handed == Flush(old(State()), {t}).handed;
    }

    /** Finished aggregations go to the database; the running one moves to the front. */
    method InsertAggregations()
      requires Whole() && |aggregations| > 0
      modifies this`aggregations, this`slot, this`inserted
      ensures Whole()
      ensures State() == FlushAggregations(old(State()))
    {
      if slot > 0 {
        inserted := inserted + aggregations[..slot];
        if slot < |aggregations| && aggregations[slot].count > 0 {
          aggregations := aggregations[0 := aggregations[slot]];
        } else {
          aggregations := aggregations[0 := EMPTY];
        }
        slot := 0;
      }
    }

    method InsertWanted(o: Option, t: nat)
      requires Whole() && t < TYPES
      modifies this`index, this`handed
      ensures Whole()
      ensures State() == Flush(old(State()), One(o, t))
    {
      FlushNone(State());
      if Wanted(o, t) {
        InsertKind(t);
      }
    }

    /** `insert_hub`: type by type in its fixed order. */
    method InsertHub(o: Option)
      requires Whole() && |aggregations| > 0
      modifies this`index, this`handed, this`aggregations, this`slot, this`inserted
      ensures Whole()
      ensures State() == StorageModel.InsertHub(old(State()), o)
      ensures forall t {:trigger index[t]} :: 0 <= t < TYPES ==>
                if o.all || t in o.kinds
                then index[t] == 0 && handed[t] == old(handed)[t] + chunks[t][..old(index)[t]]
                else index[t] == old(index)[t] && handed[t] == old(handed)[t]
      ensures if o.all || o.aggregations
              then slot == 0 && inserted == old(inserted + aggregations[..slot])
              else slot == old(slot) && inserted == old(inserted) && aggregations == old(aggregations)
      ensures old(slot < |aggregations| && aggregations[slot].count > 0) ==>
                slot < |aggregations| && aggregations[slot] == old(aggregations[slot])
    {
      ghost var s := State();
      InsertWanted(o, APPS_MPI);
      InsertWanted(o, APPS_SEQ);
      FlushBoth(s, One(o, 0), One(o, 1));
      InsertWanted(o, APPS_LEARN);
      FlushBoth(s, One(o, 0) + One(o, 1), One(o, 2));
      InsertWanted(o, ENERGY);
      ghost var first := One(o, 0) + One(o, 1) + One(o, 2) + One(o, 5);
      FlushBoth(s, One(o, 0) + One(o, 1) + One(o, 2), One(o, 5));
      ghost var r := Flush(s, first);
      assert State() == r;
      if o.all || o.aggregations {
        InsertAggregations();
      }
      InsertLast(o);
      ghost var last := One(o, 4) + One(o, 3);
      FlushCommutes(r, last);
      FlushBoth(s, first, last);
      AllTypes(o);
      assert first + last == WantedKinds(o);
      Inserted(s, o);
    }

    /** What the fields are once an insertion of `o` is made in state `s`. */
    lemma Inserted(s: Store, o: Option)
      requires Whole() && Shaped(s) && State() == StorageModel.InsertHub(s, o)
      ensures forall t {:trigger index[t]} :: 0 <= t < TYPES ==>
                if o.all || t in o.kinds
                then index[t] == 0 && handed[t] == s.handed[t] + s.held[t]
                else index[t] == |s.held[t]| && handed[t] == s.handed[t]
      ensures o.all || o.aggregations ==> slot == 0 && inserted == s.inserted + s.closed
      ensures |s.closed| < |aggregations| && s.open.count > 0 ==>
                slot < |aggregations| && aggregations[slot] == s.open
    {
      forall t | 0 <= t < TYPES
        ensures index[t] == |State().held[t]|
      {
        assert State().held[t] == chunks[t][..index[t]];
      }
      assert slot == |State().closed|;
    }

    method InsertLast(o: Option)
      requires Whole()
      modifies this`index, this`handed
      ensures Whole()
      ensures State() == Flush(old(State()), One(o, 4) + One(o, 3))
    {
      FlushBoth(State(), One(o, 4), One(o, 3));
      InsertWanted(o, EVENTS);
      InsertWanted(o, LOOPS);
    }

    /**
     * `storage_sample_add`: the server hands a full buffer on at once, the mirror
     * only if its question about it stays without an answer.
     */
    method SampleAdd(t: nat, x: Sample, server: bool, answered: bool)
      requires Whole() && t < TYPES
      requires index[t] < |chunks[t]| || |chunks[t]| == 0
      modifies this`chunks, this`index, this`handed
      ensures Whole()
      ensures State() == if server then Store1(old(State()), t, x) else MirrorStore1(old(State()), t, x, answered)
      ensures forall u {:trigger index[u]} :: 0 <= u < TYPES && (u != t || |chunks[t]| == 0) ==>
                index[u] == old(index)[u] && handed[u] == old(handed)[u]
      ensures |chunks[t]| > 0 ==>
                if old(index)[t] + 1 == |chunks[t]| && (server || !answered)
                then index[t] == 0 && handed[t] == old(handed[t] + chunks[t][..index[t]]) + [x]
                else && index[t] == old(index)[t] + 1 && handed[t] == old(handed)[t]
                     && chunks[t][..index[t]] == old(chunks[t][..index[t]]) + [x]
    {
      if |chunks[t]| == 0 {
        return;
      }
      ghost var s := State();
      var at := index[t];
      chunks := chunks[t := chunks[t][at := x]];
      index := index[t := at + 1];
      assert chunks[t][..at + 1] == s.held[t] + [x];
      assert State().held == s.held[t := s.held[t] + [x]];
      assert State().room == s.room;
      if index[t] == |chunks[t]| && (server || !answered) {
        InsertKind(t);
      }
    }

    /** A sample from a node; periodic metrics count into the running aggregation first. */
    method SampleReceive(t: nat, x: Sample, server: bool, answered: bool)
      requires Whole() && slot < |aggregations| && t < TYPES
      requires index[t] < |chunks[t]| || |chunks[t]| == 0
      modifies this`chunks, this`index, this`handed, this`aggregations
      ensures Whole() && (server && old(Valid()) ==> Valid())
      ensures State() == if server then Receive(old(State()), t, x) else MirrorReceive(old(State()), t, x, answered)
      ensures var a := old(aggregations[slot]);
              aggregations[slot] == if t == ENERGY then Aggregation(a.energy + x.energy, a.count + 1) else a
    {
      ghost var s := State();
      if t == ENERGY {
        aggregations := aggregations[slot := Include(aggregations[slot], x)];
        assert aggregations[..slot] == s.closed;
      }
      assert State() == Metric(s, t, x);
      SampleAdd(t, x, server, answered);
      if server && old(Valid()) { NextReady(s, Arrives(t, x)); }
    }

    /**
     * The aggregation alarm of `manage_alarms`. Where the mirror's buffer is full
     * and waits, the new aggregation has no slot in it.
     */
    method AggregationAlarm(server: bool, answered: bool)
      requires Whole() && (slot < |aggregations| || |aggregations| == 0)
      modifies this`aggregations, this`slot, this`inserted
      ensures Whole() && (server && old(Valid()) ==> Valid())
      ensures State() == if server then Rollover(old(State())) else MirrorRollover(old(State()), answered)
      ensures old(|aggregations| > 0 && aggregations[slot].count > 0) ==>
                && (slot < |aggregations| ==> aggregations[slot] == EMPTY)
                && slot == (if old(slot) + 1 == |aggregations| && (server || !answered) then 0 else old(slot) + 1)
                && inserted + aggregations[..slot] == old(inserted + aggregations[..slot] + [aggregations[slot]])
    {
      ghost var s := State();
      if |aggregations| > 0 && aggregations[slot].count > 0 {
        slot := slot + 1;
        assert aggregations[..slot] == s.closed + [s.open];
        if slot == |aggregations| && (server || !answered) {
          InsertAggregations();
        }
        if slot < |aggregations| {
          aggregations := aggregations[slot := EMPTY];
        }
      }
      if server && old(Valid()) { NextReady(s, Rolls); }
    }

    /** The insertion alarm of `manage_alarms` in the server. */
    method InsertionAlarm()
      requires Valid()
      modifies this`index, this`handed, this`aggregations, this`slot, this`inserted, this`veteran
      ensures Valid()
      ensures State() == TimedInsert(old(State())) && veteran
      ensures forall t {:trigger index[t]} :: 0 <= t < TYPES ==>
                index[t] == 0 && handed[t] == old(handed)[t] + chunks[t][..old(index)[t]]
      ensures slot == 0 && inserted == old(inserted + aggregations[..slot])
      ensures aggregations[0] == old(aggregations[slot])
    {
      NextReady(State(), Inserts);
      InsertHub(ALL);
      veteran := true;
    }

    /** A mirror's question; the answer tells whether this server was a veteran when asked. */
    method SyncQuestion(o: Option, asker: bool) returns (answer: bool)
      requires Valid()
      modifies this`index, this`handed, this`aggregations, this`slot, this`inserted, this`veteran
      ensures Valid()
      ensures answer == old(veteran)
      ensures State() == Answer(old(State()), o, asker)
      ensures veteran <==> old(veteran) || o.all
      ensures forall t {:trigger index[t]} :: 0 <= t < TYPES ==>
                if (old(veteran) || !asker) && (o.all || t in o.kinds)
                then index[t] == 0 && handed[t] == old(handed)[t] + chunks[t][..old(index)[t]]
                else index[t] == old(index)[t] && handed[t] == old(handed)[t]
    {
      NextReady(State(), Asks(o, asker));
      if veteran || !asker {
        InsertHub(o);
      }
      answer := veteran;
      if o.all {
        veteran := true;
      }
    }

    /** `reset_all`: aggregations first, then every index back to zero. */
    method ResetAll()
      requires Whole() && |aggregations| > 0
      modifies this`index, this`aggregations, this`slot
      ensures Whole()
      ensures State() == Forget(old(State()))
      ensures slot == 0 && forall t {:trigger index[t]} :: 0 <= t < TYPES ==> index[t] == 0
      ensures old(slot < |aggregations| && aggregations[slot].count > 0) ==> aggregations[0] == old(aggregations[slot])
    {
      if slot < |aggregations| && aggregations[slot].count > 0 {
        aggregations := aggregations[0 := aggregations[slot]];
      } else {
        aggregations := aggregations[0 := EMPTY];
      }
      slot := 0;
      ghost var moved := aggregations;
      for t := 0 to TYPES
        invariant Whole() && slot == 0 && aggregations == moved
        invariant forall u :: 0 <= u < t ==> index[u] == 0
      {
        index := index[t := 0];
      }
      assert State().held == Forget(old(State())).held;
    }

    /** The insertion alarm of `manage_alarms` in the mirror, with the answer it got, if any. */
    method MirrorInsertionAlarm(answered: bool, answer: bool)
      requires Whole() && |aggregations| > 0
      modifies this`index, this`handed, this`aggregations, this`slot, this`inserted, this`veteran
      ensures Whole()
      ensures State() == MirrorAlarm(old(State()), answered, answer) && veteran
      ensures forall t {:trigger index[t]} :: 0 <= t < TYPES ==>
                && index[t] == 0
                && handed[t] == old(handed)[t] + if !answered || (!answer && old(veteran))
                                                 then chunks[t][..old(index)[t]] else []
      ensures slot == 0
      ensures inserted == old(inserted) + if !answered || (!answer && old(veteran))
                                          then old(aggregations[..slot]) else []
    {
      if !answered {
        InsertHub(ALL);
      } else if !answer && veteran {
        InsertHub(ALL);
      } else {
        ResetAll();
      }
      veteran := true;
    }
  }
}
