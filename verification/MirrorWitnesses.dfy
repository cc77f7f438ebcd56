/** Runs of a server and its mirror that lose a sample, or hand one on twice. */
module MirrorWitnesses {
  import opened StorageModel
  import opened MirrorSync

  const X := Sample(7, 0)

  /** Samples of the first type only. */
  function Only(a: seq<Sample>): (r: seq<seq<Sample>>)
    ensures |r| == TYPES && r[0] == a && forall t :: 0 < t < TYPES ==> r[t] == []
  {
    [a, [], [], [], [], []]
  }

  /** A store with ample room that holds and has handed on samples of the first type only. */
  function Plain(held: seq<Sample>, handed: seq<Sample>, veteran: bool): (s: Store)
    ensures Shaped(s)
  {
    Store([9, 9, 9, 9, 9, 9], Only(held), Only(handed), 1, [], EMPTY, [], veteran)
  }

  lemma Receives(held: seq<Sample>, handed: seq<Sample>, veteran: bool)
    requires |held| < 8
    ensures Receive(Plain(held, handed, veteran), 0, X) == Plain(held + [X], handed, veteran)
  {
  }

  lemma Inserts(held: seq<Sample>, handed: seq<Sample>, veteran: bool)
    ensures InsertHub(Plain(held, handed, veteran), ALL) == Plain([], handed + held, veteran)
  {
    var r := InsertHub(Plain(held, handed, veteran), ALL);
    assert r.held == Only([]) && r.handed == Only(handed + held);
  }

  lemma Forgets(held: seq<Sample>, handed: seq<Sample>, veteran: bool)
    ensures Forget(Plain(held, handed, veteran)) == Plain([], handed, veteran)
  {
    assert Forget(Plain(held, handed, veteran)).held == Only([]);
  }

  /** A system of two such stores. */
  function Two(up: bool, unquestioned: bool, server: Store, mirror: Store, delivered: seq<Sample>): System
  {
    System(up, unquestioned, server, mirror, Only([]), Only(delivered))
  }

  /** An answered full synchronisation of veterans, or of two beginners: the server inserts. */
  lemma ServerInsertsAll(unquestioned: bool, h: seq<Sample>, d: seq<Sample>, v: bool, m: seq<Sample>, n: seq<Sample>,
                         w: bool, del: seq<Sample>)
    requires v || !w
    ensures Synced(Two(true, unquestioned, Plain(h, d, v), Plain(m, n, w), del), Answered)
            == Two(true, false, Plain([], d + h, true), Plain([], n, true), del)
  {
    Inserts(h, d, v);
    Forgets(m, n, w);
  }

  /** One of a veteran mirror with a new server: the mirror inserts. */
  lemma MirrorInsertsAll(unquestioned: bool, h: seq<Sample>, d: seq<Sample>, m: seq<Sample>, n: seq<Sample>,
                         del: seq<Sample>)
    ensures Synced(Two(true, unquestioned, Plain(h, d, false), Plain(m, n, true), del), Answered)
            == Two(true, false, Plain(h, d, true), Plain([], n + m, true), del)
  {
    Inserts(m, n, true);
  }

  /** Event `e` takes the system from `s` to `t`. */
  predicate Leads(s: System, e: MirrorSync.Event, t: System)
  {
    Shape(s) && Shape(t) && Possible(s, e) && t == MirrorSync.Next(s, e)
  }

  lemma Crashes(v: bool, h: seq<Sample>, m: Store, del: seq<Sample>)
    requires Shaped(m)
    ensures Leads(Two(true, false, Plain(h, [], v), m, del), Crash, Two(false, false, Plain([], [], false), m, del))
  {
    var none: seq<Sample> := [];
    forall t | 0 <= t < TYPES
      ensures Append(Only(none), Only(none))[t] == Only(none)[t]
    {
    }
    assert Append(Only(none), Only(none)) == Only(none);
    assert Blank(Plain(h, [], v)) == Plain([], [], false);
  }

  lemma Restarts(m: Store, del: seq<Sample>)
    requires Shaped(m)
    ensures Leads(Two(false, false, Plain([], [], false), m, del), Restart,
                  Two(true, true, Plain([], [], false), m, del))
  {
  }

  /** A delivery to the mirror, and to the server if it is up. */
  lemma DeliversX(up: bool, unquestioned: bool, v: bool, w: bool)
    ensures Leads(Two(up, unquestioned, Plain([], [], v), Plain([], [], w), []), Delivers(0, X),
                  Two(up, unquestioned, Plain(if up then [X] else [], [], v), Plain([X], [], w), [X]))
  {
    Receives([], [], v);
    Receives([], [], w);
    assert Only([])[0 := Only([])[0] + [X]] == Only([X]) by { assert [] + [X] == [X]; }
  }

  /** The server's alarm when it holds nothing. */
  lemma AlarmPromotes(m: Store, del: seq<Sample>)
    requires Shaped(m)
    ensures Leads(Two(true, true, Plain([], [], false), m, del), ServerAlarm,
                  Two(true, true, Plain([], [], true), m, del))
  {
    Inserts([], [], false);
  }

  /** Every event leads from one state to the next. */
  lemma RunOf(run: seq<System>, es: seq<MirrorSync.Event>)
    requires |run| == |es| + 1 && Shape(run[0]) && forall i :: 0 <= i < |es| ==> Leads(run[i], es[i], run[i + 1])
    ensures IsRun(run, es)
  {
    forall i | 0 <= i < |run|
      ensures Shape(run[i])
    {
      if i > 0 { assert Leads(run[i - 1], es[i - 1], run[i - 1 + 1]); }
    }
    forall i | 0 <= i < |es|
      ensures Possible(run[i], es[i]) && run[i + 1] == MirrorSync.Next(run[i], es[i])
    {
      assert Leads(run[i], es[i], run[i + 1]);
    }
  }

  /** Both processes fresh, and after a first synchronisation. */
  const BEGINNING := Two(true, false, Plain([], [], false), Plain([], [], false), [])
  const VETERANS := Two(true, false, Plain([], [], true), Plain([], [], true), [])
  const DOWN := Two(false, false, Plain([], [], false), Plain([], [], true), [])
  const UP_AGAIN := Two(true, true, Plain([], [], false), Plain([], [], true), [])

  lemma Begins()
    ensures Initial(BEGINNING)
    ensures Leads(BEGINNING, FullSync(Answered), VETERANS) && Leads(VETERANS, Crash, DOWN)
            && Leads(DOWN, Restart, UP_AGAIN)
  {
    ServerInsertsAll(false, [], [], false, [], [], false, []);
    Crashes(true, [], Plain([], [], true), []);
    Restarts(Plain([], [], true), []);
  }

  const MISSED := Two(false, false, Plain([], [], false), Plain([X], [], true), [X])
  const BACK := Two(true, true, Plain([], [], false), Plain([X], [], true), [X])
  const PROMOTED := Two(true, true, Plain([], [], true), Plain([X], [], true), [X])
  const FORGOTTEN := Two(true, false, Plain([], [], true), Plain([], [], true), [X])

  lemma Misses()
    ensures Leads(DOWN, Delivers(0, X), MISSED) && Leads(MISSED, Restart, BACK)
    ensures Leads(BACK, ServerAlarm, PROMOTED) && Leads(PROMOTED, FullSync(Answered), FORGOTTEN)
  {
    DeliversX(false, false, false, true);
    Restarts(Plain([X], [], true), [X]);
    AlarmPromotes(Plain([X], [], true), [X]);
    ServerInsertsAll(true, [], [], true, [X], [], true, [X]);
  }

  /**
   * A sample that arrives while the server is down is lost if the restarted
   * server becomes a veteran by its own alarm: the mirror believes it and forgets.
   */
  lemma LossAfterRestart() returns (run: seq<System>)
    ensures IsRun(run, [FullSync(Answered), Crash, Delivers(0, X), Restart, ServerAlarm, FullSync(Answered)])
    ensures Initial(run[0]) && X in run[6].delivered[0]
    ensures !InDatabase(run[6], 0, X) && X !in run[6].mirror.held[0] && X !in run[6].server.held[0]
  {
    Begins();
    Misses();
    run := [BEGINNING, VETERANS, DOWN, MISSED, BACK, PROMOTED, FORGOTTEN];
    RunOf(run, [FullSync(Answered), Crash, Delivers(0, X), Restart, ServerAlarm, FullSync(Answered)]);
  }

  const TAKEN := Two(true, false, Plain([X], [], false), Plain([X], [], false), [X])
  const GONE := Two(false, false, Plain([], [], false), Plain([X], [], false), [X])
  const EMPTY_SERVER := Two(true, true, Plain([], [], false), Plain([X], [], false), [X])

  lemma LosesEarly()
    ensures Leads(BEGINNING, Delivers(0, X), TAKEN) && Leads(TAKEN, Crash, GONE)
    ensures Leads(GONE, Restart, EMPTY_SERVER) && Leads(EMPTY_SERVER, FullSync(Answered), FORGOTTEN)
  {
    DeliversX(true, false, false, false);
    Crashes(false, [X], Plain([X], [], false), [X]);
    Restarts(Plain([X], [], false), [X]);
    ServerInsertsAll(true, [], [], false, [X], [], false, [X]);
  }

  /** So is one that arrives before a crash in the mirror's first period: neither side is a veteran then. */
  lemma LossInFirstPeriod() returns (run: seq<System>)
    ensures IsRun(run, [Delivers(0, X), Crash, Restart, FullSync(Answered)])
    ensures Initial(run[0]) && X in run[4].delivered[0]
    ensures !InDatabase(run[4], 0, X) && X !in run[4].mirror.held[0] && X !in run[4].server.held[0]
  {
    Begins();
    LosesEarly();
    run := [BEGINNING, TAKEN, GONE, EMPTY_SERVER, FORGOTTEN];
    RunOf(run, [Delivers(0, X), Crash, Restart, FullSync(Answered)]);
  }

  const SHARED := Two(true, true, Plain([X], [], false), Plain([X], [], true), [X])
  const ONCE := Two(true, false, Plain([X], [], true), Plain([], [X], true), [X])
  const TWICE := Two(true, false, Plain([], [X], true), Plain([], [X], true), [X])

  lemma Doubles()
    ensures Leads(UP_AGAIN, Delivers(0, X), SHARED)
    ensures Leads(SHARED, FullSync(Answered), ONCE) && Leads(ONCE, FullSync(Answered), TWICE)
  {
    DeliversX(true, true, false, true);
    MirrorInsertsAll(true, [X], [], [X], [], [X]);
    ServerInsertsAll(false, [X], [], true, [], [X], true, [X]);
  }

  /** After a restart the mirror inserts what the server holds, too, and the server inserts it again. */
  lemma HandedOnTwice() returns (run: seq<System>)
    ensures IsRun(run, [FullSync(Answered), Crash, Restart, Delivers(0, X), FullSync(Answered), FullSync(Answered)])
    ensures Initial(run[0]) && Times(run[6], 0, X) == 2
  {
    Begins();
    Doubles();
    run := [BEGINNING, VETERANS, DOWN, UP_AGAIN, SHARED, ONCE, TWICE];
    RunOf(run, [FullSync(Answered), Crash, Restart, Delivers(0, X), FullSync(Answered), FullSync(Answered)]);
    assert multiset([X])[X] == 1;
  }
}
