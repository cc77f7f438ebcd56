/**
 * A server and its mirror: both receive the samples, and from time to time the
 * mirror asks the server whether it may forget its own. Questions and answers
 * can be lost and the server can be restarted. No sample gets lost.
 */
module MirrorSync {
  import opened StorageModel

  /**
   * `up`: the server runs. `unquestioned`: it was restarted and no question has
   * reached it since. `archive` is what earlier server processes handed on, and
   * `delivered` every sample a node ever sent.
   */
  datatype System = System(
    up: bool, unquestioned: bool, server: Store, mirror: Store,
    archive: seq<seq<Sample>>, delivered: seq<seq<Sample>>)

  /** What becomes of a question: never arrives, arrives but the answer does not, answered. */
  datatype Fate = Lost | Unanswered | Answered

  /**
   * `Fills` is the delivery that fills the mirror's buffer: the mirror then asks
   * about that type, and the server gets the question before or after the sample.
   */
  datatype Event =
    | Delivers(t: nat, x: Sample)
    | Fills(t: nat, x: Sample, fate: Fate, questionFirst: bool)
    | ServerAlarm
    | FullSync(fate: Fate)
    | Crash
    | Restart

  predicate Shape(s: System)
  {
    Shaped(s.server) && Shaped(s.mirror) && |s.archive| == |s.delivered| == TYPES
  }

  /** The mirror inserts: without an answer, or as the only veteran. */
  predicate MirrorInserts(s: System, fate: Fate) { fate != Answered || (!s.server.veteran && s.mirror.veteran) }

  /** The mirror's insertion alarm, with the server's side of it. */
  function Synced(s: System, fate: Fate): (r: System)
    requires Shape(s) && (fate != Lost ==> s.up)
    ensures Shape(r)
  {
    var reached := s.(mirror := MirrorAlarm(s.mirror, fate == Answered, s.server.veteran));
    if fate == Lost then reached
    else reached.(server := Answer(s.server, ALL, s.mirror.veteran), unquestioned := false)
  }

  /** What can happen: a full buffer takes no more samples, and only a running server is asked. */
  predicate Possible(s: System, e: Event)
    requires Shape(s)
  {
    match e
    case Delivers(t, _) => t < TYPES && |s.mirror.held[t]| + 1 < s.mirror.room[t] && s.server.room[t] > 0
    case Fills(t, _, fate, _) =>
      t < TYPES && |s.mirror.held[t]| + 1 == s.mirror.room[t] && s.server.room[t] > 0 && (fate != Lost ==> s.up)
    case ServerAlarm => s.up
    case FullSync(fate) => fate != Lost ==> s.up
    case Crash => s.up
    case Restart => !s.up
  }

  /**
   * What must be assumed: the server is up through the mirror's first period, and
   * a restarted server hears a full question before its own alarm makes it a veteran.
   */
  predicate Assumed(s: System, e: Event)
  {
    (e.ServerAlarm? ==> !s.unquestioned) && (e.Crash? ==> s.mirror.veteran)
  }

  /** What a server process that dies leaves to its successor. */
  function Blank(s: Store): (r: Store)
    requires Shaped(s)
    ensures Shaped(r)
  {
    s.(held := seq(TYPES, _ => []), handed := seq(TYPES, _ => []),
       closed := [], open := EMPTY, inserted := [], veteran := false)
  }

  function Append(a: seq<seq<Sample>>, b: seq<seq<Sample>>): (r: seq<seq<Sample>>)
    requires |a| == |b|
    ensures |r| == |a|
  {
    seq(|a|, t requires 0 <= t < |a| => a[t] + b[t])
  }

  /** What the server does with a sample and the question about its type. */
  function Filled(s: System, t: nat, x: Sample, asked: bool, questionFirst: bool): (r: Store)
    requires Shape(s) && t < TYPES
    ensures Shaped(r)
  {
    var o := Option(false, {t}, false);
    if !s.up then s.server
    else if !asked then Receive(s.server, t, x)
    else if questionFirst then Receive(Answer(s.server, o, s.mirror.veteran), t, x)
    else Answer(Receive(s.server, t, x), o, s.mirror.veteran)
  }

  function Next(s: System, e: Event): (r: System)
    requires Shape(s) && Possible(s, e)
    ensures Shape(r)
  {
    match e
    case Delivers(t, x) =>
      s.(delivered := s.delivered[t := s.delivered[t] + [x]],
         mirror := Receive(s.mirror, t, x),
         server := Filled(s, t, x, false, false))
    case Fills(t, x, fate, questionFirst) =>
      s.(delivered := s.delivered[t := s.delivered[t] + [x]],
         mirror := MirrorReceive(s.mirror, t, x, fate == Answered),
         server := Filled(s, t, x, fate != Lost, questionFirst))
    case ServerAlarm => s.(server := TimedInsert(s.server))
    case FullSync(fate) => Synced(s, fate)
    case Crash => s.(up := false, archive := Append(s.archive, s.server.handed), server := Blank(s.server))
    case Restart => s.(up := true, unquestioned := true)
  }

  // ---- what holds at every moment ----------------------------------------------------

  /** Sample `x` has reached the database. */
  predicate InDatabase(s: System, t: nat, x: Sample)
    requires Shape(s) && t < TYPES
  {
    x in s.archive[t] || x in s.server.handed[t] || x in s.mirror.handed[t]
  }

  /** Everything the mirror holds, the server has or has handed on. */
  predicate Covered(s: System)
    requires Shape(s)
  {
    forall t, x :: 0 <= t < TYPES && x in s.mirror.held[t] ==> x in Log(s.server, t)
  }

  /** Every sample delivered is in the database or with the mirror. */
  predicate NothingLost(s: System)
    requires Shape(s)
  {
    forall t, x :: 0 <= t < TYPES && x in s.delivered[t] ==> InDatabase(s, t, x) || x in s.mirror.held[t]
  }

  predicate Inv(s: System)
  {
    && Shape(s)
    && (s.up && !s.unquestioned ==> Covered(s))
    && (s.server.veteran ==> s.up && !s.unquestioned)
    && (!s.mirror.veteran ==> s.up && !s.unquestioned)
    && NothingLost(s)
  }

  // ---- deliveries --------------------------------------------------------------------

  /** Store `b` is what `a` becomes by taking in a sample, handing on some of what it has or not. */
  ghost predicate Takes(a: Store, b: Store, t: nat, x: Sample)
  {
    && Shaped(a) && Shaped(b) && t < TYPES && b.veteran == a.veteran && b.room == a.room
    && x in Log(b, t)
    && (forall u, y :: 0 <= u < TYPES ==>
          && (y in b.held[u] ==> y in a.held[u] || (u == t && y == x))
          && (y in a.handed[u] ==> y in b.handed[u])
          && (y in Log(a, u) ==> y in Log(b, u)))
  }

  lemma ReceiveTakes(a: Store, t: nat, x: Sample)
    requires Shaped(a) && t < TYPES && a.room[t] > 0
    ensures Takes(a, Receive(a, t, x), t, x)
  {
  }

  lemma MirrorTakes(a: Store, t: nat, x: Sample, answered: bool)
    requires Shaped(a) && t < TYPES && a.room[t] > 0
    ensures Takes(a, MirrorReceive(a, t, x, answered), t, x)
  {
    if !answered || |a.held[t]| + 1 != a.room[t] {
      assert MirrorReceive(a, t, x, answered) == Receive(a, t, x);
      ReceiveTakes(a, t, x);
    }
  }

  /** Answering a question about one type hands it on or not, and changes nothing else. */
  lemma AnswerMoves(a: Store, t: nat, asker: bool, u: nat, y: Sample)
    requires Shaped(a) && t < TYPES && u < TYPES
    ensures var b := Answer(a, Option(false, {t}, false), asker);
            && b.veteran == a.veteran && b.room == a.room
            && (y in b.held[u] ==> y in a.held[u]) && (y in a.handed[u] ==> y in b.handed[u])
            && (y in Log(b, u) <==> y in Log(a, u))
  {
  }

  lemma FilledTakes(s: System, t: nat, x: Sample, asked: bool, questionFirst: bool)
    requires Shape(s) && s.up && t < TYPES && s.server.room[t] > 0
    ensures Takes(s.server, Filled(s, t, x, asked, questionFirst), t, x)
  {
    var a, o := s.server, Option(false, {t}, false);
    if !asked {
      ReceiveTakes(a, t, x);
    } else if questionFirst {
      var b := Answer(a, o, s.mirror.veteran);
      AnswerMoves(a, t, s.mirror.veteran, t, x);
      ReceiveTakes(b, t, x);
      forall u, y | 0 <= u < TYPES
        ensures (y in b.held[u] ==> y in a.held[u]) && (y in a.handed[u] ==> y in b.handed[u])
        ensures y in Log(b, u) <==> y in Log(a, u)
      {
        AnswerMoves(a, t, s.mirror.veteran, u, y);
      }
    } else {
      var b := Receive(a, t, x);
      ReceiveTakes(a, t, x);
      AnswerMoves(b, t, s.mirror.veteran, t, x);
      forall u, y | 0 <= u < TYPES
        ensures var c := Answer(b, o, s.mirror.veteran);
                && (y in c.held[u] ==> y in b.held[u]) && (y in b.handed[u] ==> y in c.handed[u])
                && (y in Log(c, u) <==> y in Log(b, u))
      {
        AnswerMoves(b, t, s.mirror.veteran, u, y);
      }
    }
  }

  /** A sample that mirror and running server take in keeps the invariant. */
  lemma TakingKeeps(s: System, r: System, t: nat, x: Sample)
    requires Inv(s) && t < TYPES && Takes(s.mirror, r.mirror, t, x)
    requires if s.up then Takes(s.server, r.server, t, x) else r.server == s.server
    requires r == s.(delivered := s.delivered[t := s.delivered[t] + [x]], mirror := r.mirror, server := r.server)
    ensures Inv(r)
  {
    forall u, y | 0 <= u < TYPES && y in r.delivered[u]
      ensures InDatabase(r, u, y) || y in r.mirror.held[u]
    {
      if u == t && y == x {
        assert y in Log(r.mirror, u);
      } else {
        assert y in s.delivered[u];
        if y in s.mirror.held[u] { assert y in Log(s.mirror, u); }
      }
    }
  }

  lemma DeliverKeeps(s: System, e: Event)
    requires Inv(s) && e.Delivers? && Possible(s, e)
    ensures Inv(Next(s, e))
  {
    ReceiveTakes(s.mirror, e.t, e.x);
    if s.up { ReceiveTakes(s.server, e.t, e.x); }
    TakingKeeps(s, Next(s, e), e.t, e.x);
  }

  lemma FillKeeps(s: System, e: Event)
    requires Inv(s) && e.Fills? && Possible(s, e)
    ensures Inv(Next(s, e))
  {
    MirrorTakes(s.mirror, e.t, e.x, e.fate == Answered);
    if s.up { FilledTakes(s, e.t, e.x, e.fate != Lost, e.questionFirst); }
    TakingKeeps(s, Next(s, e), e.t, e.x);
  }

  /** Store `b` has handed on all that `a` held. */
  predicate HandsOn(a: Store, b: Store)
    requires Shaped(a) && Shaped(b)
  {
    forall t :: 0 <= t < TYPES ==> b.handed[t] == a.handed[t] + a.held[t] && b.held[t] == []
  }

  /** The server's own alarm hands on all it holds, and makes it a veteran. */
  lemma AlarmKeeps(s: System, e: Event)
    requires Inv(s) && e.ServerAlarm? && Possible(s, e) && Assumed(s, e)
    ensures Inv(Next(s, e))
    ensures HandsOn(s.server, Next(s, e).server) && Next(s, e) == s.(server := Next(s, e).server)
    ensures Next(s, e).server.veteran
  {
  }

  lemma CrashKeeps(s: System, e: Event)
    requires Inv(s) && (e.Crash? || e.Restart?) && Possible(s, e) && Assumed(s, e)
    ensures Inv(Next(s, e))
  {
  }

  // ---- full synchronisations ---------------------------------------------------------

  /**
   * An answered full synchronisation has one inserter: one side hands on all it
   * held, in order, and the other hands on nothing. The mirror ends up empty, and
   * the server keeps what it held exactly if the mirror inserts.
   */
  predicate OneInserts(s: System, r: System)
    requires Shape(s) && Shape(r)
  {
    && (if MirrorInserts(s, Answered)
        then HandsOn(s.mirror, r.mirror) && r.server.handed == s.server.handed && r.server.held == s.server.held
        else HandsOn(s.server, r.server) && r.mirror.handed == s.mirror.handed)
    && (forall t :: 0 <= t < TYPES ==> r.mirror.held[t] == [])
  }

  lemma OneInserter(s: System)
    requires Shape(s) && s.up
    ensures OneInserts(s, Synced(s, Answered))
  {
  }

  /** What the mirror forgets, the server has handed on. */
  lemma ForgetsTheHandedOn(s: System)
    requires Inv(s) && s.up && !MirrorInserts(s, Answered)
    ensures forall t, x :: 0 <= t < TYPES && x in s.mirror.held[t] ==> x in Synced(s, Answered).server.handed[t]
  {
  }

  lemma SyncKeeps(s: System, e: Event)
    requires Inv(s) && e.FullSync? && Possible(s, e)
    ensures Inv(Next(s, e))
  {
  }

  lemma NextKeeps(s: System, e: Event)
    requires Inv(s) && Possible(s, e) && Assumed(s, e)
    ensures Inv(Next(s, e))
  {
    match e
    case Delivers(_, _) => DeliverKeeps(s, e);
    case Fills(_, _, _, _) => FillKeeps(s, e);
    case ServerAlarm => AlarmKeeps(s, e);
    case FullSync(_) => SyncKeeps(s, e);
    case Crash => CrashKeeps(s, e);
    case Restart => CrashKeeps(s, e);
  }

  // ---- runs --------------------------------------------------------------------------

  /** Both processes have just started. */
  predicate Initial(s: System)
  {
    && Shape(s) && s.up && !s.unquestioned && !s.server.veteran && !s.mirror.veteran
    && (forall t :: 0 <= t < TYPES ==> s.mirror.held[t] == [] && s.delivered[t] == [])
  }

  predicate IsRun(run: seq<System>, es: seq<Event>)
  {
    && |run| == |es| + 1
    && (forall i :: 0 <= i < |run| ==> Shape(run[i]))
    && (forall i :: 0 <= i < |es| ==> Possible(run[i], es[i]) && run[i + 1] == Next(run[i], es[i]))
  }

  /** The assumptions hold of the first `i` events. */
  predicate AssumedTo(run: seq<System>, es: seq<Event>, i: nat)
    requires |run| == |es| + 1 && i <= |es|
  {
    forall j :: 0 <= j < i ==> Assumed(run[j], es[j])
  }

  /**
   * In every run of deliveries, alarms, restarts and synchronisations with lost
   * questions and answers: every sample ever delivered is in the database or
   * still with the mirror; a synchronisation that is answered has one inserter;
   * and what the mirror forgets the server has handed on.
   */
  lemma {:induction false} NoSampleLost(run: seq<System>, es: seq<Event>, i: nat)
    requires IsRun(run, es) && Initial(run[0]) && i < |run| && AssumedTo(run, es, i)
    ensures Inv(run[i]) && NothingLost(run[i])
    ensures i < |es| && es[i] == FullSync(Answered) ==> OneInserts(run[i], run[i + 1])
    ensures i < |es| && es[i] == FullSync(Answered) && !MirrorInserts(run[i], Answered) ==>
              forall t, x :: 0 <= t < TYPES && x in run[i].mirror.held[t] ==> x in run[i + 1].server.handed[t]
  {
    if i > 0 {
      NoSampleLost(run, es, i - 1);
      NextKeeps(run[i - 1], es[i - 1]);
    }
    if i < |es| && es[i] == FullSync(Answered) {
      OneInserter(run[i]);
      if !MirrorInserts(run[i], Answered) { ForgetsTheHandedOn(run[i]); }
    }
  }

  /**
   * Without the assumptions: a sample the mirror forgets in an answered
   * synchronisation is in the database afterwards exactly if it was before or
   * the server had received it. A restarted server that its own alarm made a
   * veteran has not received what came while it was down.
   */
  lemma ForgottenExactly(s: System, t: nat, x: Sample)
    requires Shape(s) && s.up && !MirrorInserts(s, Answered)
    requires t < TYPES && x in s.mirror.held[t]
    ensures InDatabase(Synced(s, Answered), t, x) <==> InDatabase(s, t, x) || x in Log(s.server, t)
    ensures x !in Synced(s, Answered).mirror.held[t]
  {
  }

  // ---- how often a sample is handed on -----------------------------------------------

  /** How often a sample has been handed on. */
  function Times(s: System, t: nat, x: Sample): nat
    requires Shape(s) && t < TYPES
  {
    multiset(s.archive[t])[x] + multiset(s.server.handed[t])[x] + multiset(s.mirror.handed[t])[x]
  }

  predicate ServerInserts(s: System, fate: Fate) { fate != Lost && (s.server.veteran || !s.mirror.veteran) }

  lemma SyncedHands(s: System, fate: Fate, t: nat)
    requires Shape(s) && (fate != Lost ==> s.up) && t < TYPES
    ensures var r := Synced(s, fate);
            && r.archive == s.archive
            && r.server.handed[t] == s.server.handed[t] + (if ServerInserts(s, fate) then s.server.held[t] else [])
            && r.mirror.handed[t] == s.mirror.handed[t] + (if MirrorInserts(s, fate) then s.mirror.held[t] else [])
            && r.server.held[t] == (if ServerInserts(s, fate) then [] else s.server.held[t])
            && r.mirror.held[t] == []
  {
  }

  /** A synchronisation adds what the inserting sides hold of it. */
  lemma SyncTimes(s: System, fate: Fate, t: nat, x: Sample)
    requires Shape(s) && (fate != Lost ==> s.up) && t < TYPES
    ensures Times(Synced(s, fate), t, x)
            == Times(s, t, x)
               + (if ServerInserts(s, fate) then multiset(s.server.held[t])[x] else 0)
               + (if MirrorInserts(s, fate) then multiset(s.mirror.held[t])[x] else 0)
  {
    SyncedHands(s, fate, t);
  }

  /**
   * A sample the mirror holds and nobody has handed on yet is handed on once and
   * for all by a synchronisation exactly if the server holds it and the mirror
   * forgets it, or the server does not hold it and the mirror inserts it.
   */
  lemma OnceForAll(s: System, fate: Fate, t: nat, x: Sample)
    requires Shape(s) && (fate != Lost ==> s.up) && t < TYPES
    requires Times(s, t, x) == 0 && multiset(s.mirror.held[t])[x] == 1 && multiset(s.server.held[t])[x] <= 1
    ensures var r := Synced(s, fate);
            Times(r, t, x) == 1 && x !in r.server.held[t] && x !in r.mirror.held[t]
            <==> (MirrorInserts(s, fate) <==> x !in s.server.held[t])
  {
    SyncTimes(s, fate, t, x);
    SyncedHands(s, fate, t);
  }
}
