/**
 * A sub-EARGM: the power cap of one part of the cluster, the commands that
 * move it and the report that is published for the meta-EARGM.
 */
module SubManager {
  import opened Sums

  /** `current_cluster_powercap` and the command arguments are 32-bit unsigned. */
  const WORD := 0x1_0000_0000

  datatype PcStatus = Ok | Greedy | AskDef

  datatype Report = Report(
    id: int, status: PcStatus, power: nat, powercap: nat, defPower: nat,
    requested: nat, freeable: nat, extra: nat)

  datatype Command = Inc(value: nat) | Red(value: nat) | SetTo(value: nat) | Reset

  /** `def` is the configured cap, `cap` the one in force, `extra` what it holds above `def`. */
  datatype Sub = Sub(id: int, def: nat, cap: nat, extra: nat)

  /** The recorded extra power is exactly what the cap holds above the default. */
  predicate Sound(s: Sub) { s.extra == Monus(s.cap, s.def) }

  function WithCap(s: Sub, cap: nat): Sub
  {
    s.(cap := cap, extra := if s.def < cap then cap - s.def else 0)
  }

  /** The four power-cap commands; an increase wraps, a reduction below zero is refused. */
  function Apply(s: Sub, c: Command): Sub
  {
    match c
    case Inc(v) => WithCap(s, (s.cap + v) % WORD)
    case Red(v) => WithCap(s, if v > s.cap then s.cap else s.cap - v)
    case SetTo(v) => WithCap(s, v)
    case Reset => s.(cap := s.def, extra := 0)
  }

  function ApplyAll(s: Sub, cs: seq<Command>): Sub
  {
    if |cs| == 0 then s else Apply(ApplyAll(s, cs[..|cs| - 1]), cs[|cs| - 1])
  }

  /** The report written when `requested` watts are wanted and `freeable` could be given up. */
  function Publish(s: Sub, power: nat, freeable: nat, requested: nat): Report
  {
    if requested > 0 && s.def > s.cap then
      Report(s.id, AskDef, power, s.cap, s.def,
             if s.def < s.cap + requested then s.def - s.cap else requested, 0, s.extra)
    else if requested > 0 then
      Report(s.id, Greedy, power, s.cap, s.def, requested, 0, s.extra)
    else
      Report(s.id, Ok, power, s.cap, s.def, 0, freeable, s.extra)
  }

  /** What the meta-EARGM may rely on in any report. */
  predicate Honest(r: Report)
  {
    && r.extra == Monus(r.powercap, r.defPower)
    && (r.status == Ok ==> r.requested == 0)
    && (r.status != Ok ==> r.requested > 0 && r.freeable == 0)
    && (r.status == AskDef ==> r.extra == 0 && r.powercap + r.requested <= r.defPower)
    && (r.status == Greedy ==> r.powercap >= r.defPower)
  }

  /** No sequence of commands makes the recorded extra power drift from the cap. */
  lemma {:induction false} CommandsKeepSound(s: Sub, cs: seq<Command>)
    requires Sound(s)
    ensures Sound(ApplyAll(s, cs))
    ensures ApplyAll(s, cs).id == s.id && ApplyAll(s, cs).def == s.def
  {
    if |cs| > 0 { CommandsKeepSound(s, cs[..|cs| - 1]); }
  }

  /** By how much an increase or a reduction moves the cap, unless it wraps or is refused. */
  function Move(c: Command): int { match c case Inc(v) => v case Red(v) => 0 - v case _ => 0 }

  /** Cap `cap`, moved by the first `k` commands. */
  function MovedTo(cap: nat, cs: seq<Command>, k: nat): int
    requires k <= |cs|
  {
    if k == 0 then cap else MovedTo(cap, cs, k - 1) + Move(cs[k - 1])
  }

  /** The commands only increase and reduce the cap, and none of them wraps or is refused. */
  predicate OnlyMove(cap: nat, cs: seq<Command>)
  {
    && (forall k :: 0 <= k < |cs| ==> cs[k].Inc? || cs[k].Red?)
    && (forall k :: 0 <= k <= |cs| ==> 0 <= MovedTo(cap, cs, k) < WORD)
  }

  lemma MoveIsExact(s: Sub, c: Command)
    requires (c.Inc? || c.Red?) && 0 <= s.cap + Move(c) < WORD
    ensures Apply(s, c).cap == s.cap + Move(c)
  {
  }

  /**
   * The cap is the last one that was set, or the default after a reset, moved by
   * the increases and reductions since.
   */
  lemma {:induction false} CapIsLastSet(s: Sub, before: seq<Command>, c: Command, later: seq<Command>, k: nat)
    requires Sound(s) && k <= |later| && (c.SetTo? || c.Reset?)
    requires OnlyMove(if c.SetTo? then c.value else s.def, later)
    ensures ApplyAll(s, before + [c] + later[..k]).cap == MovedTo(if c.SetTo? then c.value else s.def, later, k)
  {
    var cs := before + [c] + later[..k];
    if k == 0 {
      assert cs[..|cs| - 1] == before;
      CommandsKeepSound(s, before);
    } else {
      CapIsLastSet(s, before, c, later, k - 1);
      assert cs[..|cs| - 1] == before + [c] + later[..k - 1];
      assert 0 <= MovedTo(if c.SetTo? then c.value else s.def, later, k) < WORD;
      MoveIsExact(ApplyAll(s, before + [c] + later[..k - 1]), later[k - 1]);
    }
  }

  /**
   * Whatever commands came before, the published report is honest, and it asks
   * for no more than was wanted and never for more than the default.
   */
  lemma ReportsAreHonest(s: Sub, cs: seq<Command>, power: nat, freeable: nat, requested: nat)
    requires Sound(s)
    ensures var now := ApplyAll(s, cs);
            var r := Publish(now, power, freeable, requested);
            && Honest(r)
            && r.power == power && r.powercap == now.cap && r.defPower == s.def && r.id == s.id
            && (r.status == AskDef <==> requested > 0 && now.cap < s.def)
            && (r.status == Greedy <==> requested > 0 && now.cap >= s.def)
            && r.requested == (if r.status == AskDef then Min(requested, s.def - now.cap) else requested)
            && r.freeable == (if requested > 0 then 0 else freeable)
  {
  }

  datatype Request = Powercap(command: Command) | NewJob(nodes: nat) | EndJob(nodes: nat) | Unknown

  /** The process state behind the report: `cluster_powercap.c` and its request thread. */
  class SubEargm {
    const id: int
    const def: nat
    var cap: nat
    var extra: nat
    var totalNodes: nat
    var shared: Report

    ghost function State(): Sub
      reads this
    {
      Sub(id, def, cap, extra)
    }

    ghost predicate Valid()
      reads this
    {
      Sound(State()) && Honest(shared) && shared.id == id && shared.defPower == def
    }

    constructor (id: int, def: nat)
      ensures Valid() && State() == Sub(id, def, def, 0) && totalNodes == 0
    {
      this.id, this.def := id, def;
      cap, extra, totalNodes := def, 0, 0;
      shared := Report(id, Ok, 0, def, def, 0, 0, 0);
    }

    method RefreshExtra()
      modifies this`extra
      ensures State() == WithCap(old(State()), old(cap))
    {
      if def < cap { extra := cap - def; } else { extra := 0; }
    }

    method ResetPc()
      modifies this`cap, this`extra
      ensures State() == Apply(old(State()), Reset) && cap == def && extra == 0
    {
      cap := def;
      extra := 0;
    }

    method SetPc(limit: nat)
      modifies this`cap, this`extra
      ensures State() == Apply(old(State()), SetTo(limit)) && cap == limit && extra == Monus(cap, def)
    {
      cap := limit;
      RefreshExtra();
    }

    method RedPc(red: nat)
      modifies this`cap, this`extra
      ensures State() == Apply(old(State()), Red(red)) && extra == Monus(cap, def)
      ensures cap == old(cap) - if red <= old(cap) then red else 0
    {
      if red <= cap { cap := cap - red; }
      RefreshExtra();
    }

    method IncPc(inc: nat)
      modifies this`cap, this`extra
      ensures State() == Apply(old(State()), Inc(inc)) && extra == Monus(cap, def)
      ensures cap == (old(cap) + inc) % WORD
    {
      cap := (cap + inc) % WORD;
      RefreshExtra();
    }

    /** One request of the external thread; only power-cap requests move the cap. */
    method ProcessRequest(req: Request)
      requires Valid()
      modifies this`cap, this`extra, this`totalNodes
      ensures Valid()
      ensures State() == if req.Powercap? then Apply(old(State()), req.command) else old(State())
      ensures totalNodes == match req
                            case NewJob(n) => (old(totalNodes) + n) % WORD
                            case EndJob(n) => (old(totalNodes) - n) % WORD
                            case _ => old(totalNodes)
    {
      match req {
        case Powercap(Inc(v)) => IncPc(v);
        case Powercap(Red(v)) => RedPc(v);
        case Powercap(SetTo(v)) => SetPc(v);
        case Powercap(Reset) => ResetPc();
        case NewJob(n) => totalNodes := (totalNodes + n) % WORD;
        case EndJob(n) => totalNodes := (totalNodes - n) % WORD;
        case Unknown =>
      }
    }

    /** `write_shared_data`: the report a status request will return from now on. */
    method WriteSharedData(power: nat, freeable0: nat, requested0: nat)
      requires Valid()
      modifies this`shared
      ensures Valid()
      ensures shared == Publish(State(), power, freeable0, requested0)
      ensures shared.power == power && shared.powercap == cap && shared.extra == extra
    {
      var status, freeable, requested := Ok, freeable0, requested0;
      if requested > 0 && def > cap {
        if def < cap + requested {
          requested := def - cap;
        }
        freeable := 0;
        status := AskDef;
      } else if requested > 0 {
        freeable := 0;
        status := Greedy;
      }
      shared := Report(id, status, power, cap, def, requested, freeable, extra);
    }
  }
}
