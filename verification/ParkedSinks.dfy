/**
 * Reply sinks parked by TCP connections. Parking, answering and the clean-up after a connection's loop each take the
 * lock on their own, so they are separate steps of many tasks.
 */
module ParkedSinks {
  import opened Peers

  datatype Phase = Running | Leaving | Closed

  /** A connection: its address, whether its loop still owns the sink, and how many messages the sink was sent. */
  datatype Conn = Conn(addr: Addr, held: bool, phase: Phase, sent: nat)

  /** The connections, the parked sinks, and the sinks taken out by answering tasks that have not sent yet. */
  datatype State = State(conns: map<nat, Conn>, table: map<Addr, nat>, flying: multiset<nat>)

  datatype Step =
    | Open(c: nat, addr: Addr)
    | Reply(c: nat)
    | Park(c: nat)
    | Answer(addr: Addr)
    | Deliver(c: nat, ok: bool)
    | Leave(c: nat)
    | Finish(c: nat)

  predicate InPhase(s: State, c: nat, p: Phase) { c in s.conns && s.conns[c].phase == p }

  predicate Holding(s: State, c: nat) { InPhase(s, c, Running) && s.conns[c].held }

  function Set(s: State, c: nat, v: Conn): State { s.(conns := s.conns[c := v]) }

  function Next(s: State, e: Step): State {
    match e
    case Open(c, a) => if c in s.conns then s else Set(s, c, Conn(a, true, Running, 0))
    case Reply(c) => if Holding(s, c) then Set(s, c, s.conns[c].(sent := s.conns[c].sent + 1)) else s
    case Park(c) =>
      if Holding(s, c)
      then Set(s, c, s.conns[c].(held := false)).(table := s.table[s.conns[c].addr := c])
      else s
    case Answer(a) =>
      if a in s.table then s.(table := s.table - {a}, flying := s.flying + multiset{s.table[a]}) else s
    case Deliver(c, ok) =>
      if c in s.flying && c in s.conns
      then Set(s, c, s.conns[c].(sent := s.conns[c].sent + if ok then 1 else 0)).(flying := s.flying - multiset{c})
      else s
    case Leave(c) => if InPhase(s, c, Running) then Set(s, c, s.conns[c].(phase := Leaving)) else s
    case Finish(c) =>
      if InPhase(s, c, Leaving) then
        var t := Set(s, c, s.conns[c].(phase := Closed));
        if s.conns[c].held then t else t.(table := s.table - {s.conns[c].addr})
      else s
  }

  function Run(s: State, es: seq<Step>): State
    decreases es
  {
    if es == [] then s else Run(Next(s, es[0]), es[1..])
  }

  const EMPTY := State(map[], map[], multiset{})

  class Coordinator {
    var conns: map<nat, Conn>
    var tcpPunch: map<Addr, nat>
    ghost var flying: multiset<nat>

    constructor ()
      ensures Now() == EMPTY
    {
      conns, tcpPunch, flying := map[], map[], multiset{};
    }

    ghost function Now(): State
      reads this
    {
      State(conns, tcpPunch, flying)
    }

    method Accept(c: nat, a: Addr)
      requires c !in conns
      modifies this`conns
      ensures Now() == Next(old(Now()), Open(c, a))
    {
      conns := conns[c := Conn(a, true, Running, 0)];
    }

    /** A punch or relay request parks the sink the first time; repeated requests find it taken. */
    method ParkSink(c: nat)
      requires InPhase(Now(), c, Running)
      modifies this`conns, this`tcpPunch
      ensures Now() == Next(old(Now()), Park(c))
    {
      var v := conns[c];
      if v.held {
        conns := conns[c := v.(held := false)];
        tcpPunch := tcpPunch[v.addr := c];
      }
    }

    /** An answer for an address takes the parked sink out; the caller then sends to it. */
    method TakeSink(a: Addr) returns (found: bool, c: nat)
      modifies this`tcpPunch, this`flying
      ensures Now() == Next(old(Now()), Answer(a))
      ensures found == (a in old(tcpPunch)) && (found ==> c == old(tcpPunch[a]))
    {
      found, c := a in tcpPunch, 0;
      if found {
        c := tcpPunch[a];
        tcpPunch := tcpPunch - {a};
        flying := flying + multiset{c};
      }
    }

    method SendToSink(c: nat)
      requires c in flying && c in conns
      modifies this`conns, this`flying
      ensures Now() == Next(old(Now()), Deliver(c, true))
    {
      conns := conns[c := conns[c].(sent := conns[c].sent + 1)];
      flying := flying - multiset{c};
    }

    /** Direct replies go to the sink only while the loop still owns it. */
    method ReplyDirectly(c: nat)
      requires InPhase(Now(), c, Running)
      modifies this`conns
      ensures Now() == Next(old(Now()), Reply(c))
    {
      var v := conns[c];
      if v.held {
        conns := conns[c := v.(sent := v.sent + 1)];
      }
    }

    method CleanUp(c: nat)
      requires InPhase(Now(), c, Leaving)
      modifies this`conns, this`tcpPunch
      ensures Now() == Next(old(Now()), Finish(c))
    {
      var v := conns[c];
      if !v.held {
        tcpPunch := tcpPunch - {v.addr};
      }
      conns := conns[c := v.(phase := Closed)];
    }
  }

  // ---- every interleaving ---------------------------------------------------------------

  /** A parked sink belongs to a connection with that address that gave it up and is not cleaned up. */
  predicate KeyOk(s: State, a: Addr) {
    a in s.table ==>
      var c := s.table[a];
      c in s.conns && s.conns[c].addr == a && !s.conns[c].held && s.conns[c].phase != Closed
  }

  predicate IsParked(s: State, c: nat) { c in s.conns && s.conns[c].addr in s.table && s.table[s.conns[c].addr] == c }

  /** A sink taken out is out once, and no longer owned or parked. */
  predicate FlyingOk(s: State, c: nat) {
    c in s.flying ==> s.flying[c] == 1 && c in s.conns && !s.conns[c].held && !IsParked(s, c)
  }

  ghost predicate Keyed(s: State) { forall a :: KeyOk(s, a) }

  ghost predicate Airborne(s: State) { forall c :: FlyingOk(s, c) }

  ghost predicate Inv(s: State) { Keyed(s) && Airborne(s) }

  lemma KeyOkStep(s: State, e: Step, a: Addr)
    requires Inv(s)
    ensures KeyOk(Next(s, e), a)
  {
    assert KeyOk(s, a);
  }

  /** A parked sink is not flying. */
  lemma ParkedIsGivenUp(s: State, c: nat)
    requires Inv(s) && IsParked(s, c)
    ensures !s.conns[c].held && s.conns[c].phase != Closed && c !in s.flying
  {
    assert KeyOk(s, s.conns[c].addr) && FlyingOk(s, c);
  }

  lemma FlyingOkStep(s: State, e: Step, c: nat)
    requires Inv(s)
    ensures FlyingOk(Next(s, e), c)
  {
    assert FlyingOk(s, c);
    if e.Answer? && e.addr in s.table {
      assert KeyOk(s, e.addr);
      ParkedIsGivenUp(s, s.table[e.addr]);
    }
  }

  lemma InvStep(s: State, e: Step)
    requires Inv(s)
    ensures Inv(Next(s, e))
  {
    forall a ensures KeyOk(Next(s, e), a) { KeyOkStep(s, e, a); }
    forall c ensures FlyingOk(Next(s, e), c) { FlyingOkStep(s, e, c); }
  }

  lemma {:induction false} RunSound(s: State, es: seq<Step>)
    requires Inv(s)
    ensures Inv(Run(s, es))
    decreases es
  {
    if es != [] {
      InvStep(s, es[0]);
      RunSound(Next(s, es[0]), es[1..]);
    }
  }

  /**
   * In every run, every key of the table belongs to a connection with that address that gave its sink up and whose
   * loop has not finished its clean-up; and no sink is in two places.
   */
  lemma KeysBelongToUnfinished(es: seq<Step>, a: Addr, c: nat)
    ensures var s := Run(EMPTY, es);
      && (a in s.table ==>
            s.table[a] in s.conns && s.conns[s.table[a]].addr == a
            && !s.conns[s.table[a]].held && s.conns[s.table[a]].phase != Closed)
      && (c in s.flying ==> s.flying[c] == 1 && c in s.conns && !s.conns[c].held && !IsParked(s, c))
  {
    RunSound(EMPTY, es);
    var s := Run(EMPTY, es);
    assert KeyOk(s, a) && FlyingOk(s, c);
  }

  /** How many messages a sink that its loop gave up can still get: it is parked, or being answered, or neither. */
  function Due(s: State, c: nat): nat { (if IsParked(s, c) then 1 else 0) + s.flying[c] }

  function Sent(s: State, c: nat): nat { if c in s.conns then s.conns[c].sent else 0 }

  predicate GivenUp(s: State, c: nat) { c in s.conns && !s.conns[c].held }

  /** Steps that leave the sinks in flight alone. */
  lemma DueGround(s: State, e: Step, c: nat)
    requires Inv(s) && GivenUp(s, c) && !e.Answer? && !e.Deliver?
    ensures var t := Next(s, e); GivenUp(t, c) && Sent(t, c) == Sent(s, c) && Due(t, c) <= Due(s, c)
  {
    assert KeyOk(s, s.conns[c].addr);
  }

  lemma DueFlight(s: State, e: Step, c: nat)
    requires Inv(s) && GivenUp(s, c) && (e.Answer? || e.Deliver?)
    ensures var t := Next(s, e); GivenUp(t, c) && Sent(t, c) + Due(t, c) <= Sent(s, c) + Due(s, c)
  {
    assert FlyingOk(s, c);
    if e.Answer? { assert KeyOk(s, e.addr); }
  }

  lemma DueStep(s: State, e: Step, c: nat)
    requires Inv(s) && GivenUp(s, c)
    ensures var t := Next(s, e); GivenUp(t, c) && Sent(t, c) + Due(t, c) <= Sent(s, c) + Due(s, c)
  {
    if e.Answer? || e.Deliver? { DueFlight(s, e, c); } else { DueGround(s, e, c); }
  }

  lemma DueOnce(s: State, c: nat)
    requires Inv(s)
    ensures Due(s, c) <= 1
  {
    assert FlyingOk(s, c);
  }

  /**
   * Once a connection has parked its sink, at most one more message is ever sent to it, over any number of repeated
   * requests and answers and whatever the addresses; none once it was answered, overwritten or cleaned up.
   */
  lemma {:induction false} AtMostOneMore(s: State, es: seq<Step>, c: nat)
    requires Inv(s) && GivenUp(s, c)
    ensures var t := Run(s, es); Sent(t, c) + Due(t, c) <= Sent(s, c) + Due(s, c) <= Sent(s, c) + 1
    decreases es
  {
    DueOnce(s, c);
    if es != [] {
      InvStep(s, es[0]);
      DueStep(s, es[0], c);
      AtMostOneMore(Next(s, es[0]), es[1..], c);
    }
  }

  // ---- distinct addresses -----------------------------------------------------------------

  /** No two connections that are not cleaned up share an address. */
  predicate Distinct(s: State) {
    forall c, d ::
      c in s.conns && d in s.conns && c != d && s.conns[c].phase != Closed && s.conns[d].phase != Closed ==>
        s.conns[c].addr != s.conns[d].addr
  }

  predicate OpensApart(s: State, e: Step) {
    e.Open? && e.c !in s.conns ==> forall d :: d in s.conns && s.conns[d].phase != Closed ==> s.conns[d].addr != e.addr
  }

  predicate AllApart(s: State, es: seq<Step>)
    decreases es
  {
    es == [] || (OpensApart(s, es[0]) && AllApart(Next(s, es[0]), es[1..]))
  }

  /**
   * A parked sink is lost by an answer to its address, and by another connection at that address parking or leaving.
   */
  lemma LostExactly(s: State, e: Step, c: nat)
    requires Inv(s) && IsParked(s, c)
    ensures !IsParked(Next(s, e), c) <==>
      || e == Answer(s.conns[c].addr)
      || (e.Park? && Holding(s, e.c) && s.conns[e.c].addr == s.conns[c].addr)
      || (e.Finish? && InPhase(s, e.c, Leaving) && !s.conns[e.c].held && s.conns[e.c].addr == s.conns[c].addr)
  {
    ParkedIsGivenUp(s, c);
  }

  /** Neither an answer to this address nor the clean-up of this connection. */
  predicate Spares(e: Step, c: nat, a: Addr) { e != Answer(a) && e != Finish(c) }

  predicate AllSpare(es: seq<Step>, c: nat, a: Addr) { forall i :: 0 <= i < |es| ==> Spares(es[i], c, a) }

  /**
   * Another connection at the address of this one that can still park there, or has parked and is still to clean up.
   */
  predicate Rival(s: State, c: nat, d: nat) {
    && d != c && c in s.conns && d in s.conns && s.conns[d].addr == s.conns[c].addr
    && (Holding(s, d) || (!s.conns[d].held && s.conns[d].phase != Closed))
  }

  ghost predicate Unrivalled(s: State, c: nat) { forall d :: !Rival(s, c, d) }

  lemma DistinctHasNoRivals(s: State, c: nat)
    requires Inv(s) && Distinct(s) && IsParked(s, c)
    ensures Unrivalled(s, c)
  {
    ParkedIsGivenUp(s, c);
  }

  lemma WaitsStep(s: State, e: Step, c: nat)
    requires Inv(s) && Unrivalled(s, c) && IsParked(s, c) && Spares(e, c, s.conns[c].addr)
    ensures var t := Next(s, e); IsParked(t, c) && t.conns[c].addr == s.conns[c].addr
  {
    ParkedIsGivenUp(s, c);
    LostExactly(s, e, c);
    if e.Park? || e.Finish? { assert !Rival(s, c, e.c); }
  }

  lemma NoRivalArises(s: State, e: Step, c: nat, d: nat)
    requires Inv(s) && OpensApart(s, e) && IsParked(s, c) && !Rival(s, c, d)
    ensures !Rival(Next(s, e), c, d)
  {
    ParkedIsGivenUp(s, c);
  }

  lemma {:induction false} ParkedStays(s: State, es: seq<Step>, c: nat)
    requires Inv(s) && Unrivalled(s, c) && AllApart(s, es) && IsParked(s, c) && AllSpare(es, c, s.conns[c].addr)
    ensures var t := Run(s, es); IsParked(t, c) && t.conns[c].addr == s.conns[c].addr
    decreases es
  {
    if es != [] {
      InvStep(s, es[0]);
      WaitsStep(s, es[0], c);
      forall d ensures !Rival(Next(s, es[0]), c, d) { NoRivalArises(s, es[0], c, d); }
      ParkedStays(Next(s, es[0]), es[1..], c);
    }
  }

  /**
   * With distinct addresses a parked sink waits, over any run, until it is answered or its own connection cleans up.
   */
  lemma ParkedWaits(s: State, es: seq<Step>, c: nat)
    requires Inv(s) && Distinct(s) && AllApart(s, es) && IsParked(s, c) && AllSpare(es, c, s.conns[c].addr)
    ensures var t := Run(s, es); IsParked(t, c) && t.conns[c].addr == s.conns[c].addr
  {
    DistinctHasNoRivals(s, c);
    ParkedStays(s, es, c);
  }

  /** How a rival takes a parked sink out: it parks itself, or it leaves. */
  function Attack(s: State, d: nat): seq<Step> {
    if Holding(s, d) then [Park(d)] else if InPhase(s, d, Running) then [Leave(d)] + [Finish(d)] else [Finish(d)]
  }

  lemma AttackLoses(s: State, c: nat, d: nat)
    requires Inv(s) && IsParked(s, c) && Rival(s, c, d)
    ensures var es := Attack(s, d);
      AllApart(s, es) && AllSpare(es, c, s.conns[c].addr) && !IsParked(Run(s, es), c)
  {
    var es := Attack(s, d);
    RunTwo(s, es);
    if |es| == 2 {
      var t := Next(s, Leave(d));
      InvStep(s, Leave(d));
      LostExactly(t, Finish(d), c);
    } else {
      LostExactly(s, es[0], c);
    }
  }

  lemma {:induction false} RunTwo(s: State, es: seq<Step>)
    requires 1 <= |es| <= 2
    ensures Run(s, es) == if |es| == 1 then Next(s, es[0]) else Next(Next(s, es[0]), es[1])
    ensures AllApart(s, es) <==> OpensApart(s, es[0]) && (|es| == 2 ==> OpensApart(Next(s, es[0]), es[1]))
    decreases es
  {
    if |es| == 1 {
      assert es[1..] == [];
    } else {
      assert es[1..] == [es[1]];
      RunTwo(Next(s, es[0]), es[1..]);
    }
  }

  /**
   * New connections coming from unused addresses, a parked sink waits for its answer over every run exactly when no
   * other connection at its address can still park, or has parked and is still to clean up.
   */
  lemma ParkedWaitsExactly(s: State, c: nat)
    requires Inv(s) && IsParked(s, c)
    ensures (forall es :: AllApart(s, es) && AllSpare(es, c, s.conns[c].addr) ==> IsParked(Run(s, es), c)) <==>
      (forall d :: d in s.conns && d != c && s.conns[d].addr == s.conns[c].addr ==>
        !Holding(s, d) && (s.conns[d].held || s.conns[d].phase == Closed))
  {
    if Unrivalled(s, c) {
      forall es | AllApart(s, es) && AllSpare(es, c, s.conns[c].addr) ensures IsParked(Run(s, es), c) {
        ParkedStays(s, es, c);
      }
      forall d | d in s.conns && d != c && s.conns[d].addr == s.conns[c].addr
        ensures !Holding(s, d) && (s.conns[d].held || s.conns[d].phase == Closed)
      {
        assert !Rival(s, c, d);
      }
    } else {
      var d :| Rival(s, c, d);
      AttackLoses(s, c, d);
    }
  }

  /** So the answer to its address reaches it, and it is the last message. */
  lemma AnswerReaches(s: State, es: seq<Step>, c: nat, ok: bool)
    requires Inv(s) && Distinct(s) && AllApart(s, es) && IsParked(s, c) && AllSpare(es, c, s.conns[c].addr)
    ensures var t := Run(s, es);
      var u := Next(Next(t, Answer(s.conns[c].addr)), Deliver(c, ok));
      Sent(u, c) == Sent(t, c) + (if ok then 1 else 0) && Due(u, c) == 0
  {
    ParkedWaits(s, es, c);
    RunSound(s, es);
    Answered(Run(s, es), c, ok);
  }

  lemma Answered(t: State, c: nat, ok: bool)
    requires Inv(t) && IsParked(t, c)
    ensures var u := Next(Next(t, Answer(t.conns[c].addr)), Deliver(c, ok));
      Sent(u, c) == Sent(t, c) + (if ok then 1 else 0) && Due(u, c) == 0
  {
    ParkedIsGivenUp(t, c);
    var f := Next(t, Answer(t.conns[c].addr));
    assert f.flying[c] == 1 && c in f.conns;
  }

  /**
   * Shared addresses break this: WebSocket connections behind one proxy header all get port 0, and when a second one
   * parks, the first one never hears anything again.
   */
  lemma {:induction false} SharedAddressSilences(s: State, es: seq<Step>, c: nat, d: nat)
    requires Inv(s) && IsParked(s, c) && Holding(s, d) && s.conns[d].addr == s.conns[c].addr
    ensures Sent(Run(Next(s, Park(d)), es), c) <= Sent(s, c)
  {
    ParkedIsGivenUp(s, c);
    InvStep(s, Park(d));
    DueStep(s, Park(d), c);
    AtMostOneMore(Next(s, Park(d)), es, c);
  }

  /** Two connections behind one address, both parked: nothing that follows sends the first one anything. */
  lemma SharedAddressRun(a: Addr, es: seq<Step>)
    ensures var evs := [Open(1, a), Open(2, a)] + ([Park(1)] + [Park(2)]);
      Sent(Run(Run(EMPTY, evs), es), 1) == 0
  {
    var two := State(map[1 := Conn(a, true, Running, 0), 2 := Conn(a, true, Running, 0)], map[], multiset{});
    RunConcat(EMPTY, [Open(1, a), Open(2, a)], [Park(1)] + [Park(2)]);
    RunTwo(EMPTY, [Open(1, a), Open(2, a)]);
    assert Next(Next(EMPTY, Open(1, a)), Open(2, a)) == two;
    RunTwo(two, [Park(1)] + [Park(2)]);
    RunSound(EMPTY, [Open(1, a), Open(2, a)]);
    InvStep(two, Park(1));
    SharedAddressSilences(Next(two, Park(1)), es, 1, 2);
  }

  lemma {:induction false} RunConcat(s: State, a: seq<Step>, b: seq<Step>)
    ensures Run(s, a + b) == Run(Run(s, a), b)
    decreases a
  {
    if a == [] {
      assert a + b == b;
    } else {
      assert (a + b)[1..] == a[1..] + b;
      RunConcat(Next(s, a[0]), a[1..], b);
    }
  }

  // ---- the life of a connection, read off the events -------------------------------------

  /** The first time this connection parks its sink or leaves its loop, or the number of events. */
  function FirstQuit(es: seq<Step>, c: nat): (i: nat)
    ensures i <= |es| && (i < |es| ==> es[i] == Park(c) || es[i] == Leave(c))
  {
    if es == [] || es[0] == Park(c) || es[0] == Leave(c) then 0 else 1 + FirstQuit(es[1..], c)
  }

  /** The direct replies up to then. */
  function Direct(es: seq<Step>, c: nat): nat {
    if es == [] || es[0] == Park(c) || es[0] == Leave(c) then 0
    else (if es[0] == Reply(c) then 1 else 0) + Direct(es[1..], c)
  }

  lemma SentGrows(s: State, e: Step, c: nat)
    requires c in s.conns
    ensures c in Next(s, e).conns && Sent(s, c) <= Sent(Next(s, e), c)
  {
  }

  lemma {:induction false} SentGrowsRun(s: State, es: seq<Step>, c: nat)
    requires c in s.conns
    ensures c in Run(s, es).conns && Sent(s, c) <= Sent(Run(s, es), c)
    decreases es
  {
    if es != [] {
      SentGrows(s, es[0], c);
      SentGrowsRun(Next(s, es[0]), es[1..], c);
    }
  }

  predicate Gone(s: State, c: nat) { c in s.conns && s.conns[c].held && s.conns[c].phase != Running }

  lemma GoneStep(s: State, e: Step, c: nat)
    requires Inv(s) && Gone(s, c)
    ensures Gone(Next(s, e), c) && Sent(Next(s, e), c) == Sent(s, c)
  {
    assert FlyingOk(s, c);
  }

  /** A sink that was never parked is sent nothing more once its loop has ended. */
  lemma {:induction false} GoneRun(s: State, es: seq<Step>, c: nat)
    requires Inv(s) && Gone(s, c)
    ensures Sent(Run(s, es), c) == Sent(s, c)
    decreases es
  {
    if es != [] {
      InvStep(s, es[0]);
      GoneStep(s, es[0], c);
      GoneRun(Next(s, es[0]), es[1..], c);
    }
  }

  lemma HoldingStep(s: State, e: Step, c: nat)
    requires Inv(s) && Holding(s, c)
    ensures var t := Next(s, e);
      if e == Park(c) then GivenUp(t, c) && IsParked(t, c) && Sent(t, c) == Sent(s, c)
      else if e == Leave(c) then Gone(t, c) && Sent(t, c) == Sent(s, c)
      else Holding(t, c) && Sent(t, c) == Sent(s, c) + if e == Reply(c) then 1 else 0
  {
    assert FlyingOk(s, c);
  }

  /**
   * Over every run a sink is sent exactly its direct replies until it is parked or its loop ends; after the end of
   * the loop nothing, and after parking at most one more.
   */
  lemma {:induction false} SentExactly(s: State, es: seq<Step>, c: nat)
    requires Inv(s) && Holding(s, c)
    ensures var t, i, n := Run(s, es), FirstQuit(es, c), Sent(s, c) + Direct(es, c);
      && (i == |es| ==> Holding(t, c) && Sent(t, c) == n)
      && (i < |es| && es[i] == Leave(c) ==> Sent(t, c) == n)
      && (i < |es| && es[i] == Park(c) ==> n <= Sent(t, c) <= n + 1)
    decreases es
  {
    if es != [] {
      var u := Next(s, es[0]);
      InvStep(s, es[0]);
      HoldingStep(s, es[0], c);
      if es[0] == Park(c) {
        AtMostOneMore(u, es[1..], c);
        SentGrowsRun(u, es[1..], c);
      } else if es[0] == Leave(c) {
        GoneRun(u, es[1..], c);
      } else {
        SentExactly(u, es[1..], c);
      }
    }
  }

  /** A new connection starts with its sink, at its address, with nothing sent; so all it is sent is known. */
  lemma NewConnection(s: State, c: nat, a: Addr, es: seq<Step>)
    requires Inv(s) && c !in s.conns
    ensures var u := Next(s, Open(c, a)); Holding(u, c) && u.conns[c].addr == a && Sent(u, c) == 0
    ensures var t, i, n := Run(Next(s, Open(c, a)), es), FirstQuit(es, c), Direct(es, c);
      if i < |es| && es[i] == Park(c) then n <= Sent(t, c) <= n + 1 else Sent(t, c) == n
  {
    InvStep(s, Open(c, a));
    SentExactly(Next(s, Open(c, a)), es, c);
  }

  /**
   * A request that parks its sink hears exactly one more message: the answer to its address, however long that takes
   * and whatever other connections with addresses of their own do meanwhile.
   */
  lemma RequestIsAnswered(s: State, c: nat, es: seq<Step>)
    requires Inv(s) && Distinct(s) && Holding(s, c)
    requires AllApart(Next(s, Park(c)), es) && AllSpare(es, c, s.conns[c].addr)
    ensures var t := Run(Next(s, Park(c)), es);
      var u := Next(Next(t, Answer(s.conns[c].addr)), Deliver(c, true));
      Sent(t, c) == Sent(s, c) && Sent(u, c) == Sent(s, c) + 1 && Due(u, c) == 0
  {
    var p := Next(s, Park(c));
    InvStep(s, Park(c));
    HoldingStep(s, Park(c), c);
    ParkedWaits(p, es, c);
    AtMostOneMore(p, es, c);
    SentGrowsRun(p, es, c);
    AnswerReaches(p, es, c, true);
  }

  lemma PhaseStep(s: State, e: Step, c: nat)
    requires c in s.conns
    ensures var p, q := s.conns[c].phase, Next(s, e).conns[c].phase;
      q == if p == Running && e == Leave(c) then Leaving else if p == Leaving && e == Finish(c) then Closed else p
  {
  }

  lemma {:induction false} ClosedExactly(s: State, es: seq<Step>, c: nat)
    requires c in s.conns && s.conns[c].phase != Running
    ensures c in Run(s, es).conns
    ensures Run(s, es).conns[c].phase == if s.conns[c].phase == Closed || Finish(c) in es then Closed else Leaving
    decreases es
  {
    if es != [] {
      PhaseStep(s, es[0], c);
      ClosedExactly(Next(s, es[0]), es[1..], c);
    }
  }

  /** The loop is left, and the clean-up comes after that. */
  predicate Leaves(es: seq<Step>, c: nat) {
    exists i :: 0 <= i < |es| && es[i] == Leave(c) && Finish(c) in es[i..]
  }

  /** A loop runs until it is left, and its connection is closed by its clean-up after that, and by nothing else. */
  lemma {:induction false} PhasesExactly(s: State, es: seq<Step>, c: nat)
    requires InPhase(s, c, Running)
    ensures InPhase(Run(s, es), c, Running) <==> Leave(c) !in es
    ensures InPhase(Run(s, es), c, Closed) <==> Leaves(es, c)
    decreases es
  {
    if es != [] {
      var t, rest := Next(s, es[0]), es[1..];
      PhaseStep(s, es[0], c);
      if es[0] == Leave(c) {
        ClosedExactly(t, rest, c);
        LeftFirst(es, c);
      } else {
        PhasesExactly(t, rest, c);
        LeftLater(es, c);
      }
    }
  }

  lemma LeftFirst(es: seq<Step>, c: nat)
    requires es != [] && es[0] == Leave(c)
    ensures Leaves(es, c) <==> Finish(c) in es[1..]
  {
    assert es[0..] == [es[0]] + es[1..];
    forall i | 0 <= i < |es| && Finish(c) in es[i..] ensures Finish(c) in es[1..] {
      if i > 0 { assert es[i..] == es[1..][i - 1..]; }
    }
  }

  lemma LeftLater(es: seq<Step>, c: nat)
    requires es != [] && es[0] != Leave(c)
    ensures Leaves(es, c) <==> Leaves(es[1..], c)
  {
    forall i | 1 <= i < |es| ensures es[i..] == es[1..][i - 1..] {}
    if Leaves(es[1..], c) {
      var i :| 0 <= i < |es[1..]| && es[1..][i] == Leave(c) && Finish(c) in es[1..][i..];
      assert es[i + 1] == Leave(c) && es[i + 1..] == es[1..][i..];
    }
    if Leaves(es, c) {
      var i :| 0 <= i < |es| && es[i] == Leave(c) && Finish(c) in es[i..];
      assert es[1..][i - 1] == Leave(c) && es[i..] == es[1..][i - 1..];
    }
  }
}
