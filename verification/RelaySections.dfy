/** Who takes part in the relay, and what each critical section does for the streams it is about. */
module RelaySections {
  import opened Text
  import opened RelayPairing

  // ---- only authenticated streams take part -----------------------------------------------------

  /** A request of this connection that has a uuid, and the right licence if the server has a key. */
  predicate Greets(key: string, ev: Event, c: Conn) {
    ev.Hello? && ev.c == c && ev.id != "" && (key == "" || ev.licence == key)
  }

  /** The uuid of the first such request. */
  function FirstGreeting(key: string, evs: seq<Event>, c: Conn): Option<string> {
    if evs == [] then None
    else if Greets(key, evs[0], c) then Some(evs[0].id)
    else FirstGreeting(key, evs[1..], c)
  }

  lemma {:induction false} GreetingIff(key: string, evs: seq<Event>, c: Conn)
    ensures FirstGreeting(key, evs, c).Some? <==> exists i :: 0 <= i < |evs| && Greets(key, evs[i], c)
  {
    if evs != [] {
      GreetingIff(key, evs[1..], c);
      if i :| 0 <= i < |evs[1..]| && Greets(key, evs[1..][i], c) { assert evs[i + 1] == evs[1..][i]; }
      if i :| 0 <= i < |evs| && Greets(key, evs[i], c) { if i > 0 { assert evs[1..][i - 1] == evs[i]; } }
    }
  }

  /** The uuid the relay knows a connection by. */
  function KnownBy(s: State, c: Conn): Option<string> { if c in s.uuid then Some(s.uuid[c]) else None }

  lemma HelloGreets(key: string, s: State, ev: Event, c: Conn)
    requires ev.Hello? && (c in s.uuid <==> c in s.stage)
    ensures var t := Step(key, s, ev);
      && (c in t.uuid <==> c in t.stage)
      && KnownBy(t, c) == if KnownBy(s, c).None? && Greets(key, ev, c) then Some(ev.id) else KnownBy(s, c)
  {
  }

  lemma OthersDoNotGreet(key: string, s: State, ev: Event, c: Conn)
    requires !ev.Hello?
    ensures var t := Step(key, s, ev); t.uuid == s.uuid && (c in t.stage <==> c in s.stage)
  {
  }

  lemma GreetingStep(key: string, s: State, ev: Event, c: Conn)
    requires c in s.uuid <==> c in s.stage
    ensures var t := Step(key, s, ev);
      && (c in t.uuid <==> c in t.stage)
      && KnownBy(t, c) == if KnownBy(s, c).None? && Greets(key, ev, c) then Some(ev.id) else KnownBy(s, c)
  {
    if ev.Hello? { HelloGreets(key, s, ev, c); } else { OthersDoNotGreet(key, s, ev, c); }
  }

  lemma {:induction false} GreetingRun(key: string, s: State, evs: seq<Event>, c: Conn)
    requires c in s.uuid <==> c in s.stage
    ensures var t := Run(key, s, evs);
      && (c in t.uuid <==> c in t.stage)
      && KnownBy(t, c) == if KnownBy(s, c).Some? then KnownBy(s, c) else FirstGreeting(key, evs, c)
    decreases evs
  {
    if evs != [] {
      GreetingStep(key, s, evs[0], c);
      GreetingRun(key, Step(key, s, evs[0]), evs[1..], c);
    }
  }

  /**
   * In every run a connection takes part exactly if it sent a request with a uuid and, if the server has a key, with
   * that key as its licence; and it is known by the uuid of the first such request.
   */
  lemma OnlyGreeted(key: string, evs: seq<Event>, c: Conn)
    ensures var s := Run(key, INIT, evs);
      && (c in s.stage <==> exists i :: 0 <= i < |evs| && Greets(key, evs[i], c))
      && KnownBy(s, c) == FirstGreeting(key, evs, c)
  {
    GreetingRun(key, INIT, evs, c);
    GreetingIff(key, evs, c);
  }

  /** Every stream that waits, was paired, or was dropped sent such a request. */
  lemma OnlyGreetedAnywhere(key: string, evs: seq<Event>)
    ensures var s := Run(key, INIT, evs);
      && (forall u :: u in s.table ==> FirstGreeting(key, evs, s.table[u]) == Some(u))
      && (forall c :: c in s.gone ==> FirstGreeting(key, evs, c).Some?)
      && (forall i :: 0 <= i < |s.pairs| ==>
            FirstGreeting(key, evs, s.pairs[i].newer).Some?
            && FirstGreeting(key, evs, s.pairs[i].newer) == FirstGreeting(key, evs, s.pairs[i].waiting))
  {
    var s := Run(key, INIT, evs);
    RunKeeps(key, INIT, evs);
    forall c ensures KnownBy(s, c) == FirstGreeting(key, evs, c) { OnlyGreeted(key, evs, c); }
    forall u | u in s.table ensures FirstGreeting(key, evs, s.table[u]) == Some(u) { assert EntryOk(s, u); }
    forall c | c in s.gone ensures FirstGreeting(key, evs, c).Some? { ShapeHolds(s, c); }
    forall i | 0 <= i < |s.pairs|
      ensures FirstGreeting(key, evs, s.pairs[i].newer).Some?
      ensures FirstGreeting(key, evs, s.pairs[i].newer) == FirstGreeting(key, evs, s.pairs[i].waiting)
    {
      assert PairOk(s, s.pairs[i]);
    }
  }

  // ---- what each section does ------------------------------------------------------------------

  /** A look-up that finds a waiting stream relays both: one more pair, and neither waits. */
  lemma FoundIsPaired(key: string, s: State, c: Conn)
    requires Inv(s) && At(s, c, Arrived) && c in s.uuid && s.uuid[c] in s.table
    ensures var p := s.table[s.uuid[c]]; var t := Step(key, s, Take(c));
      && t.pairs == s.pairs + [Pair(c, p)] && InRelay(t, c) && InRelay(t, p)
      && s.uuid[c] !in t.table && At(t, c, Relaying(p)) && t.gone == s.gone
  {
  }

  /** One that finds nothing leaves the table alone and lets the stream be parked. */
  lemma NotFoundMayPark(key: string, s: State, c: Conn)
    requires At(s, c, Arrived) && c in s.uuid && s.uuid[c] !in s.table
    ensures var t := Step(key, s, Take(c)); At(t, c, Missed) && t == s.(stage := t.stage)
  {
  }

  /** Parking puts the stream into the table under its uuid, with an alarm thirty seconds on. */
  lemma ParkedIsFound(key: string, s: State, c: Conn)
    requires At(s, c, Missed) && c in s.uuid
    ensures var t := Step(key, s, Park(c));
      && s.uuid[c] in t.table && t.table[s.uuid[c]] == c && At(t, c, Parked)
      && c in t.deadline && t.deadline[c] == s.clock + 30_000
      && t.pairs == s.pairs
  {
  }

  /** An alarm goes off no earlier than its time, and then nothing waits under the uuid. */
  lemma AlarmClears(key: string, s: State, c: Conn)
    requires At(s, c, Parked) && c in s.uuid && c in s.deadline
    ensures var t := Step(key, s, Expire(c));
      if s.clock < s.deadline[c] then t == s
      else s.uuid[c] !in t.table && At(t, c, Ended) && t.pairs == s.pairs
  {
  }

  /** When a relay ends, both of its streams are dropped, and its task is over. */
  lemma RelayEndsBoth(key: string, s: State, c: Conn)
    requires Inv(s) && c in s.stage && s.stage[c].Relaying?
    ensures var p := s.stage[c].peer; var t := Step(key, s, Finish(c));
      && At(t, c, Ended) && c in t.gone && p in t.gone && t.gone[c] == RelayOver && t.gone[p] == RelayOver
      && !InRelay(t, c) && !InRelay(t, p) && t.table == s.table && t.pairs == s.pairs
  {
    assert OwnerOk(s, c);
    assert RelayOk(s, s.stage[c].peer, c);
  }

  /** Sections of one uuid never touch what waits under another. */
  lemma OtherUuidsUntouched(key: string, s: State, ev: Event, u: string)
    requires !ev.Hello? && !ev.Tick? ==> (ev.c in s.uuid ==> s.uuid[ev.c] != u)
    ensures var t := Step(key, s, ev); (u in t.table <==> u in s.table) && (u in s.table ==> t.table[u] == s.table[u])
  {
  }
}
