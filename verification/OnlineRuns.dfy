/** The online query at the end of a run of the server: what the client reads is what registered. */
module OnlineRuns {
  import opened Text
  import opened Clock
  import opened Peers
  import opened Registrar
  import opened RegistrarTimes
  import opened RegistrarRuns
  import opened OnlineBitmap

  /** The id is in memory, and its latest accepted registration, or its default, looks fresh. */
  predicate SeemsOnline(k: Config, s: State, es: seq<Event>, id: string) {
    var born := BornIn(k, s, es, id);
    born.Some? && LooksFresh(Elapsed(Run(k, s, es).now, JudgedAt(k, born.value, LatestIn(k, s, es, id))))
  }

  lemma OnlineExactly(k: Config, s: State, es: seq<Event>, id: string)
    requires Fresh(s)
    ensures var t := Run(k, s, es); Online(t.store.peers, t.now, id) <==> SeemsOnline(k, s, es, id)
  {
    var t := Run(k, s, es);
    Projects(k, s, es, id);
    OriginRun(k, At(s.store, id), Trace(k, s, es, id), None, None);
    if id in t.store.peers { StaleByAge(t.now, t.store.peers[id]); }
  }

  /** The ids that do, or do not, seem online after the run. */
  function Seeming(k: Config, s: State, es: seq<Event>, ids: seq<string>, on: bool): seq<string> {
    if ids == [] then []
    else if SeemsOnline(k, s, es, ids[0]) == on then [ids[0]] + Seeming(k, s, es, ids[1..], on)
    else Seeming(k, s, es, ids[1..], on)
  }

  lemma {:induction false} ThoseSeem(k: Config, s: State, es: seq<Event>, ids: seq<string>, on: bool)
    requires Fresh(s)
    ensures var t := Run(k, s, es); Those(ids, t.store.peers, t.now, on) == Seeming(k, s, es, ids, on)
  {
    if ids != [] {
      OnlineExactly(k, s, es, ids[0]);
      ThoseSeem(k, s, es, ids[1..], on);
    }
  }

  /**
   * End to end: after any run of the server, the client reads as online, in the order asked, exactly the ids in memory
   * whose latest accepted registration looks fresh, and as offline all others.
   */
  lemma QueryAfterRun(k: Config, s: State, es: seq<Event>, ids: seq<string>, states: seq<Byte>, on: bool)
    requires Fresh(s) && Packs(states, ids, Run(k, s, es).store.peers, Run(k, s, es).now)
    ensures Pick(ids, states, 0, on) == Seeming(k, s, es, ids, on)
  {
    var t := Run(k, s, es);
    RoundTrip(states, ids, t.store.peers, t.now, 0, on);
    assert ids[0..] == ids;
    ThoseSeem(k, s, es, ids, on);
  }
}
