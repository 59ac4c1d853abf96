/** The registrar as a whole: every run, seen from one id, is a run of that id's slot. */
module RegistrarRuns {
  import opened Text
  import opened Clock
  import opened RateCounter
  import opened Peers
  import opened Registrar
  import opened RegistrarSlots
  import opened RegistrarTimes
  import IpBlocker
  import PunchLog

  /** What one event means for an id: a restart, a message that got past the gate, or nothing. */
  function Seen(k: Config, s: State, e: Event, id: string): Option<Item> {
    match e
    case Tick(_) => None
    case Restart => Some(Reboot)
    case Packet(to, b, db) => if to == id && Gate(k, s, id, b).1.None? then Some(Got(s.now, b, db)) else None
  }

  function Trace(k: Config, s: State, es: seq<Event>, id: string): seq<Item>
    decreases es
  {
    if es == [] then []
    else if Seen(k, s, es[0], id).Some? then
      [Seen(k, s, es[0], id).value] + Trace(k, Step(k, s, es[0]).0, es[1..], id)
    else Trace(k, Step(k, s, es[0]).0, es[1..], id)
  }

  lemma SeenStep(k: Config, s: State, e: Event, id: string)
    ensures At(Step(k, s, e).0.store, id) ==
      if Seen(k, s, e, id).Some? then StepSlot(k, At(s.store, id), Seen(k, s, e, id).value) else At(s.store, id)
  {
  }

  /**
   * A run of the registrar is, for each id, a run of its slot: ids do not influence each other but through the
   * blocker.
   */
  lemma {:induction false} Projects(k: Config, s: State, es: seq<Event>, id: string)
    ensures At(Run(k, s, es).store, id) == RunSlot(k, At(s.store, id), Trace(k, s, es, id))
    decreases es
  {
    if es != [] {
      SeenStep(k, s, es[0], id);
      Projects(k, Step(k, s, es[0]).0, es[1..], id);
    }
  }

  /** The messages of a run come in time order and are gated. */
  lemma {:induction false} TraceTimed(k: Config, s: State, es: seq<Event>, id: string, from: int)
    requires from <= s.now
    ensures var ms := Trace(k, s, es, id);
      Timed(ms, from) && End(ms, from) <= Run(k, s, es).now && s.now <= Run(k, s, es).now
    decreases es
  {
    if es != [] {
      var i := Seen(k, s, es[0], id);
      TraceTimed(k, Step(k, s, es[0]).0, es[1..], id, if i.Some? && i.value.Got? then i.value.now else from);
    }
  }

  lemma {:induction false} TraceGated(k: Config, s: State, es: seq<Event>, id: string)
    ensures Gated(Trace(k, s, es, id))
    decreases es
  {
    if es != [] {
      TraceGated(k, Step(k, s, es[0]).0, es[1..], id);
    }
  }

  // ---- what holds over every run ---------------------------------------------------------

  /** A process that has just started over a table. */
  predicate Fresh(s: State) { s.store.peers == map[] && s.blocker == map[] && s.log == [] }

  /** The cache agrees with the table after every run, and no guid ever changes. */
  lemma CacheAgrees(k: Config, s: State, es: seq<Event>, id: string)
    requires Fresh(s) && DbOk(Trace(k, s, es, id))
    ensures var x := At(Run(k, s, es).store, id);
      && Agrees(x)
      && (id in s.store.rows ==> GuidOf(x) == Guid(s.store.rows[id].guid))
      && (id in s.store.rows && s.store.rows[id].who.uuid != "" && NoTcpPk(Trace(k, s, es, id)) ==>
            SameUuid(x) && UuidOf(x) == s.store.rows[id].who.uuid)
      && (id !in s.store.rows && NoTcpPk(Trace(k, s, es, id)) ==> SameUuid(x))
  {
    var x := At(s.store, id);
    var ms := Trace(k, s, es, id);
    Projects(k, s, es, id);
    TraceGated(k, s, es, id);
    AgreesRun(k, x, ms);
    if id in s.store.rows { GuidPinned(k, x, ms); }
    if SameUuid(x) && NoTcpPk(ms) {
      SameUuidRun(k, x, ms);
      if id in s.store.rows { UuidPinned(k, x, ms); }
    }
  }

  /** From any state on, a uuid in memory stays, for every run of one process without a TCP RegisterPk for that id. */
  lemma Pinned(k: Config, s: State, es: seq<Event>, id: string)
    requires id in s.store.peers && s.store.peers[id].who.uuid != ""
    requires NoReboot(Trace(k, s, es, id)) && NoTcpPk(Trace(k, s, es, id))
    ensures var t := Run(k, s, es).store;
      id in t.peers && t.peers[id].who.uuid == s.store.peers[id].who.uuid
  {
    Projects(k, s, es, id);
    UuidPinnedInMemory(k, At(s.store, id), Trace(k, s, es, id));
  }

  /** The row of the id carries this uuid, and so does its entry in memory, at every point of the run. */
  predicate KnownThroughout(k: Config, s: State, es: seq<Event>, id: string, u: Bytes)
    decreases es
  {
    Rooted(At(s.store, id), u) && (es == [] || KnownThroughout(k, Step(k, s, es[0]).0, es[1..], id, u))
  }

  lemma {:induction false} KnownProjects(k: Config, s: State, es: seq<Event>, id: string, u: Bytes)
    ensures KnownThroughout(k, s, es, id, u) <==> StaysRooted(k, At(s.store, id), Trace(k, s, es, id), u)
    decreases es
  {
    if es != [] {
      var t := Step(k, s, es[0]).0;
      SeenStep(k, s, es[0], id);
      KnownProjects(k, t, es[1..], id, u);
      var i := Seen(k, s, es[0], id);
      if i.Some? {
        assert Trace(k, s, es, id)[1..] == Trace(k, t, es[1..], id);
      } else {
        HeadRooted(k, At(s.store, id), Trace(k, t, es[1..], id), u);
      }
    }
  }

  lemma HeadRooted(k: Config, x: Slot, ms: seq<Item>, u: Bytes)
    ensures StaysRooted(k, x, ms, u) ==> Rooted(x, u)
  {
  }

  /**
   * A uuid in the table stays with its id, in row and memory, through every run of the server, restarts included and
   * without TCP RegisterPk for the id, exactly when no RegisterPk that finds the id outside memory and its row
   * unreadable takes over: by lacking a good token, or bringing another uuid. No other failure matters.
   */
  lemma KnownExactly(k: Config, s: State, es: seq<Event>, id: string, u: Bytes)
    requires u != "" && Rooted(At(s.store, id), u) && NoTcpPk(Trace(k, s, es, id))
    ensures KnownThroughout(k, s, es, id, u) <==> NoTakeover(k, At(s.store, id), Trace(k, s, es, id), u)
  {
    KnownProjects(k, s, es, id, u);
    TraceGated(k, s, es, id);
    RootedExactly(k, At(s.store, id), Trace(k, s, es, id), u);
  }

  /** The address of the id's entry fits, and its uuid agrees with the row, after every event of the run. */
  predicate FitsThroughout(k: Config, s: State, es: seq<Event>, id: string)
    decreases es
  {
    AddrFits(At(s.store, id)) && (es == [] || FitsThroughout(k, Step(k, s, es[0]).0, es[1..], id))
  }

  predicate SameThroughout(k: Config, s: State, es: seq<Event>, id: string)
    decreases es
  {
    SameUuid(At(s.store, id)) && (es == [] || SameThroughout(k, Step(k, s, es[0]).0, es[1..], id))
  }

  lemma {:induction false} FitsProjects(k: Config, s: State, es: seq<Event>, id: string)
    ensures FitsThroughout(k, s, es, id) <==> StaysFitting(k, At(s.store, id), Trace(k, s, es, id))
    decreases es
  {
    if es != [] {
      var t := Step(k, s, es[0]).0;
      SeenStep(k, s, es[0], id);
      FitsProjects(k, t, es[1..], id);
      HeadFits(k, At(s.store, id), Trace(k, t, es[1..], id));
      if Seen(k, s, es[0], id).Some? { assert Trace(k, s, es, id)[1..] == Trace(k, t, es[1..], id); }
    }
  }

  lemma HeadFits(k: Config, x: Slot, ms: seq<Item>)
    ensures StaysFitting(k, x, ms) ==> AddrFits(x)
    ensures StaysSame(k, x, ms) ==> SameUuid(x)
  {
  }

  lemma {:induction false} SameProjects(k: Config, s: State, es: seq<Event>, id: string)
    ensures SameThroughout(k, s, es, id) <==> StaysSame(k, At(s.store, id), Trace(k, s, es, id))
    decreases es
  {
    if es != [] {
      var t := Step(k, s, es[0]).0;
      SeenStep(k, s, es[0], id);
      SameProjects(k, t, es[1..], id);
      HeadFits(k, At(s.store, id), Trace(k, t, es[1..], id));
      if Seen(k, s, es[0], id).Some? { assert Trace(k, s, es, id)[1..] == Trace(k, t, es[1..], id); }
    }
  }

  /** An id's address stays unknown, at the recorded ip or on loopback exactly if no TCP RegisterPeer moves it. */
  lemma AddressExactly(k: Config, s: State, es: seq<Event>, id: string)
    requires AddrFits(At(s.store, id))
    ensures FitsThroughout(k, s, es, id) <==> NeverMoved(k, At(s.store, id), Trace(k, s, es, id))
  {
    FitsProjects(k, s, es, id);
    AddrFitsExactly(k, At(s.store, id), Trace(k, s, es, id));
  }

  /** Cache and row keep the same uuid through a run exactly if no claim splits them, whatever the database does. */
  lemma OneUuidExactly(k: Config, s: State, es: seq<Event>, id: string)
    requires SameUuid(At(s.store, id))
    ensures SameThroughout(k, s, es, id) <==> NeverSplit(k, At(s.store, id), Trace(k, s, es, id))
  {
    SameProjects(k, s, es, id);
    TraceGated(k, s, es, id);
    SameUuidExactly(k, At(s.store, id), Trace(k, s, es, id));
  }

  /** Uuid and key of the id, as memory or else the table has them, at every point of the run. */
  predicate IdentityThroughout(k: Config, s: State, es: seq<Event>, id: string, u: Bytes, p: Bytes)
    decreases es
  {
    && UuidOf(At(s.store, id)) == u && PkOf(At(s.store, id)) == p
    && (es == [] || IdentityThroughout(k, Step(k, s, es[0]).0, es[1..], id, u, p))
  }

  lemma {:induction false} IdentityProjects(k: Config, s: State, es: seq<Event>, id: string, u: Bytes, p: Bytes)
    ensures IdentityThroughout(k, s, es, id, u, p) <==>
            IdentityStays(k, At(s.store, id), Trace(k, s, es, id), u, p)
    decreases es
  {
    if es != [] {
      var t := Step(k, s, es[0]).0;
      SeenStep(k, s, es[0], id);
      IdentityProjects(k, t, es[1..], id, u, p);
      HeadIdentity(k, At(s.store, id), Trace(k, t, es[1..], id), u, p);
      if Seen(k, s, es[0], id).Some? { assert Trace(k, s, es, id)[1..] == Trace(k, t, es[1..], id); }
    }
  }

  /**
   * A known id keeps its uuid and key through any run of the server without TCP RegisterPk for it, over restarts and
   * whatever the database does, exactly when no claim and no restart of the run alters them.
   */
  lemma IdentityKeptExactly(k: Config, s: State, es: seq<Event>, id: string)
    requires UuidOf(At(s.store, id)) != "" && NoTcpPk(Trace(k, s, es, id))
    ensures IdentityThroughout(k, s, es, id, UuidOf(At(s.store, id)), PkOf(At(s.store, id))) <==>
      NeverAltered(k, At(s.store, id), Trace(k, s, es, id))
  {
    var x := At(s.store, id);
    IdentityProjects(k, s, es, id, UuidOf(x), PkOf(x));
    TraceGated(k, s, es, id);
    IdentityExactly(k, x, Trace(k, s, es, id));
  }

  /** Its uuid alone, in memory only or in the table, stays at every point of the run. */
  predicate UuidThroughout(k: Config, s: State, es: seq<Event>, id: string, u: Bytes)
    decreases es
  {
    UuidOf(At(s.store, id)) == u && (es == [] || UuidThroughout(k, Step(k, s, es[0]).0, es[1..], id, u))
  }

  lemma {:induction false} UuidProjects(k: Config, s: State, es: seq<Event>, id: string, u: Bytes)
    ensures UuidThroughout(k, s, es, id, u) <==> Stays(k, At(s.store, id), Trace(k, s, es, id), u)
    decreases es
  {
    if es != [] {
      var t := Step(k, s, es[0]).0;
      SeenStep(k, s, es[0], id);
      UuidProjects(k, t, es[1..], id, u);
      HeadStays(k, At(s.store, id), Trace(k, t, es[1..], id), u);
      if Seen(k, s, es[0], id).Some? { assert Trace(k, s, es, id)[1..] == Trace(k, t, es[1..], id); }
    }
  }

  /** Exactly when no claim takes over and no restart finds the row without it. */
  lemma UuidKeptExactly(k: Config, s: State, es: seq<Event>, id: string)
    requires UuidOf(At(s.store, id)) != "" && NoTcpPk(Trace(k, s, es, id))
    ensures UuidThroughout(k, s, es, id, UuidOf(At(s.store, id))) <==>
      NeverLoses(k, At(s.store, id), Trace(k, s, es, id), UuidOf(At(s.store, id)))
  {
    var x := At(s.store, id);
    UuidProjects(k, s, es, id, UuidOf(x));
    TraceGated(k, s, es, id);
    StaysExactly(k, x, Trace(k, s, es, id));
  }

  /** A key recorded with a uuid stays through every UDP run of one process whose claims all come from elsewhere. */
  lemma KeyStays(k: Config, s: State, es: seq<Event>, id: string)
    requires NoReboot(Trace(k, s, es, id)) && NoTcpPk(Trace(k, s, es, id))
    requires UuidOf(At(s.store, id)) != "" && Elsewhere(k, At(s.store, id), Trace(k, s, es, id))
    ensures var x, y := At(s.store, id), At(Run(k, s, es).store, id); PkOf(y) == PkOf(x) && UuidOf(y) == UuidOf(x)
  {
    Projects(k, s, es, id);
    TraceGated(k, s, es, id);
    KeyPinned(k, At(s.store, id), Trace(k, s, es, id));
  }

  /** Without TCP RegisterPeer, every known address has port 0, or the recorded ip, or a loopback ip. */
  lemma AddressesAtRecordedIp(k: Config, s: State, es: seq<Event>, id: string)
    requires Fresh(s) && NoTcpBeat(Trace(k, s, es, id))
    ensures var t := Run(k, s, es).store; id in t.peers ==> AddrOk(t.peers[id])
  {
    Projects(k, s, es, id);
    AddrFitsRun(k, At(s.store, id), Trace(k, s, es, id));
  }

  /** When the entry of an id was created, and the latest accepted registration, in this process. */
  function BornIn(k: Config, s: State, es: seq<Event>, id: string): Option<int> {
    Born(k, At(s.store, id), Trace(k, s, es, id), None)
  }

  function LatestIn(k: Config, s: State, es: seq<Event>, id: string): Option<Stamp> {
    Latest(k, At(s.store, id), Trace(k, s, es, id), None)
  }

  /**
   * What a punch with the right licence is answered after any run of any length, on any clock: ID_NOT_EXIST without
   * an entry or a readable row, and otherwise by the age of the latest accepted registration, or of the default.
   */
  lemma PunchesGoByAge(k: Config, s: State, es: seq<Event>, id: string, src: Addr, licence: string, db: Db)
    requires Fresh(s) && (k.key == "" || licence == k.key)
    ensures var t := Run(k, s, es);
      var born, last := BornIn(k, s, es, id), LatestIn(k, s, es, id);
      var b := if born.Some? then born.value else t.now;
      Step(k, t, Packet(id, PunchHole(src, licence), db)).1 ==
        if born.None? && (id !in t.store.rows || !db.readOk) then Refused(IdNotExist)
        else Judged(Elapsed(t.now, JudgedAt(k, b, last)), JudgedTo(last))
  {
    Projects(k, s, es, id);
    ForwardsByAge(k, At(s.store, id), Trace(k, s, es, id), Run(k, s, es).now, src, licence, db);
  }

  /**
   * In every run shorter than 2^31 ms, a peer that registered is forwarded to exactly while its latest accepted
   * registration is less than 30 s old; one that did not register is never forwarded to, if the process started with
   * an hour of clock behind it and the run is that hour shorter.
   */
  lemma PunchesGoToFreshPeers(k: Config, s: State, es: seq<Event>, id: string, src: Addr, licence: string, db: Db)
    requires Fresh(s) && (k.key == "" || licence == k.key) && Run(k, s, es).now - s.now < TWO31
    ensures var t := Run(k, s, es); var last := LatestIn(k, s, es, id);
      var r := Step(k, t, Packet(id, PunchHole(src, licence), db)).1;
      && (last.Some? ==>
            r == if t.now - last.value.at < REG_TIMEOUT then Forward(last.value.addr) else Refused(Offline))
      && (last.None? && s.now - HOUR >= k.floor && t.now - s.now + HOUR < TWO31 ==>
            r == Refused(Offline) || r == Refused(IdNotExist))
  {
    Projects(k, s, es, id);
    TraceTimed(k, s, es, id, s.now);
    ForwardsFreshOnly(k, At(s.store, id), Trace(k, s, es, id), s.now, Run(k, s, es).now, src, licence, db);
    ForwardsByAge(k, At(s.store, id), Trace(k, s, es, id), Run(k, s, es).now, src, licence, db);
  }

  /** When a known peer that has not registered is OFFLINE, exactly, in every run an hour shorter than 2^31 ms. */
  lemma UnregisteredPeers(k: Config, s: State, es: seq<Event>, id: string, src: Addr, licence: string, db: Db)
    requires Fresh(s) && (k.key == "" || licence == k.key) && Run(k, s, es).now - s.now + HOUR < TWO31
    requires LatestIn(k, s, es, id).None?
    requires BornIn(k, s, es, id).Some? || (id in Run(k, s, es).store.rows && db.readOk)
    ensures var t := Run(k, s, es); var born := BornIn(k, s, es, id);
      var b := if born.Some? then born.value else t.now;
      Step(k, t, Packet(id, PunchHole(src, licence), db)).1 ==
        if b - HOUR >= k.floor || t.now - b >= REG_TIMEOUT then Refused(Offline) else Forward(UNKNOWN)
  {
    Projects(k, s, es, id);
    TraceTimed(k, s, es, id, s.now);
    RowOnlyPeer(k, At(s.store, id), Trace(k, s, es, id), s.now, Run(k, s, es).now, src, licence, db);
  }

  /** The RegisterPk answers of a run, for one id of one process: any four in a row span at least 7 s. */
  lemma RegistrationsSpread(k: Config, s: State, es: seq<Event>, id: string, i: nat)
    requires NoReboot(Trace(k, s, es, id))
    requires i + 3 < |AdmittedAt(k, At(s.store, id), Trace(k, s, es, id))|
    ensures var ts := AdmittedAt(k, At(s.store, id), Trace(k, s, es, id)); ts[i + 3] - ts[i] >= 7_000
  {
    TraceTimed(k, s, es, id, s.now);
    FourSpanSevenSeconds(k, At(s.store, id), Trace(k, s, es, id), s.now, i);
  }

  /** And any window of `w` milliseconds holds at most `3 * (w / 7000 + 1)` of them. */
  lemma RegistrationsInWindow(k: Config, s: State, es: seq<Event>, id: string, i: nat, n: nat, t: int, w: nat)
    requires NoReboot(Trace(k, s, es, id))
    requires InWindow(AdmittedAt(k, At(s.store, id), Trace(k, s, es, id)), i, n, t, w)
    ensures n <= 3 * (w / 7_000 + 1)
  {
    TraceTimed(k, s, es, id, s.now);
    AdmittedInWindow(k, At(s.store, id), Trace(k, s, es, id), s.now, i, n, t, w);
  }

  /** The log stays ordered and spaced and the blocker within its bounds, over restarts too. */
  predicate Sound(s: State) {
    && PunchLog.Ordered(s.log, s.now) && PunchLog.Spaced(s.log)
    && forall ip :: ip in s.blocker ==> IpBlocker.Bounded(s.blocker[ip])
  }

  lemma GateBounded(k: Config, s: State, id: string, b: Body)
    requires forall ip :: ip in s.blocker ==> IpBlocker.Bounded(s.blocker[ip])
    ensures var m := Gate(k, s, id, b).0; forall ip :: ip in m ==> IpBlocker.Bounded(m[ip])
  {
    if b.RegisterPk? {
      IpBlocker.CheckBounded(IpBlocker.At(s.blocker, b.claim.addr.ip), id, s.now);
    }
  }

  lemma SoundStep(k: Config, s: State, e: Event)
    requires Sound(s)
    ensures Sound(Step(k, s, e).0)
  {
    if e.Packet? {
      GateBounded(k, s, e.id, e.body);
      if e.body.PunchHole? {
        var r := SlotStep(k, At(s.store, e.id), s.now, e.body, e.db).1;
        if r.Forward? { PunchLog.RecordKeeps(s.log, e.body.src.ip, r.to.ip, e.id, s.now); }
      }
    }
  }

  lemma {:induction false} SoundRun(k: Config, s: State, es: seq<Event>)
    requires Sound(s)
    ensures Sound(Run(k, s, es))
    decreases es
  {
    if es != [] {
      SoundStep(k, s, es[0]);
      SoundRun(k, Step(k, s, es[0]).0, es[1..]);
    }
  }

  /**
   * A forwarded punch is in the log: its tail holds an entry of this source and id younger than a minute. Any other
   * leaves the log alone.
   */
  lemma ForwardedIsLogged(k: Config, s: State, id: string, src: Addr, licence: string, db: Db)
    ensures var (t, r) := Step(k, s, Packet(id, PunchHole(src, licence), db));
      && (r.Forward? ==>
            exists i :: |t.log| - PunchLog.TAIL <= i < |t.log| && PunchLog.YoungMatch(t.log, i, src.ip, id, s.now))
      && (!r.Forward? ==> t.log == s.log)
      && s.log <= t.log && |t.log| <= |s.log| + 1
  {
    var (t, r) := Step(k, s, Packet(id, PunchHole(src, licence), db));
    if r.Forward? {
      PunchLog.LastMatchIs(s.log, PunchLog.TAIL, src.ip, id);
      var i := if |t.log| > |s.log| then |s.log| else PunchLog.LastMatch(s.log, PunchLog.TAIL, src.ip, id);
      assert PunchLog.YoungMatch(t.log, i, src.ip, id, s.now);
    }
  }

  /** The licence decides before the peer is looked at, both ways, and a short id reaches neither blocker nor peer. */
  lemma GateFirst(k: Config, s: State, id: string, src: Addr, licence: string, c: Claim, db: Db)
    ensures Step(k, s, Packet(id, PunchHole(src, licence), db)).1 == Refused(LicenseMismatch) <==>
      k.key != "" && licence != k.key
    ensures k.key != "" && licence != k.key ==> Step(k, s, Packet(id, PunchHole(src, licence), db)).0 == s
    ensures |id| < 6 ==> Step(k, s, Packet(id, RegisterPk(c), db)).0 == s
    ensures Step(k, s, Packet(id, RegisterPk(c), db)).1 == Silent <==> c.uuid == "" || c.pk == ""
  {
  }

  /** Messages that stop at the gate without touching anything: wrong licences, empty or short claims, empty ids. */
  predicate Inert(k: Config, e: Event) {
    e.Packet? && (
      match e.body
      case PunchHole(_, licence) => k.key != "" && licence != k.key
      case RegisterPk(c) => c.uuid == "" || c.pk == "" || |e.id| < 6
      case Heartbeat(_) => e.id == ""
      case TcpHeartbeat(_) => e.id == ""
      case TcpRegisterPk(_) => false
      case Lookup => false
    )
  }

  lemma InertStep(k: Config, s: State, e: Event)
    requires Inert(k, e)
    ensures Step(k, s, e).0 == s
  {
    if e.body.PunchHole? {
      GateFirst(k, s, e.id, e.body.src, e.body.licence, Claim(UNKNOWN, "", "", NoToken), e.db);
    } else if e.body.RegisterPk? {
      GateFirst(k, s, e.id, UNKNOWN, k.key, e.body.claim, e.db);
    }
  }

  function Effective(k: Config, es: seq<Event>): seq<Event> {
    if es == [] then []
    else if Inert(k, es[0]) then Effective(k, es[1..])
    else [es[0]] + Effective(k, es[1..])
  }

  /** A run is the run of its effective messages: refused ones use up neither a limiter nor a log entry. */
  lemma {:induction false} InertMessagesDropOut(k: Config, s: State, es: seq<Event>)
    ensures Run(k, s, es) == Run(k, s, Effective(k, es))
    decreases es
  {
    if es != [] {
      InertMessagesDropOut(k, Step(k, s, es[0]).0, es[1..]);
      if Inert(k, es[0]) {
        InertStep(k, s, es[0]);
      } else {
        assert ([es[0]] + Effective(k, es[1..]))[1..] == Effective(k, es[1..]);
      }
    }
  }

  /** A RegisterPk answered OK got past the gate and was admitted. */
  lemma AnsweredWasAdmitted(k: Config, t: State, id: string, c: Claim, db: Db)
    requires Step(k, t, Packet(id, RegisterPk(c), db)).1 == PkResponse(Done)
    ensures var i := Got(t.now, RegisterPk(c), db); id != "" && Filled(i) && Admitted(k, At(t.store, id), i)
    ensures var u := Step(k, t, Packet(id, RegisterPk(c), db)).0;
      At(u.store, id) == StepSlot(k, At(t.store, id), Got(t.now, RegisterPk(c), db))
  {
  }

  lemma BeatThenPunch(k: Config, v: State, id: string, a: Addr, db: Db, ms: nat, src: Addr, licence: string)
    requires id != "" && ms < REG_TIMEOUT && (k.key == "" || licence == k.key)
    requires var (w, r) := SlotStep(k, At(v.store, id), v.now, Heartbeat(a), db);
      r == PeerResponse(false) && w.peer.Some? && w.peer.value.addr == a && w.peer.value.lastReg == v.now
    ensures var (w, r) := Step(k, v, Packet(id, Heartbeat(a), db));
      && r == PeerResponse(false)
      && Step(k, Step(k, w, Tick(ms)).0, Packet(id, PunchHole(src, licence), db)).1 == Forward(a)
  {
    CastWraps(ms);
  }

  /**
   * Registration converges: after any run without loopback sources or TCP RegisterPeer for the id, a RegisterPk that
   * is answered OK, not having failed on its token, and any run that does not disturb the id, the next RegisterPeer
   * from the same ip is answered without asking for a key, and punches reach that very address for the next 30 s.
   */
  lemma RegistrationConverges(k: Config, s: State, es: seq<Event>, id: string, c: Claim, db: Db, rest: seq<Event>,
      a: Addr, db': Db, ms: nat, src: Addr, licence: string)
    requires Fresh(s) && AllOutside(Trace(k, s, es, id))
    requires var t := Run(k, s, es);
      && Step(k, t, Packet(id, RegisterPk(c), db)).1 == PkResponse(Done)
      && (Changed(LoadOr(At(t.store, id), t.now, k.floor, db.readOk).peer.value, c) ==>
            Authorised(k.requireJwt, c.token))
    requires !Loopback(a.ip) && c.addr.ip == a.ip
    requires AllUndisturbed(Trace(k, Step(k, Run(k, s, es), Packet(id, RegisterPk(c), db)).0, rest, id), a.ip)
    requires ms < REG_TIMEOUT && (k.key == "" || licence == k.key)
    ensures var v := Run(k, Step(k, Run(k, s, es), Packet(id, RegisterPk(c), db)).0, rest);
      var (w, r) := Step(k, v, Packet(id, Heartbeat(a), db'));
      && r == PeerResponse(false)
      && Step(k, Step(k, w, Tick(ms)).0, Packet(id, PunchHole(src, licence), db')).1 == Forward(a)
  {
    var t := Run(k, s, es);
    var u := Step(k, t, Packet(id, RegisterPk(c), db)).0;
    Projects(k, s, es, id);
    AnsweredWasAdmitted(k, t, id, c, db);
    Projects(k, u, rest, id);
    var v := Run(k, u, rest);
    var i := Got(t.now, RegisterPk(c), db);
    Converges(k, At(s.store, id), Trace(k, s, es, id), i, Trace(k, u, rest, id), v.now, a, db');
    BeatThenPunch(k, v, id, a, db', ms, src, licence);
  }

  /**
   * When an OK is honoured, in any state of the server, however it was reached: in memory exactly when the token was
   * in order or nothing was to change; beyond a restart exactly when the row carried uuid and key already, or the
   * claim's own write reaches it.
   */
  lemma OkIsHonoured(k: Config, t: State, id: string, c: Claim, db: Db)
    requires Step(k, t, Packet(id, RegisterPk(c), db)).1 == PkResponse(Done)
    ensures var x, y := At(t.store, id), At(Step(k, t, Packet(id, RegisterPk(c), db)).0.store, id);
      var p := LoadOr(x, t.now, k.floor, db.readOk).peer.value;
      && (Honoured(y, c) <==> Authorised(k.requireJwt, c.token) || !Changed(p, c))
      && (Durable(y, c) <==> Durable(x, c) || WritesRow(k, x, Got(t.now, RegisterPk(c), db)))
  {
    var i := Got(t.now, RegisterPk(c), db);
    AnsweredWasAdmitted(k, t, id, c, db);
    HonouredExactly(k, At(t.store, id), i);
    DurableExactly(k, At(t.store, id), i);
  }

  /** While database calls succeed and without TCP RegisterPk for the id, a good token and write are enough. */
  lemma OkIsDurable(k: Config, s: State, es: seq<Event>, id: string, c: Claim, db: Db)
    requires Fresh(s) && Step(k, Run(k, s, es), Packet(id, RegisterPk(c), db)).1 == PkResponse(Done)
    requires db.readOk && DbOk(Trace(k, s, es, id)) && NoTcpPk(Trace(k, s, es, id))
    requires id in s.store.rows ==> s.store.rows[id].who.uuid != ""
    ensures var t := Run(k, s, es);
      var p := LoadOr(At(t.store, id), t.now, k.floor, db.readOk).peer.value;
      Durable(At(Step(k, t, Packet(id, RegisterPk(c), db)).0.store, id), c) <==>
        (Authorised(k.requireJwt, c.token) && db.writeOk) || (p.who.uuid == c.uuid && p.who.pk == c.pk)
  {
    var t := Run(k, s, es);
    AnsweredWasAdmitted(k, t, id, c, db);
    CacheAgrees(k, s, es, id);
    DurableWhenAgreed(k, At(t.store, id), Got(t.now, RegisterPk(c), db));
  }

  /** The write of a new id's first RegisterPk fails, its retry is answered OK, and no row is there. */
  lemma RetryRun(k: Config, now: int, id: string, c: Claim, guid: nat)
    requires Authorised(k.requireJwt, c.token) && c.uuid != "" && c.pk != "" && |id| >= 6
    ensures var s := State(now, Store(map[], map[]), map[], []);
      var t := Step(k, s, Packet(id, RegisterPk(c), Db(true, false, guid))).0;
      var (u, r) := Step(k, t, Packet(id, RegisterPk(c), Db(true, true, guid)));
      Fresh(s) && r == PkResponse(Done) && Honoured(At(u.store, id), c) && id !in u.store.rows
  {
    var s := State(now, Store(map[], map[]), map[], []);
    RetryIsNotDurable(k, now, c, guid);
    SeenStep(k, s, Packet(id, RegisterPk(c), Db(true, false, guid)), id);
    var t := Step(k, s, Packet(id, RegisterPk(c), Db(true, false, guid))).0;
    SeenStep(k, t, Packet(id, RegisterPk(c), Db(true, true, guid)), id);
  }

  // ---- the blocker in a run of the server ----------------------------------------------------

  /** The blocker call an event makes, if any. */
  function CallOf(s: State, e: Event): Option<IpBlocker.Call> {
    if e.Packet? && e.body.RegisterPk? && e.body.claim.uuid != "" && e.body.claim.pk != "" && |e.id| >= 6
    then Some(IpBlocker.Call(e.body.claim.addr.ip, e.id, s.now)) else None
  }

  function Calls(k: Config, s: State, es: seq<Event>): seq<IpBlocker.Call>
    decreases es
  {
    if es == [] then []
    else if CallOf(s, es[0]).Some? then [CallOf(s, es[0]).value] + Calls(k, Step(k, s, es[0]).0, es[1..])
    else Calls(k, Step(k, s, es[0]).0, es[1..])
  }

  predicate NoRestart(es: seq<Event>) { forall i :: 0 <= i < |es| ==> !es[i].Restart? }

  lemma BlockerStep(k: Config, s: State, e: Event)
    requires !e.Restart?
    ensures var c := CallOf(s, e);
      Step(k, s, e).0.blocker == if c.Some? then IpBlocker.CheckIn(s.blocker, c.value).0 else s.blocker
  {
  }

  /** Between restarts the blocker sees exactly the well-formed RegisterPk messages, in order, at their times. */
  lemma {:induction false} BlockerProjects(k: Config, s: State, es: seq<Event>)
    requires NoRestart(es)
    ensures Run(k, s, es).blocker == IpBlocker.Run(s.blocker, Calls(k, s, es))
    decreases es
  {
    if es != [] {
      var c := CallOf(s, es[0]);
      BlockerStep(k, s, es[0]);
      BlockerProjects(k, Step(k, s, es[0]).0, es[1..]);
      if c.Some? { assert Calls(k, s, es)[1..] == Calls(k, Step(k, s, es[0]).0, es[1..]); }
    }
  }

  /**
   * Among any 33 consecutive RegisterPk of one ip that pass the blocker's counter, some adjacent two are 61 s apart.
   */
  lemma BlockerBursts(k: Config, s: State, es: seq<Event>, ip: string, i: nat) returns (j: nat)
    requires Fresh(s) && NoRestart(es)
    requires i + 33 <= |IpBlocker.CountedTimes(IpBlocker.At(s.blocker, ip), IpBlocker.From(Calls(k, s, es), ip))|
    ensures var ts := IpBlocker.CountedTimes(IpBlocker.At(s.blocker, ip), IpBlocker.From(Calls(k, s, es), ip));
      i < j < i + 33 <= |ts| && ts[j] - ts[j - 1] >= 61_000
  {
    j := IpBlocker.BurstOf33(Calls(k, s, es), ip, i);
  }

  /** The ids for which a well-formed RegisterPk from this ip got past the gate. */
  function LetThrough(k: Config, s: State, es: seq<Event>, ip: string): set<string>
    decreases es
  {
    if es == [] then {} else
    var c := CallOf(s, es[0]);
    (if c.Some? && c.value.ip == ip && Gate(k, s, es[0].id, es[0].body).1.None? then {es[0].id} else {})
      + LetThrough(k, Step(k, s, es[0]).0, es[1..], ip)
  }

  lemma {:induction false} LetThroughAreAllowed(k: Config, s: State, es: seq<Event>, ip: string)
    requires NoRestart(es)
    ensures LetThrough(k, s, es, ip) ==
            IpBlocker.Allowed(IpBlocker.At(s.blocker, ip), IpBlocker.From(Calls(k, s, es), ip))
    decreases es
  {
    if es != [] {
      var t := Step(k, s, es[0]).0;
      var c := CallOf(s, es[0]);
      BlockerStep(k, s, es[0]);
      LetThroughAreAllowed(k, t, es[1..], ip);
      if c.Some? {
        assert Calls(k, s, es)[1..] == Calls(k, t, es[1..]);
        if c.value.ip == ip {
          assert IpBlocker.From(Calls(k, s, es), ip)[1..] == IpBlocker.From(Calls(k, t, es[1..]), ip);
        }
      }
    }
  }

  /** The first call, and no later one, starts the id set afresh. */
  predicate StartsAfresh(e: IpBlocker.Entry, cs: seq<IpBlocker.Call>) {
    && cs != []
    && IpBlocker.Check(e, cs[0].id, cs[0].at).afresh
    && IpBlocker.KeepsSet(IpBlocker.Check(e, cs[0].id, cs[0].at).entry, cs[1..])
  }

  /**
   * From a call that starts the ip's id set afresh up to the next such call, at most 302 distinct ids get past the
   * gate.
   */
  lemma AtMost302LetThrough(k: Config, s: State, es: seq<Event>, ip: string)
    requires Sound(s) && NoRestart(es)
    requires StartsAfresh(IpBlocker.At(s.blocker, ip), IpBlocker.From(Calls(k, s, es), ip))
    ensures |LetThrough(k, s, es, ip)| <= 302
  {
    LetThroughAreAllowed(k, s, es, ip);
    IpBlocker.AtMost302Ids(IpBlocker.At(s.blocker, ip), IpBlocker.From(Calls(k, s, es), ip));
  }
}
