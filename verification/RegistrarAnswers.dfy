/** What the registrar answers, exactly, in terms of the fields it looks at, and what each message leaves. */
module RegistrarAnswers {
  import opened Text
  import opened Clock
  import opened RateCounter
  import opened Peers
  import opened Registrar
  import opened RegistrarSlots
  import opened RegistrarTimes
  import opened RegistrarRuns
  import IpBlocker
  import PunchLog

  // ---- a claim, past the gate -----------------------------------------------------------------

  /** The identity a claim is held against: the entry in memory, or else the row, if it can be read. */
  function HeldBy(x: Slot, readOk: bool): Identity {
    if x.peer.Some? then x.peer.value.who
    else if readOk && x.row.Some? then x.row.value.who
    else Identity("", "", None, None)
  }

  /** Another uuid than the one held; or another pk, from an ip that is not the one recorded in memory. */
  predicate Foreign(x: Slot, readOk: bool, c: Claim) {
    var held := HeldBy(x, readOk);
    held.uuid != "" && (c.uuid != held.uuid || (c.pk != held.pk && c.addr.ip != RecordedIp(x)))
  }

  /** Three admissions are counted in memory, the last less than 7 s ago. */
  predicate Frequent(x: Slot, now: int) {
    x.peer.Some? && x.peer.value.regPk.count >= 3 && now - x.peer.value.regPk.at < 7_000
  }

  /** Every UDP claim that reaches a peer: UUID_MISMATCH, TOO_FREQUENT or OK, and exactly when. */
  lemma ClaimAnswer(k: Config, x: Slot, now: int, c: Claim, db: Db)
    ensures SlotStep(k, x, now, RegisterPk(c), db).1 == PkResponse(
      if Foreign(x, db.readOk, c) then UuidMismatch else if Frequent(x, now) then TooFrequent else Done)
  {
  }

  /** A known uuid with its pk is never refused for its identity, from any ip, cached or read back after a restart. */
  lemma KnownIsNeverForeign(k: Config, x: Slot, now: int, c: Claim, db: Db)
    requires c.uuid == HeldBy(x, db.readOk).uuid && c.pk == HeldBy(x, db.readOk).pk
    ensures SlotStep(k, x, now, RegisterPk(c), db).1 != PkResponse(UuidMismatch)
  {
    ClaimAnswer(k, x, now, c, db);
  }

  /** After a restart that is all it takes: the row's uuid and pk are answered OK from any ip. */
  lemma KnownAfterRestart(k: Config, x: Slot, now: int, c: Claim, db: Db)
    requires x.row.Some? && db.readOk && c.uuid == x.row.value.who.uuid && c.pk == x.row.value.who.pk
    ensures SlotStep(k, StepSlot(k, x, Reboot), now, RegisterPk(c), db).1 == PkResponse(Done)
  {
    ClaimAnswer(k, StepSlot(k, x, Reboot), now, c, db);
  }

  // ---- the frequency of claims, by the admissions of the run --------------------------------------

  /** How many of the last times follow each other within less than 7 s. */
  function Streak(ts: seq<int>): nat {
    if |ts| <= 1 then |ts|
    else if ts[|ts| - 1] - ts[|ts| - 2] < 7_000 then Streak(ts[..|ts| - 1]) + 1
    else 1
  }

  lemma {:induction false} StreakCons(t: int, ts: seq<int>)
    requires ts != []
    ensures Streak(ts) <= |ts|
    ensures Streak([t] + ts) == if Streak(ts) == |ts| && ts[0] - t < 7_000 then |ts| + 1 else Streak(ts)
    decreases ts
  {
    var us := [t] + ts;
    if |ts| == 1 {
      assert us[..1] == [t];
    } else {
      assert us[..|us| - 1] == [t] + ts[..|ts| - 1];
      StreakCons(t, ts[..|ts| - 1]);
    }
  }

  /** What a counter shows after these admissions. */
  function CountAfter(c: Counter, ts: seq<int>): nat {
    if ts == [] then c.count
    else if Streak(ts) == |ts| && ts[0] - c.at < 7_000 then c.count + |ts|
    else Streak(ts)
  }

  lemma CountCons(c: Counter, t: int, ts: seq<int>)
    ensures CountAfter(c, [t] + ts) ==
      CountAfter(Counter(if t - c.at < 7_000 then c.count + 1 else 1, t), ts)
  {
    if ts == [] {
      assert [t] + ts == [t];
    } else {
      StreakCons(t, ts);
    }
  }

  lemma {:induction false} EmptyCounts(ts: seq<int>, a: int)
    ensures CountAfter(Counter(0, a), ts) == Streak(ts)
  {
  }

  /** The counter in memory is the streak of admissions. */
  lemma {:induction false} CountIsStreak(k: Config, x: Slot, ms: seq<Item>)
    requires NoReboot(ms)
    ensures CounterOf(RunSlot(k, x, ms)).count == CountAfter(CounterOf(x), AdmittedAt(k, x, ms))
    decreases ms
  {
    if ms != [] {
      var y := StepSlot(k, x, ms[0]);
      CounterStep(k, x, ms[0]);
      CountIsStreak(k, y, ms[1..]);
      var ts := AdmittedAt(k, y, ms[1..]);
      if Admitted(k, x, ms[0]) {
        CountCons(CounterOf(x), ms[0].now, ts);
      } else if x.peer.None? {
        EmptyCounts(ts, CounterOf(y).at);
        EmptyCounts(ts, 0);
      }
    }
  }

  lemma StreakOfThree(ts: seq<int>)
    ensures Streak(ts) >= 3 <==>
      |ts| >= 3 && ts[|ts| - 1] - ts[|ts| - 2] < 7_000 && ts[|ts| - 2] - ts[|ts| - 3] < 7_000
  {
    if |ts| >= 3 {
      var us := ts[..|ts| - 1];
      assert us[|us| - 1] == ts[|ts| - 2] && us[|us| - 2] == ts[|ts| - 3];
      StreakPositive(us[..|us| - 1]);
    }
  }

  lemma StreakPositive(ts: seq<int>)
    ensures ts != [] ==> Streak(ts) >= 1
  {
  }

  /**
   * In one process a claim that is not foreign is refused as too frequent exactly if the last three admissions of the
   * id followed each other within less than 7 s and the last was less than 7 s ago. Otherwise it is answered OK.
   */
  lemma TooFrequentExactly(k: Config, x: Slot, ms: seq<Item>, now: int, c: Claim, db: Db)
    requires x.peer.None? && NoReboot(ms)
    ensures var y := RunSlot(k, x, ms); var ts := AdmittedAt(k, x, ms); var n := |ts|;
      SlotStep(k, y, now, RegisterPk(c), db).1 == PkResponse(
        if Foreign(y, db.readOk, c) then UuidMismatch
        else if n >= 3 && ts[n - 1] - ts[n - 2] < 7_000 && ts[n - 2] - ts[n - 3] < 7_000 && now - ts[n - 1] < 7_000
        then TooFrequent
        else Done)
  {
    var y := RunSlot(k, x, ms);
    var ts := AdmittedAt(k, x, ms);
    ClaimAnswer(k, y, now, c, db);
    CountIsStreak(k, x, ms);
    EmptyCounts(ts, 0);
    StreakOfThree(ts);
    LastAdmission(k, x, ms);
  }

  // ---- the gate ------------------------------------------------------------------------

  /** Thirty-one calls counted, the last less than 61 s ago. */
  predicate Busy(e: IpBlocker.Entry, now: int) {
    e.Entry? && e.counter.count >= 31 && now - e.counter.at < 61_000
  }

  /** A new id for a full set that was last used less than a day and a second ago. */
  predicate Crowded(e: IpBlocker.Entry, id: string, now: int) {
    e.Entry? && |e.ids| >= 301 && id !in e.ids && now - e.idsAt < 86_401_000
  }

  /**
   * One call of the blocker: when it is refused, and what it records. The set of ids starts over after a day, an id
   * it knew already is then not recorded again, and a full set is not touched.
   */
  lemma BlockerAnswer(e: IpBlocker.Entry, id: string, now: int)
    ensures var v := IpBlocker.Check(e, id, now);
      && (v.ok <==> !Busy(e, now) && !Crowded(e, id, now))
      && (e.NoEntry? ==> v.entry == IpBlocker.Entry(Counter(0, now), {}, now))
      && (Busy(e, now) ==> v.entry == e)
      && (e.Entry? && !Busy(e, now) ==>
            && v.entry.Entry?
            && v.entry.counter == Counter(if now - e.counter.at >= 61_000 then 1 else e.counter.count + 1, now)
            && (var known := if id in e.ids then {} else {id};
                if now - e.idsAt >= 86_401_000 then v.entry.ids == known && v.entry.idsAt == now
                else if |e.ids| >= 301 then v.entry.ids == e.ids && v.entry.idsAt == e.idsAt
                else v.entry.ids == e.ids + {id} && v.entry.idsAt == now))
  {
    if e.Entry? && id in e.ids { assert e.ids + {id} == e.ids == e.ids + {}; }
  }

  /** Everything a UDP RegisterPk can be answered, in any state of the server. */
  lemma RegisterPkAnswer(k: Config, s: State, id: string, c: Claim, db: Db)
    ensures var e := IpBlocker.At(s.blocker, c.addr.ip); var x := At(s.store, id);
      Step(k, s, Packet(id, RegisterPk(c), db)).1 ==
        if c.uuid == "" || c.pk == "" then Silent
        else if |id| < 6 then PkResponse(UuidMismatch)
        else if Busy(e, s.now) || Crowded(e, id, s.now) then PkResponse(TooFrequent)
        else if Foreign(x, db.readOk, c) then PkResponse(UuidMismatch)
        else if Frequent(x, s.now) then PkResponse(TooFrequent)
        else PkResponse(Done)
  {
    BlockerAnswer(IpBlocker.At(s.blocker, c.addr.ip), id, s.now);
    ClaimAnswer(k, At(s.store, id), s.now, c, db);
  }

  /** Over TCP only the token and the write decide, whatever the id, the uuid, the pk and the frequency. */
  lemma TcpRegisterPkAnswer(k: Config, s: State, id: string, c: Claim, db: Db)
    ensures Step(k, s, Packet(id, TcpRegisterPk(c), db)).1 == PkResponse(
      if (c.token.Valid? || (c.token.NoToken? && !k.requireJwt)) && db.writeOk then Done else ServerError)
  {
  }

  /** The same in a run of one process, with the frequency read off the admissions of the id. */
  lemma ClaimAnswerInRun(k: Config, s: State, es: seq<Event>, id: string, c: Claim, db: Db)
    requires Fresh(s) && NoReboot(Trace(k, s, es, id))
    ensures var t := Run(k, s, es); var e := IpBlocker.At(t.blocker, c.addr.ip);
      var ts := AdmittedAt(k, At(s.store, id), Trace(k, s, es, id)); var n := |ts|;
      Step(k, t, Packet(id, RegisterPk(c), db)).1 ==
        if c.uuid == "" || c.pk == "" then Silent
        else if |id| < 6 then PkResponse(UuidMismatch)
        else if Busy(e, t.now) || Crowded(e, id, t.now) then PkResponse(TooFrequent)
        else if Foreign(At(t.store, id), db.readOk, c) then PkResponse(UuidMismatch)
        else if n >= 3 && ts[n - 1] - ts[n - 2] < 7_000 && ts[n - 2] - ts[n - 3] < 7_000 && t.now - ts[n - 1] < 7_000
        then PkResponse(TooFrequent)
        else PkResponse(Done)
  {
    Projects(k, s, es, id);
    RegisterPkAnswer(k, Run(k, s, es), id, c, db);
    TooFrequentExactly(k, At(s.store, id), Trace(k, s, es, id), Run(k, s, es).now, c, db);
    ClaimAnswer(k, At(Run(k, s, es).store, id), Run(k, s, es).now, c, db);
  }

  // ---- heartbeats ------------------------------------------------------------------------

  /** From loopback; or from the address ip; or, while the port is 0, from the recorded ip over UDP and any over TCP. */
  predicate Recognised(p: Peer, a: Addr, tcp: bool) {
    || a.ip == "::1" || (|a.ip| >= 4 && a.ip[..4] == "127.")
    || (p.addr.port != 0 && a.ip == p.addr.ip)
    || (p.addr.port == 0 && (tcp || a.ip == p.ip))
  }

  /**
   * Every RegisterPeer with an id is answered. No key is asked for exactly if the id is in memory with a key and the
   * source is recognised; exactly then the peer takes the source as its address, and this time. Nothing else changes.
   */
  lemma HeartbeatAnswer(k: Config, s: State, id: string, a: Addr, tcp: bool, db: Db)
    requires id != ""
    ensures var (t, r) := Step(k, s, Packet(id, if tcp then TcpHeartbeat(a) else Heartbeat(a), db));
      var known := id in s.store.peers && s.store.peers[id].who.pk != "" && Recognised(s.store.peers[id], a, tcp);
      && r == PeerResponse(!known)
      && t == if known
              then s.(store := s.store.(peers :=
                s.store.peers[id := s.store.peers[id].(addr := a, lastReg := s.now)]))
              else s
  {
    PutSame(s.store, id);
    SetSame(s.store.rows, id);
  }

  /** A RegisterPeer without an id is not answered. */
  lemma NamelessHeartbeat(k: Config, s: State, a: Addr, tcp: bool, db: Db)
    ensures Step(k, s, Packet("", if tcp then TcpHeartbeat(a) else Heartbeat(a), db)) == (s, Silent)
  {
  }

  // ---- what claims write --------------------------------------------------------------------

  /** The user and device of a good token are kept, in this order; without one those of the peer stay. */
  function Bound(held: Identity, t: Token): (Option<int>, Option<int>) {
    match t
    case Valid(u, d) => (Some(u), Some(d))
    case NoToken => (held.user, held.device)
    case Invalid => (held.user, held.device)
  }

  /**
   * What an authorised TCP RegisterPk leaves: in memory everything it brought; in the row, if the write goes through,
   * the same, but for the uuid where the row is found by its guid and not inserted.
   */
  lemma TcpClaimWrites(k: Config, x: Slot, now: int, c: Claim, db: Db)
    requires Authorised(k.requireJwt, c.token)
    ensures var y := StepSlot(k, x, Got(now, TcpRegisterPk(c), db));
      var (user, device) := Bound(HeldBy(x, db.readOk), c.token);
      && y.peer.Some? && y.peer.value.who == Identity(c.uuid, c.pk, user, device)
      && y.peer.value.addr == c.addr && y.peer.value.ip == c.addr.ip && y.peer.value.lastReg == now
      && (!db.writeOk ==> y.row == x.row)
      && (db.writeOk && GuidHeld(x, db.readOk) == NoGuid ==>
            y.row == Some(Row(db.guid, Identity(c.uuid, c.pk, user, device), c.addr.ip))
            && y.peer.value.guid == Guid(db.guid))
      && (db.writeOk && x.row.Some? && GuidHeld(x, db.readOk) == Guid(x.row.value.guid) ==>
            y.row == Some(Row(x.row.value.guid, Identity(x.row.value.who.uuid, c.pk, user, device), c.addr.ip)))
  {
  }

  function GuidHeld(x: Slot, readOk: bool): Guid {
    if x.peer.Some? then x.peer.value.guid
    else if readOk && x.row.Some? then Guid(x.row.value.guid)
    else NoGuid
  }

  /** A UDP RegisterPk answered OK with something to change writes like the TCP one; else only its counter. */
  lemma UdpClaimWrites(k: Config, x: Slot, now: int, c: Claim, db: Db)
    requires !Foreign(x, db.readOk, c) && !Frequent(x, now)
    ensures var y := StepSlot(k, x, Got(now, RegisterPk(c), db));
      var z := StepSlot(k, x, Got(now, TcpRegisterPk(c), db));
      var held := HeldBy(x, db.readOk);
      var changes := held.uuid == "" || held.pk != c.pk || c.addr.ip != RecordedIp(x);
      && y.peer.Some? && z.peer.Some?
      && (if Authorised(k.requireJwt, c.token) && changes
          then y.row == z.row && y.peer.value == z.peer.value.(regPk := y.peer.value.regPk)
          else y.row == x.row && y.peer.value.who == held)
  {
  }

  /** Looking a peer up leaves it in memory: a punch and a signature where there is a readable row, a claim always. */
  lemma LooksUp(k: Config, x: Slot, i: Item)
    requires i.Got? && !i.body.Heartbeat? && !i.body.TcpHeartbeat?
    ensures var y := StepSlot(k, x, i);
      && (y.peer.Some? <==> x.peer.Some? || (x.row.Some? && i.db.readOk) || i.body.RegisterPk? || i.body.TcpRegisterPk?)
      && ((i.body.PunchHole? || i.body.Lookup?) && x.peer.Some? ==> y == x)
      && ((i.body.PunchHole? || i.body.Lookup?) && x.peer.None? && y.peer.Some? ==>
            y.peer.value.who == x.row.value.who && y.peer.value.guid == Guid(x.row.value.guid)
            && y.peer.value.ip == "" && y.peer.value.addr == Addr("0.0.0.0", 0) && y.peer.value.regPk.count == 0
            && y.peer.value.lastReg == if i.now - 3_600_000 >= k.floor then i.now - 3_600_000 else i.now)
  {
  }

  // ---- punches ---------------------------------------------------------------------------------

  /**
   * In every run a punch that is forwarded names the address of the peer in memory, and is logged with the time, its
   * source and the ip it was sent to, unless one of the thirty newest entries has its source and id and is younger
   * than a minute. Nothing else is ever logged.
   */
  lemma PunchLogged(k: Config, s: State, es: seq<Event>, e: Event)
    requires Fresh(s)
    ensures var t := Run(k, s, es); var (u, r) := Step(k, t, e);
      var forwarded := e.Packet? && e.body.PunchHole? && r.Forward?;
      var repeated := forwarded && exists i ::
        0 <= i < |t.log| && i >= |t.log| - 30 && PunchLog.Repeats(t.log[i], e.body.src.ip, e.id, t.now);
      && (forwarded ==> e.id in u.store.peers && r.to == u.store.peers[e.id].addr)
      && (forwarded && !repeated ==> u.log == t.log + [PunchLog.Req(t.now, e.body.src.ip, r.to.ip, e.id)])
      && (!e.Restart? && (repeated || !forwarded) ==> u.log == t.log)
      && (e.Restart? ==> u.log == [])
  {
    SoundRun(k, s, es);
    var t := Run(k, s, es);
    if e.Packet? && e.body.PunchHole? && Step(k, t, e).1.Forward? {
      PunchLog.RecordExactly(t.log, e.body.src.ip, Step(k, t, e).1.to.ip, e.id, t.now);
    }
  }

  // ---- the process and its numbers -----------------------------------------------------------

  /** A restart keeps the rows and the time, and forgets everything else; waiting only passes time. */
  lemma RestartAndWait(k: Config, s: State, ms: nat)
    ensures var t := Step(k, s, Restart).0; Fresh(t) && t.store.rows == s.store.rows && t.now == s.now
    ensures Step(k, s, Tick(ms)) == (State(s.now + ms, s.store, s.blocker, s.log), Silent)
  {
  }

  /** The age law in numbers: fresh below 30 s, and from 2^31 up to 30 s past 2^32 milliseconds. */
  lemma FreshAges(age: nat)
    ensures age < 0x1_0000_0000 + 30_000 ==>
      (LooksFresh(age) <==> age < 30_000 || age >= 0x8000_0000)
    ensures LooksFresh(age + 0x1_0000_0000) <==> LooksFresh(age)
  {
  }
}
