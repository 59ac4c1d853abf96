/** The rendezvous registrar: what each timed message does to the peers, the blocker and the punch log. */
module Registrar {
  import opened Text
  import opened Clock
  import opened RateCounter
  import opened Peers
  import IpBlocker
  import PunchLog

  /** Settings: the clock's earliest instant, `REQUIRE_PEER_JWT`, and the licence key. */
  datatype Config = Config(floor: int, requireJwt: bool, key: string)

  datatype Body =
    | Heartbeat(addr: Addr)
    | RegisterPk(claim: Claim)
    | PunchHole(src: Addr, licence: string)
    | TcpHeartbeat(addr: Addr)
    | TcpRegisterPk(claim: Claim)
    | Lookup

  datatype Failure = Offline | IdNotExist | LicenseMismatch

  datatype Reply =
    | Silent
    | PeerResponse(requestPk: bool)
    | PkResponse(outcome: Outcome)
    | Refused(failure: Failure)
    | Forward(to: Addr)

  const REG_LIMIT := Limit(6, 2)
  const REG_TIMEOUT := 30_000
  const TWO31 := 0x8000_0000
  const TWO32 := 0x1_0000_0000

  /** `as i32`: the low 32 bits, read as two's complement. */
  function AsI32(x: nat): int { if x % TWO32 >= TWO31 then x % TWO32 - TWO32 else x % TWO32 }

  predicate Stale(now: int, p: Peer) { AsI32(Elapsed(now, p.lastReg)) >= REG_TIMEOUT }

  // ---- one id ------------------------------------------------------------------

  predicate HeartbeatIpChange(p: Peer, a: Addr) {
    (if p.addr.port != 0 then a.ip != p.addr.ip else a.ip != p.ip) && !Loopback(a.ip)
  }

  predicate TcpIpChange(p: Peer, a: Addr) {
    p.addr.port != 0 && a.ip != p.addr.ip && !Loopback(a.ip)
  }

  /** A heartbeat: refreshed unless the public key has to be asked for. */
  function Beat(x: Slot, a: Addr, ipChange: bool, now: int): (Slot, Reply)
    requires x.peer.Some?
  {
    var p := x.peer.value;
    if p.who.pk == "" || ipChange then (x, PeerResponse(true))
    else (Slot(Some(p.(addr := a, lastReg := now)), x.row), PeerResponse(false))
  }

  predicate Mismatch(p: Peer, c: Claim) {
    p.who.uuid != "" && (c.uuid != p.who.uuid || (p.ip != c.addr.ip && p.who.pk != c.pk))
  }

  predicate Changed(p: Peer, c: Claim) {
    p.who.uuid == "" || p.who.pk != c.pk || p.ip != c.addr.ip
  }

  function Register(k: Config, x: Slot, c: Claim, now: int, db: Db): (Slot, Outcome)
    requires x.peer.Some?
  {
    var p := x.peer.value;
    var (pass, n) := Pass(REG_LIMIT, p.regPk, now);
    if Mismatch(p, c) then (x, UuidMismatch)
    else if !pass then (x, TooFrequent)
    else
      var y := Slot(Some(p.(regPk := n)), x.row);
      (if Changed(p, c) then UpdatePk(y, c, now, k.requireJwt, db).0 else y, Done)
  }

  function Punch(x: Slot, now: int): Reply {
    if x.peer.None? then Refused(IdNotExist)
    else if Stale(now, x.peer.value) then Refused(Offline)
    else Forward(x.peer.value.addr)
  }

  function SlotStep(k: Config, x: Slot, now: int, b: Body, db: Db): (Slot, Reply) {
    match b
    case Heartbeat(a) =>
      if x.peer.None? then (x, PeerResponse(true)) else Beat(x, a, HeartbeatIpChange(x.peer.value, a), now)
    case TcpHeartbeat(a) =>
      if x.peer.None? then (x, PeerResponse(true)) else Beat(x, a, TcpIpChange(x.peer.value, a), now)
    case RegisterPk(c) =>
      var (y, o) := Register(k, LoadOr(x, now, k.floor, db.readOk), c, now, db);
      (y, PkResponse(o))
    case TcpRegisterPk(c) =>
      var (y, o) := UpdatePk(LoadOr(x, now, k.floor, db.readOk), c, now, k.requireJwt, db);
      (y, PkResponse(o))
    case PunchHole(_, _) =>
      var y := Load(x, now, k.floor, db.readOk);
      (y, Punch(y, now))
    case Lookup => (Load(x, now, k.floor, db.readOk), Silent)
  }

  // ---- the whole registrar --------------------------------------------------------

  datatype Event = Tick(ms: nat) | Restart | Packet(id: string, body: Body, db: Db)

  datatype State = State(now: int, store: Store, blocker: IpBlocker.Table, log: seq<PunchLog.Req>)

  /** What is decided before the peer is looked at: the blocker afterwards, and the reply if the message stops here. */
  function Gate(k: Config, s: State, id: string, b: Body): (IpBlocker.Table, Option<Reply>) {
    match b
    case Heartbeat(_) => (s.blocker, if id == "" then Some(Silent) else None)
    case TcpHeartbeat(_) => (s.blocker, if id == "" then Some(Silent) else None)
    case PunchHole(_, licence) =>
      (s.blocker, if k.key != "" && licence != k.key then Some(Refused(LicenseMismatch)) else None)
    case RegisterPk(c) =>
      if c.uuid == "" || c.pk == "" then (s.blocker, Some(Silent))
      else if |id| < 6 then (s.blocker, Some(PkResponse(UuidMismatch)))
      else
        var (m, ok) := IpBlocker.CheckIn(s.blocker, IpBlocker.Call(c.addr.ip, id, s.now));
        (m, if ok then None else Some(PkResponse(TooFrequent)))
    case TcpRegisterPk(_) => (s.blocker, None)
    case Lookup => (s.blocker, None)
  }

  function Logged(s: State, id: string, b: Body, r: Reply): seq<PunchLog.Req> {
    if b.PunchHole? && r.Forward? then PunchLog.Record(s.log, b.src.ip, r.to.ip, id, s.now) else s.log
  }

  function Step(k: Config, s: State, e: Event): (State, Reply) {
    match e
    case Tick(ms) => (s.(now := s.now + ms), Silent)
    case Restart => (State(s.now, Store(map[], s.store.rows), map[], []), Silent)
    case Packet(id, b, db) =>
      var (m, stop) := Gate(k, s, id, b);
      if stop.Some? then (s.(blocker := m), stop.value) else
      var (x, r) := SlotStep(k, At(s.store, id), s.now, b, db);
      (State(s.now, Put(s.store, id, x), m, Logged(s, id, b, r)), r)
  }

  function Run(k: Config, s: State, es: seq<Event>): State
    decreases es
  {
    if es == [] then s else Run(k, Step(k, s, es[0]).0, es[1..])
  }

  // ---- the server object -------------------------------------------------------------

  class Server {
    const k: Config
    const pm: PeerMap
    const blocker: IpBlocker.Blocker
    const punchReqs: PunchLog.Log
    var now: int

    constructor (k: Config, rows: map<string, Row>, now: int)
      ensures Valid() && this.k == k
      ensures fresh(pm) && fresh(blocker) && fresh(punchReqs)
      ensures Now() == State(now, Store(map[], rows), map[], [])
    {
      this.k, this.now := k, now;
      pm := new PeerMap(rows, k.floor, k.requireJwt);
      blocker := new IpBlocker.Blocker();
      punchReqs := new PunchLog.Log();
    }

    predicate Valid() { pm.floor == k.floor && pm.requireJwt == k.requireJwt }

    function Now(): State
      reads this, pm, blocker, punchReqs
    {
      State(now, pm.Contents(), blocker.table, punchReqs.reqs)
    }

    method Wait(ms: nat)
      modifies this`now
      ensures Now() == Step(k, old(Now()), Tick(ms)).0
    {
      now := now + ms;
    }

    /** UDP and TCP RegisterPeer differ in how they compare addresses. */
    method RegisterPeer(id: string, a: Addr, tcp: bool, db: Db) returns (r: Reply)
      requires Valid()
      modifies pm
      ensures (Now(), r) == Step(k, old(Now()), Packet(id, if tcp then TcpHeartbeat(a) else Heartbeat(a), db))
    {
      PutSame(pm.Contents(), id);
      SetSame(pm.rows, id);
      if id == "" { return Silent; }
      if id !in pm.peers { return PeerResponse(true); }
      var p := pm.peers[id];
      var ipChange;
      if tcp {
        ipChange := p.addr.port != 0 && a.ip != p.addr.ip && !Loopback(a.ip);
      } else if p.addr.port != 0 {
        ipChange := a.ip != p.addr.ip && !Loopback(a.ip);
      } else {
        ipChange := a.ip != p.ip && !Loopback(a.ip);
      }
      var requestPk := p.who.pk == "" || ipChange;
      if !requestPk {
        pm.peers := pm.peers[id := p.(addr := a, lastReg := now)];
      }
      r := PeerResponse(requestPk);
    }

    method RegisterPkUdp(id: string, c: Claim, db: Db) returns (r: Reply)
      requires Valid()
      modifies pm, blocker
      ensures (Now(), r) == Step(k, old(Now()), Packet(id, RegisterPk(c), db))
    {
      if c.uuid == "" || c.pk == "" { return Silent; }
      if |id| < 6 { return PkResponse(UuidMismatch); }
      var ok := blocker.CheckIpBlocker(c.addr.ip, id, now);
      if !ok { return PkResponse(TooFrequent); }
      ghost var x := LoadOr(At(pm.Contents(), id), now, k.floor, db.readOk);
      var peer := pm.GetOr(id, now, db.readOk);
      PutTwice(old(pm.Contents()), id, x, x);
      var changed;
      if peer.who.uuid == "" {
        changed := true;
      } else {
        if c.uuid == peer.who.uuid {
          if peer.ip != c.addr.ip && peer.who.pk != c.pk { return PkResponse(UuidMismatch); }
        } else {
          return PkResponse(UuidMismatch);
        }
        changed := peer.who.pk != c.pk || peer.ip != c.addr.ip;
      }
      var passed := CountRegistration(id);
      if !passed { return PkResponse(TooFrequent); }
      ghost var y := At(pm.Contents(), id);
      PutTwice(old(pm.Contents()), id, x, y);
      if changed {
        PutTwice(old(pm.Contents()), id, y, UpdatePk(y, c, now, k.requireJwt, db).0);
        var outcome := pm.Update(id, c, now, db);
      }
      r := PkResponse(Done);
    }

    /** The per-peer limiter of RegisterPk. */
    method CountRegistration(id: string) returns (ok: bool)
      requires id in pm.peers
      modifies pm`peers
      ensures ok == Pass(REG_LIMIT, old(pm.peers[id].regPk), now).0
      ensures var p := old(pm.peers[id]);
        pm.Contents() == Put(old(pm.Contents()), id,
          Slot(Some(p.(regPk := Pass(REG_LIMIT, p.regPk, now).1)), Find(pm.rows, id)))
    {
      SetSame(pm.rows, id);
      var peer := pm.peers[id];
      var reqPk := peer.regPk;
      if Secs(now, reqPk.at) > REG_LIMIT.quiet {
        reqPk := Counter(0, reqPk.at);
      } else if reqPk.count > REG_LIMIT.most {
        PutSame(pm.Contents(), id);
        return false;
      }
      reqPk := Counter(reqPk.count + 1, now);
      pm.peers := pm.peers[id := peer.(regPk := reqPk)];
      ok := true;
    }

    method RegisterPkTcp(id: string, c: Claim, db: Db) returns (r: Reply)
      requires Valid()
      modifies pm
      ensures (Now(), r) == Step(k, old(Now()), Packet(id, TcpRegisterPk(c), db))
    {
      ghost var x := LoadOr(At(pm.Contents(), id), now, k.floor, db.readOk);
      var peer := pm.GetOr(id, now, db.readOk);
      PutTwice(old(pm.Contents()), id, x, UpdatePk(x, c, now, k.requireJwt, db).0);
      var res := pm.Update(id, c, now, db);
      r := PkResponse(res);
    }

    method HandlePunchHoleRequest(id: string, src: Addr, licence: string, db: Db) returns (r: Reply)
      requires Valid()
      modifies pm, punchReqs
      ensures (Now(), r) == Step(k, old(Now()), Packet(id, PunchHole(src, licence), db))
    {
      if k.key != "" && licence != k.key { return Refused(LicenseMismatch); }
      var peer := pm.Get(id, now, db.readOk);
      if peer.None? { return Refused(IdNotExist); }
      if AsI32(Elapsed(now, peer.value.lastReg)) >= REG_TIMEOUT { return Refused(Offline); }
      punchReqs.Add(src.ip, peer.value.addr.ip, id, now);
      r := Forward(peer.value.addr);
    }

    /** Signing a peer's key loads the peer. */
    method GetPk(id: string, db: Db) returns (p: Option<Peer>)
      requires Valid()
      modifies pm
      ensures Now() == Step(k, old(Now()), Packet(id, Lookup, db)).0
      ensures p == Load(old(At(pm.Contents(), id)), now, k.floor, db.readOk).peer
    {
      p := pm.Get(id, now, db.readOk);
    }
  }
}
