/** Peers: the in-memory cache over the `peer` table, and the one operation that writes both. */
module Peers {
  import opened Text
  import opened RateCounter

  /** Byte strings are only compared and tested for emptiness. */
  type Bytes = string

  datatype Addr = Addr(ip: string, port: nat)

  const UNKNOWN := Addr("0.0.0.0", 0)

  /** `IpAddr::is_loopback` on the printed address. */
  predicate Loopback(ip: string) { ip == "::1" || "127." <= ip }

  datatype Identity = Identity(uuid: Bytes, pk: Bytes, user: Option<int>, device: Option<int>)

  const NOBODY := Identity("", "", None, None)

  datatype Guid = NoGuid | Guid(n: nat)

  datatype Peer = Peer(addr: Addr, lastReg: int, guid: Guid, who: Identity, ip: string, regPk: Counter)

  datatype Row = Row(guid: nat, who: Identity, info: string)

  /** What memory and the table hold under one id. */
  datatype Slot = Slot(peer: Option<Peer>, row: Option<Row>)

  datatype Token = NoToken | Valid(user: int, device: int) | Invalid

  /** A RegisterPk message, as the server sees it. */
  datatype Claim = Claim(addr: Addr, uuid: Bytes, pk: Bytes, token: Token)

  /** How the database answers during one step, and the guid an insertion would draw. */
  datatype Db = Db(readOk: bool, writeOk: bool, guid: nat)

  datatype Outcome = Done | UuidMismatch | TooFrequent | ServerError

  const HOUR := 3_600_000

  /** An hour ago, or now when the platform's clock cannot reach back that far; `floor` is its earliest instant. */
  function Expired(now: int, floor: int): int { if now - HOUR >= floor then now - HOUR else now }

  function DefaultPeer(now: int, floor: int): Peer {
    Peer(UNKNOWN, Expired(now, floor), NoGuid, NOBODY, "", Counter(0, Expired(now, floor)))
  }

  /** A peer read back from its row. The stored info is JSON-decoded twice, so the recorded ip is lost. */
  function FromRow(r: Row, now: int, floor: int): Peer {
    DefaultPeer(now, floor).(guid := Guid(r.guid), who := r.who)
  }

  function Load(x: Slot, now: int, floor: int, readOk: bool): Slot {
    if x.peer.None? && readOk && x.row.Some? then Slot(Some(FromRow(x.row.value, now, floor)), x.row) else x
  }

  function LoadOr(x: Slot, now: int, floor: int, readOk: bool): (r: Slot)
    ensures r.peer.Some? && r.row == x.row
  {
    var y := Load(x, now, floor, readOk);
    if y.peer.Some? then y else Slot(Some(DefaultPeer(now, floor)), y.row)
  }

  predicate Authorised(requireJwt: bool, t: Token) { t.Valid? || (t.NoToken? && !requireJwt) }

  function Claimed(p: Peer, c: Claim, now: int): Peer {
    var user := if c.token.Valid? then Some(c.token.user) else p.who.user;
    var device := if c.token.Valid? then Some(c.token.device) else p.who.device;
    p.(addr := c.addr, lastReg := now, who := Identity(c.uuid, c.pk, user, device), ip := c.addr.ip)
  }

  /** The SQL update finds the row by guid and leaves its uuid alone. */
  function UpdateRow(row: Option<Row>, p: Peer): Option<Row> {
    if row.Some? && p.guid == Guid(row.value.guid)
    then Some(Row(row.value.guid, p.who.(uuid := row.value.who.uuid), p.ip))
    else row
  }

  function UpdatePk(x: Slot, c: Claim, now: int, requireJwt: bool, db: Db): (Slot, Outcome)
    requires x.peer.Some?
  {
    if !Authorised(requireJwt, c.token) then (x, ServerError) else
    var p := Claimed(x.peer.value, c, now);
    if !db.writeOk then (Slot(Some(p), x.row), ServerError)
    else if p.guid == NoGuid then (Slot(Some(p.(guid := Guid(db.guid))), Some(Row(db.guid, p.who, p.ip))), Done)
    else (Slot(Some(p), UpdateRow(x.row, p)), Done)
  }

  // ---- the whole map ---------------------------------------------------------------

  datatype Store = Store(peers: map<string, Peer>, rows: map<string, Row>)

  function Find<T>(m: map<string, T>, id: string): Option<T> { if id in m then Some(m[id]) else None }

  function Set<T>(m: map<string, T>, id: string, v: Option<T>): map<string, T> {
    if v.Some? then m[id := v.value] else m - {id}
  }

  function At(s: Store, id: string): Slot { Slot(Find(s.peers, id), Find(s.rows, id)) }

  function Put(s: Store, id: string, x: Slot): Store { Store(Set(s.peers, id, x.peer), Set(s.rows, id, x.row)) }

  lemma SetSame<T>(m: map<string, T>, id: string)
    ensures Set(m, id, Find(m, id)) == m
  {
  }

  lemma PutSame(s: Store, id: string)
    ensures Put(s, id, At(s, id)) == s
  {
    SetSame(s.peers, id);
    SetSame(s.rows, id);
  }

  lemma SetTwice<T>(m: map<string, T>, id: string, v: Option<T>, w: Option<T>)
    ensures Set(Set(m, id, v), id, w) == Set(m, id, w)
  {
  }

  lemma PutTwice(s: Store, id: string, x: Slot, y: Slot)
    ensures At(Put(s, id, x), id) == x
    ensures Put(Put(s, id, x), id, y) == Put(s, id, y)
  {
    SetTwice(s.peers, id, x.peer, y.peer);
    SetTwice(s.rows, id, x.row, y.row);
  }

  class PeerMap {
    var peers: map<string, Peer>
    var rows: map<string, Row>
    const floor: int
    const requireJwt: bool

    constructor (rows: map<string, Row>, floor: int, requireJwt: bool)
      ensures Contents() == Store(map[], rows) && this.floor == floor && this.requireJwt == requireJwt
    {
      this.peers, this.rows, this.floor, this.requireJwt := map[], rows, floor, requireJwt;
    }

    function Contents(): Store
      reads this
    {
      Store(peers, rows)
    }

    method Get(id: string, now: int, readOk: bool) returns (p: Option<Peer>)
      modifies this`peers
      ensures Contents() == Put(old(Contents()), id, Load(old(At(Contents(), id)), now, floor, readOk))
      ensures p == At(Contents(), id).peer
    {
      PutSame(Contents(), id);
      SetSame(rows, id);
      if id in peers {
        return Some(peers[id]);
      }
      if readOk && id in rows {
        var v := rows[id];
        peers := peers[id := FromRow(v, now, floor)];
        return Some(peers[id]);
      }
      return None;
    }

    method GetOr(id: string, now: int, readOk: bool) returns (p: Peer)
      modifies this`peers
      ensures Contents() == Put(old(Contents()), id, LoadOr(old(At(Contents(), id)), now, floor, readOk))
      ensures id in peers && p == peers[id]
    {
      SetSame(rows, id);
      var found := Get(id, now, readOk);
      if found.Some? {
        return found.value;
      }
      p := DefaultPeer(now, floor);
      peers := peers[id := p];
    }

    method InsertPeer(id: string, who: Identity, info: string, db: Db) returns (guid: Guid)
      modifies this`rows
      ensures guid == if db.writeOk then Guid(db.guid) else NoGuid
      ensures rows == if db.writeOk then old(rows)[id := Row(db.guid, who, info)] else old(rows)
    {
      if !db.writeOk { return NoGuid; }
      rows := rows[id := Row(db.guid, who, info)];
      guid := Guid(db.guid);
    }

    /** `update peer set pk, info, user_id, device_id where guid and id`. */
    method UpdateRowInPlace(id: string, p: Peer, writeOk: bool) returns (ok: bool)
      modifies this`rows
      ensures ok == writeOk
      ensures rows == if writeOk then Set(old(rows), id, UpdateRow(Find(old(rows), id), p)) else old(rows)
    {
      SetSame(rows, id);
      if !writeOk { return false; }
      if id in rows && p.guid == Guid(rows[id].guid) {
        var r := rows[id];
        rows := rows[id := Row(r.guid, Identity(r.who.uuid, p.who.pk, p.who.user, p.who.device), p.ip)];
      }
      ok := true;
    }

    method Update(id: string, c: Claim, now: int, db: Db) returns (r: Outcome)
      requires id in peers
      modifies this
      ensures Contents() == Put(old(Contents()), id, UpdatePk(old(At(Contents(), id)), c, now, requireJwt, db).0)
      ensures r == UpdatePk(old(At(Contents(), id)), c, now, requireJwt, db).1
    {
      PutSame(Contents(), id);
      SetSame(rows, id);
      if requireJwt && c.token.NoToken? { return ServerError; }
      if c.token.Invalid? { return ServerError; }
      var w := peers[id];
      if c.token.Valid? {
        w := w.(who := w.who.(user := Some(c.token.user), device := Some(c.token.device)));
      }
      w := w.(addr := c.addr, who := w.who.(uuid := c.uuid, pk := c.pk), lastReg := now, ip := c.addr.ip);
      peers := peers[id := w];
      assert w == Claimed(old(peers[id]), c, now);
      if w.guid == NoGuid {
        var guid := InsertPeer(id, w.who, w.ip, db);
        if guid == NoGuid { return ServerError; }
        peers := peers[id := w.(guid := guid)];
        assert peers == old(peers)[id := w.(guid := guid)];
      } else {
        var ok := UpdateRowInPlace(id, w, db.writeOk);
        if !ok { return ServerError; }
      }
      r := Done;
    }
  }
}
