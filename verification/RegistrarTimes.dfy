/** One id over time: where punches are forwarded, how often keys are registered, and that registration converges. */
module RegistrarTimes {
  import opened Text
  import opened Clock
  import opened RateCounter
  import opened Peers
  import opened Registrar
  import opened RegistrarSlots

  // ---- provenance and freshness -----------------------------------------------------------

  datatype Stamp = Stamp(addr: Addr, at: int)

  /**
   * A registration step that was accepted: an answered heartbeat, or a claim that was authorised to change the peer.
   */
  predicate Accepted(k: Config, x: Slot, i: Item) {
    i.Got? && (
      match i.body
      case Heartbeat(_) => SlotStep(k, x, i.now, i.body, i.db).1 == PeerResponse(false)
      case TcpHeartbeat(_) => SlotStep(k, x, i.now, i.body, i.db).1 == PeerResponse(false)
      case RegisterPk(c) =>
        && SlotStep(k, x, i.now, i.body, i.db).1 == PkResponse(Done)
        && Authorised(k.requireJwt, c.token)
        && Changed(LoadOr(x, i.now, k.floor, i.db.readOk).peer.value, c)
      case TcpRegisterPk(c) => Authorised(k.requireJwt, c.token)
      case PunchHole(_, _) => false
      case Lookup => false
    )
  }

  function Source(b: Body): Addr {
    match b
    case Heartbeat(a) => a
    case TcpHeartbeat(a) => a
    case RegisterPk(c) => c.addr
    case TcpRegisterPk(c) => c.addr
    case PunchHole(a, _) => a
    case Lookup => UNKNOWN
  }

  function Note(k: Config, x: Slot, i: Item, last: Option<Stamp>): Option<Stamp> {
    if i.Reboot? then None
    else if Accepted(k, x, i) then Some(Stamp(Source(i.body), i.now))
    else last
  }

  /** The latest accepted registration of a run, in this process. */
  function Latest(k: Config, x: Slot, ms: seq<Item>, last: Option<Stamp>): Option<Stamp>
    decreases ms
  {
    if ms == [] then last else Latest(k, StepSlot(k, x, ms[0]), ms[1..], Note(k, x, ms[0], last))
  }

  function NoteBorn(k: Config, x: Slot, i: Item, born: Option<int>): Option<int> {
    if i.Reboot? then None
    else if x.peer.None? && StepSlot(k, x, i).peer.Some? then Some(i.now)
    else born
  }

  /** When the cache entry was created, in this process. */
  function Born(k: Config, x: Slot, ms: seq<Item>, born: Option<int>): Option<int>
    decreases ms
  {
    if ms == [] then born else Born(k, StepSlot(k, x, ms[0]), ms[1..], NoteBorn(k, x, ms[0], born))
  }

  /** Address and time are those of the latest accepted registration, or the defaults of the entry's creation. */
  predicate Origin(k: Config, x: Slot, born: Option<int>, last: Option<Stamp>) {
    if x.peer.None? then born.None? && last.None? else
    && born.Some?
    && (x.peer.value.addr, x.peer.value.lastReg) ==
      if last.Some? then (last.value.addr, last.value.at) else (UNKNOWN, Expired(born.value, k.floor))
  }

  /** A claim that is not accepted leaves address and time alone. */
  lemma ClaimSets(k: Config, y: Slot, c: Claim, now: int, db: Db)
    requires y.peer.Some?
    ensures var (z, o) := Register(k, y, c, now, db);
      var (p, q) := (y.peer.value, z.peer.value);
      && z.peer.Some?
      && (q.addr, q.lastReg, q.ip) ==
        if o == Done && Changed(p, c) && Authorised(k.requireJwt, c.token) then (c.addr, now, c.addr.ip)
        else (p.addr, p.lastReg, p.ip)
  {
  }

  lemma OriginStep(k: Config, x: Slot, i: Item, born: Option<int>, last: Option<Stamp>)
    requires Origin(k, x, born, last)
    ensures Origin(k, StepSlot(k, x, i), NoteBorn(k, x, i, born), Note(k, x, i, last))
  {
    if i.Got? && i.body.RegisterPk? {
      ClaimSets(k, LoadOr(x, i.now, k.floor, i.db.readOk), i.body.claim, i.now, i.db);
    }
  }

  /** Every run keeps it, over restarts, whatever the clock and the database do. */
  lemma {:induction false} OriginRun(k: Config, x: Slot, ms: seq<Item>, born: Option<int>, last: Option<Stamp>)
    requires Origin(k, x, born, last)
    ensures Origin(k, RunSlot(k, x, ms), Born(k, x, ms, born), Latest(k, x, ms, last))
    decreases ms
  {
    if ms != [] {
      OriginStep(k, x, ms[0], born, last);
      OriginRun(k, StepSlot(k, x, ms[0]), ms[1..], NoteBorn(k, x, ms[0], born), Note(k, x, ms[0], last));
    }
  }

  /** Between these times, if at all. */
  predicate Within(born: Option<int>, last: Option<Stamp>, start: int, now: int) {
    && (born.Some? ==> start <= born.value <= now)
    && (last.Some? ==> start <= last.value.at <= now)
  }

  lemma {:induction false} OriginTimed(k: Config, x: Slot, ms: seq<Item>, born: Option<int>, last: Option<Stamp>,
      start: int, now: int)
    requires Timed(ms, now) && start <= now && Within(born, last, start, now)
    ensures now <= End(ms, now) && Within(Born(k, x, ms, born), Latest(k, x, ms, last), start, End(ms, now))
    decreases ms
  {
    if ms != [] {
      var at := if ms[0].Got? then ms[0].now else now;
      OriginTimed(k, StepSlot(k, x, ms[0]), ms[1..], NoteBorn(k, x, ms[0], born), Note(k, x, ms[0], last), start, at);
    }
  }

  /** The `as i32` cast of an elapsed time, for every elapsed time. */
  lemma CastWraps(x: nat)
    ensures AsI32(x) < REG_TIMEOUT <==> x % TWO32 < REG_TIMEOUT || x % TWO32 >= TWO31
    ensures x < TWO31 ==> AsI32(x) == x
  {
  }

  /** A registration exactly 2^31 ms old counts as fresh again. */
  lemma VeryStaleLooksFresh(p: Peer)
    ensures !Stale(p.lastReg + TWO31, p) && Stale(p.lastReg + TWO31 - 1, p)
  {
  }

  /** The ages the cast takes for fresh. */
  predicate LooksFresh(age: nat) { age % TWO32 < REG_TIMEOUT || age % TWO32 >= TWO31 }

  function Judged(age: nat, to: Addr): Reply { if LooksFresh(age) then Forward(to) else Refused(Offline) }

  /** The time a cached entry is judged by, given when it was created and what was accepted since. */
  function JudgedAt(k: Config, born: int, last: Option<Stamp>): int {
    if last.Some? then last.value.at else Expired(born, k.floor)
  }

  /** The address it is forwarded to. */
  function JudgedTo(last: Option<Stamp>): Addr { if last.Some? then last.value.addr else UNKNOWN }

  lemma StaleByAge(now: int, p: Peer)
    ensures !Stale(now, p) <==> LooksFresh(Elapsed(now, p.lastReg))
  {
    CastWraps(Elapsed(now, p.lastReg));
  }

  /**
   * What a punch is answered, after any run of a fresh process and on any clock. Without an entry or a readable row:
   * ID_NOT_EXIST. Otherwise the age decides, as the cast reads it: of the latest accepted registration, whose address
   * the punch goes to; or, before there is one, of the entry's default, an hour before the entry was created where the
   * clock reaches back that far, and then the punch goes to 0.0.0.0:0.
   */
  lemma ForwardsByAge(k: Config, x: Slot, ms: seq<Item>, now: int, src: Addr, key: string, db: Db)
    requires x.peer.None?
    ensures var y := RunSlot(k, x, ms); var born := Born(k, x, ms, None); var last := Latest(k, x, ms, None);
      var b := if born.Some? then born.value else now;
      SlotStep(k, y, now, PunchHole(src, key), db).1 ==
        if born.None? && (y.row.None? || !db.readOk) then Refused(IdNotExist)
        else Judged(Elapsed(now, JudgedAt(k, b, last)), JudgedTo(last))
  {
    OriginRun(k, x, ms, None, None);
    var z := Load(RunSlot(k, x, ms), now, k.floor, db.readOk);
    if z.peer.Some? { StaleByAge(now, z.peer.value); }
  }

  lemma SmallAges(age: nat)
    ensures age < TWO31 ==> (LooksFresh(age) <==> age < REG_TIMEOUT)
  {
  }

  /**
   * In a run of a fresh process shorter than 2^31 ms, a peer that registered is forwarded to exactly while its latest
   * accepted registration is less than 30 000 ms old, and is OFFLINE otherwise, on any clock. A peer known only from
   * its row or by default is never forwarded to if the process started with an hour of clock behind it and the run is
   * that hour shorter.
   */
  lemma ForwardsFreshOnly(k: Config, x: Slot, ms: seq<Item>, start: int, now: int, src: Addr, key: string, db: Db)
    requires x.peer.None? && Timed(ms, start) && End(ms, start) <= now && now - start < TWO31
    ensures var y := RunSlot(k, x, ms); var last := Latest(k, x, ms, None);
      var r := SlotStep(k, y, now, PunchHole(src, key), db).1;
      && (r == Refused(IdNotExist) <==> y.peer.None? && (y.row.None? || !db.readOk))
      && (last.Some? ==> r == if now - last.value.at < REG_TIMEOUT then Forward(last.value.addr) else Refused(Offline))
      && (last.None? && start - HOUR >= k.floor && now - start + HOUR < TWO31 ==> !r.Forward?)
  {
    ForwardsByAge(k, x, ms, now, src, key, db);
    OriginRun(k, x, ms, None, None);
    OriginTimed(k, x, ms, None, None, start, start);
    var born, last := Born(k, x, ms, None), Latest(k, x, ms, None);
    SmallAges(Elapsed(now, JudgedAt(k, if born.Some? then born.value else now, last)));
  }

  /**
   * A peer that has not registered is OFFLINE exactly when the clock reached back an hour as its entry was created, or
   * that is at least 30 s ago; otherwise the punch is forwarded to 0.0.0.0:0.
   */
  lemma RowOnlyPeer(k: Config, x: Slot, ms: seq<Item>, start: int, now: int, src: Addr, key: string, db: Db)
    requires x.peer.None? && Timed(ms, start) && End(ms, start) <= now && now - start + HOUR < TWO31
    requires Latest(k, x, ms, None).None?
    requires Born(k, x, ms, None).Some? || (RunSlot(k, x, ms).row.Some? && db.readOk)
    ensures var born := Born(k, x, ms, None);
      var b := if born.Some? then born.value else now;
      SlotStep(k, RunSlot(k, x, ms), now, PunchHole(src, key), db).1 ==
        if b - HOUR >= k.floor || now - b >= REG_TIMEOUT then Refused(Offline) else Forward(UNKNOWN)
  {
    ForwardsByAge(k, x, ms, now, src, key, db);
    OriginTimed(k, x, ms, None, None, start, start);
    var born := Born(k, x, ms, None);
    SmallAges(Elapsed(now, Expired(if born.Some? then born.value else now, k.floor)));
  }

  /** An entry created a millisecond before the clock reached back an hour is taken to be online right after. */
  lemma YoungClock(k: Config, r: Row, src: Addr, key: string, db: Db)
    requires k.floor == 0 && db.readOk
    ensures var ms := [Got(HOUR - 1, Registrar.Lookup, db)];
      SlotStep(k, RunSlot(k, Slot(None, Some(r)), ms), HOUR, PunchHole(src, key), db).1 == Forward(UNKNOWN)
  {
    var x := Slot(None, Some(r));
    var i := Got(HOUR - 1, Registrar.Lookup, db);
    assert [i][1..] == [];
    assert RunSlot(k, x, [i]) == StepSlot(k, x, i);
  }

  /** Without that hour: a row loaded at the start is taken to be online at 0.0.0.0:0 before 2^31 ms have passed. */
  lemma DefaultPeerWraps(k: Config, r: Row, start: int, src: Addr, key: string, db: Db)
    requires start - HOUR >= k.floor && db.readOk
    ensures var now := start + TWO31 - HOUR;
      var x, ms := Slot(None, Some(r)), [Got(start, Registrar.Lookup, db)];
      && Latest(k, x, ms, None).None?
      && SlotStep(k, RunSlot(k, x, ms), now, PunchHole(src, key), db).1 == Forward(UNKNOWN)
  {
    var x := Slot(None, Some(r));
    var i := Got(start, Registrar.Lookup, db);
    assert [i][1..] == [];
    assert RunSlot(k, x, [i]) == StepSlot(k, x, i);
    assert Latest(k, x, [i], None) == Note(k, x, i, None);
    CastWraps(TWO31);
  }

  // ---- how often a key is registered ---------------------------------------------------------

  predicate Admitted(k: Config, x: Slot, i: Item) {
    i.Got? && i.body.RegisterPk? && SlotStep(k, x, i.now, i.body, i.db).1 == PkResponse(Done)
  }

  /** The times at which a UDP RegisterPk was answered OK. */
  function AdmittedAt(k: Config, x: Slot, ms: seq<Item>): seq<int>
    decreases ms
  {
    if ms == [] then []
    else if Admitted(k, x, ms[0]) then [ms[0].now] + AdmittedAt(k, StepSlot(k, x, ms[0]), ms[1..])
    else AdmittedAt(k, StepSlot(k, x, ms[0]), ms[1..])
  }

  /** The limiter's counter; a peer not yet in memory will start with an empty one. */
  function CounterOf(x: Slot): Counter { if x.peer.Some? then x.peer.value.regPk else Counter(0, 0) }

  /** One step is one call of the limiter, or leaves it alone. */
  lemma CounterStep(k: Config, x: Slot, i: Item)
    requires i.Got?
    ensures var y := StepSlot(k, x, i);
      if Admitted(k, x, i) then
        && y.peer.Some? && y.peer.value.regPk.at == i.now
        && (x.peer.Some? ==> Pass(REG_LIMIT, CounterOf(x), i.now) == (true, CounterOf(y)))
        && (x.peer.None? ==> CounterOf(y) == Counter(1, i.now))
      else
        && (x.peer.Some? ==> y.peer.Some? && CounterOf(y) == CounterOf(x))
        && (x.peer.None? ==> CounterOf(y).count == 0)
  {
  }

  lemma {:induction false} AdmittedChain(k: Config, x: Slot, ms: seq<Item>)
    requires NoReboot(ms)
    ensures Chain(REG_LIMIT, CounterOf(x), AdmittedAt(k, x, ms))
    decreases ms
  {
    if ms != [] {
      var y := StepSlot(k, x, ms[0]);
      CounterStep(k, x, ms[0]);
      AdmittedChain(k, y, ms[1..]);
      if Admitted(k, x, ms[0]) {
        ChainCons(CounterOf(x), ms[0].now, CounterOf(y), AdmittedAt(k, y, ms[1..]));
      } else if x.peer.None? {
        FreshCounters(REG_LIMIT, CounterOf(y).at, 0, AdmittedAt(k, y, ms[1..]));
      }
    }
  }

  lemma ChainCons(c: Counter, t: int, d: Counter, ts: seq<int>)
    requires Pass(REG_LIMIT, c, t).0 && Chain(REG_LIMIT, d, ts)
    requires d == Pass(REG_LIMIT, c, t).1 || (c.count == 0 && d == Counter(1, t))
    ensures Chain(REG_LIMIT, c, [t] + ts)
  {
    assert ([t] + ts)[1..] == ts;
  }

  lemma {:induction false} AdmittedSorted(k: Config, x: Slot, ms: seq<Item>, from: int)
    requires Timed(ms, from)
    ensures var ts := AdmittedAt(k, x, ms); Sorted(ts) && forall i :: 0 <= i < |ts| ==> from <= ts[i]
    decreases ms
  {
    if ms != [] {
      AdmittedSorted(k, StepSlot(k, x, ms[0]), ms[1..], if ms[0].Got? then ms[0].now else from);
    }
  }

  /** Any four consecutive admitted requests of one process span at least 7 s. */
  lemma FourSpanSevenSeconds(k: Config, x: Slot, ms: seq<Item>, from: int, i: nat)
    requires NoReboot(ms) && Timed(ms, from) && i + 3 < |AdmittedAt(k, x, ms)|
    ensures AdmittedAt(k, x, ms)[i + 3] - AdmittedAt(k, x, ms)[i] >= 7_000
  {
    var ts := AdmittedAt(k, x, ms);
    AdmittedChain(k, x, ms);
    AdmittedSorted(k, x, ms, from);
    var j := QuietAmong(REG_LIMIT, CounterOf(x), ts, i);
    assert ts[i] <= ts[j - 1] && ts[j] <= ts[i + 3];
  }

  /** A window of `w` milliseconds holds at most `3 * (w / 7000 + 1)` admitted requests. */
  lemma AdmittedInWindow(k: Config, x: Slot, ms: seq<Item>, from: int, i: nat, n: nat, t: int, w: nat)
    requires NoReboot(ms) && Timed(ms, from) && InWindow(AdmittedAt(k, x, ms), i, n, t, w)
    ensures n <= 3 * (w / 7_000 + 1)
  {
    AdmittedChain(k, x, ms);
    AdmittedSorted(k, x, ms, from);
    WindowBound(REG_LIMIT, CounterOf(x), AdmittedAt(k, x, ms), i, n, t, w);
  }

  /** The counter in memory carries the time of the last admission. */
  lemma {:induction false} LastAdmission(k: Config, x: Slot, ms: seq<Item>)
    requires NoReboot(ms)
    ensures var ts := AdmittedAt(k, x, ms); var y := RunSlot(k, x, ms);
      && (ts != [] ==> y.peer.Some? && y.peer.value.regPk.at == ts[|ts| - 1])
      && (ts == [] && x.peer.Some? ==> y.peer.Some? && y.peer.value.regPk == x.peer.value.regPk)
    decreases ms
  {
    if ms != [] {
      CounterStep(k, x, ms[0]);
      LastAdmission(k, StepSlot(k, x, ms[0]), ms[1..]);
    }
  }

  /**
   * Refusals in between change nothing for the caller: 7 s after its last admission a peer is let past the limiter
   * again, whatever was refused meanwhile.
   */
  lemma LetThroughAgain(k: Config, x: Slot, ms: seq<Item>, now: int, c: Claim, db: Db)
    requires NoReboot(ms) && AdmittedAt(k, x, ms) != []
    requires now >= AdmittedAt(k, x, ms)[|AdmittedAt(k, x, ms)| - 1] + 7_000
    ensures var y := RunSlot(k, x, ms);
      && y.peer.Some?
      && SlotStep(k, y, now, RegisterPk(c), db).1
           == PkResponse(if Mismatch(y.peer.value, c) then UuidMismatch else Done)
  {
    LastAdmission(k, x, ms);
    RefusalsHarmless(REG_LIMIT, RunSlot(k, x, ms).peer.value.regPk, now, now);
  }

  // ---- registration converges -----------------------------------------------------------------

  /** A source that may move the address without asking for a key. */
  predicate LoopbackSource(i: Item) { i.Got? && !i.body.PunchHole? && Loopback(Source(i.body).ip) }

  predicate Outside(i: Item) { !LoopbackSource(i) && !IsTcpBeat(i) }

  predicate AllOutside(ms: seq<Item>) { forall i :: 0 <= i < |ms| ==> Outside(ms[i]) }

  /** Without loopback sources the address is unknown or the recorded one. */
  predicate AtRecordedIp(x: Slot) {
    x.peer.Some? ==> x.peer.value.addr.port == 0 || x.peer.value.addr.ip == x.peer.value.ip
  }

  lemma {:induction false} AtRecordedIpRun(k: Config, x: Slot, ms: seq<Item>)
    requires AtRecordedIp(x) && AllOutside(ms)
    ensures AtRecordedIp(RunSlot(k, x, ms))
    decreases ms
  {
    if ms != [] {
      AtRecordedIpStep(k, x, ms[0]);
      AtRecordedIpRun(k, StepSlot(k, x, ms[0]), ms[1..]);
    }
  }

  lemma AtRecordedIpStep(k: Config, x: Slot, i: Item)
    requires AtRecordedIp(x) && Outside(i)
    ensures AtRecordedIp(StepSlot(k, x, i))
  {
    if i.Got? && i.body.RegisterPk? {
      ClaimSets(k, LoadOr(x, i.now, k.floor, i.db.readOk), i.body.claim, i.now, i.db);
    }
  }

  /** Registered from this ip: its heartbeats need no key. */
  predicate Settled(x: Slot, ip: string) {
    x.peer.Some? && x.peer.value.who.pk != "" && x.peer.value.ip == ip &&
    (x.peer.value.addr.port == 0 || x.peer.value.addr.ip == ip)
  }

  /** Nothing that moves a settled peer: no reboot, no TCP, no claim from another ip. */
  predicate Undisturbed(i: Item, ip: string) {
    && i.Got? && Outside(i) && Filled(i) && !IsTcpPk(i)
    && (i.body.RegisterPk? ==> i.body.claim.addr.ip == ip)
  }

  predicate AllUndisturbed(ms: seq<Item>, ip: string) { forall i :: 0 <= i < |ms| ==> Undisturbed(ms[i], ip) }

  /** An admitted claim settles the peer, unless a failed token kept a changed claim out. */
  lemma AdmittedSettles(k: Config, x: Slot, i: Item)
    requires AtRecordedIp(x) && Outside(i) && Filled(i) && Admitted(k, x, i)
    requires Changed(LoadOr(x, i.now, k.floor, i.db.readOk).peer.value, i.body.claim) ==>
      Authorised(k.requireJwt, i.body.claim.token)
    ensures Settled(StepSlot(k, x, i), i.body.claim.addr.ip)
  {
  }

  lemma SettledStep(k: Config, x: Slot, i: Item, ip: string)
    requires Settled(x, ip) && Undisturbed(i, ip)
    ensures Settled(StepSlot(k, x, i), ip)
  {
  }

  lemma {:induction false} SettledRun(k: Config, x: Slot, ms: seq<Item>, ip: string)
    requires Settled(x, ip) && AllUndisturbed(ms, ip)
    ensures Settled(RunSlot(k, x, ms), ip)
    decreases ms
  {
    if ms != [] {
      SettledStep(k, x, ms[0], ip);
      SettledRun(k, StepSlot(k, x, ms[0]), ms[1..], ip);
    }
  }

  /**
   * Registration converges: after any run without loopback sources, an admitted claim, and any undisturbed run, a
   * heartbeat from the claim's ip needs no key, refreshes the address, and punches reach it for the next 30 s.
   */
  lemma Converges(k: Config, x: Slot, ms: seq<Item>, i: Item, rest: seq<Item>, now: int, a: Addr, db: Db)
    requires x.peer.None? && AllOutside(ms)
    requires var y := RunSlot(k, x, ms);
      Admitted(k, y, i) && Outside(i) && Filled(i) && i.body.claim.addr.ip == a.ip
      && (Changed(LoadOr(y, i.now, k.floor, i.db.readOk).peer.value, i.body.claim) ==>
            Authorised(k.requireJwt, i.body.claim.token))
    requires AllUndisturbed(rest, a.ip)
    ensures var z := RunSlot(k, StepSlot(k, RunSlot(k, x, ms), i), rest);
      var (w, r) := SlotStep(k, z, now, Heartbeat(a), db);
      && r == PeerResponse(false) && w.peer.Some? && w.peer.value.addr == a && w.peer.value.lastReg == now
      && (forall later, src, key, db' :: now <= later < now + REG_TIMEOUT ==>
            SlotStep(k, w, later, PunchHole(src, key), db').1 == Forward(a))
  {
    AtRecordedIpRun(k, x, ms);
    var y := RunSlot(k, x, ms);
    AdmittedSettles(k, y, i);
    SettledRun(k, StepSlot(k, y, i), rest, a.ip);
  }

  /**
   * Right after any claim that was answered OK, a heartbeat from its outside ip needs no key exactly when the claim was
   * authorised to change the peer, or the peer as it was answers that ip without one.
   */
  lemma ConvergesExactly(k: Config, x: Slot, i: Item, now: int, a: Addr, db: Db)
    requires Admitted(k, x, i) && Filled(i) && i.body.claim.addr.ip == a.ip && !Loopback(a.ip)
    ensures var p := LoadOr(x, i.now, k.floor, i.db.readOk).peer.value; var c := i.body.claim;
      SlotStep(k, StepSlot(k, x, i), now, Heartbeat(a), db).1 == PeerResponse(false) <==>
        (Changed(p, c) && Authorised(k.requireJwt, c.token)) || (p.who.pk != "" && !HeartbeatIpChange(p, a))
  {
  }

  /**
   * When `update_pk` is skipped as unchanged, the next heartbeat from the same outside ip needs no key exactly when
   * the address was unknown or at that ip; a loopback heartbeat in between is what breaks it.
   */
  lemma UnchangedConverges(k: Config, x: Slot, i: Item, now: int, a: Addr, db: Db)
    requires x.peer.Some? && Admitted(k, x, i) && Filled(i) && !Changed(x.peer.value, i.body.claim)
    requires i.body.claim.addr.ip == a.ip && !Loopback(a.ip)
    ensures SlotStep(k, StepSlot(k, x, i), now, Heartbeat(a), db).1 == PeerResponse(false) <==>
      x.peer.value.addr.port == 0 || x.peer.value.addr.ip == a.ip
  {
  }

  /** A claim with a failed token is answered OK like any other, and nothing but the limiter records it. */
  lemma FailedTokenIsSilent(k: Config, x: Slot, i: Item)
    requires Admitted(k, x, i) && !Authorised(k.requireJwt, i.body.claim.token)
    ensures var p := LoadOr(x, i.now, k.floor, i.db.readOk).peer.value; var y := StepSlot(k, x, i);
      y.row == x.row && y.peer.Some? && y.peer == Some(p.(regPk := y.peer.value.regPk))
  {
  }

  /**
   * What a RegisterPk is told: over UDP the answer does not depend on the token or on the writes to the database; over
   * TCP it is OK exactly when the token was in order and the write went through.
   */
  lemma OnlyTcpReportsFailures(k: Config, x: Slot, now: int, c: Claim, t: Token, db: Db, writeOk: bool)
    ensures SlotStep(k, x, now, RegisterPk(c), db).1
         == SlotStep(k, x, now, RegisterPk(c.(token := t)), db.(writeOk := writeOk)).1
    ensures SlotStep(k, x, now, TcpRegisterPk(c), db).1 == PkResponse(Done) <==>
      Authorised(k.requireJwt, c.token) && db.writeOk
  {
  }

  /** A claim refused for its identity or its frequency changes nothing but what looking the peer up loads. */
  lemma RefusedChangesNothing(k: Config, x: Slot, now: int, c: Claim, db: Db)
    requires SlotStep(k, x, now, RegisterPk(c), db).1 != PkResponse(Done)
    ensures SlotStep(k, x, now, RegisterPk(c), db).0 == LoadOr(x, now, k.floor, db.readOk)
  {
  }

  predicate Refuses(k: Config, x: Slot, i: Item) { i.Got? && i.body.RegisterPk? && !Admitted(k, x, i) }

  predicate AllRefused(k: Config, x: Slot, ms: seq<Item>)
    decreases ms
  {
    ms == [] || (Refuses(k, x, ms[0]) && AllRefused(k, StepSlot(k, x, ms[0]), ms[1..]))
  }

  /** However many claims are refused in a row, a cached peer and its row stay as they are. */
  lemma {:induction false} RefusalsLeaveNoTrace(k: Config, x: Slot, ms: seq<Item>)
    requires x.peer.Some? && AllRefused(k, x, ms)
    ensures RunSlot(k, x, ms) == x
    decreases ms
  {
    if ms != [] {
      RefusedChangesNothing(k, x, ms[0].now, ms[0].body.claim, ms[0].db);
      RefusalsLeaveNoTrace(k, x, ms[1..]);
    }
  }

  // ---- when an OK is honoured -----------------------------------------------------------------

  /** The peer in memory carries the claim. */
  predicate Honoured(x: Slot, c: Claim) {
    && x.peer.Some? && x.peer.value.who.uuid == c.uuid && x.peer.value.who.pk == c.pk && x.peer.value.ip == c.addr.ip
  }

  /** And so will the peer read back after a restart. */
  predicate Durable(x: Slot, c: Claim) {
    x.row.Some? && x.row.value.who.uuid == c.uuid && x.row.value.who.pk == c.pk
  }

  /** A RegisterPk answered OK is honoured exactly when its token was in order or there was nothing to change. */
  lemma HonouredExactly(k: Config, x: Slot, i: Item)
    requires Admitted(k, x, i) && Filled(i)
    ensures var p := LoadOr(x, i.now, k.floor, i.db.readOk).peer.value; var c := i.body.claim;
      Honoured(StepSlot(k, x, i), c) <==> Authorised(k.requireJwt, c.token) || !Changed(p, c)
  {
  }

  /** The claim's own write reaches a row that then carries it: a new row, or one it finds by guid with its uuid. */
  predicate WritesRow(k: Config, x: Slot, i: Item)
    requires i.Got? && i.body.RegisterPk?
  {
    var p := LoadOr(x, i.now, k.floor, i.db.readOk).peer.value; var c := i.body.claim;
    && Authorised(k.requireJwt, c.token) && Changed(p, c) && i.db.writeOk
    && (p.guid == NoGuid ||
        (x.row.Some? && p.guid == Guid(x.row.value.guid) && x.row.value.who.uuid == c.uuid))
  }

  /**
   * It outlasts the process exactly when the row carried uuid and key already, or the claim's own write reaches it; the
   * ip never does. A claim that changes nothing in memory writes nothing, whether or not the row ever got there.
   */
  lemma DurableExactly(k: Config, x: Slot, i: Item)
    requires Admitted(k, x, i) && Filled(i)
    ensures Durable(StepSlot(k, x, i), i.body.claim) <==> Durable(x, i.body.claim) || WritesRow(k, x, i)
  {
  }

  /** Where cache and row agree and the peer could be read, good token and write are enough. */
  lemma DurableWhenAgreed(k: Config, x: Slot, i: Item)
    requires Admitted(k, x, i) && Filled(i) && i.db.readOk && Agrees(x) && SameUuid(x)
    ensures var p := LoadOr(x, i.now, k.floor, true).peer.value; var c := i.body.claim;
      Durable(StepSlot(k, x, i), c) <==>
        (Authorised(k.requireJwt, c.token) && i.db.writeOk) || (p.who.uuid == c.uuid && p.who.pk == c.pk)
  {
    AgreesLoad(x, i.now, k.floor);
  }

  /**
   * After a failed write the retry is not honoured: the claim is in memory, the same claim again changes nothing, so
   * `update_pk` is skipped and the OK comes with good token, read and write, and without a row.
   */
  lemma RetryIsNotDurable(k: Config, now: int, c: Claim, guid: nat)
    requires Authorised(k.requireJwt, c.token) && c.uuid != "" && c.pk != ""
    ensures var i := Got(now, RegisterPk(c), Db(true, false, guid));
      var j := Got(now, RegisterPk(c), Db(true, true, guid));
      var x := StepSlot(k, Slot(None, None), i);
      && Admitted(k, Slot(None, None), i) && Honoured(x, c) && Admitted(k, x, j)
      && Honoured(StepSlot(k, x, j), c) && StepSlot(k, x, j).row.None?
  {
  }

  /** What a restart reads back is what the row carries. */
  lemma DurableIsReadBack(x: Slot, c: Claim, now: int, floor: int)
    ensures Durable(x, c) <==>
      var y := Load(Slot(None, x.row), now, floor, true);
      y.peer.Some? && y.peer.value.who.uuid == c.uuid && y.peer.value.who.pk == c.pk
  {
  }
}
