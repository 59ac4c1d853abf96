/** One id's life in the registrar: everything that happens to its cache entry and its row. */
module RegistrarSlots {
  import opened Text
  import opened RateCounter
  import opened Peers
  import opened Registrar

  datatype Item = Reboot | Got(now: int, body: Body, db: Db)

  function StepSlot(k: Config, x: Slot, i: Item): Slot {
    if i.Reboot? then Slot(None, x.row) else SlotStep(k, x, i.now, i.body, i.db).0
  }

  function RunSlot(k: Config, x: Slot, ms: seq<Item>): Slot
    decreases ms
  {
    if ms == [] then x else RunSlot(k, StepSlot(k, x, ms[0]), ms[1..])
  }

  /** Times never go back. */
  predicate Timed(ms: seq<Item>, from: int)
    decreases ms
  {
    ms == [] ||
    (if ms[0].Got? then from <= ms[0].now && Timed(ms[1..], ms[0].now) else Timed(ms[1..], from))
  }

  /** The time of the last message, or `from`. */
  function End(ms: seq<Item>, from: int): int
    decreases ms
  {
    if ms == [] then from else End(ms[1..], if ms[0].Got? then ms[0].now else from)
  }

  predicate NoReboot(ms: seq<Item>) { forall i :: 0 <= i < |ms| ==> ms[i].Got? }

  predicate IsTcpPk(i: Item) { i.Got? && i.body.TcpRegisterPk? }

  predicate NoTcpPk(ms: seq<Item>) { forall i :: 0 <= i < |ms| ==> !IsTcpPk(ms[i]) }

  predicate IsTcpBeat(i: Item) { i.Got? && i.body.TcpHeartbeat? }

  predicate NoTcpBeat(ms: seq<Item>) { forall i :: 0 <= i < |ms| ==> !IsTcpBeat(ms[i]) }

  predicate DbGood(i: Item) { i.Got? ==> i.db.readOk && i.db.writeOk }

  predicate DbOk(ms: seq<Item>) { forall i :: 0 <= i < |ms| ==> DbGood(ms[i]) }

  /** The UDP handler only looks at claims that carry a uuid and a key. */
  predicate Filled(i: Item) { i.Got? && i.body.RegisterPk? ==> i.body.claim.uuid != "" && i.body.claim.pk != "" }

  predicate Gated(ms: seq<Item>) { forall i :: 0 <= i < |ms| ==> Filled(ms[i]) }

  // ---- the cache agrees with the table ---------------------------------------------------

  predicate Matches(p: Peer, r: Row) {
    p.guid == Guid(r.guid) && p.who.pk == r.who.pk && p.who.user == r.who.user && p.who.device == r.who.device
  }

  /** A peer with a guid matches its row; one without has no row and carries nothing. */
  predicate Agrees(x: Slot) {
    x.peer.Some? ==>
      if x.peer.value.guid == NoGuid then x.row.None? && x.peer.value.who == NOBODY
      else x.row.Some? && Matches(x.peer.value, x.row.value)
  }

  /** Rows carry a uuid, and it is the one in memory. */
  predicate SameUuid(x: Slot) {
    x.row.Some? ==> x.row.value.who.uuid != "" && (x.peer.Some? ==> x.peer.value.who.uuid == x.row.value.who.uuid)
  }

  lemma AgreesLoad(x: Slot, now: int, floor: int)
    requires Agrees(x)
    ensures Agrees(Load(x, now, floor, true)) && Agrees(LoadOr(x, now, floor, true))
  {
  }

  lemma AgreesUpdate(x: Slot, c: Claim, now: int, requireJwt: bool, db: Db)
    requires Agrees(x) && x.peer.Some? && db.writeOk
    ensures Agrees(UpdatePk(x, c, now, requireJwt, db).0)
  {
  }

  lemma AgreesStep(k: Config, x: Slot, i: Item)
    requires Agrees(x) && DbGood(i)
    ensures Agrees(StepSlot(k, x, i))
  {
    if i.Got? {
      AgreesLoad(x, i.now, k.floor);
      var y := LoadOr(x, i.now, k.floor, true);
      if i.body.RegisterPk? {
        var (_, n) := Pass(REG_LIMIT, y.peer.value.regPk, i.now);
        AgreesUpdate(Slot(Some(y.peer.value.(regPk := n)), y.row), i.body.claim, i.now, k.requireJwt, i.db);
      } else if i.body.TcpRegisterPk? {
        AgreesUpdate(y, i.body.claim, i.now, k.requireJwt, i.db);
      }
    }
  }

  lemma SameUuidStep(k: Config, x: Slot, i: Item)
    requires Agrees(x) && SameUuid(x) && DbGood(i) && Filled(i) && !IsTcpPk(i)
    ensures SameUuid(StepSlot(k, x, i))
  {
  }

  /** While database operations succeed, a cached peer matches its row after every step of every run. */
  lemma {:induction false} AgreesRun(k: Config, x: Slot, ms: seq<Item>)
    requires Agrees(x) && DbOk(ms)
    ensures Agrees(RunSlot(k, x, ms))
    decreases ms
  {
    if ms != [] {
      AgreesStep(k, x, ms[0]);
      AgreesRun(k, StepSlot(k, x, ms[0]), ms[1..]);
    }
  }

  /** And on the uuid as well, in runs without a TCP RegisterPk. */
  lemma {:induction false} SameUuidRun(k: Config, x: Slot, ms: seq<Item>)
    requires Agrees(x) && SameUuid(x) && DbOk(ms) && Gated(ms) && NoTcpPk(ms)
    ensures SameUuid(RunSlot(k, x, ms))
    decreases ms
  {
    if ms != [] {
      AgreesStep(k, x, ms[0]);
      SameUuidStep(k, x, ms[0]);
      SameUuidRun(k, StepSlot(k, x, ms[0]), ms[1..]);
    }
  }

  /** Dropping an entry and reloading it gives back its guid, key, user and device, and its uuid where rows have it. */
  lemma ReloadChangesNothing(x: Slot, now: int, floor: int)
    requires Agrees(x) && x.peer.Some? && x.peer.value.guid != NoGuid
    ensures var y := Load(Slot(None, x.row), now, floor, true);
      && y.peer.Some? && y.row == x.row && Agrees(y)
      && y.peer.value.guid == x.peer.value.guid
      && y.peer.value.who == x.peer.value.who.(uuid := x.row.value.who.uuid)
      && (SameUuid(x) ==> y.peer.value.who == x.peer.value.who)
  {
  }

  /**
   * A TCP RegisterPk on a known id splits cache and row exactly when it brings another uuid; a reload brings the old
   * one back.
   */
  lemma TcpSplitsUuid(k: Config, x: Slot, now: int, c: Claim, db: Db)
    requires Agrees(x) && SameUuid(x) && x.row.Some? && (x.peer.Some? || db.readOk)
    requires Authorised(k.requireJwt, c.token) && db.writeOk
    ensures var y := StepSlot(k, x, Got(now, TcpRegisterPk(c), db));
      && y.peer.Some? && y.row.Some?
      && y.peer.value.who.uuid == c.uuid && y.row.value.who.uuid == x.row.value.who.uuid
      && (SameUuid(y) <==> c.uuid == x.row.value.who.uuid)
  {
  }

  /**
   * A claim that leaves cache and row with different uuids, or a row without one. Over UDP it has to find a known id
   * outside memory and its row unreadable. It is then split unless it is authorised and either writes its own row or
   * brings the row's uuid. Over TCP any other uuid that is not inserted splits as well.
   */
  predicate Splits(k: Config, x: Slot, i: Item) {
    i.Got? && (i.body.RegisterPk? || i.body.TcpRegisterPk?) &&
    var c := i.body.claim;
    var p := LoadOr(x, i.now, k.floor, i.db.readOk).peer.value;
    var unread := x.peer.None? && x.row.Some? && !i.db.readOk;
    if i.body.RegisterPk? && !unread then false
    else if !Authorised(k.requireJwt, c.token) then unread
    else if i.db.writeOk && p.guid == NoGuid then c.uuid == ""
    else x.row.Some? && c.uuid != x.row.value.who.uuid
  }

  lemma SplitStep(k: Config, x: Slot, i: Item)
    requires SameUuid(x) && Filled(i)
    ensures SameUuid(StepSlot(k, x, i)) <==> !Splits(k, x, i)
  {
  }

  predicate StaysSame(k: Config, x: Slot, ms: seq<Item>)
    decreases ms
  {
    SameUuid(x) && (ms == [] || StaysSame(k, StepSlot(k, x, ms[0]), ms[1..]))
  }

  predicate NeverSplit(k: Config, x: Slot, ms: seq<Item>)
    decreases ms
  {
    ms == [] || (!Splits(k, x, ms[0]) && NeverSplit(k, StepSlot(k, x, ms[0]), ms[1..]))
  }

  /** Cache and row keep the same uuid exactly if no claim splits them, whatever the database does. */
  lemma {:induction false} SameUuidExactly(k: Config, x: Slot, ms: seq<Item>)
    requires SameUuid(x) && Gated(ms)
    ensures StaysSame(k, x, ms) <==> NeverSplit(k, x, ms)
    decreases ms
  {
    if ms != [] {
      SplitStep(k, x, ms[0]);
      if !Splits(k, x, ms[0]) { SameUuidExactly(k, StepSlot(k, x, ms[0]), ms[1..]); }
    }
  }

  /** While database operations succeed, only a TCP RegisterPk with another uuid, or with none for a new row, splits. */
  lemma OnlyTcpSplits(k: Config, x: Slot, i: Item)
    requires Agrees(x) && SameUuid(x) && DbGood(i) && Filled(i)
    ensures Splits(k, x, i) <==>
      && IsTcpPk(i) && Authorised(k.requireJwt, i.body.claim.token)
      && if x.row.Some? then i.body.claim.uuid != x.row.value.who.uuid else i.body.claim.uuid == ""
  {
    if i.Got? { AgreesLoad(x, i.now, k.floor); }
  }

  // ---- pinning ---------------------------------------------------------------------

  function GuidOf(x: Slot): Guid {
    if x.peer.Some? then x.peer.value.guid else if x.row.Some? then Guid(x.row.value.guid) else NoGuid
  }

  function UuidOf(x: Slot): Bytes {
    if x.peer.Some? then x.peer.value.who.uuid else if x.row.Some? then x.row.value.who.uuid else ""
  }

  lemma GuidStep(k: Config, x: Slot, i: Item)
    requires Agrees(x) && DbGood(i) && GuidOf(x) != NoGuid
    ensures GuidOf(StepSlot(k, x, i)) == GuidOf(x)
  {
  }

  /** A guid, once drawn, never changes, over restarts too. */
  lemma {:induction false} GuidPinned(k: Config, x: Slot, ms: seq<Item>)
    requires Agrees(x) && DbOk(ms) && GuidOf(x) != NoGuid
    ensures GuidOf(RunSlot(k, x, ms)) == GuidOf(x)
    decreases ms
  {
    if ms != [] {
      AgreesStep(k, x, ms[0]);
      GuidStep(k, x, ms[0]);
      GuidPinned(k, StepSlot(k, x, ms[0]), ms[1..]);
    }
  }

  lemma UuidStep(k: Config, x: Slot, i: Item)
    requires Agrees(x) && SameUuid(x) && DbGood(i) && Filled(i) && !IsTcpPk(i) && UuidOf(x) != ""
    ensures UuidOf(StepSlot(k, x, i)) == UuidOf(x)
  {
  }

  /** A uuid never changes over UDP, restarts included, while database operations succeed. */
  lemma {:induction false} UuidPinned(k: Config, x: Slot, ms: seq<Item>)
    requires Agrees(x) && SameUuid(x) && DbOk(ms) && Gated(ms) && NoTcpPk(ms) && UuidOf(x) != ""
    ensures UuidOf(RunSlot(k, x, ms)) == UuidOf(x)
    decreases ms
  {
    if ms != [] {
      AgreesStep(k, x, ms[0]);
      SameUuidStep(k, x, ms[0]);
      UuidStep(k, x, ms[0]);
      UuidPinned(k, StepSlot(k, x, ms[0]), ms[1..]);
    }
  }

  /** Within one process, a uuid in memory never changes over UDP, however the database behaves. */
  lemma {:induction false} UuidPinnedInMemory(k: Config, x: Slot, ms: seq<Item>)
    requires x.peer.Some? && x.peer.value.who.uuid != "" && NoReboot(ms) && NoTcpPk(ms)
    ensures var y := RunSlot(k, x, ms); y.peer.Some? && y.peer.value.who.uuid == x.peer.value.who.uuid
    decreases ms
  {
    if ms != [] {
      UuidPinnedInMemory(k, StepSlot(k, x, ms[0]), ms[1..]);
    }
  }

  /** A RegisterPk that reaches a known id outside memory while its row cannot be read. */
  predicate Blind(x: Slot, i: Item) {
    i.Got? && i.body.RegisterPk? && x.peer.None? && x.row.Some? && !i.db.readOk
  }

  /** A blind step does no harm only if its claim is authorised and brings the very same uuid. */
  predicate TakesOver(k: Config, x: Slot, i: Item, u: Bytes) {
    Blind(x, i) && !(Authorised(k.requireJwt, i.body.claim.token) && i.body.claim.uuid == u)
  }

  /** What a UDP step does to a known uuid: it is lost exactly by a blind step that takes over, however writes go. */
  lemma FailedReadUnpins(k: Config, x: Slot, i: Item)
    requires i.Got? && Filled(i) && !IsTcpPk(i) && UuidOf(x) != ""
    ensures UuidOf(StepSlot(k, x, i)) == UuidOf(x) <==> !TakesOver(k, x, i, UuidOf(x))
  {
  }

  /** The uuid stays at every point of the run. */
  predicate Stays(k: Config, x: Slot, ms: seq<Item>, u: Bytes)
    decreases ms
  {
    UuidOf(x) == u && (ms == [] || Stays(k, StepSlot(k, x, ms[0]), ms[1..], u))
  }

  /** No step of the run takes over. */
  predicate NoTakeover(k: Config, x: Slot, ms: seq<Item>, u: Bytes)
    decreases ms
  {
    ms == [] || (!TakesOver(k, x, ms[0], u) && NoTakeover(k, StepSlot(k, x, ms[0]), ms[1..], u))
  }

  /** Within one process a known uuid stays through a UDP run exactly when no step takes over, however writes go. */
  lemma {:induction false} PinnedExactly(k: Config, x: Slot, ms: seq<Item>)
    requires NoReboot(ms) && NoTcpPk(ms) && Gated(ms) && UuidOf(x) != ""
    ensures Stays(k, x, ms, UuidOf(x)) <==> NoTakeover(k, x, ms, UuidOf(x))
    decreases ms
  {
    if ms != [] {
      FailedReadUnpins(k, x, ms[0]);
      if !TakesOver(k, x, ms[0], UuidOf(x)) {
        PinnedExactly(k, StepSlot(k, x, ms[0]), ms[1..]);
      } else if ms[1..] == [] {
        assert !Stays(k, StepSlot(k, x, ms[0]), ms[1..], UuidOf(x));
      }
    }
  }

  /** A step after which a known uuid is gone: it takes over, or is a restart while the row does not carry the uuid. */
  predicate Loses(k: Config, x: Slot, i: Item, u: Bytes) {
    TakesOver(k, x, i, u) || (i.Reboot? && !(x.row.Some? && x.row.value.who.uuid == u))
  }

  predicate NeverLoses(k: Config, x: Slot, ms: seq<Item>, u: Bytes)
    decreases ms
  {
    ms == [] || (!Loses(k, x, ms[0], u) && NeverLoses(k, StepSlot(k, x, ms[0]), ms[1..], u))
  }

  lemma LosesStep(k: Config, x: Slot, i: Item)
    requires Filled(i) && !IsTcpPk(i) && UuidOf(x) != ""
    ensures UuidOf(StepSlot(k, x, i)) == UuidOf(x) <==> !Loses(k, x, i, UuidOf(x))
  {
    if i.Got? { FailedReadUnpins(k, x, i); }
  }

  /** Any known uuid, in memory only or in the table, stays through any UDP run exactly when no step loses it. */
  lemma {:induction false} StaysExactly(k: Config, x: Slot, ms: seq<Item>)
    requires NoTcpPk(ms) && Gated(ms) && UuidOf(x) != ""
    ensures Stays(k, x, ms, UuidOf(x)) <==> NeverLoses(k, x, ms, UuidOf(x))
    decreases ms
  {
    if ms != [] {
      LosesStep(k, x, ms[0]);
      if !Loses(k, x, ms[0], UuidOf(x)) {
        StaysExactly(k, StepSlot(k, x, ms[0]), ms[1..]);
      } else {
        HeadStays(k, StepSlot(k, x, ms[0]), ms[1..], UuidOf(x));
      }
    }
  }

  lemma HeadStays(k: Config, x: Slot, ms: seq<Item>, u: Bytes)
    ensures Stays(k, x, ms, u) ==> UuidOf(x) == u
  {
  }

  /** The row carries this uuid, and so does the entry in memory, if there is one. */
  predicate Rooted(x: Slot, u: Bytes) {
    x.row.Some? && x.row.value.who.uuid == u && (x.peer.Some? ==> x.peer.value.who.uuid == u)
  }

  predicate StaysRooted(k: Config, x: Slot, ms: seq<Item>, u: Bytes)
    decreases ms
  {
    Rooted(x, u) && (ms == [] || StaysRooted(k, StepSlot(k, x, ms[0]), ms[1..], u))
  }

  lemma RootedStep(k: Config, x: Slot, i: Item, u: Bytes)
    requires Filled(i) && !IsTcpPk(i) && u != "" && Rooted(x, u)
    ensures Rooted(StepSlot(k, x, i), u) <==> !TakesOver(k, x, i, u)
  {
  }

  /**
   * Over restarts too: a uuid in the table stays, in row and memory, through a UDP run exactly when no step takes
   * over, whatever other reads and writes fail.
   */
  lemma {:induction false} RootedExactly(k: Config, x: Slot, ms: seq<Item>, u: Bytes)
    requires NoTcpPk(ms) && Gated(ms) && u != "" && Rooted(x, u)
    ensures StaysRooted(k, x, ms, u) <==> NoTakeover(k, x, ms, u)
    decreases ms
  {
    if ms != [] {
      RootedStep(k, x, ms[0], u);
      if !TakesOver(k, x, ms[0], u) { RootedExactly(k, StepSlot(k, x, ms[0]), ms[1..], u); }
    }
  }

  /**
   * A takeover need not come from the claim whose read failed: an unauthorised claim leaves a default entry, and the
   * next claim, with good reads and writes, owns memory and row.
   */
  lemma LaterClaimTakesOver(k: Config, r: Row, now: int, c: Claim, d: Claim, guid: nat)
    requires !Authorised(k.requireJwt, c.token) && Authorised(k.requireJwt, d.token)
    requires c.uuid != "" && c.pk != "" && d.uuid !in ["", r.who.uuid] && d.pk != ""
    ensures var y := StepSlot(k, Slot(None, Some(r)), Got(now, RegisterPk(c), Db(false, true, guid)));
      var z := StepSlot(k, y, Got(now, RegisterPk(d), Db(true, true, guid)));
      z.peer.Some? && z.peer.value.who.uuid == d.uuid && z.row.Some? && z.row.value.who.uuid == d.uuid
  {
  }

  // ---- the key recorded with a uuid -----------------------------------------------------

  function PkOf(x: Slot): Bytes {
    if x.peer.Some? then x.peer.value.who.pk else if x.row.Some? then x.row.value.who.pk else ""
  }

  /** The ip recorded in memory; a reload loses it. */
  function RecordedIp(x: Slot): string { if x.peer.Some? then x.peer.value.ip else "" }

  /**
   * A key recorded with a uuid changes over UDP only on a claim with that uuid, from the recorded ip; so right after a
   * restart, with the row readable, it does not change at all, as no source prints as the empty address.
   */
  lemma KeyChangesFromRecordedIp(k: Config, x: Slot, i: Item)
    requires UuidOf(x) != "" && i.Got? && !IsTcpPk(i) && !Blind(x, i)
    ensures var y := StepSlot(k, x, i);
      PkOf(y) != PkOf(x) ==>
        && i.body.RegisterPk? && i.body.claim.addr.ip == RecordedIp(x)
        && i.body.claim.uuid == UuidOf(x) && i.body.claim.pk == PkOf(y)
  {
  }

  /**
   * A step that changes the uuid or key of a known id. A claim that finds the id's row unreadable does unless it is
   * authorised and brings both; any other claim does exactly if it is answered OK, authorised, from the recorded ip
   * and with another key; a restart does unless the row carries both.
   */
  predicate Alters(k: Config, x: Slot, i: Item) {
    if i.Reboot? then !(x.row.Some? && x.row.value.who.uuid == UuidOf(x) && x.row.value.who.pk == PkOf(x))
    else if !i.body.RegisterPk? then false
    else
      var c := i.body.claim;
      if Blind(x, i) then !(Authorised(k.requireJwt, c.token) && c.uuid == UuidOf(x) && c.pk == PkOf(x))
      else
        && SlotStep(k, x, i.now, i.body, i.db).1 == PkResponse(Done) && Authorised(k.requireJwt, c.token)
        && c.addr.ip == RecordedIp(x) && c.pk != PkOf(x)
  }

  lemma AltersStep(k: Config, x: Slot, i: Item)
    requires Filled(i) && !IsTcpPk(i) && UuidOf(x) != ""
    ensures var y := StepSlot(k, x, i); UuidOf(y) == UuidOf(x) && PkOf(y) == PkOf(x) <==> !Alters(k, x, i)
  {
  }

  /** Uuid and key stay at every point of the run. */
  predicate IdentityStays(k: Config, x: Slot, ms: seq<Item>, u: Bytes, p: Bytes)
    decreases ms
  {
    UuidOf(x) == u && PkOf(x) == p && (ms == [] || IdentityStays(k, StepSlot(k, x, ms[0]), ms[1..], u, p))
  }

  predicate NeverAltered(k: Config, x: Slot, ms: seq<Item>)
    decreases ms
  {
    ms == [] || (!Alters(k, x, ms[0]) && NeverAltered(k, StepSlot(k, x, ms[0]), ms[1..]))
  }

  lemma HeadIdentity(k: Config, x: Slot, ms: seq<Item>, u: Bytes, p: Bytes)
    ensures IdentityStays(k, x, ms, u, p) ==> UuidOf(x) == u && PkOf(x) == p
  {
  }

  /** A known id keeps its uuid and key throughout a UDP run, over restarts, exactly when no step alters them. */
  lemma {:induction false} IdentityExactly(k: Config, x: Slot, ms: seq<Item>)
    requires NoTcpPk(ms) && Gated(ms) && UuidOf(x) != ""
    ensures IdentityStays(k, x, ms, UuidOf(x), PkOf(x)) <==> NeverAltered(k, x, ms)
    decreases ms
  {
    if ms != [] {
      AltersStep(k, x, ms[0]);
      if !Alters(k, x, ms[0]) {
        IdentityExactly(k, StepSlot(k, x, ms[0]), ms[1..]);
      } else {
        HeadIdentity(k, StepSlot(k, x, ms[0]), ms[1..], UuidOf(x), PkOf(x));
      }
    }
  }

  /** Every claim of the run comes from an ip other than the one recorded when it arrives. */
  predicate Elsewhere(k: Config, x: Slot, ms: seq<Item>)
    decreases ms
  {
    ms == [] || (
      && (ms[0].Got? && ms[0].body.RegisterPk? ==> ms[0].body.claim.addr.ip != RecordedIp(x) && !Blind(x, ms[0]))
      && Elsewhere(k, StepSlot(k, x, ms[0]), ms[1..]))
  }

  /** Claims from elsewhere never change a key recorded with a uuid, over any UDP run of one process. */
  lemma {:induction false} KeyPinned(k: Config, x: Slot, ms: seq<Item>)
    requires NoReboot(ms) && NoTcpPk(ms) && Gated(ms) && UuidOf(x) != "" && Elsewhere(k, x, ms)
    ensures var y := RunSlot(k, x, ms); PkOf(y) == PkOf(x) && UuidOf(y) == UuidOf(x)
    decreases ms
  {
    if ms != [] {
      KeyChangesFromRecordedIp(k, x, ms[0]);
      FailedReadUnpins(k, x, ms[0]);
      KeyPinned(k, StepSlot(k, x, ms[0]), ms[1..]);
    }
  }

  // ---- where the address may point -----------------------------------------------------

  predicate AddrOk(p: Peer) { p.addr.port == 0 || p.addr.ip == p.ip || Loopback(p.addr.ip) }

  predicate AddrFits(x: Slot) { x.peer.Some? ==> AddrOk(x.peer.value) }

  lemma AddrFitsStep(k: Config, x: Slot, i: Item)
    requires AddrFits(x) && !IsTcpBeat(i)
    ensures AddrFits(StepSlot(k, x, i))
  {
  }

  /** In runs without a TCP RegisterPeer, an address has port 0, or the recorded ip, or a loopback ip. */
  lemma {:induction false} AddrFitsRun(k: Config, x: Slot, ms: seq<Item>)
    requires AddrFits(x) && NoTcpBeat(ms)
    ensures AddrFits(RunSlot(k, x, ms))
    decreases ms
  {
    if ms != [] {
      AddrFitsStep(k, x, ms[0]);
      AddrFitsRun(k, StepSlot(k, x, ms[0]), ms[1..]);
    }
  }

  /** A TCP RegisterPeer breaks this exactly when it reaches a keyed peer whose port is 0, from another outside ip. */
  lemma TcpHeartbeatMoves(k: Config, x: Slot, now: int, a: Addr, db: Db)
    requires AddrFits(x)
    ensures !AddrFits(StepSlot(k, x, Got(now, TcpHeartbeat(a), db))) <==>
      x.peer.Some? && x.peer.value.who.pk != "" && x.peer.value.addr.port == 0
      && a.port != 0 && a.ip != x.peer.value.ip && !Loopback(a.ip)
  {
  }

  /** A TCP RegisterPeer that takes a keyed peer with port 0 to another outside ip. */
  predicate Moves(x: Slot, i: Item) {
    && IsTcpBeat(i) && x.peer.Some? && x.peer.value.who.pk != "" && x.peer.value.addr.port == 0
    && i.body.addr.port != 0 && i.body.addr.ip != x.peer.value.ip && !Loopback(i.body.addr.ip)
  }

  predicate StaysFitting(k: Config, x: Slot, ms: seq<Item>)
    decreases ms
  {
    AddrFits(x) && (ms == [] || StaysFitting(k, StepSlot(k, x, ms[0]), ms[1..]))
  }

  predicate NeverMoved(k: Config, x: Slot, ms: seq<Item>)
    decreases ms
  {
    ms == [] || (!Moves(x, ms[0]) && NeverMoved(k, StepSlot(k, x, ms[0]), ms[1..]))
  }

  /** The address invariant holds throughout a run exactly if no TCP RegisterPeer moves the peer. */
  lemma {:induction false} AddrFitsExactly(k: Config, x: Slot, ms: seq<Item>)
    requires AddrFits(x)
    ensures StaysFitting(k, x, ms) <==> NeverMoved(k, x, ms)
    decreases ms
  {
    if ms != [] {
      if IsTcpBeat(ms[0]) {
        TcpHeartbeatMoves(k, x, ms[0].now, ms[0].body.addr, ms[0].db);
      } else {
        AddrFitsStep(k, x, ms[0]);
      }
      if !Moves(x, ms[0]) { AddrFitsExactly(k, StepSlot(k, x, ms[0]), ms[1..]); }
    }
  }

  predicate OnlyHeartbeats(ms: seq<Item>) { forall i :: 0 <= i < |ms| ==> ms[i].Got? && ms[i].body.Heartbeat? }

  /** Heartbeats alone never move a peer to an outside ip other than its recorded one, which they leave as it is. */
  lemma {:induction false} HeartbeatsStay(k: Config, x: Slot, ms: seq<Item>)
    requires x.peer.Some? && AddrFits(x) && OnlyHeartbeats(ms)
    ensures var y := RunSlot(k, x, ms);
      && y.row == x.row && y.peer.Some? && y.peer.value.ip == x.peer.value.ip && y.peer.value.who == x.peer.value.who
      && (y.peer.value.addr.port == 0 || y.peer.value.addr.ip == x.peer.value.ip || Loopback(y.peer.value.addr.ip))
    decreases ms
  {
    if ms != [] {
      AddrFitsStep(k, x, ms[0]);
      HeartbeatsStay(k, StepSlot(k, x, ms[0]), ms[1..]);
    }
  }
}
