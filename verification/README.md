# Verified model of the rendezvous and relay server

A Dafny model of the parts of this server whose guarantees are about whole runs while the code only makes local
checks, with proofs of those guarantees. `dafny verify dfyconfig.toml` checks everything.

- **Registrar** (`Peers`, `Registrar`, `RegistrarSlots`, `RegistrarTimes`, `RegistrarRuns`, `RegistrarAnswers`).
  RegisterPeer, RegisterPk, PunchHoleRequest and restarts as a timed state machine over a cache and the `peer` table, with
  database failures and tokens as inputs. The handlers are methods on objects, each proved equal to one step of the
  machine. Every run of the server, seen from one id, is a run of that id's entry and row (`Projects`), so results are
  proved for one id and carried over to the server. `RegistrarAnswers` says what every message is answered and what it
  writes, on the fields and the numbers alone.
- **Limiters and logs** (`Clock`, `RateCounter`, `IpBlocker`, `PunchLog`). One counter discipline behind both limiters,
  with burst and sliding-window bounds; the daily id set; the de-duplicated punch log.
- **Concurrency** (`RelayPairing`, `RelaySections`, `ParkedSinks`). The relay's pairing table and the coordinator's parked
  reply sinks, with every lock acquisition a step of its own, over every interleaving of any number of connections.
- **Relay loop** (`RelayMeter`, `RelayWindows`). Forwarding, metering with floor division, and the downgrade latch; and the
  loop read off its turns: windows that tile the run, reports, charges and ends.
- **Files** (`Text`, `ConfigLines`, `ConfigText`, `ConfigFlat`, `ConfigEdit`, `ConfigTheorems`, `ConfigReaders`,
  `HbbrEnv`, `IpList`, `IpListReaders`). Rust's string operations with their white-space and line rules, the two
  structure-preserving editors, the readers on both sides, and the ip lists.
- **Small protocols** (`OnlineBitmap`, `OnlineRuns`, `RelayRotation`, `Orders`, `OrderTables`).

Time is an integer clock in milliseconds (seconds in `Orders`); `elapsed()` is zero rather than negative.

## What turned out otherwise

Where a promise does not hold of the code as written, the code is kept, a lemma gives an input or a whole family of
inputs that shows it, and the exact condition is proved.

- Editing a file twice differs from editing it once if, and only if, an untouched line ends in a carriage return after
  its line ending is removed (`EditTwice`, `EditFlatTwice`; inputs in `SecondEditDiffers`, `SecondFlatEditDiffers`).
- `as_millis() as i32` makes a registration 2^31 ms old look fresh (`VeryStaleLooksFresh`). As default peers start out an
  hour old, the bound for peers that have not registered is an hour shorter (`DefaultPeerWraps`); and where the clock
  cannot reach back an hour when such a peer's entry is created, it is taken to be online at 0.0.0.0:0 for 30 s
  (`YoungClock`, exactly in `UnregisteredPeers`). `PunchesGoByAge` has the answer for every run, clock and age.
- Pinning depends on reading the row of every id outside memory: a claim whose read fails takes over, or opens the way
  for the next one (`FailedReadUnpins`, `LaterClaimTakesOver`; exactly in `KnownExactly`). A uuid that is only in memory
  after a failed write is lost by the next restart without any takeover (exactly in `UuidKeptExactly`, with the key in
  `IdentityKeptExactly`). A TCP RegisterPk leaves cache and row with different uuids (`TcpSplitsUuid`, exactly in
  `OneUuidExactly`) and a TCP RegisterPeer moves a peer with port 0 anywhere (`TcpHeartbeatMoves`, exactly in
  `AddressExactly`).
- A claim refused for its token is answered OK (`FailedTokenIsSilent`), and so is the retry after a failed write, which
  writes nothing (`RetryRun`); when an OK is honoured, in memory and beyond a restart, is `OkIsHonoured`. After a loopback
  heartbeat an unchanged registration does not converge (`UnchangedConverges`, `ConvergesExactly`).
- Separate lock acquisitions let two streams of one uuid miss each other, and an old alarm cut a newer wait short
  (`RaceLosesStream`, `EarlierAlarmCutsWait`); when a waiting stream is safe from both is `SafeExactly`. Connections
  behind one proxy header share an address and silence each other (`SharedAddressRun`); when a parked sink is safe is
  `ParkedWaitsExactly`.
- The interface and the relay read hand-written ip lists differently: an address behind a leading space is loaded but not
  listed, and the next save drops it (`LeadingSpace`, exactly in `ReadersOfAnyText`).
- Relay rotation is unfair across the counter's wrap unless the list length divides 2^64 (`FairAcrossWrap`).
- The comment at src/payment.rs:140 promises one report per order. That holds exactly for orders whose status is one the
  service writes (`AtMostOneActivationExactly`). A failed clearing or insertion leaves a paid order without its
  subscription (`PaidAndActive`, `ClearingFailed`), and Stripe is not asked to resend (`FailedMark`).
- With times stored with a `T`, an expired subscription counts until its last day ends (`ExpiredStillFound`).

## Model

| member | source | states |
|---|---|---|
| `Registrar.Server.RegisterPeer` | src/rendezvous_server.rs:806-853 | UDP and TCP RegisterPeer on the objects do what the transition function says: whole new state and reply |
| `Registrar.Server.RegisterPkUdp` | src/rendezvous_server.rs:438-548 | the RegisterPk handler, from the empty-field check through blocker, pinning check and limiter to `update_pk`: whole new state and reply |
| `Registrar.Server.CountRegistration` | src/rendezvous_server.rs:493-501 | the per-peer limiter call: answer and new counter, nothing else changed |
| `Registrar.Server.RegisterPkTcp` | src/rendezvous_server.rs:733-769 | the TCP branch: `get_or` and `update_pk` with neither uuid check nor limiter; whole new state and reply |
| `Registrar.Server.HandlePunchHoleRequest` | src/rendezvous_server.rs:933-1064 | licence, lookup, OFFLINE decision, punch log and forwarding: whole new state and reply |
| `Registrar.Server.GetPk` | src/rendezvous_server.rs:1530-1551 | signing a peer's key loads that peer into the cache |
| `Peers.PeerMap.Get` | src/peer.rs:362-385 | a cached peer is returned; otherwise a readable row is loaded and cached; nothing else changes |
| `Peers.PeerMap.GetOr` | src/peer.rs:393-410 | as `get`, and a default peer is cached when there is neither entry nor readable row |
| `Peers.PeerMap.Update` | src/peer.rs:187-315 | `update_pk` step by step, with token and database failures: new entry, new row and result, other ids untouched |
| `Peers.PeerMap.InsertPeer` | src/database.rs:423-449 | insert-or-replace writes the whole row under the drawn guid, or nothing on failure |
| `Peers.PeerMap.UpdateRowInPlace` | src/database.rs:451-481 | the update writes pk, info, user and device where guid and id match, and never the uuid |
| `RegistrarRuns.Projects` | src/rendezvous_server.rs:405-568 | every run of the server, seen from one id, is a run of that id's cache entry and row: ids interact only through the blocker |
| `RegistrarRuns.TraceTimed` | src/rendezvous_server.rs:405-568 | the messages an id sees come in time order and within the run |
| `RegistrarRuns.TraceGated` | src/rendezvous_server.rs:440-442 | claims without uuid or key never reach a peer |
| `RegistrarRuns.CacheAgrees` | src/peer.rs:235-294 | over every run of a fresh process in which database calls succeed, the cached peer matches its row on guid, pk, user and device, no guid ever changes, and without TCP RegisterPk the uuid agrees and stays too |
| `RegistrarRuns.Pinned` | src/rendezvous_server.rs:458-492 | a non-empty uuid in memory never changes in any run of one process without TCP RegisterPk for that id, however the database behaves |
| `RegistrarRuns.KnownExactly` | src/rendezvous_server.rs:457-492 | a uuid in the table stays in row and memory through every run without TCP RegisterPk, restarts included, exactly when no RegisterPk finds the id outside memory and its row unreadable without bringing a good token and that uuid; no other failure matters |
| `RegistrarRuns.KeyStays` | src/rendezvous_server.rs:463-476 | a pk recorded with a uuid stays through every UDP run of one process whose claims all come from other ips than the recorded one, the first claims after a restart included |
| `RegistrarRuns.AddressExactly` | src/rendezvous_server.rs:770-793 | the address invariant holds throughout a run exactly if no TCP RegisterPeer moves the peer |
| `RegistrarRuns.OneUuidExactly` | src/peer.rs:235-294 | cache and row keep one uuid throughout a run exactly if no claim splits them, whatever the database does |
| `RegistrarRuns.UuidKeptExactly` | src/rendezvous_server.rs:457-492 | a known uuid, in memory only or in the table, stays throughout a run without TCP RegisterPk exactly when no claim takes over and no restart finds the row without it |
| `RegistrarRuns.IdentityKeptExactly` | src/rendezvous_server.rs:457-492 | a known id keeps uuid and pk throughout such a run, over restarts and any database failures, exactly when no claim and no restart alters them |
| `RegistrarRuns.AddressesAtRecordedIp` | src/rendezvous_server.rs:813-826 | in every run without TCP RegisterPeer for the id, its address has port 0, or the recorded ip, or a loopback ip |
| `RegistrarRuns.PunchesGoToFreshPeers` | src/rendezvous_server.rs:964-980 | in every run shorter than 2^31 ms and on any clock, a registered peer is forwarded to exactly while its latest accepted registration is less than 30 000 ms old; one that did not register never is, given an hour of clock at the start and a run that hour shorter |
| `RegistrarRuns.PunchesGoByAge` | src/rendezvous_server.rs:964-980 | what a punch is answered after any run of any length on any clock: ID_NOT_EXIST without entry or readable row, else by the age, as the cast reads it, of the latest accepted registration, or of the entry's default and then only 0.0.0.0:0 is named |
| `RegistrarRuns.UnregisteredPeers` | src/peer.rs:97-124 | a known peer that has not registered is OFFLINE exactly when the clock reached back an hour as its entry was created or that is 30 s ago, in every run an hour shorter than 2^31 ms |
| `RegistrarRuns.RegistrationsSpread` | src/rendezvous_server.rs:493-501 | any four consecutive admitted UDP RegisterPk of an id span at least 7 s, in every run of one process |
| `RegistrarRuns.RegistrationsInWindow` | src/rendezvous_server.rs:493-501 | a window of w ms holds at most 3 * (w / 7000 + 1) admitted UDP RegisterPk of an id |
| `RegistrarRuns.RegistrationConverges` | src/rendezvous_server.rs:457-548 | after any run in which the id saw no loopback source and no TCP RegisterPeer, a RegisterPk answered OK without token failure makes the next RegisterPeer from that ip answer request_pk = false and punches reach its address for 30 s, over any run in between without restart, TCP, loopback or a claim from another ip for that id |
| `RegistrarRuns.OkIsHonoured` | src/rendezvous_server.rs:521-547 | in any state of the server, a UDP RegisterPk answered OK is in memory exactly when its token was in order or nothing was to change, and outlasts a restart exactly when the row carried uuid and pk already or the claim's own write reaches it |
| `RegistrarRuns.OkIsDurable` | src/rendezvous_server.rs:521-547 | in runs of a fresh process in which database calls succeed and without TCP RegisterPk for the id, a good token and write are enough to outlast a restart, or uuid and pk already recorded |
| `RegistrarRuns.RetryRun` | src/rendezvous_server.rs:477-535 | a server run: the write of a new id's first RegisterPk fails, the retry is answered OK with everything good, and there is no row |
| `RegistrarRuns.ForwardedIsLogged` | src/rendezvous_server.rs:982-1006 | a forwarded punch has a young entry of its source and id in the log's tail; any other leaves the log alone |
| `RegistrarRuns.InertMessagesDropOut` | src/rendezvous_server.rs:440-456 | a run equals the run without its wrong-licence punches, empty or short claims and empty ids: they use up no limiter and leave no log entry |
| `RegistrarRuns.SoundRun` | src/rendezvous_server.rs:982-1006 | over every run, restarts included, the punch log stays ordered and spaced and every blocker entry within its bounds |
| `RegistrarRuns.BlockerProjects` | src/rendezvous_server.rs:453-456 | between restarts the blocker's table is that of exactly the well-formed RegisterPk messages, in order and at their times |
| `RegistrarRuns.BlockerBursts` | src/rendezvous_server.rs:1195-1201 | in every run of one process, among any 33 consecutive RegisterPk of an ip that pass the blocker's counter some adjacent two are at least 61 s apart |
| `RegistrarRuns.LetThroughAreAllowed` | src/rendezvous_server.rs:453-456 | the ids that get past the gate are those the blocker allowed |
| `RegistrarRuns.AtMost302LetThrough` | src/rendezvous_server.rs:1203-1213 | between two clears of an ip's id set at most 302 distinct ids get past the gate |
| `RegistrarSlots.AgreesRun` | src/peer.rs:235-294 | agreement on guid, pk, user and device is kept by every message of one id while database calls succeed |
| `RegistrarSlots.SameUuidRun` | src/database.rs:471 | agreement on the uuid is kept by every run without TCP RegisterPk |
| `RegistrarSlots.ReloadChangesNothing` | src/peer.rs:367-383 | dropping a cache entry and reloading its row gives back guid, pk, user, device, and the uuid where rows carry it |
| `RegistrarSlots.TcpSplitsUuid` | src/database.rs:471 | a TCP RegisterPk on a known id, in memory or only in the table, leaves cache and row with different uuids exactly when it brings another one |
| `RegistrarSlots.SameUuidExactly` | src/peer.rs:235-294 | cache and row keep one uuid throughout a run exactly if no claim splits them, over UDP or TCP and whatever the database does |
| `RegistrarSlots.OnlyTcpSplits` | src/database.rs:471 | while database calls succeed, exactly an authorised TCP RegisterPk with another uuid, or with none for a new row, splits |
| `RegistrarSlots.GuidPinned` | src/peer.rs:248-294 | a drawn guid never changes over any run, restarts included |
| `RegistrarSlots.UuidPinned` | src/rendezvous_server.rs:458-492 | a uuid never changes over UDP runs, restarts included, while database calls succeed |
| `RegistrarSlots.UuidPinnedInMemory` | src/rendezvous_server.rs:458-492 | within one process the same holds whatever the database does |
| `RegistrarSlots.FailedReadUnpins` | src/peer.rs:367-410 | a UDP step loses a known uuid exactly when it is a claim on an id outside memory whose row cannot be read, and that claim lacks a good token or brings another uuid; writes do not matter |
| `RegistrarSlots.PinnedExactly` | src/rendezvous_server.rs:457-492 | within one process a known uuid stays throughout a UDP run exactly when no such step occurs |
| `RegistrarSlots.RootedExactly` | src/rendezvous_server.rs:457-492 | over restarts too, for a uuid in the table, in row and memory |
| `RegistrarSlots.StaysExactly` | src/rendezvous_server.rs:457-492 | over restarts for any known uuid, also one that is only in memory: it stays exactly when no claim takes over and no restart finds the row without it |
| `RegistrarSlots.LaterClaimTakesOver` | src/peer.rs:367-410 | an unauthorised claim whose read fails leaves a default entry, and the next claim owns memory and row with good reads and writes |
| `RegistrarSlots.KeyChangesFromRecordedIp` | src/rendezvous_server.rs:463-476 | a pk recorded with a uuid changes over UDP only on a claim with that uuid from the recorded ip, whether the peer is in memory or read back, where no ip is recorded |
| `RegistrarSlots.KeyPinned` | src/rendezvous_server.rs:463-476 | claims from elsewhere never change it, over any UDP run of one process |
| `RegistrarSlots.IdentityExactly` | src/rendezvous_server.rs:457-535 | uuid and pk stay throughout a UDP run exactly when no step alters them: a claim answered OK, authorised, from the recorded ip and with another pk; one that finds the row unreadable and does not bring both; a restart without them in the row |
| `RegistrarSlots.AddrFitsRun` | src/rendezvous_server.rs:813-826 | the address invariant (port 0, recorded ip or loopback) over every run without TCP RegisterPeer |
| `RegistrarSlots.AddrFitsExactly` | src/rendezvous_server.rs:776-787 | the address invariant holds throughout any run exactly if no TCP RegisterPeer moves the peer |
| `RegistrarSlots.HeartbeatsStay` | src/rendezvous_server.rs:813-826 | any number of heartbeats alone never moves a peer to another outside ip, and leaves identity, recorded ip and row as they were |
| `RegistrarSlots.TcpHeartbeatMoves` | src/rendezvous_server.rs:776-787 | a TCP RegisterPeer breaks the address invariant exactly when it reaches a keyed peer with port 0 from another outside ip |
| `RegistrarTimes.OriginRun` | src/peer.rs:97-124 | address and time of a cached peer are those of the latest accepted registration, or the defaults of the entry's creation, over every run on any clock |
| `RegistrarTimes.ForwardsFreshOnly` | src/rendezvous_server.rs:964-980 | the bounded form for one id, on any clock, with the exact ID_NOT_EXIST case |
| `RegistrarTimes.ForwardsByAge` | src/rendezvous_server.rs:964-980 | the full law of one id: every run, every clock, registered or not |
| `RegistrarTimes.CastWraps` | src/rendezvous_server.rs:968 | `as_millis() as i32` compared with 30 000, for every elapsed time; exact below 2^31 ms |
| `RegistrarTimes.VeryStaleLooksFresh` | src/rendezvous_server.rs:968 | a registration exactly 2^31 ms old counts as online, one a millisecond younger does not |
| `RegistrarTimes.DefaultPeerWraps` | src/peer.rs:97-124 | the 2^31 bound is an hour shorter for peers known only from the table: a concrete run forwards to 0.0.0.0:0 |
| `RegistrarTimes.RowOnlyPeer` | src/common.rs:23-27 | after any run in which it did not register, a known peer is OFFLINE exactly when the clock reached back an hour at its creation or that is 30 s ago, else forwarded to 0.0.0.0:0 |
| `RegistrarTimes.YoungClock` | src/common.rs:23-27 | a concrete run: the entry is created a millisecond before the clock reaches back an hour and forwarded to right after |
| `RegistrarTimes.AdmittedChain` | src/rendezvous_server.rs:493-501 | the admitted requests of a run are passes of one counter; everything else leaves it alone |
| `RegistrarTimes.FourSpanSevenSeconds` | src/rendezvous_server.rs:493-501 | any four consecutive admitted requests span at least 7 s |
| `RegistrarTimes.AdmittedInWindow` | src/rendezvous_server.rs:493-501 | the sliding-window bound for admitted requests |
| `RegistrarTimes.LetThroughAgain` | src/rendezvous_server.rs:493-501 | 7 s after its last admission a peer is let past the limiter again, whatever was refused meanwhile |
| `RegistrarTimes.RefusalsLeaveNoTrace` | src/rendezvous_server.rs:458-499 | however many claims are refused in a row, a cached peer, its counter and its row stay as they are |
| `RegistrarTimes.AtRecordedIpRun` | src/rendezvous_server.rs:813-826 | without loopback sources the address stays unknown or at the recorded ip |
| `RegistrarTimes.Converges` | src/rendezvous_server.rs:806-853 | convergence for one id, through an undisturbed run, with the address and time the heartbeat leaves |
| `RegistrarTimes.UnchangedConverges` | src/rendezvous_server.rs:508-535 | when `update_pk` is skipped as unchanged, the next heartbeat needs no key exactly when the address was unknown or at that ip |
| `RegistrarTimes.ConvergesExactly` | src/rendezvous_server.rs:457-548 | right after any claim answered OK, a heartbeat from its outside ip needs no key exactly when the claim was authorised to change the peer or the peer as it was answers that ip |
| `RegistrarTimes.FailedTokenIsSilent` | src/rendezvous_server.rs:521-547 | a claim whose token fails is answered OK and changes nothing but the limiter, whether the peer was in memory or not |
| `RegistrarTimes.HonouredExactly` | src/rendezvous_server.rs:521-547 | a claim answered OK is in memory afterwards, uuid, pk and ip, exactly when its token was in order or it changed nothing |
| `RegistrarTimes.DurableExactly` | src/peer.rs:248-294 | for every slot: in the row afterwards exactly when it was before, or the claim is authorised, changes the peer in memory, its write succeeds, and it inserts or finds the row by guid with the same uuid |
| `RegistrarTimes.DurableWhenAgreed` | src/peer.rs:248-294 | where cache and row agree and the peer was readable, a good token and write, or uuid and pk already recorded |
| `RegistrarTimes.RetryIsNotDurable` | src/rendezvous_server.rs:477-535 | a claim whose write failed is in memory, so the same claim again skips `update_pk` and is answered OK without a row |
| `RegistrarTimes.DurableIsReadBack` | src/peer.rs:367-383 | being in the row is being read back after a restart |
| `RegistrarTimes.OnlyTcpReportsFailures` | src/rendezvous_server.rs:521-547 | the UDP answer does not depend on token or database writes; the TCP answer is OK exactly when both were good |
| `RegistrarAnswers.ClaimAnswer` | src/rendezvous_server.rs:457-501 | what a UDP RegisterPk that reaches a peer is answered, from the fields alone: UUID_MISMATCH exactly for another uuid than the one held, or another pk from an ip not recorded; TOO_FREQUENT exactly after three counted admissions, the last less than 7 s ago; OK otherwise |
| `RegistrarAnswers.KnownIsNeverForeign` | src/rendezvous_server.rs:463-476 | a claim with the uuid and pk held is never refused for its identity, from any ip, in memory or read back |
| `RegistrarAnswers.KnownAfterRestart` | src/rendezvous_server.rs:463-476 | after a restart the row's uuid and pk are answered OK from any ip |
| `RegistrarAnswers.TooFrequentExactly` | src/rendezvous_server.rs:493-501 | in every run of one process, TOO_FREQUENT exactly if the last three admissions of the id followed each other within less than 7 s and the last was less than 7 s ago |
| `RegistrarAnswers.BlockerAnswer` | src/rendezvous_server.rs:1190-1218 | one call of the blocker in numbers: refused exactly after 31 counted calls, the last less than 61 s ago, or for a new id to a set of 301 last used less than a day and a second ago; and what it records |
| `RegistrarAnswers.RegisterPkAnswer` | src/rendezvous_server.rs:438-548 | every answer to a UDP RegisterPk in every state, the gate included: silence, UUID_MISMATCH, TOO_FREQUENT or OK, and exactly when |
| `RegistrarAnswers.ClaimAnswerInRun` | src/rendezvous_server.rs:438-548 | the same after any run of one process, the frequency read off the id's admissions |
| `RegistrarAnswers.TcpRegisterPkAnswer` | src/rendezvous_server.rs:733-769 | over TCP a RegisterPk is answered OK exactly if its token is in order and the write goes through, else SERVER_ERROR |
| `RegistrarAnswers.HeartbeatAnswer` | src/rendezvous_server.rs:806-853 | every RegisterPeer with an id is answered: no key is asked for exactly if the id is in memory with a key and the source is loopback, the address ip, or at port 0 the recorded ip over UDP and any over TCP; exactly then the peer takes the source and the time, and nothing else changes |
| `RegistrarAnswers.NamelessHeartbeat` | src/rendezvous_server.rs:419 | a RegisterPeer without an id is not answered and changes nothing |
| `RegistrarAnswers.TcpClaimWrites` | src/peer.rs:187-315 | what an authorised claim leaves: memory has all it brought, with the token's user and device in this order; a written row the same, but for the uuid where the row is found by guid |
| `RegistrarAnswers.UdpClaimWrites` | src/rendezvous_server.rs:486-535 | a UDP claim answered OK writes what the TCP one writes exactly if it is authorised and brings a first uuid, another pk or another ip; otherwise only its counter moves |
| `RegistrarAnswers.LooksUp` | src/peer.rs:362-410 | which messages leave a peer in memory that was not there, and with which address, time and counter |
| `RegistrarAnswers.PunchLogged` | src/rendezvous_server.rs:964-1006 | in every run a forwarded punch names the peer's address in memory and is logged last with time, source, target ip and id, unless one of the thirty newest entries repeats it within a minute; nothing else is logged |
| `RegistrarAnswers.RestartAndWait` | src/peer.rs:143-173 | a restart keeps the rows and empties memory, blocker and log; waiting only passes time |
| `RegistrarAnswers.FreshAges` | src/rendezvous_server.rs:968 | the ages that look fresh, in milliseconds: below 30 000, from 2^31 to 2^32 + 30 000, and so on every 2^32 |
| `RateCounter.QuietAmong` | src/rendezvous_server.rs:493-501 | among any most + 2 consecutive passes of such a counter some adjacent two are a quiet spell apart |
| `RateCounter.SpanGrows` | src/rendezvous_server.rs:493-501 | every further burst takes one more quiet spell |
| `RateCounter.WindowBound` | src/rendezvous_server.rs:493-501 | the sliding-window bound for any limiter of this kind |
| `IpBlocker.Blocker.CheckIpBlocker` | src/rendezvous_server.rs:1190-1218 | the blocker call on the shared map: new entry and answer |
| `IpBlocker.RunByAddress` | src/rendezvous_server.rs:1190-1218 | addresses do not influence each other |
| `IpBlocker.BurstOf33` | src/rendezvous_server.rs:1195-1201 | among any 33 consecutive calls of an address that pass the counter some adjacent two are at least 61 s apart |
| `IpBlocker.RunBounded` | src/rendezvous_server.rs:1190-1218 | the counter never exceeds 31 and the id set 301, for every address and run |
| `IpBlocker.CountedArePasses` | src/rendezvous_server.rs:1194-1201 | the calls of an address that pass the counter are passes of the common limiter discipline |
| `IpBlocker.AllowedAreKnown` | src/rendezvous_server.rs:1203-1213 | while the id set is not started afresh, every id let through is in it |
| `IpBlocker.AtMost302Ids` | src/rendezvous_server.rs:1203-1213 | between two clears of the id set at most 302 distinct ids are let through |
| `PunchLog.Log.Add` | src/rendezvous_server.rs:983-1005 | the reverse scan of thirty entries and the push are exactly the recording function |
| `PunchLog.Log.Clear` | src/rendezvous_server.rs:1349-1365 | the admin command empties the log |
| `PunchLog.RecordKeeps` | src/rendezvous_server.rs:982-1006 | recording keeps times non-decreasing, and equal keys at most thirty positions apart at least a minute apart |
| `PunchLog.RecordExactly` | src/rendezvous_server.rs:983-1005 | a request leaves the log alone exactly if one of its thirty newest entries has its source and id and is less than 60 000 ms old; otherwise it comes last with its own time, source, target ip and id |
| `PunchLog.TailDecidesLikeAll` | src/rendezvous_server.rs:987-996 | the tail scan finds a duplicate exactly when the tail holds a young match, and decides like a full scan whenever at most thirty entries are young |
| `ParkedSinks.Coordinator.Accept` | src/rendezvous_server.rs:1461-1493 | a new connection owns its sink |
| `ParkedSinks.Coordinator.ParkSink` | src/rendezvous_server.rs:656-669 | the first punch or relay request parks the sink, overwriting the entry of its address; later ones change nothing |
| `ParkedSinks.Coordinator.TakeSink` | src/rendezvous_server.rs:1132-1143 | an answer takes the entry of its address out |
| `ParkedSinks.Coordinator.CleanUp` | src/rendezvous_server.rs:1522-1524 | after the loop, the entry of the address is removed if the sink was parked |
| `ParkedSinks.KeysBelongToUnfinished` | src/rendezvous_server.rs:1461-1527 | under every interleaving, every key belongs to a connection that parked and has not finished its clean-up, and no sink is in two hands |
| `ParkedSinks.AtMostOneMore` | src/rendezvous_server.rs:1096-1143 | once parked, at most one more message is ever sent to a sink, whatever the requests, answers and addresses |
| `ParkedSinks.LostExactly` | src/rendezvous_server.rs:656-691 | which steps take a parked sink out of the table, both directions |
| `ParkedSinks.ParkedWaits` | src/rendezvous_server.rs:656-691 | with distinct addresses a parked sink waits, over any run, until it is answered or its own connection cleans up |
| `ParkedSinks.ParkedWaitsExactly` | src/rendezvous_server.rs:656-691 | new connections coming from unused addresses, a parked sink waits for its answer over every run exactly when no other connection at its address can still park or has parked and is still to clean up |
| `ParkedSinks.AnswerReaches` | src/rendezvous_server.rs:1132-1143 | so the answer to its address reaches that connection, as its last message |
| `ParkedSinks.SharedAddressSilences` | src/rendezvous_server.rs:1475-1488 | when connections share an address, parking the second silences the first for good |
| `ParkedSinks.SharedAddressRun` | src/rendezvous_server.rs:1475-1488 | a run from the empty table: two connections share an address and park, and the first is never sent anything |
| `ParkedSinks.SentExactly` | src/rendezvous_server.rs:1107-1143 | over every run a sink is sent exactly its direct replies until it is parked or its loop ends; then nothing after the end of the loop, and at most one more after parking |
| `ParkedSinks.NewConnection` | src/rendezvous_server.rs:1461-1498 | the same from the moment a connection is accepted, with its sink and nothing sent |
| `ParkedSinks.RequestIsAnswered` | src/rendezvous_server.rs:656-691 | a request that parks its sink hears exactly one more message, the answer to its address, however long that takes and whatever connections with other addresses do |
| `ParkedSinks.PhasesExactly` | src/rendezvous_server.rs:1489-1527 | a loop runs until it is left, and its connection is closed exactly by the clean-up after that |
| `ParkedSinks.Coordinator.ReplyDirectly` | src/rendezvous_server.rs:1107-1127 | a direct reply reaches the sink only while the loop owns it |
| `ParkedSinks.Coordinator.SendToSink` | src/rendezvous_server.rs:1096-1104 | the answering step, once the sink was taken out, sends one message and drops it |
| `OnlineBitmap.HandleOnlineRequest` | src/rendezvous_server.rs:1067-1093 | the packed bytes have one bit per id, from the left, set exactly for online peers, padding zero |
| `OnlineBitmap.QueryOnlineStates` | docs/upstream-refs/client.rs:4094-4106 | the client's loop splits the ids by their bit, and fails exactly on a reply that is too short |
| `OnlineBitmap.RoundTrip` | docs/upstream-refs/client.rs:4094-4106 | unpacking a packed answer gives back every id's status, in order |
| `OnlineBitmap.Partition` | docs/upstream-refs/client.rs:4094-4106 | onlines and offlines partition the query, whatever the bytes |
| `OnlineBitmap.PackingUnique` | src/rendezvous_server.rs:1072-1083 | there is only one packed answer, padding included |
| `OnlineRuns.OnlineExactly` | src/rendezvous_server.rs:1072-1083 | after any run an id counts as online exactly if it is in memory and its latest accepted registration, or its default, looks fresh |
| `OnlineRuns.QueryAfterRun` | docs/upstream-refs/client.rs:4094-4106 | end to end: the client reads as online, in order, exactly those ids, and as offline all others |
| `RelayRotation.Rotation.GetRelayServer` | src/rendezvous_server.rs:1226-1234 | the chosen server and the new counter, with the empty and one-element cases |
| `RelayRotation.PickMany` | src/rendezvous_server.rs:1232-1233 | consecutive calls return the servers at the picked positions |
| `RelayRotation.Fair` | src/rendezvous_server.rs:1232-1233 | without a wrap, k * n consecutive picks choose each position exactly k times, from any counter |
| `RelayRotation.FairAcrossWrap` | src/rendezvous_server.rs:1232-1233 | fair from every counter, wrap included, exactly when the list length divides 2^64 |
| `RelayRotation.SkipsLast` | src/rendezvous_server.rs:1232-1233 | otherwise the round starting just before the wrap never picks the last server |
| `RelayPairing.PairingSafe` | src/relay_server.rs:540-573 | under every interleaving of look-up, parking, expiry and relay end: each stream in exactly one place, pairs are two distinct streams of one uuid, no stream in two pairs, an expired task's stream not in the table |
| `RelayPairing.SafeExactly` | src/relay_server.rs:542-573 | whatever happens next, a waiting stream is dropped only after its relay or by its own alarm, exactly when no other connection of its uuid has missed and is still to park, or has parked and still sleeps |
| `RelayPairing.ReachedSafeExactly` | src/relay_server.rs:542-573 | the same for every state a run of the relay reaches |
| `RelayPairing.LeavesExactly` | src/relay_server.rs:542-573 | which steps take a waiting stream out of the table, both directions |
| `RelayPairing.DropsExplained` | src/relay_server.rs:567-572 | every dropped stream that was not relayed has a cause of one of two kinds: another stream parked over it, or an alarm under its uuid set no later than its own |
| `RelayPairing.AtomicNeverReplaces` | src/relay_server.rs:542-568 | if look-up and parking were one critical section nothing would ever be parked over |
| `RelayPairing.RaceLosesStream` | src/relay_server.rs:542-568 | a concrete interleaving of the separate sections loses a stream that had a partner; `SafeExactly` has the condition |
| `RelayPairing.EarlierAlarmCutsWait` | src/relay_server.rs:568-572 | a concrete run from the empty table in which an older alarm drops a stream 20 s before its own time; `SafeExactly` has the condition |
| `RelaySections.OnlyGreeted` | src/relay_server.rs:533-540 | in every run a connection takes part exactly if it sent a request with a uuid and, where the server has a key, with that key; it is known by the uuid of the first such request |
| `RelaySections.OnlyGreetedAnywhere` | src/relay_server.rs:533-573 | so did every stream that waits, was paired or was dropped, and paired streams named the same uuid |
| `RelaySections.FoundIsPaired` | src/relay_server.rs:542-556 | a look-up that finds a waiting stream relays the two and takes it from the table |
| `RelaySections.NotFoundMayPark` | src/relay_server.rs:542-568 | one that finds nothing leaves the table alone and lets the stream be parked |
| `RelaySections.ParkedIsFound` | src/relay_server.rs:568-570 | a parked stream is in the table under its uuid, with an alarm 30 000 ms on |
| `RelaySections.AlarmClears` | src/relay_server.rs:570-572 | the alarm does nothing before its time, and then nothing waits under the uuid |
| `RelaySections.RelayEndsBoth` | src/relay_server.rs:556-563 | when a relay ends both of its streams are dropped |
| `RelaySections.OtherUuidsUntouched` | src/relay_server.rs:542-573 | sections of one uuid never touch what waits under another |
| `RelayPairing.Relay.OnRequest` | src/relay_server.rs:533-540 | authentication and the uuid check: whole new state |
| `RelayPairing.Relay.Lookup` | src/relay_server.rs:542-547 | the first critical section: whole new state |
| `RelayPairing.Relay.ParkStream` | src/relay_server.rs:568 | the second critical section: whole new state |
| `RelayPairing.Relay.WakeUp` | src/relay_server.rs:570-572 | the third critical section: whole new state |
| `RelayPairing.Relay.EndRelay` | src/relay_server.rs:556-563 | the end of a relay drops both streams: whole new state |
| `RelayMeter.Relay` | src/relay_server.rs:586-731 | the loop over any sequence of turns computes the run function, from its initial variables |
| `RelayMeter.Loop.OnFrame` | src/relay_server.rs:625-651 | one received frame: charges, totals and forwarding |
| `RelayMeter.Loop.OnWake` | src/relay_server.rs:623-687 | one turn of the select: a frame, a closed side, a failed send or the idle timeout |
| `RelayMeter.Loop.CheckWindow` | src/relay_server.rs:689-728 | closing a window: rates, report, lists and downgrade |
| `RelayWindows.WindowsTile` | src/relay_server.rs:689-727 | over every run the windows tile it: the i-th lasts from the reset of the one before, or the start, to its own check, and counts eight times the bytes received in between; a running loop's clock, counters and lists are those since the last reset; and it is downgraded exactly if some window tripped when it closed |
| `RelayWindows.ElapsedIsTime` | src/relay_server.rs:699-707 | the elapsed time is at most the time from the start to the last closing check, and exactly that where resets fall on checks |
| `RelayWindows.ReportExactly` | src/relay_server.rs:700-712 | every report is the time and bits of all windows, the highest of their speeds and that of the last one, each rounded down; none before the first window |
| `RelayWindows.PrintedExactly` | src/relay_server.rs:350-363 | what is printed of a report, and when it is skipped |
| `RelayWindows.ChargedExactly` | src/relay_server.rs:625-679 | a frame is charged in full to the shared limiter and to the slow one exactly if the relay is downgraded or its last window saw the address blacklisted, else to its own |
| `RelayWindows.EndsExactly` | src/relay_server.rs:623-694 | when a running loop ends and why: a closed side, a frame not passed on, 31 s of silence, or a blocked address a second after the last reset; nothing happens after it |
| `RelayMeter.ReportBounded` | src/relay_server.rs:350-363 | at every report total < (highest + 1) * elapsed, so printed average and current speed never exceed the printed highest |
| `RelayMeter.DowngradeSound` | src/relay_server.rs:716-727 | downgrade is set only if some closed window ran at or above the threshold |
| `RelayMeter.DowngradeExactly` | src/relay_server.rs:716-727 | a relay is downgraded exactly if at some closed window past the start of checking the running total exceeded elapsed time times the threshold |
| `RelayMeter.DowngradeLatches` | src/relay_server.rs:633-664 | downgrade never clears and every later bit, in both directions, is charged to the slow limiter |
| `RelayMeter.ChargesBalance` | src/relay_server.rs:633-669 | every bit is charged once to the shared limiter and once to exactly one of the other two |
| `RelayMeter.ForwardsInOrder` | src/relay_server.rs:645-675 | non-empty frames are forwarded unchanged, in order, to the other side, none dropped or invented |
| `RelayMeter.TotalCountsBytes` | src/relay_server.rs:667-671 | total is eight times the bytes received |
| `ConfigLines.FormatReads` | src/settings_api.rs:514-519 | a written `key = value` line reads back as the key with its value trimmed and unquoted |
| `ConfigLines.EditLinesReads` | src/settings_api.rs:465-511 | read-after-write and frame on the edited lines, missing keys and sections included |
| `ConfigText.EditSectionedReads` | src/settings_api.rs:465-511 | the same for the written file text: each updated (section, key) reads its cleaned value, every other key as before, for every text |
| `ConfigText.EditKeepsLines` | src/settings_api.rs:465-511 | every line the edit was not asked to change is kept in order, character for character; the only other additions are headers of missing sections |
| `ConfigText.EditTwice` | src/settings_api.rs:465-511 | editing twice equals once exactly when no untouched line ends in a stray carriage return |
| `ConfigText.SecondEditDiffers` | src/settings_api.rs:465-511 | a concrete text on which the second edit changes the file again |
| `ConfigFlat.EditFlatReads` | src/settings_api.rs:422-462 | read-after-write and frame for top-level keys, for every text and hash-map order |
| `ConfigFlat.EditFlatKeepsLines` | src/settings_api.rs:422-462 | untouched top lines stay in order and everything from the first bracket on is verbatim |
| `ConfigFlat.EditFlatTwice` | src/settings_api.rs:422-462 | a second edit, in any hash-map order, changes nothing exactly when no line left alone ends in a stray carriage return |
| `ConfigFlat.SecondFlatEditDiffers` | src/settings_api.rs:422-462 | a concrete text on which the second top-level edit changes the file again |
| `ConfigEdit.ReadConfigToml` | src/settings_api.rs:305-335 | the loop reports the last top-level setting of each known key |
| `ConfigEdit.ReadHbbrToml` | src/settings_api.rs:344-374 | the loop reports the last setting of each known (section, key) |
| `ConfigEdit.UpdateSectionedKeys` | src/settings_api.rs:465-511 | the loops compute the edited text |
| `ConfigEdit.UpdateFlatKeys` | src/settings_api.rs:422-462 | the loops compute the edited text for some listing of the update map |
| `ConfigEdit.WriteHbbrToml` | src/settings_api.rs:399-419 | the table turns a parameter map into updates; none leaves the file alone |
| `ConfigEdit.WriteConfigToml` | src/settings_api.rs:377-396 | likewise for the top-level file |
| `ConfigTheorems.TablesAgree` | src/settings_api.rs:358-366 | the separately written name tables of readers and writers are inverse to each other |
| `ConfigTheorems.ViewReads` | src/settings_api.rs:353-371 | a reported parameter is the last setting at its place, and is reported exactly when there is one |
| `ConfigTheorems.HbbrSaved` | src/settings_api.rs:399-511 | saving then reading hbbr.toml: saved parameters read cleaned, all others as before |
| `ConfigTheorems.ConfigSaved` | src/settings_api.rs:377-462 | saving then reading config.toml, for every hash-map order |
| `ConfigTheorems.ServerParamsSaved` | src/settings_api.rs:527-558 | saving a parameter map and asking for all parameters again changes exactly the saved ones |
| `Text.SpacesAre` | src/settings_api.rs:514-519 | white space is the twenty-five characters `trim` removes |
| `Text.UnquoteSplits` | src/settings_api.rs:517 | removing quotes leaves a middle without quotes at its ends between quotes only |
| `Text.UnquoteIs` | src/settings_api.rs:517 | and that middle is the only one |
| `Text.LinesOfUnterminated` | src/settings_api.rs:352 | lines as `str::lines` gives them when the last has no line feed |
| `ConfigReaders.AssignedReads` | src/settings_api.rs:514-519 | a line `key = value`, with any white space and any number of quotes around the value, is that key and that value |
| `ConfigReaders.OtherLines` | src/settings_api.rs:346-352 | blank lines and comments say nothing, and a trimmed line in brackets names a section |
| `ConfigReaders.InterfaceReads` | src/settings_api.rs:344-374 | whatever stands before it, the last line of a file under its header is reported as the text between its quotes |
| `ConfigReaders.RelayReads` | src/hbbr.rs:33-58 | and loaded as that text into PORT or KEY by the relay process, if it does not panic |
| `ConfigReaders.ConfigReads` | src/settings_api.rs:305-335 | a top-level line of config.toml is reported the same way, whatever comments and settings stand before it and sections after it |
| `ConfigReaders.OnlyPlaces` | src/settings_api.rs:321-366 | the name tables of both readers and of the relay process, and that nothing else is reported |
| `ConfigReaders.RewrittenLine` | src/settings_api.rs:472-492 | a setting that is asked for is replaced in place by `key = value` as given, and one that is not stays as it is |
| `ConfigReaders.MissingKeyGoesLast` | src/settings_api.rs:494-506 | a missing key is inserted at the end of its section, right before the next bracket |
| `ConfigReaders.MissingSectionGoesLast` | src/settings_api.rs:503-508 | without the section, its header and the key go to the end of the file after a blank line |
| `HbbrEnv.LoadHbbrTomlEnv` | src/hbbr.rs:33-58 | the relay's own reader sets exactly the variables of the settings it scans |
| `HbbrEnv.ReadersAgree` | src/hbbr.rs:38-57 | for every text PORT and KEY are what the interface reports for port and key, unset ones untouched; it panics exactly on a NUL in such a line |
| `HbbrEnv.OtherVariablesKept` | src/hbbr.rs:51-55 | no other variable changes |
| `HbbrEnv.SavedReachesRelay` | src/hbbr.rs:33-58 | a saved port or key reaches the relay process, also when key or section was missing before, unless a port or secret line of the written file holds a NUL, and exactly then it panics |
| `IpList.RoundTripIff` | src/settings_api.rs:88-115 | parsing undoes serializing exactly for lists of well-formed entries |
| `IpList.ReadWriteRead` | src/settings_api.rs:88-115 | parse, serialize and parse again equals parse, for every text |
| `IpList.LoadIpSet` | src/relay_server.rs:69-79 | the relay's loop loads the first word of every line |
| `IpList.LoaderAgrees` | src/relay_server.rs:86-96 | the relay loads exactly the ips of a serialized list, and the empty string |
| `IpListReaders.LineReadersAgree` | src/settings_api.rs:88-100 | on a listed line both readers take the same address exactly if no white space stands between it and the first space, or nothing follows |
| `IpListReaders.ListedExactly` | src/settings_api.rs:88-100 | a line is listed exactly if something stands before its first space and it is no comment |
| `IpListReaders.ReadersOfAnyText` | src/relay_server.rs:69-79 | for every text and address: from which lines it is listed, from which it is loaded, and when a line does both |
| `IpListReaders.LeadingSpace` | src/relay_server.rs:69-79 | a file the relay loads an address from that the interface does not list and the next save drops |
| `IpList.AdditionRefused` | src/settings_api.rs:153-169 | an addition is refused exactly for an address of white space and for one that is listed already |
| `IpList.AddedIff` | src/settings_api.rs:153-175 | a saved addition is listed last, and loaded by the relay, exactly when the entry is well formed |
| `IpList.DeletedIff` | src/settings_api.rs:178-200 | a deletion is refused exactly for unlisted addresses; otherwise that address and only it is gone for both readers |
| `Orders.Database.Webhook` | src/payment.rs:619-734 | both gateways' handlers, from signature to activation: whole new tables and answer |
| `Orders.Database.MarkPaid` | src/payment.rs:141-170 | new orders table and result, with failures |
| `Orders.Database.PlaceOrder` | src/payment.rs:89-119 | a new order is pending; a used number is refused |
| `Orders.Database.DeactivateSubscription` | src/subscription.rs:253-262 | only the active flag and time of that row change |
| `Orders.Database.GetActive` | src/subscription.rs:123-161 | the newest current row of a user, or none, with expiry compared by day or by time as the stored text makes it |
| `Orders.Database.CreateSubscription` | src/subscription.rs:177-206 | clear then insert, two statements that can fail separately: new table and result |
| `Orders.Database.UpdateSubscription` | src/subscription.rs:208-251 | only the given columns of that row change |
| `OrderTables.OrderExactly` | src/payment.rs:89-170 | over every run an order is in the table exactly if a purchase stored it, with the user and plan of the first one, pending until the first genuine payment after it and from then on paid with that payment's number |
| `OrderTables.PendingFate` | src/payment.rs:141-170 | a pending order is marked by the first genuine payment of a run and by nothing else |
| `OrderTables.SettledStays` | src/payment.rs:157-169 | an order that is not pending never changes |
| `OrderTables.WebhookExactly` | src/payment.rs:619-734 | what every notification is answered, when the tables may change at all, and that other orders never do |
| `OrderTables.RowAdded` | src/subscription.rs:177-206 | a step adds at most the row it opens: the admin's, or the one an order pays for, active and ending thirty days on |
| `OrderTables.RowStep` | src/subscription.rs:177-262 | what a step does to every row: what ends it, what changes its plan, expiry and notes, and when its time is set, both directions |
| `OrderTables.RowHistory` | src/subscription.rs:177-262 | over every run a row keeps its user and creation time, never becomes active again, and has the plan, expiry and notes the admin gave it last |
| `OrderTables.CreationReports` | src/subscription.rs:177-206 | a creation reports success exactly if its row is there, which takes both of its statements |
| `OrderTables.ClockRun` | src/subscription.rs:177-262 | only waiting passes time, and waiting does nothing else |
| `OrderTables.FoundExactly` | src/subscription.rs:123-161 | in seconds: the lookup finds a row exactly if the user has an active one of a plan there is, without an end or before it, and then one of those created last; by day a row ends with the day of its expiry |
| `Orders.OrdersAdvance` | src/payment.rs:141-170 | over every run an order only goes from pending to paid, and keeps user and plan |
| `Orders.ActivatedOnce` | src/payment.rs:619-734 | an order with a status the service writes yields exactly one activation if a run turns it paid and none otherwise, across both gateways and whatever other orders are |
| `Orders.AtMostOneActivationExactly` | src/payment.rs:141-170 | no run activates an order twice exactly when its status is pending, paid or it does not exist |
| `Orders.CreatedActivatesOnce` | src/payment.rs:89-119 | an order made by `create_order` is activated at most once |
| `Orders.ForeignStatusRepeats` | src/payment.rs:157-169 | with any other status every heard notification activates and changes nothing; `AtMostOneActivationExactly` joins both halves |
| `Orders.FailedMark` | src/payment.rs:663-730 | failed database calls: Alipay is asked to resend, Stripe is told all is well and the order stays unpaid |
| `Orders.OneActiveRun` | src/subscription.rs:177-262 | each user has at most one active row after every run, whichever calls fail |
| `Orders.ActivationIsCreation` | src/payment.rs:434-451 | the explicit deactivation before an activation changes nothing, exactly unless the creation's clearing fails after it went through |
| `Orders.NewestIs` | src/subscription.rs:138-143 | under either reading of expiry, the lookup returns a current row no older than any other, exactly when there is one |
| `Orders.TextComparesByDay` | src/subscription.rs:138 | a stored time with a `T` is later than the current one with a space exactly when its day is not before today |
| `Orders.ReadingsDiffer` | src/subscription.rs:138 | comparing by day and comparing times differ exactly on a time that passed earlier the same day |
| `Orders.ExpiredStillFound` | src/subscription.rs:138-143 | a subscription that has expired is found, by day, exactly until its last day ends |
| `Orders.PaidAndActive` | src/payment.rs:434-451 | after a first payment the lookup finds the new row exactly when clearing and insertion went through and the plan exists; when only the insertion failed the user has no active row |
| `Orders.ClearingFailed` | src/payment.rs:434-451 | when the clearing fails no row is added: the user keeps the row found, unless its separate deactivation went through, and then has none |

## Left out

- Sockets, scheduling, handshakes, logging and file access: messages, file texts and failures are inputs.
- Cryptography, JWT and gateway signatures: whether a token or signature is good is an input, as are the ids a token
  carries; its database reads are part of that input.
- `AddrMangle`, `try_into_v4` and the message codec: addresses are abstract pairs of printed ip and port, and the
  bodies of forwarded messages, the LAN decision, NAT types and the per-peer wire protocol are not modelled.
- The ConfigUpdate message that follows a RegisterPeer with an old serial (src/rendezvous_server.rs:422-434), and that a TCP
  connection is closed after a RegisterPeer without an id.
- Registrar handlers run as one atomic step each, with their database work; concurrent handlers, in particular between
  the read and the write of `reg_pk`, are not modelled. Only relay pairing and parked sinks have split steps.
- A cached peer is a value in the map the methods reassign, not a shared object. The source hands out a shared reference,
  and src/peer.rs:381 inserts without looking again after the database was awaited, so concurrent loads could leave two
  objects for one id; with one handler at a time this cannot be observed and is not modelled.
- Collisions of random guids, order numbers with equal suffixes beyond the table's own uniqueness check, and the unused
  columns of `peer` (`status`, `user`, `note`, `disabled`, `created_at`).
- Ids are counted in characters where the code counts UTF-8 bytes (`id.len() < 6`).
- The tables behind the admin pages, `IP_CHANGES` and `ONLINE_PEERS`, and the admin commands that remove blocker entries.
- RelayMeter.ReportBounded: the printed report is the tuple of numbers; sorting, units and floating-point formatting of
  the listing are not modelled, and the threshold computed in floating point is a parameter.
- RelayMeter.Relay: of the speed limiter library only which limiter is charged how much; counters do not overflow.
- RelayPairing.PairingSafe: a stream that times out or fails before its request is not in the model, and relays end at
  any time for any reason.
- ParkedSinks.AtMostOneMore: a send may fail, so it is an upper bound; tasks that are cancelled do not occur.
- ConfigFlat.EditFlatReads: the hash map's iteration order is any listing of its entries, given as an argument.
- ConfigText.EditSectionedReads: file texts are sequences of characters; unreadable or missing files are the empty text, as in
  the code, and keys written are those of the tables, which hold no equals sign, bracket or hash in front.
- `str::lines` follows current Rust, where a carriage return is removed only before a line feed.
- OnlineBitmap.QueryOnlineStates: the client's connection errors and retries are not modelled.
- RelayRotation.Fair: the list is unchanged; the health check that replaces it is not modelled.
- Orders.ActivatedOnce: handlers are serial; two gateways reading the same pending order at once are not modelled.
- Orders.Database.GetActive: rows created in the same second are in table order where SQLite leaves it open, and deleting
  users or orders is not modelled. How times are stored is up to the database library: with a `T` between date and time,
  as its current text format writes them, the query at src/subscription.rs:138 compares days (`TextComparesByDay`). The
  model takes either reading as a parameter, and every result holds for both.
- The amounts, currencies, payment links and paid times of orders, and the limits of plans.
- Unused alternatives (`src/rendezvous_server_capnp.rs`, `src/database_v2.rs`), web pages, password resets, `nat-client` and
  the rest of `docs/upstream-refs`: the alternatives are not built into the library, and the others are separate programs
  and features that share no state with what is modelled.
