/**
 * The relay's pairing table under every interleaving of its lock acquisitions. Looking a uuid up, parking a stream
 * and removing it after thirty seconds are separate critical sections, taken by one task per connection.
 */
module RelayPairing {

  type Conn = nat

  const WAIT_MS := 30_000

  /** Where the task of a connection stands. A parked task sleeps; its stream is in the table or was moved on. */
  datatype Stage = Arrived | Missed | Parked | Relaying(peer: Conn) | Ended

  /** Why a stream was dropped. */
  datatype Reason = RelayOver | Replaced(who: Conn) | Expired(who: Conn, at: int)

  datatype Pair = Pair(newer: Conn, waiting: Conn)

  datatype State = State(
    clock: int,
    uuid: map<Conn, string>,
    stage: map<Conn, Stage>,
    deadline: map<Conn, int>,
    table: map<string, Conn>,
    takenBy: map<Conn, Conn>,
    gone: map<Conn, Reason>,
    pairs: seq<Pair>)

  /** One critical section of one task, or the passing of time. */
  datatype Event =
    | Hello(c: Conn, licence: string, id: string)
    | Take(c: Conn)
    | Park(c: Conn)
    | Expire(c: Conn)
    | Finish(c: Conn)
    | Tick(ms: nat)

  const INIT := State(0, map[], map[], map[], map[], map[], map[], [])

  predicate At(s: State, c: Conn, g: Stage) { c in s.stage && s.stage[c] == g }

  predicate Authenticated(key: string, licence: string, id: string) {
    (key == "" || licence == key) && id != ""
  }

  predicate Misses(s: State, c: Conn) { At(s, c, Arrived) && c in s.uuid && s.uuid[c] !in s.table }

  predicate Hits(s: State, c: Conn) { At(s, c, Arrived) && c in s.uuid && s.uuid[c] in s.table }

  predicate CanPark(s: State, c: Conn) { At(s, c, Missed) && c in s.uuid }

  predicate CanExpire(s: State, c: Conn) {
    At(s, c, Parked) && c in s.uuid && c in s.deadline && s.deadline[c] <= s.clock
  }

  predicate CanFinish(s: State, c: Conn) { c in s.stage && s.stage[c].Relaying? }

  function Drop(s: State, u: string, r: Reason): map<Conn, Reason> {
    if u in s.table then s.gone[s.table[u] := r] else s.gone
  }

  /** What an event does; an event that is not enabled does nothing. */
  function Step(key: string, s: State, ev: Event): State {
    match ev
    case Hello(c, licence, id) =>
      if c in s.stage || !Authenticated(key, licence, id) then s
      else s.(uuid := s.uuid[c := id], stage := s.stage[c := Arrived])
    case Take(c) =>
      if Hits(s, c) then
        var p := s.table[s.uuid[c]];
        s.(table := s.table - {s.uuid[c]}, stage := s.stage[c := Relaying(p)], 
          takenBy := s.takenBy[p := c], pairs := s.pairs + [Pair(c, p)])
      else if Misses(s, c) then s.(stage := s.stage[c := Missed])
      else s
    case Park(c) =>
      if !CanPark(s, c) then s
      else s.(gone := Drop(s, s.uuid[c], Replaced(c)), table := s.table[s.uuid[c] := c],
              stage := s.stage[c := Parked], deadline := s.deadline[c := s.clock + WAIT_MS])
    case Expire(c) =>
      if !CanExpire(s, c) then s
      else s.(gone := Drop(s, s.uuid[c], Expired(c, s.clock)), table := s.table - {s.uuid[c]},
              stage := s.stage[c := Ended])
    case Finish(c) =>
      if !CanFinish(s, c) then s
      else s.(gone := s.gone[c := RelayOver][s.stage[c].peer := RelayOver], stage := s.stage[c := Ended],
              takenBy := s.takenBy - {s.stage[c].peer})
    case Tick(ms) => s.(clock := s.clock + ms)
  }

  function Run(key: string, s: State, evs: seq<Event>): State
    decreases evs
  {
    if evs == [] then s else Run(key, Step(key, s, evs[0]), evs[1..])
  }

  // ---- where a stream is ---------------------------------------------------

  /** Still owned by its own task, not yet parked. */
  predicate Held(s: State, c: Conn) { At(s, c, Arrived) || At(s, c, Missed) }

  ghost predicate Waiting(s: State, c: Conn) { exists u :: u in s.table && s.table[u] == c }

  /** Moved out of the table into the task of the newer connection. */
  predicate Taken(s: State, c: Conn) { c in s.takenBy }

  predicate InRelay(s: State, c: Conn) {
    (c in s.stage && s.stage[c].Relaying?) || Taken(s, c)
  }

  predicate Dropped(s: State, c: Conn) { c in s.gone }

  /** Exactly one of the four places. */
  ghost predicate ExactlyOnePlace(s: State, c: Conn) {
    && (Held(s, c) || Waiting(s, c) || InRelay(s, c) || Dropped(s, c))
    && !(Held(s, c) && Waiting(s, c)) && !(Held(s, c) && InRelay(s, c)) && !(Held(s, c) && Dropped(s, c))
    && !(Waiting(s, c) && InRelay(s, c)) && !(Waiting(s, c) && Dropped(s, c)) && !(InRelay(s, c) && Dropped(s, c))
  }

  // ---- the invariant -------------------------------------------------------

  ghost predicate TableOk(s: State) { forall u :: u in s.table ==> EntryOk(s, u) }

  predicate EntryOk(s: State, u: string) {
    u in s.table ==>
      var c := s.table[u];
      c in s.uuid && s.uuid[c] == u && At(s, c, Parked) && c !in s.gone && c in s.deadline
  }

  /** Streams being relayed: two different streams of one uuid, one owner each, none of them waiting or dropped. */
  ghost predicate RelaysOk(s: State) {
    && (forall d :: d in s.takenBy ==> RelayOk(s, d, s.takenBy[d]))
    && (forall c :: c in s.stage ==> OwnerOk(s, c))
  }

  predicate OwnerOk(s: State, c: Conn) {
    c in s.stage && s.stage[c].Relaying? ==> s.stage[c].peer in s.takenBy && s.takenBy[s.stage[c].peer] == c
  }

  predicate RelayOk(s: State, d: Conn, c: Conn) {
    && d != c && At(s, c, Relaying(d)) && (At(s, d, Parked) || At(s, d, Ended))
    && d in s.uuid && c in s.uuid && s.uuid[d] == s.uuid[c]
    && d !in s.gone && c !in s.gone
    && !(s.uuid[d] in s.table && s.table[s.uuid[d]] == d)
  }

  ghost predicate PlacesOk(s: State) {
    && s.uuid.Keys == s.stage.Keys
    && (forall c :: c in s.gone ==> c in s.stage && (s.stage[c] == Parked || s.stage[c] == Ended))
    && (forall c :: c in s.stage && s.stage[c] == Parked ==> c in s.deadline)
    && (forall c :: c in s.deadline ==> c in s.stage && (s.stage[c] == Parked || s.stage[c] == Ended))
    && (forall c :: c in s.stage ==> SleeperOk(s, c))
  }

  /** `PlacesOk` of one stream, but for where a sleeper is. */
  predicate ShapeOk(s: State, c: Conn) {
    && (c in s.uuid <==> c in s.stage)
    && (c in s.gone ==> At(s, c, Parked) || At(s, c, Ended))
    && (At(s, c, Parked) ==> c in s.deadline)
    && (c in s.deadline ==> At(s, c, Parked) || At(s, c, Ended))
  }

  /** A stream given to the table is still there, in a relay, or dropped. */
  predicate SleeperOk(s: State, c: Conn) {
    At(s, c, Parked) || At(s, c, Ended) ==>
      (c in s.uuid && s.uuid[c] in s.table && s.table[s.uuid[c]] == c) || Taken(s, c) || c in s.gone
  }

  /** A stream that has left for good: in a relay, or dropped. */
  ghost predicate Spent(s: State, c: Conn) { InRelay(s, c) || c in s.gone }

  ghost predicate PairOk(s: State, p: Pair) {
    && p.newer != p.waiting
    && p.newer in s.uuid && p.waiting in s.uuid && s.uuid[p.newer] == s.uuid[p.waiting]
    && Spent(s, p.newer) && Spent(s, p.waiting)
  }

  predicate Apart(p: Pair, q: Pair) {
    p.newer != q.newer && p.newer != q.waiting && p.waiting != q.newer && p.waiting != q.waiting
  }

  ghost predicate PairsOk(s: State) {
    && (forall i :: 0 <= i < |s.pairs| ==> PairOk(s, s.pairs[i]))
    && (forall i, j :: 0 <= i < j < |s.pairs| ==> Apart(s.pairs[i], s.pairs[j]))
  }

  /** A waiting stream was the last to park under its uuid, and drops have a cause under the same uuid. */
  ghost predicate CausesOk(s: State) {
    DeadlinesOk(s) && forall c :: c in s.gone ==> CauseOk(s, c, s.gone[c])
  }

  ghost predicate DeadlinesOk(s: State) {
    && (forall c :: c in s.deadline ==> s.deadline[c] <= s.clock + WAIT_MS)
    && (forall u, d :: u in s.table && d in s.deadline && d in s.uuid && s.uuid[d] == u && s.table[u] in s.deadline ==>
          s.deadline[d] <= s.deadline[s.table[u]])
  }

  ghost predicate CauseOk(s: State, c: Conn, r: Reason) {
    match r
    case RelayOver => true
    case Replaced(who) => who != c && who in s.uuid && c in s.uuid && s.uuid[who] == s.uuid[c]
    case Expired(who, at) =>
      && who in s.uuid && c in s.uuid && s.uuid[who] == s.uuid[c]
      && who in s.deadline && c in s.deadline && s.deadline[who] <= at && s.deadline[who] <= s.deadline[c]
  }

  ghost predicate Inv(s: State) {
    TableOk(s) && RelaysOk(s) && PlacesOk(s) && PairsOk(s) && CausesOk(s)
  }

  // ---- every critical section keeps the invariant ------------------------------

  /** An old pair stays as good as it was while no spent stream becomes unspent. */
  lemma OldPairs(s: State, t: State)
    requires PairsOk(s) && t.pairs == s.pairs
    requires forall c :: c in s.uuid ==> c in t.uuid && t.uuid[c] == s.uuid[c]
    requires forall c :: Spent(s, c) ==> Spent(t, c)
    ensures PairsOk(t)
  {
    forall i | 0 <= i < |t.pairs| ensures PairOk(t, t.pairs[i]) { assert PairOk(s, s.pairs[i]); }
  }

  /** What all but the pairs and the causes of drops rest on. */
  ghost predicate Core(s: State) { TableOk(s) && RelaysOk(s) && PlacesOk(s) }

  predicate CanFinishBy(s: State, ev: Event) { ev.Finish? && CanFinish(s, ev.c) }

  /** Before a stream is given away. */
  predicate Early(ev: Event) { ev.Hello? || ev.Take? || ev.Tick? }

  /** The two ends of a relay. */
  lemma FinishHint(s: State, c: Conn)
    requires Core(s) && CanFinish(s, c)
    ensures var d := s.stage[c].peer; d in s.takenBy && s.takenBy[d] == c && RelayOk(s, d, c)
  {
    assert OwnerOk(s, c);
  }

  lemma ShapeHolds(s: State, c: Conn)
    requires PlacesOk(s)
    ensures ShapeOk(s, c)
  {
    assert c in s.uuid.Keys <==> c in s.stage.Keys;
  }

  lemma EntryStepEarly(key: string, s: State, ev: Event, u: string)
    requires Core(s) && Early(ev)
    ensures EntryOk(Step(key, s, ev), u)
  {
    if u in s.table { assert EntryOk(s, u); }
  }

  lemma EntryStepLate(key: string, s: State, ev: Event, u: string)
    requires Core(s) && !Early(ev)
    ensures EntryOk(Step(key, s, ev), u)
  {
    if u in s.table { assert EntryOk(s, u); }
    if CanFinishBy(s, ev) { FinishHint(s, ev.c); }
  }

  lemma EntryStep(key: string, s: State, ev: Event, u: string)
    requires Core(s)
    ensures EntryOk(Step(key, s, ev), u)
  {
    if Early(ev) { EntryStepEarly(key, s, ev, u); } else { EntryStepLate(key, s, ev, u); }
  }

  lemma RelayStarts(key: string, s: State, c: Conn, d: Conn)
    requires Core(s) && Hits(s, c)
    ensures var t := Step(key, s, Take(c)); d in t.takenBy ==> RelayOk(t, d, t.takenBy[d])
  {
    if d in s.takenBy { assert RelayOk(s, d, s.takenBy[d]); }
  }

  lemma RelayGoesOn(key: string, s: State, ev: Event, d: Conn)
    requires Core(s) && Early(ev) && !(ev.Take? && Hits(s, ev.c))
    ensures var t := Step(key, s, ev); d in t.takenBy ==> RelayOk(t, d, t.takenBy[d])
  {
    if d in s.takenBy { assert RelayOk(s, d, s.takenBy[d]); }
  }

  lemma RelaySurvives(key: string, s: State, ev: Event, d: Conn)
    requires Core(s) && (ev.Park? || ev.Expire?)
    ensures var t := Step(key, s, ev); d in t.takenBy ==> RelayOk(t, d, t.takenBy[d])
  {
    if d in s.takenBy {
      assert RelayOk(s, d, s.takenBy[d]);
      if ev.c in s.uuid { assert s.uuid[ev.c] in s.table ==> EntryOk(s, s.uuid[ev.c]); }
    }
  }

  lemma RelayEnds(key: string, s: State, c: Conn, d: Conn)
    requires Core(s)
    ensures var t := Step(key, s, Finish(c)); d in t.takenBy ==> RelayOk(t, d, t.takenBy[d])
  {
    if d in s.takenBy { assert RelayOk(s, d, s.takenBy[d]); }
    if CanFinish(s, c) { FinishHint(s, c); }
  }

  lemma RelayStep(key: string, s: State, ev: Event, d: Conn)
    requires Core(s)
    ensures var t := Step(key, s, ev); d in t.takenBy ==> RelayOk(t, d, t.takenBy[d])
  {
    if ev.Take? && Hits(s, ev.c) { RelayStarts(key, s, ev.c, d); }
    else if ev.Finish? { RelayEnds(key, s, ev.c, d); }
    else if !Early(ev) { RelaySurvives(key, s, ev, d); }
    else { RelayGoesOn(key, s, ev, d); }
  }

  lemma OwnerStep(key: string, s: State, ev: Event, c: Conn)
    requires Core(s)
    ensures OwnerOk(Step(key, s, ev), c)
  {
    if c in s.stage { assert OwnerOk(s, c); }
    if ev.Finish? && ev.c in s.stage { assert OwnerOk(s, ev.c); }
  }

  lemma SleeperStep(key: string, s: State, ev: Event, c: Conn)
    requires Core(s)
    ensures SleeperOk(Step(key, s, ev), c)
  {
    if c in s.stage { assert SleeperOk(s, c); }
  }

  lemma SpentStep(key: string, s: State, ev: Event, c: Conn)
    requires Core(s) && Spent(s, c)
    ensures Spent(Step(key, s, ev), c)
  {
    if c in s.stage { assert OwnerOk(s, c); }
    if c in s.takenBy { assert RelayOk(s, c, s.takenBy[c]); }
  }

  lemma ShapeStepEarly(key: string, s: State, ev: Event, c: Conn)
    requires Core(s) && Early(ev)
    ensures ShapeOk(Step(key, s, ev), c)
  {
    ShapeHolds(s, c);
  }

  lemma ShapeStepLate(key: string, s: State, ev: Event, c: Conn)
    requires Core(s) && !Early(ev)
    ensures ShapeOk(Step(key, s, ev), c)
  {
    ShapeHolds(s, c);
    if CanFinishBy(s, ev) { FinishHint(s, ev.c); }
  }

  lemma ShapeStep(key: string, s: State, ev: Event, c: Conn)
    requires Core(s)
    ensures ShapeOk(Step(key, s, ev), c)
  {
    if Early(ev) { ShapeStepEarly(key, s, ev, c); } else { ShapeStepLate(key, s, ev, c); }
  }

  lemma PlacesStep(key: string, s: State, ev: Event)
    requires Core(s)
    ensures PlacesOk(Step(key, s, ev))
  {
    var t := Step(key, s, ev);
    forall c ensures SleeperOk(t, c) && ShapeOk(t, c) {
      SleeperStep(key, s, ev, c);
      ShapeStep(key, s, ev, c);
    }
    AllPlaced(t);
  }

  lemma AllPlaced(t: State)
    requires forall c :: SleeperOk(t, c) && ShapeOk(t, c)
    ensures PlacesOk(t)
  {
    forall c ensures c in t.uuid <==> c in t.stage { assert ShapeOk(t, c); }
    assert t.uuid.Keys == t.stage.Keys;
    forall c | c in t.gone ensures c in t.stage && (t.stage[c] == Parked || t.stage[c] == Ended) {
      assert ShapeOk(t, c);
    }
    forall c | c in t.stage && t.stage[c] == Parked ensures c in t.deadline { assert ShapeOk(t, c); }
    forall c | c in t.deadline ensures c in t.stage && (t.stage[c] == Parked || t.stage[c] == Ended) {
      assert ShapeOk(t, c);
    }
  }

  lemma CauseStep(key: string, s: State, ev: Event, c: Conn)
    requires Inv(s)
    ensures var t := Step(key, s, ev); c in t.gone ==> CauseOk(t, c, t.gone[c])
  {
    if c in s.gone { assert CauseOk(s, c, s.gone[c]); }
  }

  lemma DeadlineStep(key: string, s: State, ev: Event)
    requires Inv(s)
    ensures DeadlinesOk(Step(key, s, ev))
  {
  }

  /** The two streams of a new pair were free before and are spent now. */
  lemma NewPair(key: string, s: State, c: Conn)
    requires Inv(s) && Hits(s, c)
    ensures var p := s.table[s.uuid[c]];
      !Spent(s, c) && !Spent(s, p) && PairOk(Step(key, s, Take(c)), Pair(c, p))
  {
  }

  lemma AddPair(s: State, t: State, p: Pair)
    requires PairsOk(s) && t.pairs == s.pairs + [p] && t.uuid == s.uuid
    requires forall d :: Spent(s, d) ==> Spent(t, d)
    requires PairOk(t, p) && !Spent(s, p.newer) && !Spent(s, p.waiting)
    ensures PairsOk(t)
  {
    forall i | 0 <= i < |t.pairs| ensures PairOk(t, t.pairs[i]) {
      if i < |s.pairs| { assert PairOk(s, s.pairs[i]); }
    }
    forall i, j | 0 <= i < j < |t.pairs| ensures Apart(t.pairs[i], t.pairs[j]) {
      assert PairOk(s, s.pairs[i]);
    }
  }

  lemma PairsStep(key: string, s: State, ev: Event)
    requires Inv(s)
    ensures PairsOk(Step(key, s, ev))
  {
    var t := Step(key, s, ev);
    forall c | Spent(s, c) ensures Spent(t, c) { SpentStep(key, s, ev, c); }
    if ev.Take? && Hits(s, ev.c) {
      NewPair(key, s, ev.c);
      AddPair(s, t, Pair(ev.c, s.table[s.uuid[ev.c]]));
    } else {
      UuidsStay(key, s, ev);
      OldPairs(s, t);
    }
  }

  lemma UuidsStay(key: string, s: State, ev: Event)
    requires Inv(s)
    ensures var t := Step(key, s, ev); forall c :: c in s.uuid ==> c in t.uuid && t.uuid[c] == s.uuid[c]
  {
  }

  /** Every critical section of every task keeps the invariant. */
  lemma StepKeeps(key: string, s: State, ev: Event)
    requires Inv(s)
    ensures Inv(Step(key, s, ev))
  {
    var t := Step(key, s, ev);
    forall u | u in t.table ensures EntryOk(t, u) { EntryStep(key, s, ev, u); }
    PlacesStep(key, s, ev);
    PairsStep(key, s, ev);
    DeadlineStep(key, s, ev);
    forall d | d in t.takenBy ensures RelayOk(t, d, t.takenBy[d]) { RelayStep(key, s, ev, d); }
    forall c ensures OwnerOk(t, c) { OwnerStep(key, s, ev, c); }
    forall c | c in t.gone ensures CauseOk(t, c, t.gone[c]) { CauseStep(key, s, ev, c); }
  }

  lemma {:induction false} RunKeeps(key: string, s: State, evs: seq<Event>)
    requires Inv(s)
    ensures Inv(Run(key, s, evs))
    decreases evs
  {
    if evs != [] {
      StepKeeps(key, s, evs[0]);
      RunKeeps(key, Step(key, s, evs[0]), evs[1..]);
    }
  }

  // ---- main results -----------------------------------------------------------

  lemma PlaceOfEach(s: State, c: Conn)
    requires Inv(s) && c in s.stage
    ensures ExactlyOnePlace(s, c)
  {
    assert SleeperOk(s, c);
    if s.uuid[c] in s.table && s.table[s.uuid[c]] == c { assert Waiting(s, c); }
  }

  /**
   * Under every interleaving of any number of tasks: each authenticated stream is in exactly one place; the streams
   * of a pair are different and asked for the same uuid; no stream is in two pairs; and the stream of a task that
   * has run its expiry step is no longer in the table.
   */
  lemma PairingSafe(key: string, evs: seq<Event>)
    ensures var s := Run(key, INIT, evs);
      && (forall c :: c in s.stage ==> ExactlyOnePlace(s, c))
      && (forall i :: 0 <= i < |s.pairs| ==>
            s.pairs[i].newer != s.pairs[i].waiting && s.pairs[i].newer in s.uuid && s.pairs[i].waiting in s.uuid
            && s.uuid[s.pairs[i].newer] == s.uuid[s.pairs[i].waiting])
      && (forall i, j :: 0 <= i < j < |s.pairs| ==> Apart(s.pairs[i], s.pairs[j]))
      && (forall c :: At(s, c, Ended) ==> !Waiting(s, c))
  {
    RunKeeps(key, INIT, evs);
    var s := Run(key, INIT, evs);
    forall c | c in s.stage ensures ExactlyOnePlace(s, c) { PlaceOfEach(s, c); }
    forall i | 0 <= i < |s.pairs| ensures PairOk(s, s.pairs[i]) {}
  }

  /**
   * Why an unpaired stream is dropped, in every run: another task parked the same uuid over it, or an alarm of a
   * task with the same uuid went off, its own or one set no later than its own.
   */
  lemma DropsExplained(key: string, evs: seq<Event>, c: Conn)
    ensures var s := Run(key, INIT, evs);
      c in s.gone ==> CauseOk(s, c, s.gone[c])
  {
    RunKeeps(key, INIT, evs);
  }

  // ---- when a waiting stream is safe -----------------------------------------------

  /** The stream waits in the table under its own uuid. */
  predicate Waits(s: State, c: Conn) { c in s.uuid && s.uuid[c] in s.table && s.table[s.uuid[c]] == c }

  /** Another task of the same uuid that is still to park, or whose alarm is still to go off. */
  predicate Rival(s: State, c: Conn, d: Conn) {
    d != c && c in s.uuid && d in s.uuid && s.uuid[d] == s.uuid[c] && (At(s, d, Missed) || At(s, d, Parked))
  }

  ghost predicate Unrivalled(s: State, c: Conn) { forall d :: !Rival(s, c, d) }

  /** If the stream was dropped, then after its relay or by its own alarm. */
  predicate Undisturbed(s: State, c: Conn) {
    c in s.gone ==> s.gone[c] == RelayOver || (s.gone[c].Expired? && s.gone[c].who == c)
  }

  /** A waiting stream leaves the table exactly by an enabled section of a task with its uuid. */
  lemma LeavesExactly(key: string, s: State, ev: Event, c: Conn)
    requires Inv(s) && Waits(s, c)
    ensures !Waits(Step(key, s, ev), c) <==>
      || (ev.Take? && Hits(s, ev.c) && s.uuid[ev.c] == s.uuid[c])
      || (ev.Park? && CanPark(s, ev.c) && s.uuid[ev.c] == s.uuid[c])
      || (ev.Expire? && CanExpire(s, ev.c) && s.uuid[ev.c] == s.uuid[c])
  {
  }

  /** Safe: waiting without a rival, moved into a relay, or dropped for a reason of its own. */
  ghost predicate Safe(s: State, c: Conn) {
    (Waits(s, c) && Unrivalled(s, c)) || Taken(s, c) || (c in s.gone && Undisturbed(s, c))
  }

  lemma NoRivalArises(key: string, s: State, ev: Event, c: Conn, d: Conn)
    requires Core(s) && Waits(s, c) && !Rival(s, c, d) && Waits(Step(key, s, ev), c)
    ensures !Rival(Step(key, s, ev), c, d)
  {
    ShapeHolds(s, d);
  }

  lemma WaitingStep(key: string, s: State, ev: Event, c: Conn)
    requires Inv(s) && Waits(s, c) && Unrivalled(s, c)
    ensures Safe(Step(key, s, ev), c)
  {
    LeavesExactly(key, s, ev, c);
    var t := Step(key, s, ev);
    if Waits(t, c) {
      forall d ensures !Rival(t, c, d) { NoRivalArises(key, s, ev, c, d); }
    } else if !ev.Take? {
      assert !Rival(s, c, ev.c);
    }
  }

  lemma LeftStep(key: string, s: State, ev: Event, c: Conn)
    requires Inv(s) && (Taken(s, c) || (c in s.gone && Undisturbed(s, c)))
    ensures Safe(Step(key, s, ev), c)
  {
    if c in s.takenBy { assert RelayOk(s, c, s.takenBy[c]); }
  }

  lemma {:induction false} StaysSafe(key: string, s: State, evs: seq<Event>, c: Conn)
    requires Inv(s) && Safe(s, c)
    ensures Undisturbed(Run(key, s, evs), c)
    decreases evs
  {
    if evs == [] {
      SafeIsUndisturbed(s, c);
    } else {
      if Waits(s, c) && Unrivalled(s, c) { WaitingStep(key, s, evs[0], c); } else { LeftStep(key, s, evs[0], c); }
      StepKeeps(key, s, evs[0]);
      StaysSafe(key, Step(key, s, evs[0]), evs[1..], c);
    }
  }

  lemma SafeIsUndisturbed(s: State, c: Conn)
    requires Inv(s) && Safe(s, c)
    ensures Undisturbed(s, c)
  {
    if c in s.takenBy { assert RelayOk(s, c, s.takenBy[c]); }
  }

  /** What a rival can do to a waiting stream: park over it, or sleep on and remove it. */
  function Attack(s: State, d: Conn): seq<Event> {
    if At(s, d, Missed) then [Park(d)] else [Tick(WAIT_MS)] + [Expire(d)]
  }

  lemma ParkDisturbs(key: string, s: State, c: Conn, d: Conn)
    requires Inv(s) && Waits(s, c) && Rival(s, c, d) && At(s, d, Missed)
    ensures !Undisturbed(Step(key, s, Park(d)), c)
  {
  }

  lemma AlarmDisturbs(key: string, s: State, c: Conn, d: Conn)
    requires Inv(s) && Waits(s, c) && Rival(s, c, d) && At(s, d, Parked)
    ensures !Undisturbed(Step(key, Step(key, s, Tick(WAIT_MS)), Expire(d)), c)
  {
    var t := Step(key, s, Tick(WAIT_MS));
    assert CanExpire(t, d) && t.table == s.table;
  }

  lemma AttackDisturbs(key: string, s: State, c: Conn, d: Conn)
    requires Inv(s) && Waits(s, c) && Rival(s, c, d)
    ensures !Undisturbed(Run(key, s, Attack(s, d)), c)
  {
    if At(s, d, Missed) {
      ParkDisturbs(key, s, c, d);
      assert [Park(d)] == [Park(d)] + [];
      RunCons(key, s, Park(d), []);
    } else {
      AlarmDisturbs(key, s, c, d);
      RunCons(key, s, Tick(WAIT_MS), [Expire(d)]);
      assert [Expire(d)] == [Expire(d)] + [];
      RunCons(key, Step(key, s, Tick(WAIT_MS)), Expire(d), []);
    }
  }

  /**
   * Whatever happens next, a waiting stream is never dropped but after its relay or by its own alarm, exactly when
   * no other task of its uuid has missed and is still to park, or has parked and still sleeps.
   */
  lemma SafeExactly(key: string, s: State, c: Conn)
    requires Inv(s) && Waits(s, c)
    ensures (forall evs :: Undisturbed(Run(key, s, evs), c)) <==>
      (forall d :: d in s.uuid && d != c && s.uuid[d] == s.uuid[c] ==> !At(s, d, Missed) && !At(s, d, Parked))
  {
    if Unrivalled(s, c) {
      forall evs ensures Undisturbed(Run(key, s, evs), c) { StaysSafe(key, s, evs, c); }
      forall d | d in s.uuid && d != c && s.uuid[d] == s.uuid[c] ensures !At(s, d, Missed) && !At(s, d, Parked) {
        assert !Rival(s, c, d);
      }
    } else {
      var d :| Rival(s, c, d);
      AttackDisturbs(key, s, c, d);
    }
  }

  /** The same for every state a run of the relay reaches. */
  lemma ReachedSafeExactly(key: string, past: seq<Event>, c: Conn)
    requires Waits(Run(key, INIT, past), c)
    ensures var s := Run(key, INIT, past);
      (forall evs :: Undisturbed(Run(key, s, evs), c)) <==>
      (forall d :: d in s.uuid && d != c && s.uuid[d] == s.uuid[c] ==> !At(s, d, Missed) && !At(s, d, Parked))
  {
    RunKeeps(key, INIT, past);
    SafeExactly(key, Run(key, INIT, past), c);
  }

  // ---- what the split locks cost --------------------------------------------------

  /** Every lookup is immediately followed by the parking it may lead to. */
  predicate Adjacent(evs: seq<Event>) {
    forall i :: 0 <= i < |evs| && evs[i].Take? ==> i + 1 < |evs| && evs[i + 1] == Park(evs[i].c)
  }

  predicate NothingReplaced(s: State) {
    && (forall c :: c in s.gone ==> !s.gone[c].Replaced?)
    && (forall c :: c in s.stage ==> s.stage[c] != Missed)
  }

  lemma HitParksNothing(key: string, s: State, c: Conn)
    requires NothingReplaced(s) && Hits(s, c)
    ensures var t := Step(key, s, Take(c)); NothingReplaced(t) && !CanPark(t, c)
  {
  }

  lemma MissParksFirst(key: string, s: State, c: Conn)
    requires NothingReplaced(s) && Misses(s, c)
    ensures var t := Step(key, s, Take(c)); CanPark(t, c) && NothingReplaced(Step(key, t, Park(c)))
  {
    var t := Step(key, s, Take(c));
    assert Drop(t, t.uuid[c], Replaced(c)) == s.gone;
  }

  lemma TakeThenPark(key: string, s: State, c: Conn)
    requires NothingReplaced(s)
    ensures NothingReplaced(Step(key, Step(key, s, Take(c)), Park(c)))
  {
    if Hits(s, c) { HitParksNothing(key, s, c); } else if Misses(s, c) { MissParksFirst(key, s, c); }
  }

  lemma OtherStepsReplaceNothing(key: string, s: State, ev: Event)
    requires NothingReplaced(s) && !ev.Take?
    ensures NothingReplaced(Step(key, s, ev))
  {
  }

  lemma AdjacentTail(evs: seq<Event>, n: nat)
    requires Adjacent(evs) && n <= |evs|
    ensures Adjacent(evs[n..])
  {
    forall i | 0 <= i < |evs[n..]| && evs[n..][i].Take?
      ensures i + 1 < |evs[n..]| && evs[n..][i + 1] == Park(evs[n..][i].c)
    {
      assert evs[n..][i] == evs[i + n];
    }
  }

  /** If lookup and parking were one critical section, no parked stream would ever be parked over. */
  lemma {:induction false} AtomicNeverReplaces(key: string, s: State, evs: seq<Event>)
    requires NothingReplaced(s) && Adjacent(evs)
    ensures NothingReplaced(Run(key, s, evs))
    decreases |evs|
  {
    if evs != [] {
      var ev := evs[0];
      var t := Step(key, s, ev);
      if ev.Take? {
        TakeThenPark(key, s, ev.c);
        AdjacentTail(evs, 2);
        assert evs[1..][1..] == evs[2..];
        AtomicNeverReplaces(key, Step(key, t, Park(ev.c)), evs[2..]);
      } else {
        OtherStepsReplaceNothing(key, s, ev);
        AdjacentTail(evs, 1);
        AtomicNeverReplaces(key, t, evs[1..]);
      }
    }
  }

  lemma RunCons(key: string, s: State, ev: Event, rest: seq<Event>)
    ensures Run(key, s, [ev] + rest) == Run(key, Step(key, s, ev), rest)
  {
    assert ([ev] + rest)[1..] == rest;
  }

  lemma RunThree(key: string, s: State, a: Event, b: Event, c: Event)
    ensures Run(key, s, [a, b, c]) == Step(key, Step(key, Step(key, s, a), b), c)
  {
    assert [a, b, c] == [a] + ([b] + ([c] + []));
    RunCons(key, s, a, [b] + ([c] + []));
    RunCons(key, Step(key, s, a), b, [c] + []);
    RunCons(key, Step(key, Step(key, s, a), b), c, []);
  }

  lemma {:induction false} RunConcat(key: string, s: State, a: seq<Event>, b: seq<Event>)
    ensures Run(key, s, a + b) == Run(key, Run(key, s, a), b)
    decreases a
  {
    if a == [] {
      assert a + b == b;
    } else {
      assert (a + b)[1..] == a[1..] + b;
      RunConcat(key, Step(key, s, a[0]), a[1..], b);
    }
  }

  /** Two streams of one uuid that have both looked and missed. */
  function BothMissed(u: string): State {
    State(0, map[1 := u, 2 := u], map[1 := Missed, 2 := Missed], map[], map[], map[], map[], [])
  }

  lemma BothMiss(u: string)
    requires u != ""
    ensures Run("", INIT, [Hello(1, "", u), Hello(2, "", u), Take(1)] + [Take(2)]) == BothMissed(u)
  {
    RunConcat("", INIT, [Hello(1, "", u), Hello(2, "", u), Take(1)], [Take(2)]);
    RunThree("", INIT, Hello(1, "", u), Hello(2, "", u), Take(1));
    var s2 := Step("", Step("", INIT, Hello(1, "", u)), Hello(2, "", u));
    assert s2 == State(0, map[1 := u, 2 := u], map[1 := Arrived, 2 := Arrived], map[], map[], map[], map[], []);
    var s3 := Step("", s2, Take(1));
    assert [Take(2)] == [Take(2)] + [];
    RunCons("", s3, Take(2), []);
    assert Step("", s3, Take(2)) == BothMissed(u);
  }

  /** With separate sections, two streams that want each other can both miss, and the second parks over the first. */
  lemma RaceLosesStream(u: string)
    requires u != ""
    ensures var evs := [Hello(1, "", u), Hello(2, "", u), Take(1)] + [Take(2)] + [Park(1), Park(2), Tick(0)];
            var s := Run("", INIT, evs);
            s.pairs == [] && 1 in s.gone && s.gone[1] == Replaced(2)
  {
    BothMiss(u);
    RunConcat("", INIT, [Hello(1, "", u), Hello(2, "", u), Take(1)] + [Take(2)], [Park(1), Park(2), Tick(0)]);
    RunThree("", BothMissed(u), Park(1), Park(2), Tick(0));
    SecondParksOver(u);
  }

  lemma SecondParksOver(u: string)
    ensures var s := Step("", Step("", BothMissed(u), Park(1)), Park(2));
            s.pairs == [] && 1 in s.gone && s.gone[1] == Replaced(2)
  {
    var s := Step("", BothMissed(u), Park(1));
    assert s.table == map[u := 1] && s.uuid == map[1 := u, 2 := u] && CanPark(s, 2);
  }

  /** Stream 1 parked at time 0 and stream 2 has just taken it. */
  function PairedEarly(u: string): State {
    State(0, map[1 := u, 2 := u], map[1 := Parked, 2 := Relaying(1)], map[1 := 30_000], map[], map[1 := 2], map[],
      [Pair(2, 1)])
  }

  lemma PairEarly(u: string)
    requires u != ""
    ensures Run("", INIT, [Hello(1, "", u), Take(1), Park(1)] + [Hello(2, "", u), Take(2), Tick(0)]) == PairedEarly(u)
  {
    RunConcat("", INIT, [Hello(1, "", u), Take(1), Park(1)], [Hello(2, "", u), Take(2), Tick(0)]);
    RunThree("", INIT, Hello(1, "", u), Take(1), Park(1));
    ParkFirst(u);
    RunThree("", ParkedFirst(u), Hello(2, "", u), Take(2), Tick(0));
    PairSecond(u);
  }

  function ParkedFirst(u: string): State {
    State(0, map[1 := u], map[1 := Parked], map[1 := 30_000], map[u := 1], map[], map[], [])
  }

  lemma ParkFirst(u: string)
    requires u != ""
    ensures Step("", Step("", Step("", INIT, Hello(1, "", u)), Take(1)), Park(1)) == ParkedFirst(u)
  {
    var a := State(0, map[1 := u], map[1 := Arrived], map[], map[], map[], map[], []);
    assert Step("", INIT, Hello(1, "", u)) == a;
    var b := State(0, map[1 := u], map[1 := Missed], map[], map[], map[], map[], []);
    assert Step("", a, Take(1)) == b;
    assert Step("", b, Park(1)) == ParkedFirst(u);
  }

  lemma PairSecond(u: string)
    requires u != ""
    ensures Step("", Step("", Step("", ParkedFirst(u), Hello(2, "", u)), Take(2)), Tick(0)) == PairedEarly(u)
  {
    var a := State(0, map[1 := u, 2 := u], map[1 := Parked, 2 := Arrived], map[1 := 30_000], map[u := 1], map[], map[],
      []);
    assert Step("", ParkedFirst(u), Hello(2, "", u)) == a;
    assert Step("", a, Take(2)) == PairedEarly(u);
  }

  /**
   * The alarm of an earlier stream, already paired, removes whatever waits under the same uuid by then: stream 3,
   * parked at 20 s, is dropped at 30 s although its own wait runs to 50 s.
   */
  lemma EarlierAlarmCutsWait(u: string)
    requires u != ""
    ensures var evs := [Hello(1, "", u), Take(1), Park(1)] + [Hello(2, "", u), Take(2), Tick(0)]
              + ([Tick(20_000), Hello(3, "", u), Take(3)] + [Park(3), Tick(10_000), Expire(1)]);
            var t := Run("", INIT, evs);
            3 in t.gone && t.gone[3] == Expired(1, 30_000) && 3 in t.deadline && t.deadline[3] == 50_000
  {
    var early := [Hello(1, "", u), Take(1), Park(1)] + [Hello(2, "", u), Take(2), Tick(0)];
    var late := [Tick(20_000), Hello(3, "", u), Take(3)] + [Park(3), Tick(10_000), Expire(1)];
    RunConcat("", INIT, early, late);
    PairEarly(u);
    CutShort(u);
  }

  lemma CutShort(u: string)
    requires u != ""
    ensures var evs := [Tick(20_000), Hello(3, "", u), Take(3)] + [Park(3), Tick(10_000), Expire(1)];
            var t := Run("", PairedEarly(u), evs);
            3 in t.gone && t.gone[3] == Expired(1, 30_000) && 3 in t.deadline && t.deadline[3] == 50_000
  {
    var s := PairedEarly(u);
    RunConcat("", s, [Tick(20_000), Hello(3, "", u), Take(3)], [Park(3), Tick(10_000), Expire(1)]);
    RunThree("", s, Tick(20_000), Hello(3, "", u), Take(3));
    ThirdMisses(u);
    RunThree("", ThirdMissed(u), Park(3), Tick(10_000), Expire(1));
    ThirdIsDropped(u);
  }

  function ThirdMissed(u: string): State {
    State(20_000, map[1 := u, 2 := u, 3 := u], map[1 := Parked, 2 := Relaying(1), 3 := Missed],
      map[1 := 30_000], map[], map[1 := 2], map[], [Pair(2, 1)])
  }

  lemma ThirdMisses(u: string)
    requires u != ""
    ensures Step("", Step("", Step("", PairedEarly(u), Tick(20_000)), Hello(3, "", u)), Take(3)) == ThirdMissed(u)
  {
    var a := Step("", PairedEarly(u), Tick(20_000));
    var b := Step("", a, Hello(3, "", u));
    assert b.uuid == map[1 := u, 2 := u, 3 := u];
    assert b.stage == map[1 := Parked, 2 := Relaying(1), 3 := Arrived];
    assert Step("", b, Take(3)).stage == ThirdMissed(u).stage;
  }

  lemma ThirdIsDropped(u: string)
    ensures var t := Step("", Step("", Step("", ThirdMissed(u), Park(3)), Tick(10_000)), Expire(1));
      3 in t.gone && t.gone[3] == Expired(1, 30_000) && 3 in t.deadline && t.deadline[3] == 50_000
  {
    var n := Step("", Step("", ThirdMissed(u), Park(3)), Tick(10_000));
    assert n.table == map[u := 3] && CanExpire(n, 1) && n.uuid[1] == u;
  }

  // ---- the shared table and the tasks, as state ---------------------------------------

  class Relay {
    const key: string
    var clock: int
    var uuid: map<Conn, string>
    var stage: map<Conn, Stage>
    var deadline: map<Conn, int>
    var peers: map<string, Conn>
    var takenBy: map<Conn, Conn>
    var gone: map<Conn, Reason>
    var pairs: seq<Pair>

    constructor (key: string)
      ensures this.key == key && Now() == INIT
    {
      this.key := key;
      clock, uuid, stage, deadline := 0, map[], map[], map[];
      peers, takenBy, gone, pairs := map[], map[], map[], [];
    }

    function Now(): State
      reads this
    {
      State(clock, uuid, stage, deadline, peers, takenBy, gone, pairs)
    }

    /** The first message of a connection; a request that is not authenticated ends its task at once. */
    method OnRequest(c: Conn, licence: string, id: string)
      modifies this`uuid, this`stage
      ensures Now() == Step(key, old(Now()), Hello(c, licence, id))
    {
      if c in stage { return; }
      if key != "" && licence != key { return; }
      if id != "" {
        uuid, stage := uuid[c := id], stage[c := Arrived];
      }
    }

    method RemovePeer(id: string) returns (peer: set<Conn>)
      modifies this`peers
      ensures peers == old(peers) - {id}
      ensures peer == if id in old(peers) then {old(peers)[id]} else {}
    {
      peer := if id in peers then {peers[id]} else {};
      peers := peers - {id};
    }

    /** First critical section: take the waiting stream of this uuid, if there is one. */
    method Lookup(c: Conn)
      modifies this
      ensures Now() == Step(key, old(Now()), Take(c))
    {
      if c !in stage || stage[c] != Arrived || c !in uuid { return; }
      var id := uuid[c];
      ghost var before := peers;
      var peer := RemovePeer(id);
      if peer != {} {
        var p :| p in peer;
        stage, takenBy, pairs := stage[c := Relaying(p)], takenBy[p := c], pairs + [Pair(c, p)];
      } else {
        assert peers == before;
        stage := stage[c := Missed];
      }
    }

    /** Second critical section: park the stream; whatever the map held under this uuid is dropped. */
    method ParkStream(c: Conn)
      modifies this
      ensures Now() == Step(key, old(Now()), Park(c))
    {
      if c !in stage || stage[c] != Missed || c !in uuid { return; }
      var id := uuid[c];
      if id in peers {
        gone := gone[peers[id] := Replaced(c)];
      }
      peers := peers[id := c];
      stage, deadline := stage[c := Parked], deadline[c := clock + WAIT_MS];
    }

    /** Third critical section, after the sleep: remove whatever waits under this uuid. */
    method WakeUp(c: Conn)
      modifies this
      ensures Now() == Step(key, old(Now()), Expire(c))
    {
      if c !in stage || stage[c] != Parked || c !in uuid || c !in deadline || clock < deadline[c] { return; }
      var peer := RemovePeer(uuid[c]);
      if peer != {} {
        var p :| p in peer;
        gone := gone[p := Expired(c, clock)];
      }
      stage := stage[c := Ended];
    }

    /** A relay ends: both streams are dropped with its task. */
    method EndRelay(c: Conn)
      modifies this
      ensures Now() == Step(key, old(Now()), Finish(c))
    {
      if c !in stage || !stage[c].Relaying? { return; }
      var p := stage[c].peer;
      gone, takenBy := gone[c := RelayOver][p := RelayOver], takenBy - {p};
      stage := stage[c := Ended];
    }

    method Advance(ms: nat)
      modifies this`clock
      ensures Now() == Step(key, old(Now()), Tick(ms))
    {
      clock := clock + ms;
    }
  }
}
