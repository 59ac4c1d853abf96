/** The relay loop: forwarding frames, charging limiters, metering windows and the downgrade latch. */
module RelayMeter {
  import opened Clock

  type Bytes = seq<bv8>

  datatype Side = FromPeer | FromStream

  /** What the loop's select yields. A frame comes with the time it arrived and whether passing it on succeeded. */
  datatype Wake =
    | Frame(side: Side, bytes: Bytes, at: int, sent: bool)
    | Closed(side: Side)
    | Timer(at: int)

  /** One turn of the loop: what woke it, and what the check after it sees. */
  datatype Turn = Turn(wake: Wake, checkAt: int, resetAt: int, blocked: bool, black: bool, startCheck: nat)

  datatype Limiter = Single | Slow | Shared

  datatype Charge = Charge(limiter: Limiter, bits: nat)

  datatype Usage = NoUsage | Usage(elapsed: nat, total: nat, highest: nat, speed: nat)

  /** One closed metering window. */
  datatype Window = Window(ms: nat, bits: nat)

  datatype Status = Running | EndOfStream | Blocked | IdleTimeout | SendFailed

  /** The counters of a relay, with the windows closed so far. */
  datatype Gauge = Gauge(elapsed: nat, total: nat, totalS: nat, highestS: nat, usage: Usage, windows: seq<Window>)

  /** What was passed on to each side, and what each limiter was charged. */
  datatype Flow = Flow(toStream: seq<Bytes>, toPeer: seq<Bytes>, charges: seq<Charge>)

  datatype Meter = Meter(status: Status, tm: int, lastRecv: int, downgrade: bool, blacked: bool, gauge: Gauge,
    flow: Flow)

  const IDLE_SECS := 30
  const WINDOW_MS := 1_000

  function Start(now: int): Meter {
    Meter(Running, now, now, false, false, Gauge(0, 0, 0, 0, NoUsage, []), Flow([], [], []))
  }

  /** Bits per millisecond, rounded down. */
  function Rate(bits: nat, ms: nat): nat
    requires ms > 0
  {
    bits / ms
  }

  // ---- one turn ----------------------------------------------------------

  function Passing(f: Flow, side: Side, bytes: Bytes): Flow {
    if bytes == [] then f
    else if side == FromPeer then f.(toStream := f.toStream + [bytes])
    else f.(toPeer := f.toPeer + [bytes])
  }

  function Receive(s: Meter, side: Side, bytes: Bytes, at: int, sent: bool): Meter {
    var nb := |bytes| * 8;
    var failed := bytes != [] && !sent;
    var flow := s.flow.(charges := s.flow.charges
                          + [Charge(if s.blacked || s.downgrade then Slow else Single, nb), Charge(Shared, nb)]);
    s.(lastRecv := at,
       gauge := s.gauge.(total := s.gauge.total + nb, totalS := s.gauge.totalS + nb),
       flow := if failed then flow else Passing(flow, side, bytes),
       status := if failed then SendFailed else s.status)
  }

  function Awake(s: Meter, w: Wake): Meter {
    match w
    case Frame(side, bytes, at, sent) => Receive(s, side, bytes, at, sent)
    case Closed(_) => s.(status := EndOfStream)
    case Timer(at) => if Secs(at, s.lastRecv) > IDLE_SECS then s.(status := IdleTimeout) else s
  }

  /** The counters after a window of `n` milliseconds. */
  function CloseGauge(g: Gauge, n: nat): Gauge
    requires n > 0
  {
    var speed := Rate(g.totalS, n);
    var highest := if speed > g.highestS then speed else g.highestS;
    Gauge(g.elapsed + n, g.total, 0, highest, Usage(g.elapsed + n, g.total, highest, speed),
      g.windows + [Window(n, g.totalS)])
  }

  predicate Exceeds(g: Gauge, threshold: nat) { g.total > g.elapsed * threshold }

  function CloseWindow(threshold: nat, s: Meter, t: Turn): Meter {
    var n := Elapsed(t.checkAt, s.tm);
    if n < WINDOW_MS then s
    else if t.blocked then s.(status := Blocked)
    else
      var g := CloseGauge(s.gauge, n);
      s.(blacked := t.black, tm := t.resetAt, gauge := g,
         downgrade := s.downgrade || (g.elapsed > t.startCheck && Exceeds(g, threshold)))
  }

  function Step(threshold: nat, s: Meter, t: Turn): Meter {
    if s.status != Running then s else
    var s' := Awake(s, t.wake);
    if s'.status != Running then s' else CloseWindow(threshold, s', t)
  }

  function Run(threshold: nat, s: Meter, ts: seq<Turn>): Meter
    decreases ts
  {
    if ts == [] then s else Run(threshold, Step(threshold, s, ts[0]), ts[1..])
  }

  /** How many turns the loop takes before it ends. */
  function Taken(threshold: nat, s: Meter, ts: seq<Turn>): (k: nat)
    ensures k <= |ts|
    decreases ts
  {
    if ts == [] || s.status != Running then 0 else 1 + Taken(threshold, Step(threshold, s, ts[0]), ts[1..])
  }

  // ---- the loop ------------------------------------------------------------

  /** The local variables of one relay task. */
  class Loop {
    const threshold: nat
    var status: Status
    var tm: int
    var lastRecvTime: int
    var elapsed: nat
    var total: nat
    var totalS: nat
    var highestS: nat
    var downgrade: bool
    var blacked: bool
    var usage: Usage
    var toStream: seq<Bytes>
    var toPeer: seq<Bytes>
    var charges: seq<Charge>
    var windows: seq<Window>

    constructor (threshold: nat, now: int)
      ensures this.threshold == threshold && Now() == Start(now)
    {
      this.threshold := threshold;
      status, tm, lastRecvTime := Running, now, now;
      elapsed, total, totalS, highestS := 0, 0, 0, 0;
      downgrade, blacked, usage := false, false, NoUsage;
      toStream, toPeer, charges, windows := [], [], [], [];
    }

    function Counters(): Gauge
      reads this
    {
      Gauge(elapsed, total, totalS, highestS, usage, windows)
    }

    function Now(): Meter
      reads this
    {
      Meter(status, tm, lastRecvTime, downgrade, blacked, Counters(), Flow(toStream, toPeer, charges))
    }

    method OnFrame(side: Side, bytes: Bytes, at: int, sent: bool)
      modifies this
      ensures Now() == Receive(old(Now()), side, bytes, at, sent)
    {
      lastRecvTime := at;
      var nb := |bytes| * 8;
      if blacked || downgrade {
        charges := charges + [Charge(Slow, nb), Charge(Shared, nb)];
      } else {
        charges := charges + [Charge(Single, nb), Charge(Shared, nb)];
      }
      total := total + nb;
      totalS := totalS + nb;
      if bytes != [] {
        if !sent {
          status := SendFailed;
        } else if side == FromPeer {
          toStream := toStream + [bytes];
        } else {
          toPeer := toPeer + [bytes];
        }
      }
    }

    method OnWake(w: Wake)
      modifies this
      ensures Now() == Awake(old(Now()), w)
    {
      match w
      case Frame(side, bytes, at, sent) => OnFrame(side, bytes, at, sent);
      case Closed(_) => status := EndOfStream;
      case Timer(at) =>
        if Secs(at, lastRecvTime) > IDLE_SECS {
          status := IdleTimeout;
        }
    }

    method Account(n: nat)
      requires n > 0
      modifies this`highestS, this`elapsed, this`usage, this`windows, this`totalS
      ensures Counters() == CloseGauge(old(Counters()), n)
    {
      var speed := Rate(totalS, n);
      if speed > highestS {
        highestS := speed;
      }
      elapsed := elapsed + n;
      usage := Usage(elapsed, total, highestS, speed);
      windows := windows + [Window(n, totalS)];
      totalS := 0;
    }

    method CheckWindow(turn: Turn)
      modifies this
      ensures Now() == CloseWindow(threshold, old(Now()), turn)
    {
      var n := Elapsed(turn.checkAt, tm);
      if n < WINDOW_MS { return; }
      if turn.blocked {
        status := Blocked;
        return;
      }
      blacked := turn.black;
      tm := turn.resetAt;
      Account(n);
      if elapsed > turn.startCheck && !downgrade && Exceeds(Counters(), threshold) {
        downgrade := true;
      }
    }
  }

  /** The loop as the server runs it, over the turns its sockets and timer produce. */
  method Relay(threshold: nat, now: int, ts: seq<Turn>) returns (r: Meter)
    ensures r == Run(threshold, Start(now), ts)
  {
    var loop := new Loop(threshold, now);
    var i := 0;
    while i < |ts| && loop.status == Running
      invariant 0 <= i <= |ts|
      invariant Run(threshold, Start(now), ts) == Run(threshold, loop.Now(), ts[i..])
    {
      assert ts[i..][1..] == ts[i + 1..];
      loop.OnWake(ts[i].wake);
      if loop.status == Running {
        loop.CheckWindow(ts[i]);
      }
      i := i + 1;
    }
    r := loop.Now();
    RunEnded(threshold, r, ts[i..]);
  }

  lemma {:induction false} RunEnded(threshold: nat, s: Meter, ts: seq<Turn>)
    requires s.status != Running || ts == []
    ensures Run(threshold, s, ts) == s
    decreases ts
  {
    if ts != [] { RunEnded(threshold, s, ts[1..]); }
  }

  // ---- metering ------------------------------------------------------------------

  function SumMs(ws: seq<Window>): nat {
    if ws == [] then 0 else SumMs(ws[..|ws| - 1]) + ws[|ws| - 1].ms
  }

  function SumBits(ws: seq<Window>): nat {
    if ws == [] then 0 else SumBits(ws[..|ws| - 1]) + ws[|ws| - 1].bits
  }

  predicate RanAt(w: Window, speed: nat) { w.ms > 0 && Rate(w.bits, w.ms) >= speed }

  predicate AtLeast(ws: seq<Window>, speed: nat) {
    exists i :: 0 <= i < |ws| && RanAt(ws[i], speed)
  }

  predicate Below(w: Window, highest: nat) { w.ms >= WINDOW_MS && Rate(w.bits, w.ms) <= highest }

  predicate AllBelow(ws: seq<Window>, highest: nat) {
    forall i :: 0 <= i < |ws| ==> Below(ws[i], highest)
  }

  /** What the counters mean: sums over the closed windows, and a maximum that some window reached. */
  predicate Counted(g: Gauge) {
    && g.elapsed == SumMs(g.windows)
    && g.total == SumBits(g.windows) + g.totalS
    && AllBelow(g.windows, g.highestS)
    && (if g.windows == [] then g.usage == NoUsage && g.highestS == 0
        else AtLeast(g.windows, g.highestS) && Reported(g))
  }

  /** The usage entry is that of the last window close. */
  predicate Reported(g: Gauge)
    requires g.windows != []
  {
    var w := g.windows[|g.windows| - 1];
    w.ms > 0 && g.usage == Usage(g.elapsed, SumBits(g.windows), g.highestS, Rate(w.bits, w.ms))
  }

  lemma SumSnoc(ws: seq<Window>, w: Window)
    ensures SumMs(ws + [w]) == SumMs(ws) + w.ms && SumBits(ws + [w]) == SumBits(ws) + w.bits
  {
    assert (ws + [w])[..|ws + [w]| - 1] == ws;
  }

  lemma AtLeastSnoc(ws: seq<Window>, w: Window, h: nat)
    ensures AtLeast(ws + [w], h) <==> AtLeast(ws, h) || RanAt(w, h)
  {
    if AtLeast(ws, h) {
      var i :| 0 <= i < |ws| && RanAt(ws[i], h);
      assert (ws + [w])[i] == ws[i];
    }
    if RanAt(w, h) { assert (ws + [w])[|ws|] == w; }
  }

  lemma AllBelowSnoc(ws: seq<Window>, h: nat, w: Window, h': nat)
    requires AllBelow(ws, h) && h <= h' && Below(w, h')
    ensures AllBelow(ws + [w], h')
  {
    forall i | 0 <= i < |ws| ensures Below(ws[i], h') { assert Below(ws[i], h); }
  }

  lemma CloseGaugeCounts(g: Gauge, n: nat)
    requires Counted(g) && n >= WINDOW_MS
    ensures Counted(CloseGauge(g, n))
  {
    var w := Window(n, g.totalS);
    var h := CloseGauge(g, n).highestS;
    SumSnoc(g.windows, w);
    AtLeastSnoc(g.windows, w, h);
    AllBelowSnoc(g.windows, g.highestS, w, h);
  }

  lemma StepCounts(threshold: nat, s: Meter, t: Turn)
    requires Counted(s.gauge)
    ensures Counted(Step(threshold, s, t).gauge)
  {
    var m := Awake(s, t.wake);
    assert Counted(m.gauge);
    var n := Elapsed(t.checkAt, m.tm);
    if n >= WINDOW_MS { CloseGaugeCounts(m.gauge, n); }
  }

  lemma {:induction false} RunCounts(threshold: nat, s: Meter, ts: seq<Turn>)
    requires Counted(s.gauge)
    ensures Counted(Run(threshold, s, ts).gauge)
    decreases ts
  {
    if ts != [] {
      StepCounts(threshold, s, ts[0]);
      RunCounts(threshold, Step(threshold, s, ts[0]), ts[1..]);
    }
  }

  /** Windows that each ran below `h + 1`, floor divided, stay below it together. */
  lemma {:induction false} SumBelow(ws: seq<Window>, h: nat)
    requires AllBelow(ws, h)
    ensures SumBits(ws) <= (h + 1) * SumMs(ws)
    ensures ws != [] ==> SumBits(ws) < (h + 1) * SumMs(ws)
  {
    if ws != [] {
      var w := ws[|ws| - 1];
      assert Below(w, h);
      SumBelow(ws[..|ws| - 1], h);
      FloorBelow(w.bits, w.ms, h);
      assert (h + 1) * SumMs(ws) == (h + 1) * SumMs(ws[..|ws| - 1]) + (h + 1) * w.ms;
    }
  }

  lemma FloorBelow(b: nat, n: nat, h: nat)
    requires n > 0 && Rate(b, n) <= h
    ensures b < (h + 1) * n
  {
    assert b == n * (b / n) + b % n;
    MulMono(b / n, h, n);
  }

  lemma MulMono(a: nat, b: nat, n: nat)
    requires a <= b
    ensures n * a <= n * b == b * n
  {
  }

  lemma AverageBelow(t: nat, e: nat, h: nat)
    requires e > 0 && t < (h + 1) * e
    ensures t / e <= h
  {
    assert t == e * (t / e) + t % e;
    if t / e >= h + 1 { MulMono(h + 1, t / e, e); }
  }

  /** What the `usage` command prints for one relay; relays without a closed window are skipped. */
  datatype Printed = Skipped | Printed(seconds: nat, highest: nat, average: nat, current: nat)

  function Print(u: Usage): Printed {
    if u == NoUsage || u.elapsed == 0 then Skipped
    else Printed(u.elapsed / 1000, u.highest, u.total / u.elapsed, u.speed)
  }

  /** A usage entry whose printed average and current speed do not exceed its printed highest. */
  predicate Bounded(u: Usage) {
    match u
    case NoUsage => Print(u) == Skipped
    case Usage(elapsed, total, highest, speed) =>
      elapsed >= WINDOW_MS && total < (highest + 1) * elapsed
      && Print(u).Printed? && Print(u).average <= highest && Print(u).current <= highest
  }

  lemma {:induction false} SumMsGrows(ws: seq<Window>, h: nat)
    requires AllBelow(ws, h) && ws != []
    ensures SumMs(ws) >= WINDOW_MS
  {
    assert Below(ws[|ws| - 1], h);
  }

  /**
   * At every usage report of every run: the total is below (highest + 1) times the elapsed time, so neither the
   * printed average nor the printed current speed exceeds the printed highest, although every window floors.
   */
  lemma ReportBounded(threshold: nat, now: int, ts: seq<Turn>)
    ensures Bounded(Run(threshold, Start(now), ts).gauge.usage)
  {
    var g := Run(threshold, Start(now), ts).gauge;
    RunCounts(threshold, Start(now), ts);
    if g.windows != [] {
      SumBelow(g.windows, g.highestS);
      SumMsGrows(g.windows, g.highestS);
      assert Below(g.windows[|g.windows| - 1], g.highestS);
      AverageBelow(g.usage.total, g.usage.elapsed, g.usage.highest);
    }
  }

  // ---- the downgrade latch -----------------------------------------------------------

  /** A downgrade has a window at or above the threshold behind it. */
  predicate Justified(threshold: nat, s: Meter) {
    s.downgrade ==> AtLeast(s.gauge.windows, threshold)
  }

  lemma HighestBeyond(total: nat, elapsed: nat, h: nat, threshold: nat)
    requires total < (h + 1) * elapsed && total > elapsed * threshold
    ensures h >= threshold
  {
    if h < threshold { MulMono(h + 1, threshold, elapsed); }
  }

  lemma AtLeastLower(ws: seq<Window>, h: nat, l: nat)
    requires AtLeast(ws, h) && l <= h
    ensures AtLeast(ws, l)
  {
    var i :| 0 <= i < |ws| && RanAt(ws[i], h);
    assert RanAt(ws[i], l);
  }

  lemma BeyondThreshold(g: Gauge, threshold: nat)
    requires Counted(g) && g.totalS == 0 && g.windows != [] && Exceeds(g, threshold)
    ensures AtLeast(g.windows, threshold)
  {
    SumBelow(g.windows, g.highestS);
    HighestBeyond(g.total, g.elapsed, g.highestS, threshold);
    AtLeastLower(g.windows, g.highestS, threshold);
  }

  lemma CloseJustifies(threshold: nat, s: Meter, t: Turn)
    requires Counted(s.gauge) && Justified(threshold, s)
    ensures Justified(threshold, CloseWindow(threshold, s, t))
  {
    var n := Elapsed(t.checkAt, s.tm);
    if n >= WINDOW_MS {
      var g := CloseGauge(s.gauge, n);
      CloseGaugeCounts(s.gauge, n);
      AtLeastSnoc(s.gauge.windows, Window(n, s.gauge.totalS), threshold);
      if Exceeds(g, threshold) { BeyondThreshold(g, threshold); }
    }
  }

  lemma StepJustifies(threshold: nat, s: Meter, t: Turn)
    requires Counted(s.gauge) && Justified(threshold, s)
    ensures Justified(threshold, Step(threshold, s, t))
  {
    var m := Awake(s, t.wake);
    assert Counted(m.gauge) && Justified(threshold, m);
    CloseJustifies(threshold, m, t);
  }

  lemma {:induction false} RunJustifies(threshold: nat, s: Meter, ts: seq<Turn>)
    requires Counted(s.gauge) && Justified(threshold, s)
    ensures Justified(threshold, Run(threshold, s, ts))
    decreases ts
  {
    if ts != [] {
      StepCounts(threshold, s, ts[0]);
      StepJustifies(threshold, s, ts[0]);
      RunJustifies(threshold, Step(threshold, s, ts[0]), ts[1..]);
    }
  }

  /** A downgrade is never set unless some closed window ran at or above the threshold. */
  lemma DowngradeSound(threshold: nat, now: int, ts: seq<Turn>)
    ensures var s := Run(threshold, Start(now), ts); s.downgrade ==> AtLeast(s.gauge.windows, threshold)
  {
    RunJustifies(threshold, Start(now), ts);
  }

  /** The turn closed a window past the start of checking, with a running total above the threshold. */
  predicate Trips(threshold: nat, s: Meter, t: Turn) {
    var r := Step(threshold, s, t);
    |r.gauge.windows| > |s.gauge.windows| && r.gauge.elapsed > t.startCheck && Exceeds(r.gauge, threshold)
  }

  lemma StepTrips(threshold: nat, s: Meter, t: Turn)
    ensures Step(threshold, s, t).downgrade <==> s.downgrade || Trips(threshold, s, t)
  {
  }

  lemma RunPrefix(threshold: nat, s: Meter, ts: seq<Turn>, n: nat)
    requires 0 < n <= |ts|
    ensures Run(threshold, s, ts[..n]) == Run(threshold, Step(threshold, s, ts[0]), ts[1..][..n - 1])
  {
    assert ts[..n][0] == ts[0] && ts[..n][1..] == ts[1..][..n - 1];
  }

  /** The loop is downgraded exactly if it was to begin with or some turn of the run trips. */
  lemma {:induction false} RunTrips(threshold: nat, s: Meter, ts: seq<Turn>)
    ensures Run(threshold, s, ts).downgrade <==>
      s.downgrade || exists n :: 0 <= n < |ts| && Trips(threshold, Run(threshold, s, ts[..n]), ts[n])
    decreases ts
  {
    if ts != [] {
      var m := Step(threshold, s, ts[0]);
      StepTrips(threshold, s, ts[0]);
      RunTrips(threshold, m, ts[1..]);
      assert Run(threshold, s, ts[..0]) == s;
      forall n | 0 <= n < |ts[1..]|
        ensures Run(threshold, m, ts[1..][..n]) == Run(threshold, s, ts[..n + 1]) && ts[1..][n] == ts[n + 1]
      {
        RunPrefix(threshold, s, ts, n + 1);
      }
      if n :| 0 <= n < |ts[1..]| && Trips(threshold, Run(threshold, m, ts[1..][..n]), ts[1..][n]) {
        assert Trips(threshold, Run(threshold, s, ts[..n + 1]), ts[n + 1]);
      }
      if n :| 0 <= n < |ts| && Trips(threshold, Run(threshold, s, ts[..n]), ts[n]) {
        if n > 0 { assert Trips(threshold, Run(threshold, m, ts[1..][..n - 1]), ts[1..][n - 1]); }
      }
    }
  }

  /** A relay is downgraded exactly if at some closed window past the start of checking its average was too high. */
  lemma DowngradeExactly(threshold: nat, now: int, ts: seq<Turn>)
    ensures Run(threshold, Start(now), ts).downgrade <==>
      exists n :: 0 <= n < |ts| && Trips(threshold, Run(threshold, Start(now), ts[..n]), ts[n])
  {
    RunTrips(threshold, Start(now), ts);
  }

  // ---- charges -----------------------------------------------------------------------

  function SumCharges(cs: seq<Charge>, to: set<Limiter>): nat {
    if cs == [] then 0
    else SumCharges(cs[..|cs| - 1], to) + if cs[|cs| - 1].limiter in to then cs[|cs| - 1].bits else 0
  }

  lemma ChargeTwice(cs: seq<Charge>, a: Charge, b: Charge, to: set<Limiter>)
    ensures SumCharges(cs + [a, b], to) ==
            SumCharges(cs, to) + (if a.limiter in to then a.bits else 0) + (if b.limiter in to then b.bits else 0)
  {
    var all := cs + [a, b];
    assert all[..|all| - 1] == cs + [a];
    assert (cs + [a])[..|cs + [a]| - 1] == cs;
  }

  function BytesOf(t: Turn): nat { if t.wake.Frame? then |t.wake.bytes| else 0 }

  /** What a turn charges: its frame once to the connection's limiter, or the slow one, and once to the shared one. */
  function ChargesOf(s: Meter, t: Turn): seq<Charge> {
    if s.status == Running && t.wake.Frame? then
      [Charge(if s.blacked || s.downgrade then Slow else Single, BytesOf(t) * 8), Charge(Shared, BytesOf(t) * 8)]
    else []
  }

  lemma StepCharges(threshold: nat, s: Meter, t: Turn)
    ensures Step(threshold, s, t).flow.charges == s.flow.charges + ChargesOf(s, t)
    ensures Step(threshold, s, t).gauge.total == s.gauge.total + if s.status == Running then BytesOf(t) * 8 else 0
    ensures s.downgrade ==> Step(threshold, s, t).downgrade
  {
  }

  /** Every bit received is charged once to the shared limiter and once to exactly one of the other two. */
  lemma {:induction false} ChargesBalance(threshold: nat, s: Meter, ts: seq<Turn>)
    requires SumCharges(s.flow.charges, {Shared}) == s.gauge.total
    requires SumCharges(s.flow.charges, {Single, Slow}) == s.gauge.total
    ensures var r := Run(threshold, s, ts);
      && SumCharges(r.flow.charges, {Shared}) == r.gauge.total
      && SumCharges(r.flow.charges, {Single, Slow}) == r.gauge.total
    decreases ts
  {
    if ts != [] {
      var m := Step(threshold, s, ts[0]);
      StepCharges(threshold, s, ts[0]);
      var cs := ChargesOf(s, ts[0]);
      if cs != [] {
        ChargeTwice(s.flow.charges, cs[0], cs[1], {Shared});
        ChargeTwice(s.flow.charges, cs[0], cs[1], {Single, Slow});
      }
      ChargesBalance(threshold, m, ts[1..]);
    }
  }

  /** No charge from position `n` on goes to the connection's own limiter. */
  predicate OnlySlowFrom(cs: seq<Charge>, n: nat) {
    forall i :: n <= i < |cs| ==> cs[i].limiter != Single
  }

  /** Once downgraded, always downgraded, and every later bit in either direction is charged to the slow limiter. */
  lemma {:induction false} DowngradeLatches(threshold: nat, s: Meter, ts: seq<Turn>)
    requires s.downgrade
    ensures Run(threshold, s, ts).downgrade
    ensures s.flow.charges <= Run(threshold, s, ts).flow.charges
    ensures OnlySlowFrom(Run(threshold, s, ts).flow.charges, |s.flow.charges|)
    ensures SumCharges(Run(threshold, s, ts).flow.charges, {Slow}) - SumCharges(s.flow.charges, {Slow}) ==
            Run(threshold, s, ts).gauge.total - s.gauge.total
    decreases ts
  {
    if ts != [] {
      var m := Step(threshold, s, ts[0]);
      StepCharges(threshold, s, ts[0]);
      var cs := ChargesOf(s, ts[0]);
      if cs != [] { ChargeTwice(s.flow.charges, cs[0], cs[1], {Slow}); }
      DowngradeLatches(threshold, m, ts[1..]);
      var all := Run(threshold, m, ts[1..]).flow.charges;
      forall i | |s.flow.charges| <= i < |all| ensures all[i].limiter != Single {
        if i < |m.flow.charges| { assert all[i] == m.flow.charges[i] == cs[i - |s.flow.charges|]; }
      }
    }
  }

  // ---- forwarding ----------------------------------------------------------------------

  /** The non-empty frame a turn brings from one side. */
  function FrameOf(t: Turn, side: Side): seq<Bytes> {
    if t.wake.Frame? && t.wake.side == side && t.wake.bytes != [] then [t.wake.bytes] else []
  }

  /** The non-empty frames of one side, in order. */
  function Frames(ts: seq<Turn>, side: Side): seq<Bytes> {
    if ts == [] then [] else FrameOf(ts[0], side) + Frames(ts[1..], side)
  }

  function Received(ts: seq<Turn>): nat {
    if ts == [] then 0 else BytesOf(ts[0]) + Received(ts[1..])
  }

  /** The turns whose frames reached the other side: all that were taken, less the one whose send failed. */
  function Delivered(threshold: nat, s: Meter, ts: seq<Turn>): int {
    Taken(threshold, s, ts) - if Run(threshold, s, ts).status == SendFailed then 1 else 0
  }

  /** What was passed on from one side so far. */
  function Passed(f: Flow, side: Side): seq<Bytes> { if side == FromPeer then f.toStream else f.toPeer }

  lemma StepForwards(threshold: nat, s: Meter, t: Turn, side: Side)
    requires s.status == Running
    ensures var r := Step(threshold, s, t);
      Passed(r.flow, side) == Passed(s.flow, side) + if r.status == SendFailed then [] else FrameOf(t, side)
  {
  }

  lemma FramesCons(ts: seq<Turn>, k: nat, side: Side)
    requires 0 < k <= |ts|
    ensures Frames(ts[..k], side) == FrameOf(ts[0], side) + Frames(ts[1..][..k - 1], side)
    ensures Received(ts[..k]) == BytesOf(ts[0]) + Received(ts[1..][..k - 1])
  {
    assert ts[..k][1..] == ts[1..][..k - 1];
  }

  lemma LastTurn(ts: seq<Turn>, side: Side)
    requires ts != []
    ensures Frames(ts[..0], side) == [] && Frames(ts[..1], side) == FrameOf(ts[0], side)
    ensures Received(ts[..1]) == BytesOf(ts[0])
  {
    assert ts[..1][1..] == [];
  }

  lemma {:induction false} TurnCounts(threshold: nat, s: Meter, ts: seq<Turn>)
    requires s.status == Running
    ensures 0 <= Delivered(threshold, s, ts) <= Taken(threshold, s, ts) <= |ts|
    decreases ts
  {
    if ts != [] && Step(threshold, s, ts[0]).status == Running {
      TurnCounts(threshold, Step(threshold, s, ts[0]), ts[1..]);
    }
  }

  /** Frames are passed on unchanged and in order, each side's to the other, none dropped and none invented. */
  lemma {:induction false} ForwardsInOrder(threshold: nat, s: Meter, ts: seq<Turn>, side: Side)
    requires s.status == Running
    ensures 0 <= Delivered(threshold, s, ts) <= |ts|
    ensures Passed(Run(threshold, s, ts).flow, side) ==
            Passed(s.flow, side) + Frames(ts[..Delivered(threshold, s, ts)], side)
    decreases ts
  {
    TurnCounts(threshold, s, ts);
    if ts != [] {
      var m := Step(threshold, s, ts[0]);
      StepForwards(threshold, s, ts[0], side);
      if m.status == Running {
        ForwardsInOrder(threshold, m, ts[1..], side);
        FramesCons(ts, Delivered(threshold, s, ts), side);
      } else {
        RunEnded(threshold, m, ts[1..]);
        LastTurn(ts, side);
      }
    }
  }

  /** The total is eight times the bytes received, whether or not the last frame could be passed on. */
  lemma {:induction false} TotalCountsBytes(threshold: nat, s: Meter, ts: seq<Turn>)
    requires s.status == Running
    ensures 0 <= Taken(threshold, s, ts) <= |ts|
    ensures Run(threshold, s, ts).gauge.total == s.gauge.total + 8 * Received(ts[..Taken(threshold, s, ts)])
    decreases ts
  {
    TurnCounts(threshold, s, ts);
    if ts != [] {
      var m := Step(threshold, s, ts[0]);
      StepCharges(threshold, s, ts[0]);
      FramesCons(ts, Taken(threshold, s, ts), FromPeer);
      if m.status == Running {
        TotalCountsBytes(threshold, m, ts[1..]);
      } else {
        RunEnded(threshold, m, ts[1..]);
        LastTurn(ts, FromPeer);
      }
    }
  }
}
