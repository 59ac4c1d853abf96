/** The relay loop over the turns themselves: how its windows tile the run, who is charged, and when it ends. */
module RelayWindows {
  import opened Clock
  import opened RelayMeter

  /** Where a window starts: at the reset of the one before, or at the start of the relay. */
  function From(now: int, ts: seq<Turn>, ends: seq<nat>, i: nat): int
    requires i <= |ends| && forall j :: 0 <= j < |ends| ==> ends[j] < |ts|
  {
    if i == 0 then now else ts[ends[i - 1]].resetAt
  }

  /** The first turn of a window: the one after the last turn of the window before. */
  function Begin(ends: seq<nat>, i: nat): nat
    requires i <= |ends|
  {
    if i == 0 then 0 else ends[i - 1] + 1
  }

  /** The turns that close windows, in order. */
  predicate Marks(ts: seq<Turn>, ends: seq<nat>) {
    && (forall j :: 0 <= j < |ends| ==> ends[j] < |ts|)
    && (forall i, j :: 0 <= i < j < |ends| ==> ends[i] < ends[j])
  }

  /** From its start to the check of its closing turn, a second later at least, with the bytes between. */
  predicate Tile(now: int, ts: seq<Turn>, ends: seq<nat>, i: nat, w: Window)
    requires Marks(ts, ends) && i < |ends|
  {
    && Begin(ends, i) <= ends[i] + 1
    && w.ms == Elapsed(ts[ends[i]].checkAt, From(now, ts, ends, i)) && w.ms >= 1_000
    && w.bits == 8 * Received(ts[Begin(ends, i)..ends[i] + 1])
  }

  predicate Tiles(now: int, ts: seq<Turn>, ends: seq<nat>, ws: seq<Window>) {
    Marks(ts, ends) && |ws| == |ends| && forall i :: 0 <= i < |ws| ==> Tile(now, ts, ends, i, ws[i])
  }

  /** The time of the last frame, or the start. */
  function LastHeard(now: int, ts: seq<Turn>): int {
    if ts == [] then now
    else if ts[|ts| - 1].wake.Frame? then ts[|ts| - 1].wake.at
    else LastHeard(now, ts[..|ts| - 1])
  }

  /** Whether the last window close saw the address on the blacklist. */
  predicate Black(ts: seq<Turn>, ends: seq<nat>)
    requires Marks(ts, ends)
  {
    ends != [] && ts[ends[|ends| - 1]].black
  }

  /** What a running loop's variables mean. */
  predicate Means(now: int, ts: seq<Turn>, ends: seq<nat>, m: Meter)
    requires Marks(ts, ends)
  {
    m.status == Running ==>
      && m.tm == From(now, ts, ends, |ends|) && Begin(ends, |ends|) <= |ts|
      && m.gauge.totalS == 8 * Received(ts[Begin(ends, |ends|)..])
      && m.lastRecv == LastHeard(now, ts) && m.blacked == Black(ts, ends)
      && forall j :: Begin(ends, |ends|) <= j < |ts| ==> Elapsed(ts[j].checkAt, From(now, ts, ends, |ends|)) < 1_000
  }

  lemma {:induction false} ReceivedSnoc(ts: seq<Turn>, t: Turn)
    ensures Received(ts + [t]) == Received(ts) + BytesOf(t)
    decreases ts
  {
    if ts == [] {
      assert [] + [t] == [t] && [t][1..] == [];
    } else {
      assert (ts + [t])[1..] == ts[1..] + [t];
      ReceivedSnoc(ts[1..], t);
    }
  }

  lemma {:induction false} RunSnoc(threshold: nat, s: Meter, ts: seq<Turn>, t: Turn)
    ensures Run(threshold, s, ts + [t]) == Step(threshold, Run(threshold, s, ts), t)
    decreases ts
  {
    if ts == [] {
      assert [] + [t] == [t] && [t][1..] == [];
    } else {
      assert (ts + [t])[1..] == ts[1..] + [t];
      RunSnoc(threshold, Step(threshold, s, ts[0]), ts[1..], t);
    }
  }

  lemma TileGrows(now: int, ts: seq<Turn>, t: Turn, ends: seq<nat>, e: seq<nat>, i: nat, w: Window)
    requires e == [] || e == [|ts|]
    requires Marks(ts, ends) && i < |ends| && Tile(now, ts, ends, i, w)
    ensures Marks(ts + [t], ends + e) && Tile(now, ts + [t], ends + e, i, w)
  {
    assert (ts + [t])[Begin(ends, i)..ends[i] + 1] == ts[Begin(ends, i)..ends[i] + 1];
  }

  lemma TilesStay(now: int, ts: seq<Turn>, t: Turn, ends: seq<nat>, ws: seq<Window>)
    requires Tiles(now, ts, ends, ws)
    ensures Tiles(now, ts + [t], ends, ws)
  {
    forall i | 0 <= i < |ws| ensures Tile(now, ts + [t], ends, i, ws[i]) {
      TileGrows(now, ts, t, ends, [], i, ws[i]);
      assert ends + [] == ends;
    }
  }

  lemma TilesGrow(now: int, ts: seq<Turn>, t: Turn, ends: seq<nat>, ws: seq<Window>, w: Window)
    requires Tiles(now, ts, ends, ws) && Marks(ts + [t], ends + [|ts|])
    requires Tile(now, ts + [t], ends + [|ts|], |ends|, w)
    ensures Tiles(now, ts + [t], ends + [|ts|], ws + [w])
  {
    forall i | 0 <= i < |ws| ensures Tile(now, ts + [t], ends + [|ts|], i, ws[i]) {
      TileGrows(now, ts, t, ends, [|ts|], i, ws[i]);
    }
  }

  /** How one turn continues a running loop: whether it closes a window. */
  predicate Closes(now: int, ts: seq<Turn>, ends: seq<nat>, t: Turn)
    requires Marks(ts, ends)
  {
    Stop(now, ts, t) == Running && Elapsed(t.checkAt, From(now, ts, ends, |ends|)) >= 1_000 && !t.blocked
  }

  /** What ends the loop before the window is looked at: a side closed, a frame not passed on, 31 s of silence. */
  function Stop(now: int, ts: seq<Turn>, t: Turn): Status {
    match t.wake
    case Closed(_) => EndOfStream
    case Frame(_, bytes, _, sent) => if bytes != [] && !sent then SendFailed else Running
    case Timer(at) => if at - LastHeard(now, ts) >= 31_000 then IdleTimeout else Running
  }

  /** One turn of a running loop. */
  lemma TurnOf(threshold: nat, now: int, ts: seq<Turn>, ends: seq<nat>, m: Meter, t: Turn)
    requires Marks(ts, ends) && Means(now, ts, ends, m) && m.status == Running
    ensures var r := Step(threshold, m, t);
      var from := From(now, ts, ends, |ends|);
      && r.status == (if Stop(now, ts, t) != Running then Stop(now, ts, t)
                      else if Elapsed(t.checkAt, from) >= 1_000 && t.blocked then Blocked
                      else Running)
      && r.gauge.windows ==
        (if Closes(now, ts, ends, t)
         then m.gauge.windows + [Window(Elapsed(t.checkAt, from), m.gauge.totalS + 8 * BytesOf(t))]
         else m.gauge.windows)
      && (r.status == Running ==>
            && r.tm == (if Closes(now, ts, ends, t) then t.resetAt else m.tm)
            && r.gauge.totalS == (if Closes(now, ts, ends, t) then 0 else m.gauge.totalS + 8 * BytesOf(t))
            && r.blacked == (if Closes(now, ts, ends, t) then t.black else m.blacked)
            && r.lastRecv == if t.wake.Frame? then t.wake.at else m.lastRecv)
  {
  }

  lemma TurnGoesOn(threshold: nat, now: int, ts: seq<Turn>, ends: seq<nat>, m: Meter, t: Turn)
    requires Marks(ts, ends) && Means(now, ts, ends, m) && m.status == Running && !Closes(now, ts, ends, t)
    ensures Marks(ts + [t], ends) && Means(now, ts + [t], ends, Step(threshold, m, t))
  {
    TurnOf(threshold, now, ts, ends, m, t);
    var us := ts + [t];
    var b := Begin(ends, |ends|);
    assert us[b..] == ts[b..] + [t] && us[..|us| - 1] == ts;
    ReceivedSnoc(ts[b..], t);
    assert From(now, us, ends, |ends|) == From(now, ts, ends, |ends|);
  }

  /** The window a turn closes. */
  function Closing(now: int, ts: seq<Turn>, ends: seq<nat>, t: Turn): Window
    requires Marks(ts, ends) && Begin(ends, |ends|) <= |ts|
  {
    Window(Elapsed(t.checkAt, From(now, ts, ends, |ends|)), 8 * Received(ts[Begin(ends, |ends|)..]) + 8 * BytesOf(t))
  }

  lemma TileCloses(now: int, ts: seq<Turn>, ends: seq<nat>, t: Turn)
    requires Marks(ts, ends) && Begin(ends, |ends|) <= |ts|
    requires Elapsed(t.checkAt, From(now, ts, ends, |ends|)) >= 1_000
    ensures Marks(ts + [t], ends + [|ts|])
    ensures Tile(now, ts + [t], ends + [|ts|], |ends|, Closing(now, ts, ends, t))
  {
    var us, es := ts + [t], ends + [|ts|];
    var b := Begin(ends, |ends|);
    assert us[b..|ts| + 1] == ts[b..] + [t];
    ReceivedSnoc(ts[b..], t);
    assert From(now, us, es, |ends|) == From(now, ts, ends, |ends|);
  }

  lemma TurnCloses(threshold: nat, now: int, ts: seq<Turn>, ends: seq<nat>, m: Meter, t: Turn)
    requires Marks(ts, ends) && Means(now, ts, ends, m) && m.status == Running && Closes(now, ts, ends, t)
    ensures var es := ends + [|ts|]; var r := Step(threshold, m, t);
      && Marks(ts + [t], es) && Means(now, ts + [t], es, r)
      && r.gauge.windows == m.gauge.windows + [Closing(now, ts, ends, t)]
      && Tile(now, ts + [t], es, |ends|, Closing(now, ts, ends, t))
  {
    TurnOf(threshold, now, ts, ends, m, t);
    TileCloses(now, ts, ends, t);
    var us := ts + [t];
    assert us[..|us| - 1] == ts && us[|ts| + 1..] == [];
  }

  // ---- the downgrade ------------------------------------------------------------------------

  /** The bits so far, over the time so far, are above the threshold after the start of checking. */
  predicate TooFast(threshold: nat, ws: seq<Window>, startCheck: nat) {
    SumMs(ws) > startCheck && SumBits(ws) > SumMs(ws) * threshold
  }

  /** When the i-th window closed, the checking had started and the bits so far were above the threshold. */
  predicate TripsAt(threshold: nat, ts: seq<Turn>, ends: seq<nat>, ws: seq<Window>, i: nat)
    requires Marks(ts, ends) && |ws| == |ends| && i < |ws|
  {
    TooFast(threshold, ws[..i + 1], ts[ends[i]].startCheck)
  }

  predicate Tripped(threshold: nat, ts: seq<Turn>, ends: seq<nat>, ws: seq<Window>)
    requires Marks(ts, ends) && |ws| == |ends|
  {
    exists i :: 0 <= i < |ws| && TripsAt(threshold, ts, ends, ws, i)
  }

  lemma TrippedStays(threshold: nat, ts: seq<Turn>, t: Turn, ends: seq<nat>, ws: seq<Window>)
    requires Marks(ts, ends) && |ws| == |ends|
    ensures Marks(ts + [t], ends)
    ensures Tripped(threshold, ts + [t], ends, ws) <==> Tripped(threshold, ts, ends, ws)
  {
    forall i | 0 <= i < |ws|
      ensures TripsAt(threshold, ts + [t], ends, ws, i) <==> TripsAt(threshold, ts, ends, ws, i)
    {
    }
  }

  lemma TrippedGrows(threshold: nat, ts: seq<Turn>, t: Turn, ends: seq<nat>, ws: seq<Window>, w: Window)
    requires Marks(ts, ends) && |ws| == |ends| && Marks(ts + [t], ends + [|ts|])
    ensures var xs := ws + [w]; Tripped(threshold, ts + [t], ends + [|ts|], xs) <==>
      Tripped(threshold, ts, ends, ws) || TooFast(threshold, xs, t.startCheck)
  {
    var xs, es := ws + [w], ends + [|ts|];
    assert xs[..|ws| + 1] == xs;
    forall i | 0 <= i < |ws|
      ensures TripsAt(threshold, ts + [t], es, xs, i) <==> TripsAt(threshold, ts, ends, ws, i)
    {
      assert xs[..i + 1] == ws[..i + 1];
    }
    assert TripsAt(threshold, ts + [t], es, xs, |ws|) <==> TooFast(threshold, xs, t.startCheck);
    if Tripped(threshold, ts, ends, ws) {
      var i :| 0 <= i < |ws| && TripsAt(threshold, ts, ends, ws, i);
      assert TripsAt(threshold, ts + [t], es, xs, i);
    }
  }

  lemma CountedTrips(threshold: nat, g: Gauge, startCheck: nat)
    requires Counted(g) && g.totalS == 0
    ensures g.elapsed > startCheck && Exceeds(g, threshold) <==> TooFast(threshold, g.windows, startCheck)
  {
  }

  /** One turn sets the downgrade exactly if it closes a window that trips. */
  lemma TurnTrips(threshold: nat, now: int, ts: seq<Turn>, ends: seq<nat>, m: Meter, t: Turn)
    requires Marks(ts, ends) && Means(now, ts, ends, m) && m.status == Running && Counted(m.gauge)
    ensures var r := Step(threshold, m, t); var trips := TooFast(threshold, r.gauge.windows, t.startCheck);
      r.downgrade <==> m.downgrade || (Closes(now, ts, ends, t) && trips)
  {
    TurnOf(threshold, now, ts, ends, m, t);
    StepTrips(threshold, m, t);
    if Closes(now, ts, ends, t) {
      StepCounts(threshold, m, t);
      CountedTrips(threshold, Step(threshold, m, t).gauge, t.startCheck);
    }
  }

  // ---- the whole run ------------------------------------------------------------------------

  /**
   * The windows tile the run: the i-th runs from the reset of the one before, or from the start, to the check of its
   * own closing turn, and counts eight times the bytes received in between; while the loop runs, no turn since the
   * last reset was checked a second after it, and its variables mean what they should. The relay is downgraded
   * exactly if some window tripped when it closed.
   */
  lemma {:induction false} WindowsTile(threshold: nat, now: int, ts: seq<Turn>) returns (ends: seq<nat>)
    ensures Marks(ts, ends)
    ensures var m := Run(threshold, Start(now), ts); Tiles(now, ts, ends, m.gauge.windows) && Means(now, ts, ends, m)
    ensures var m := Run(threshold, Start(now), ts); m.downgrade <==> Tripped(threshold, ts, ends, m.gauge.windows)
    decreases ts
  {
    if ts == [] {
      ends := [];
    } else {
      var us, t := ts[..|ts| - 1], ts[|ts| - 1];
      assert ts == us + [t];
      ends := WindowsTile(threshold, now, us);
      var m := Run(threshold, Start(now), us);
      RunSnoc(threshold, Start(now), us, t);
      RunCounts(threshold, Start(now), us);
      if m.status == Running { TurnTrips(threshold, now, us, ends, m, t); }
      if m.status == Running && Closes(now, us, ends, t) {
        TurnCloses(threshold, now, us, ends, m, t);
        TilesGrow(now, us, t, ends, m.gauge.windows, Closing(now, us, ends, t));
        TrippedGrows(threshold, us, t, ends, m.gauge.windows, Closing(now, us, ends, t));
        ends := ends + [|us|];
      } else {
        TilesStay(now, us, t, ends, m.gauge.windows);
        TrippedStays(threshold, us, t, ends, m.gauge.windows);
        if m.status == Running {
          TurnOf(threshold, now, us, ends, m, t);
          TurnGoesOn(threshold, now, us, ends, m, t);
        }
      }
    }
  }

  // ---- the time they cover -----------------------------------------------------------------

  /** Checks and resets never go back. */
  predicate Forward(now: int, ts: seq<Turn>) {
    && (forall j :: 0 <= j < |ts| ==> now <= ts[j].checkAt <= ts[j].resetAt)
    && (forall i, j :: 0 <= i < j < |ts| ==> ts[i].resetAt <= ts[j].checkAt)
  }

  /** Each window's clock starts over exactly when it was checked. */
  predicate ResetsOnChecks(ts: seq<Turn>) { forall j :: 0 <= j < |ts| ==> ts[j].resetAt == ts[j].checkAt }

  lemma TilesPrefix(now: int, ts: seq<Turn>, ends: seq<nat>, ws: seq<Window>)
    requires Tiles(now, ts, ends, ws) && ws != []
    ensures Tiles(now, ts, ends[..|ws| - 1], ws[..|ws| - 1])
    ensures From(now, ts, ends[..|ws| - 1], |ws| - 1) == From(now, ts, ends, |ws| - 1)
  {
    var before, us := ends[..|ws| - 1], ws[..|ws| - 1];
    forall i | 0 <= i < |us| ensures Tile(now, ts, before, i, us[i]) {
      assert Tile(now, ts, ends, i, ws[i]);
      assert From(now, ts, before, i) == From(now, ts, ends, i) && Begin(before, i) == Begin(ends, i);
    }
  }

  lemma LastTile(now: int, ts: seq<Turn>, ends: seq<nat>, ws: seq<Window>)
    requires Tiles(now, ts, ends, ws) && ws != [] && Forward(now, ts)
    ensures var n := |ws| - 1;
      && From(now, ts, ends, n) <= ts[ends[n]].checkAt <= ts[ends[n]].resetAt == From(now, ts, ends, |ends|)
      && ws[n].ms == ts[ends[n]].checkAt - From(now, ts, ends, n)
  {
    var n := |ws| - 1;
    assert Tile(now, ts, ends, n, ws[n]);
    if n > 0 { assert ends[n - 1] < ends[n]; }
  }

  lemma {:induction false} SumOfTiles(now: int, ts: seq<Turn>, ends: seq<nat>, ws: seq<Window>)
    requires Tiles(now, ts, ends, ws) && Forward(now, ts)
    ensures SumMs(ws) <= From(now, ts, ends, |ends|) - now
    ensures ends != [] ==> SumMs(ws) <= ts[ends[|ends| - 1]].checkAt - now
    ensures ResetsOnChecks(ts) ==> SumMs(ws) == From(now, ts, ends, |ends|) - now
    decreases ws
  {
    if ws != [] {
      TilesPrefix(now, ts, ends, ws);
      SumOfTiles(now, ts, ends[..|ws| - 1], ws[..|ws| - 1]);
      LastTile(now, ts, ends, ws);
    }
  }

  /**
   * The elapsed time of a report never outgrows the clock: it is at most the time from the start to the check of the
   * last window, and exactly that where each window starts at the check of the one before.
   */
  lemma ElapsedIsTime(threshold: nat, now: int, ts: seq<Turn>) returns (ends: seq<nat>)
    requires Forward(now, ts)
    ensures var g := Run(threshold, Start(now), ts).gauge;
      && Tiles(now, ts, ends, g.windows)
      && (ends == [] ==> g.elapsed == 0)
      && (ends != [] ==> g.elapsed <= ts[ends[|ends| - 1]].checkAt - now)
      && (ends != [] && ResetsOnChecks(ts) ==> g.elapsed == ts[ends[|ends| - 1]].checkAt - now)
  {
    ends := WindowsTile(threshold, now, ts);
    RunCounts(threshold, Start(now), ts);
    SumOfTiles(now, ts, ends, Run(threshold, Start(now), ts).gauge.windows);
  }

  // ---- what is reported, and who is charged -------------------------------------------------

  /**
   * Every report, exactly: nothing before the first window closes; then the time and bits of all windows, the highest
   * of their speeds, and the speed of the last one, in whole bits per millisecond.
   */
  lemma ReportExactly(threshold: nat, now: int, ts: seq<Turn>)
    ensures var g := Run(threshold, Start(now), ts).gauge; var ws := g.windows;
      if ws == [] then g.usage == NoUsage else
      && (forall i :: 0 <= i < |ws| ==> ws[i].ms > 0)
      && g.usage.Usage? && g.usage.elapsed == SumMs(ws) && g.usage.total == SumBits(ws)
      && g.usage.speed == ws[|ws| - 1].bits / ws[|ws| - 1].ms
      && (forall i :: 0 <= i < |ws| ==> ws[i].bits / ws[i].ms <= g.usage.highest)
      && (exists i :: 0 <= i < |ws| && ws[i].bits / ws[i].ms == g.usage.highest)
  {
    var g := Run(threshold, Start(now), ts).gauge;
    RunCounts(threshold, Start(now), ts);
    if g.windows != [] {
      forall i | 0 <= i < |g.windows|
        ensures g.windows[i].ms > 0 && g.windows[i].bits / g.windows[i].ms <= g.highestS
      {
        assert Below(g.windows[i], g.highestS);
      }
      var i :| 0 <= i < |g.windows| && RanAt(g.windows[i], g.highestS);
      assert g.windows[i].bits / g.windows[i].ms == g.highestS;
    }
  }

  /** What the usage command prints of a report: whole seconds, and the average over all of its time. */
  lemma PrintedExactly(u: Usage)
    ensures Print(u) ==
      if u.NoUsage? || u.elapsed == 0 then Skipped
      else Printed(u.elapsed / 1_000, u.highest, u.total / u.elapsed, u.speed)
  {
  }

  /**
   * Who is charged: a frame that reaches a running loop is charged in full to the shared limiter, and in full to the
   * slow one exactly if the loop is downgraded or its last window saw the address on the blacklist, else to its own.
   */
  lemma ChargedExactly(threshold: nat, now: int, ts: seq<Turn>, t: Turn) returns (ends: seq<nat>)
    requires Run(threshold, Start(now), ts).status == Running && t.wake.Frame?
    ensures Marks(ts, ends) && Tiles(now, ts, ends, Run(threshold, Start(now), ts).gauge.windows)
    ensures var m := Run(threshold, Start(now), ts); var bits := 8 * |t.wake.bytes|;
      Run(threshold, Start(now), ts + [t]).flow.charges == m.flow.charges +
        [Charge(if m.downgrade || Black(ts, ends) then Slow else Single, bits), Charge(Shared, bits)]
  {
    ends := WindowsTile(threshold, now, ts);
    RunSnoc(threshold, Start(now), ts, t);
  }

  /**
   * When a running loop ends, and why: its turn stops it, or is checked a second after the last reset and finds the
   * address on the blocklist. Nothing happens after that.
   */
  lemma EndsExactly(threshold: nat, now: int, ts: seq<Turn>, t: Turn) returns (ends: seq<nat>)
    ensures Marks(ts, ends) && Tiles(now, ts, ends, Run(threshold, Start(now), ts).gauge.windows)
    ensures var m := Run(threshold, Start(now), ts); var r := Run(threshold, Start(now), ts + [t]);
      var late := Elapsed(t.checkAt, From(now, ts, ends, |ends|)) >= 1_000;
      && (m.status != Running ==> r == m)
      && (m.status == Running && Stop(now, ts, t) != Running ==> r.status == Stop(now, ts, t))
      && (m.status == Running && Stop(now, ts, t) == Running ==>
            r.status == if late && t.blocked then Blocked else Running)
  {
    ends := WindowsTile(threshold, now, ts);
    RunSnoc(threshold, Start(now), ts, t);
    var m := Run(threshold, Start(now), ts);
    if m.status == Running { TurnOf(threshold, now, ts, ends, m, t); }
  }
}
