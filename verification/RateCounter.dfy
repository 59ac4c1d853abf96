/** The counter both limiters keep: a burst count that starts over after a quiet spell. */
module RateCounter {
  import opened Clock

  /** How many passes since the last quiet spell, and when the last one was, in milliseconds. */
  datatype Counter = Counter(count: nat, at: int)

  /** A limiter: quiet spells longer than `quiet` whole seconds reset it, and a count above `most` refuses. */
  datatype Limit = Limit(quiet: nat, most: nat)

  function Pass(l: Limit, c: Counter, now: int): (r: (bool, Counter)) {
    if Secs(now, c.at) > l.quiet then (true, Counter(1, now))
    else if c.count > l.most then (false, c)
    else (true, Counter(c.count + 1, now))
  }

  /** The times, out of a run of requests, at which a request passed. */
  function Passes(l: Limit, c: Counter, times: seq<int>): seq<int>
    decreases times
  {
    if times == [] then [] else
    var (ok, c') := Pass(l, c, times[0]);
    if ok then [times[0]] + Passes(l, c', times[1..]) else Passes(l, c', times[1..])
  }

  predicate Sorted(ts: seq<int>) {
    forall i, j :: 0 <= i <= j < |ts| ==> ts[i] <= ts[j]
  }

  function Quiet(l: Limit): nat { (l.quiet + 1) * 1000 }

  /** A run of passes the counter could have let through, each from the state the one before left. */
  predicate Chain(l: Limit, c: Counter, ts: seq<int>)
    decreases ts
  {
    ts == [] || (Pass(l, c, ts[0]).0 && Chain(l, Pass(l, c, ts[0]).1, ts[1..]))
  }

  lemma {:induction false} PassesChain(l: Limit, c: Counter, times: seq<int>)
    ensures Chain(l, c, Passes(l, c, times))
    decreases times
  {
    if times != [] {
      var (ok, c') := Pass(l, c, times[0]);
      PassesChain(l, c', times[1..]);
      if ok { assert Passes(l, c, times)[1..] == Passes(l, c', times[1..]); }
    }
  }

  /** The counter after the first `n` passes of a chain. */
  function After(l: Limit, c: Counter, ts: seq<int>, n: nat): Counter
    requires n <= |ts|
    decreases n
  {
    if n == 0 then c else After(l, Pass(l, c, ts[0]).1, ts[1..], n - 1)
  }

  lemma {:induction false} ChainTail(l: Limit, c: Counter, ts: seq<int>, n: nat)
    requires Chain(l, c, ts) && n <= |ts|
    ensures Chain(l, After(l, c, ts, n), ts[n..])
    ensures n > 0 ==> After(l, c, ts, n).at == ts[n - 1] && After(l, c, ts, n).count >= 1
    decreases n
  {
    if n == 0 {
      assert ts[0..] == ts;
    } else {
      ChainTail(l, Pass(l, c, ts[0]).1, ts[1..], n - 1);
      assert ts[1..][n - 1..] == ts[n..];
    }
  }

  /** Passing without a quiet spell uses up the burst: from count `c`, at most `most + 1 - c` passes. */
  lemma {:induction false} BurstEnds(l: Limit, c: Counter, ts: seq<int>) returns (j: nat)
    requires Chain(l, c, ts) && |ts| + c.count >= l.most + 2 && ts != []
    ensures j < |ts| && ts[j] - (if j == 0 then c.at else ts[j - 1]) >= Quiet(l)
    decreases ts
  {
    if Secs(ts[0], c.at) > l.quiet {
      j := 0;
    } else {
      var k := BurstEnds(l, Pass(l, c, ts[0]).1, ts[1..]);
      j := k + 1;
    }
  }

  /** Among any `most + 2` consecutive passes, some adjacent two are a quiet spell apart. */
  lemma QuietAmong(l: Limit, c: Counter, ps: seq<int>, i: nat) returns (j: nat)
    requires Chain(l, c, ps) && i + l.most + 2 <= |ps|
    ensures i < j < i + l.most + 2 && ps[j] - ps[j - 1] >= Quiet(l)
  {
    var d := After(l, c, ps, i + 1);
    ChainTail(l, c, ps, i + 1);
    var rest := ps[i + 1..];
    ChainPrefix(l, d, rest, l.most + 1);
    var k := BurstEnds(l, d, rest[..l.most + 1]);
    assert rest[..l.most + 1][k] == ps[i + 1 + k];
    assert k > 0 ==> rest[..l.most + 1][k - 1] == ps[i + k];
    j := i + 1 + k;
  }

  lemma {:induction false} ChainPrefix(l: Limit, c: Counter, ts: seq<int>, n: nat)
    requires Chain(l, c, ts) && n <= |ts|
    ensures Chain(l, c, ts[..n])
    decreases n
  {
    if n > 0 {
      ChainPrefix(l, Pass(l, c, ts[0]).1, ts[1..], n - 1);
      assert ts[..n][1..] == ts[1..][..n - 1];
    }
  }

  /** The run of passes that fall into a window of `w` milliseconds starting at `x`. */
  predicate InWindow(ps: seq<int>, i: nat, n: nat, x: int, w: nat) {
    i + n <= |ps| && forall k :: i <= k < i + n ==> x <= ps[k] <= x + w
  }

  /** `n` steps of `d` from `i`. */
  function Stride(i: int, d: nat, n: nat): int
    decreases n
  {
    if n == 0 then i else Stride(i, d, n - 1) + d
  }

  lemma {:induction false} StrideIs(i: int, d: nat, n: nat)
    ensures Stride(i, d, n) == i + n * d
    decreases n
  {
    if n > 0 {
      StrideIs(i, d, n - 1);
      assert n * d == (n - 1) * d + d;
    }
  }

  /** Every `most + 1` further passes take at least one more quiet spell. */
  lemma {:induction false} SpanGrows(l: Limit, c: Counter, ps: seq<int>, i: nat, n: nat)
    requires Chain(l, c, ps) && Sorted(ps) && Stride(i, l.most + 1, n) < |ps|
    ensures i <= Stride(i, l.most + 1, n) && ps[Stride(i, l.most + 1, n)] - ps[i] >= Stride(0, Quiet(l), n)
    decreases n
  {
    if n > 0 {
      SpanGrows(l, c, ps, i, n - 1);
      var m := Stride(i, l.most + 1, n - 1);
      var j := QuietAmong(l, c, ps, m);
      assert ps[m] <= ps[j - 1] && ps[j] <= ps[m + l.most + 1];
    }
  }

  /** A window shorter than `q` quiet spells holds at most `q` bursts. */
  lemma BurstsFit(l: Limit, c: Counter, ps: seq<int>, i: nat, n: nat, x: int, w: nat, q: nat)
    requires Chain(l, c, ps) && Sorted(ps) && InWindow(ps, i, n, x, w) && Stride(0, Quiet(l), q) > w
    ensures i + n <= Stride(i, l.most + 1, q)
  {
    StrideIs(i, l.most + 1, q);
    if i + n > Stride(i, l.most + 1, q) {
      WindowSpan(ps, i, n, x, w, Stride(i, l.most + 1, q));
      SpanGrows(l, c, ps, i, q);
    }
  }

  lemma WindowSpan(ps: seq<int>, i: nat, n: nat, x: int, w: nat, k: nat)
    requires InWindow(ps, i, n, x, w) && i <= k < i + n
    ensures ps[k] - ps[i] <= w
  {
  }

  /**
   * Sliding window: among passes at non-decreasing times, a window of `w` milliseconds holds at most
   * `(most + 1) * (w / Quiet + 1)`.
   */
  lemma WindowBound(l: Limit, c: Counter, ps: seq<int>, i: nat, n: nat, x: int, w: nat)
    requires Chain(l, c, ps) && Sorted(ps) && InWindow(ps, i, n, x, w)
    ensures n <= (l.most + 1) * (w / Quiet(l) + 1)
  {
    var q := w / Quiet(l) + 1;
    OneMoreThanFits(w, Quiet(l));
    StrideIs(0, Quiet(l), q);
    BurstsFit(l, c, ps, i, n, x, w, q);
    StrideIs(i, l.most + 1, q);
    Commute(q, l.most + 1);
  }

  /** A counter that has not counted yet lets the same runs through, whatever its time. */
  lemma FreshCounters(l: Limit, a: int, b: int, ps: seq<int>)
    ensures Chain(l, Counter(0, a), ps) <==> Chain(l, Counter(0, b), ps)
  {
  }

  lemma Commute(a: nat, b: nat)
    ensures a * b == b * a
  {
  }

  lemma OneMoreThanFits(w: nat, g: nat)
    requires g > 0
    ensures (w / g + 1) * g > w
  {
    assert w == g * (w / g) + w % g;
  }

  /** A refusal changes nothing, and a request a quiet spell after the last pass is let through again. */
  lemma RefusalsHarmless(l: Limit, c: Counter, now: int, later: int)
    ensures !Pass(l, c, now).0 ==> Pass(l, c, now).1 == c
    ensures later >= c.at + Quiet(l) ==> Pass(l, c, later) == (true, Counter(1, later))
    ensures Pass(l, c, now).0 ==> Pass(l, c, now).1.at == now
  {
  }
}
