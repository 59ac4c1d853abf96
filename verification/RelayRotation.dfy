/** The rotating choice of a relay server. */
module RelayRotation {

  /** `usize` counters wrap. */
  const WORD := 0x1_0000_0000_0000_0000

  class Rotation {
    var next: nat

    constructor ()
      ensures next == 0
    {
      next := 0;
    }

    /** An empty list gives no server and a list of one needs no counter. */
    method GetRelayServer(servers: seq<string>) returns (r: string)
      requires next < WORD
      modifies this
      ensures next < WORD
      ensures |servers| == 0 ==> r == "" && next == old(next)
      ensures |servers| == 1 ==> r == servers[0] && next == old(next)
      ensures |servers| >= 2 ==> r == servers[old(next) % |servers|] && next == (old(next) + 1) % WORD
    {
      if |servers| == 0 { return ""; }
      if |servers| == 1 { return servers[0]; }
      var i := next % |servers|;
      next := (next + 1) % WORD;
      r := servers[i];
    }
  }

  /** The positions chosen by `m` consecutive picks from a list of `n`, the counter starting at `c`, modulo 2^64. */
  function Picks(c: nat, n: nat, m: nat): seq<nat>
    requires n > 0
    decreases m
  {
    if m == 0 then [] else [c % WORD % n] + Picks(c + 1, n, m - 1)
  }

  lemma {:induction false} PicksModulo(c: nat, d: nat, n: nat, m: nat)
    requires n > 0 && c % WORD == d % WORD
    ensures Picks(c, n, m) == Picks(d, n, m)
    decreases m
  {
    if m > 0 {
      PicksModulo(c + 1, d + 1, n, m - 1);
    }
  }

  lemma PicksStep(c: nat, n: nat, m: nat)
    requires n > 0 && m > 0 && c < WORD
    ensures Picks(c, n, m) == [c % n] + Picks((c + 1) % WORD, n, m - 1)
  {
    Small(c, WORD);
    PicksModulo((c + 1) % WORD, c + 1, n, m - 1);
  }

  /** `m` picks from the object are those of `Picks`. */
  method PickMany(rot: Rotation, servers: seq<string>, m: nat) returns (rs: seq<string>)
    requires |servers| >= 2 && rot.next < WORD
    modifies rot
    ensures |rs| == m == |Picks(old(rot.next), |servers|, m)|
    ensures forall t :: 0 <= t < m ==>
      Picks(old(rot.next), |servers|, m)[t] < |servers| && rs[t] == servers[Picks(old(rot.next), |servers|, m)[t]]
  {
    if m == 0 { return []; }
    PicksStep(rot.next, |servers|, m);
    var r := rot.GetRelayServer(servers);
    var rest := PickMany(rot, servers, m - 1);
    rs := [r] + rest;
  }

  /** How many of the numbers from `c` up to `c + m` have remainder `j`. */
  function Hits(c: nat, n: nat, m: nat, j: nat): nat
    requires n > 0
    decreases m
  {
    if m == 0 then 0 else (if c % n == j then 1 else 0) + Hits(c + 1, n, m - 1, j)
  }

  lemma {:induction false} HitsSplit(c: nat, n: nat, a: nat, b: nat, j: nat)
    requires n > 0
    ensures Hits(c, n, a + b, j) == Hits(c, n, a, j) + Hits(c + a, n, b, j)
    decreases a
  {
    if a > 0 {
      HitsSplit(c + 1, n, a - 1, b, j);
    }
  }

  lemma {:induction false} HitsBelow(n: nat, m: nat, j: nat)
    requires m <= n && j < n && n > 0
    ensures Hits(0, n, m, j) == if j < m then 1 else 0
    decreases m
  {
    if m > 0 {
      HitsBelow(n, m - 1, j);
      HitsSplit(0, n, m - 1, 1, j);
      Small(m - 1, n);
      assert Hits(m - 1, n, 1, j) == if m - 1 == j then 1 else 0;
    }
  }

  lemma Small(x: nat, n: nat)
    requires x < n
    ensures x % n == x
  {
  }

  lemma ModAdd(c: nat, n: nat)
    requires n > 0
    ensures (c + n) % n == c % n
  {
    var q := c / n;
    assert c + n == n * (q + 1) + c % n;
    Unique(c + n, n, q + 1, c % n);
  }

  lemma Unique(x: nat, n: nat, q: int, r: nat)
    requires n > 0 && r < n && x == n * q + r
    ensures x % n == r && x / n == q
  {
    var d := x / n - q;
    assert n * d == r - x % n;
    AtLeastOne(n, d);
  }

  lemma AtLeastOne(n: nat, d: int)
    ensures d > 0 ==> n * d >= n
    ensures d < 0 ==> n * d <= 0 - n
  {
  }

  /** Any `n` numbers in a row have each remainder once. */
  lemma {:induction false} OneRound(c: nat, n: nat, j: nat)
    requires j < n
    ensures Hits(c, n, n, j) == 1
    decreases c
  {
    if c == 0 {
      HitsBelow(n, n, j);
    } else {
      OneRound(c - 1, n, j);
      HitsSplit(c - 1, n, 1, n - 1, j);
      HitsSplit(c, n, n - 1, 1, j);
      ModAdd(c - 1, n);
      assert Hits(c - 1, n, 1, j) == Hits(c - 1 + n, n, 1, j);
    }
  }

  lemma {:induction false} ManyRounds(c: nat, n: nat, k: nat, j: nat)
    requires j < n
    ensures Hits(c, n, k * n, j) == k
    decreases k
  {
    if k > 0 {
      assert k * n == n + (k - 1) * n;
      OneRound(c, n, j);
      HitsSplit(c, n, n, (k - 1) * n, j);
      ManyRounds(c + n, n, k - 1, j);
    }
  }

  lemma Cons(x: nat, s: seq<nat>, j: nat)
    ensures multiset([x] + s)[j] == (if x == j then 1 else 0) + multiset(s)[j]
  {
  }

  /** How often position `j` is among the picks. */
  function Chosen(c: nat, n: nat, m: nat, j: nat): nat
    requires n > 0
  {
    multiset(Picks(c, n, m))[j]
  }

  lemma FirstPick(c: nat, n: nat, m: nat, j: nat)
    requires n > 0 && m > 0
    ensures Chosen(c, n, m, j) == (if c % WORD % n == j then 1 else 0) + Chosen(c + 1, n, m - 1, j)
  {
    Cons(c % WORD % n, Picks(c + 1, n, m - 1), j);
  }

  /** The counter's wrap does not show in the position. */
  predicate Seamless(c: nat, n: nat, m: nat) { n > 0 && (c + m <= WORD || WORD % n == 0) }

  lemma SamePosition(c: nat, n: nat)
    requires Seamless(c, n, 1)
    ensures c % WORD % n == c % n
  {
    if c < WORD { Small(c, WORD); } else { ModOfMultiple(c, n); }
  }

  lemma {:induction false} PicksHit(c: nat, n: nat, m: nat, j: nat)
    requires Seamless(c, n, m)
    ensures Chosen(c, n, m, j) == Hits(c, n, m, j)
    decreases m
  {
    if m > 0 {
      SamePosition(c, n);
      FirstPick(c, n, m, j);
      PicksHit(c + 1, n, m - 1, j);
    }
  }

  /** Fair: while the counter does not wrap, `k * n` consecutive picks choose each position exactly `k` times. */
  lemma Fair(c: nat, n: nat, k: nat, j: nat)
    requires j < n && c + k * n <= WORD
    ensures Chosen(c, n, k * n, j) == k
  {
    PicksHit(c, n, k * n, j);
    ManyRounds(c, n, k, j);
  }

  lemma ModOfMultiple(c: nat, n: nat)
    requires n > 0 && WORD % n == 0
    ensures c % WORD % n == c % n
  {
    var p := WORD / n;
    assert WORD == n * p;
    var q := c / WORD;
    var r := c % WORD;
    assert c == WORD * q + r;
    Factor(n, p, q, r / n);
    assert c == n * (p * q + r / n) + r % n;
    Unique(c, n, p * q + r / n, r % n);
  }

  lemma Factor(n: int, p: int, q: int, s: int)
    ensures n * p * q + n * s == n * (p * q + s)
  {
    assert n * p * q == n * (p * q);
  }

  predicate AlwaysFair(n: nat) {
    n > 0 && forall c: nat, j: nat :: c < WORD && j < n ==> Chosen(c, n, n, j) == 1
  }

  /** Across the wrap, every round of every start is fair exactly when the list length divides 2^64. */
  lemma FairAcrossWrap(n: nat)
    requires 2 <= n < WORD
    ensures AlwaysFair(n) <==> 0x1_0000_0000_0000_0000 % n == 0
  {
    if WORD % n == 0 {
      forall c: nat, j: nat | c < WORD && j < n ensures Chosen(c, n, n, j) == 1 {
        PicksHit(c, n, n, j);
        OneRound(c, n, j);
      }
    } else {
      SkipsLast(n);
    }
  }

  lemma LastRemainder(n: nat)
    requires n >= 2 && WORD % n != 0
    ensures (WORD - 1) % n < n - 1
  {
    var q := WORD / n;
    assert WORD - 1 == n * q + (WORD % n - 1);
    Unique(WORD - 1, n, q, WORD % n - 1);
  }

  /** Otherwise the round that starts just before the wrap never picks the last server. */
  lemma SkipsLast(n: nat)
    requires 2 <= n < WORD && WORD % n != 0
    ensures Chosen(WORD - 1, n, n, n - 1) == 0
  {
    LastRemainder(n);
    PicksModulo(WORD, 0, n, n - 1);
    PicksHit(0, n, n - 1, n - 1);
    HitsBelow(n, n - 1, n - 1);
    FirstPick(WORD - 1, n, n, n - 1);
  }
}
