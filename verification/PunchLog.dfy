/** The log of punch requests, de-duplicated by scanning its thirty newest entries. */
module PunchLog {
  import opened Clock
  import opened RateCounter
  import opened Sets

  const DEDUPE_SECS := 60
  const TAIL := 30

  datatype Req = Req(tm: int, fromIp: string, toIp: string, toId: string)

  predicate SameKey(e: Req, fromIp: string, toId: string) { e.fromIp == fromIp && e.toId == toId }

  /** Younger than the de-duplication time. */
  predicate Young(e: Req, now: int) { Secs(now, e.tm) < DEDUPE_SECS }

  /** The newest entry with this key among the last `n`, as a position. */
  function LastMatch(log: seq<Req>, n: nat, fromIp: string, toId: string): (i: int)
    ensures -1 <= i < |log|
    decreases n
  {
    if log == [] || n == 0 then -1
    else if SameKey(log[|log| - 1], fromIp, toId) then |log| - 1
    else LastMatch(log[..|log| - 1], n - 1, fromIp, toId)
  }

  predicate Duplicate(log: seq<Req>, fromIp: string, toId: string, now: int) {
    var i := LastMatch(log, TAIL, fromIp, toId);
    i >= 0 && Young(log[i], now)
  }

  function Record(log: seq<Req>, fromIp: string, toIp: string, toId: string, now: int): seq<Req> {
    if Duplicate(log, fromIp, toId, now) then log else log + [Req(now, fromIp, toIp, toId)]
  }

  class Log {
    var reqs: seq<Req>

    constructor ()
      ensures reqs == []
    {
      reqs := [];
    }

    method Add(fromIp: string, toIp: string, toId: string, now: int)
      modifies this
      ensures reqs == Record(old(reqs), fromIp, toIp, toId, now)
    {
      var dup := false;
      var n := 0;
      assert reqs[..|reqs| - n] == reqs;
      while n < |reqs| && n < TAIL
        invariant 0 <= n <= |reqs| && n <= TAIL && !dup
        invariant LastMatch(reqs, TAIL, fromIp, toId) == LastMatch(reqs[..|reqs| - n], TAIL - n, fromIp, toId)
      {
        var e := reqs[|reqs| - 1 - n];
        assert reqs[..|reqs| - n][..|reqs| - n - 1] == reqs[..|reqs| - n - 1];
        if e.fromIp == fromIp && e.toId == toId {
          if Secs(now, e.tm) < DEDUPE_SECS {
            dup := true;
          }
          break;
        }
        n := n + 1;
      }
      if !dup {
        reqs := reqs + [Req(now, fromIp, toIp, toId)];
      }
    }

    /** The `punch-requests -` command. */
    method Clear()
      modifies this
      ensures reqs == []
    {
      reqs := [];
    }
  }

  // ---- what the log keeps ---------------------------------------------------------

  predicate Ordered(log: seq<Req>, now: int) {
    && (forall i, j :: 0 <= i <= j < |log| ==> log[i].tm <= log[j].tm)
    && (forall i :: 0 <= i < |log| ==> log[i].tm <= now)
  }

  /** Equal keys at most thirty positions apart are at least a minute apart. */
  predicate Spaced(log: seq<Req>) {
    forall i, j :: 0 <= i < j < |log| && j - i <= TAIL && SameKey(log[i], log[j].fromIp, log[j].toId) ==>
      log[j].tm - log[i].tm >= DEDUPE_SECS * 1000
  }

  lemma {:induction false} LastMatchIs(log: seq<Req>, n: nat, fromIp: string, toId: string)
    ensures var i := LastMatch(log, n, fromIp, toId);
      && (i >= 0 ==> i >= |log| - n && SameKey(log[i], fromIp, toId))
      && (forall k :: 0 <= k < |log| && k >= |log| - n && k > i ==> !SameKey(log[k], fromIp, toId))
    decreases n
  {
    if log != [] && n > 0 && !SameKey(log[|log| - 1], fromIp, toId) {
      LastMatchIs(log[..|log| - 1], n - 1, fromIp, toId);
      var i := LastMatch(log, n, fromIp, toId);
      forall k | 0 <= k < |log| && k >= |log| - n && k > i ensures !SameKey(log[k], fromIp, toId) {
        if k < |log| - 1 { assert log[..|log| - 1][k] == log[k]; }
      }
    }
  }

  /** Recording keeps the log ordered and spaced. */
  lemma RecordKeeps(log: seq<Req>, fromIp: string, toIp: string, toId: string, now: int)
    requires Ordered(log, now) && Spaced(log)
    ensures Ordered(Record(log, fromIp, toIp, toId, now), now) && Spaced(Record(log, fromIp, toIp, toId, now))
  {
    LastMatchIs(log, TAIL, fromIp, toId);
    var r := Record(log, fromIp, toIp, toId, now);
    var m := LastMatch(log, TAIL, fromIp, toId);
    forall i, j | 0 <= i < j < |r| && j - i <= TAIL && SameKey(r[i], r[j].fromIp, r[j].toId)
      ensures r[j].tm - r[i].tm >= DEDUPE_SECS * 1000
    {
      if j == |log| {
        assert i <= m && r[i] == log[i];
        assert log[i].tm <= log[m].tm;
      }
    }
  }

  // ---- the tail scan against a full scan ------------------------------------------------

  predicate YoungMatch(log: seq<Req>, i: int, fromIp: string, toId: string, now: int) {
    0 <= i < |log| && SameKey(log[i], fromIp, toId) && Young(log[i], now)
  }

  /** What a scan of the whole log would decide. */
  predicate DuplicateAnywhere(log: seq<Req>, fromIp: string, toId: string, now: int) {
    exists i :: 0 <= i < |log| && YoungMatch(log, i, fromIp, toId, now)
  }

  function YoungOnes(log: seq<Req>, now: int): set<int> {
    set i | 0 <= i < |log| && Young(log[i], now)
  }

  /** The positions from `i` up to `j`. */
  function Span(i: int, j: int): (r: set<int>)
    ensures forall k :: k in r ==> i <= k < j
    decreases j - i
  {
    if i < j then Span(i, j - 1) + {j - 1} else {}
  }

  lemma {:induction false} SpanSize(i: int, j: int)
    requires i <= j
    ensures |Span(i, j)| == j - i
    decreases j - i
  {
    if i < j {
      SpanSize(i, j - 1);
    }
  }

  /** An entry from before the tail is only young if more than thirty entries are. */
  lemma TailHoldsYoung(log: seq<Req>, now: int, i: int)
    requires Ordered(log, now) && 0 <= i < |log| - TAIL && Young(log[i], now)
    ensures |YoungOnes(log, now)| > TAIL
  {
    forall k | k in Span(i, |log|) ensures k in YoungOnes(log, now) { assert log[i].tm <= log[k].tm; }
    SpanSize(i, |log|);
    SubsetSize(Span(i, |log|), YoungOnes(log, now));
  }

  /**
   * The tail scan decides like a scan of the whole log exactly when no young match hides behind the tail unless the
   * tail holds one too; in particular whenever at most thirty entries are younger than a minute.
   */
  lemma TailDecidesLikeAll(log: seq<Req>, fromIp: string, toId: string, now: int)
    requires Ordered(log, now)
    ensures |YoungOnes(log, now)| <= TAIL ==>
      (Duplicate(log, fromIp, toId, now) <==> DuplicateAnywhere(log, fromIp, toId, now))
    ensures Duplicate(log, fromIp, toId, now) <==>
      exists i :: |log| - TAIL <= i < |log| && YoungMatch(log, i, fromIp, toId, now)
  {
    LastMatchIs(log, TAIL, fromIp, toId);
    var m := LastMatch(log, TAIL, fromIp, toId);
    if Duplicate(log, fromIp, toId, now) { assert YoungMatch(log, m, fromIp, toId, now); }
    forall i | 0 <= i < |log| && YoungMatch(log, i, fromIp, toId, now)
      ensures i >= |log| - TAIL ==> Duplicate(log, fromIp, toId, now)
      ensures i < |log| - TAIL ==> |YoungOnes(log, now)| > TAIL
    {
      if i < |log| - TAIL {
        TailHoldsYoung(log, now, i);
      } else {
        assert i <= m && log[i].tm <= log[m].tm;
      }
    }
  }

  /** An entry of this source and id from less than a minute before `now`. */
  predicate Repeats(e: Req, fromIp: string, toId: string, now: int) {
    e.fromIp == fromIp && e.toId == toId && e.tm > now - 60_000
  }

  /**
   * A request leaves an ordered log alone exactly if one of its thirty newest entries repeats it; otherwise it comes
   * last, with its time, its source and the ip and id it goes to.
   */
  lemma RecordExactly(log: seq<Req>, fromIp: string, toIp: string, toId: string, now: int)
    requires Ordered(log, now)
    ensures Record(log, fromIp, toIp, toId, now) ==
      if exists i :: 0 <= i < |log| && i >= |log| - 30 && Repeats(log[i], fromIp, toId, now) then log
      else log + [Req(now, fromIp, toIp, toId)]
  {
    TailDecidesLikeAll(log, fromIp, toId, now);
    forall i | 0 <= i < |log|
      ensures YoungMatch(log, i, fromIp, toId, now) <==> Repeats(log[i], fromIp, toId, now)
    {
    }
    if exists i :: 0 <= i < |log| && i >= |log| - 30 && Repeats(log[i], fromIp, toId, now) {
      var i :| 0 <= i < |log| && i >= |log| - 30 && Repeats(log[i], fromIp, toId, now);
      assert YoungMatch(log, i, fromIp, toId, now);
    }
  }
}
