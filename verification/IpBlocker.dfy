/** The per-address blocker in front of RegisterPk: a burst counter and a daily set of ids. */
module IpBlocker {
  import opened Clock
  import opened RateCounter
  import opened Sets

  const LIMIT := Limit(60, 30)
  const DAY_SECONDS := 86_400
  const MAX_IDS := 300

  datatype Entry = NoEntry | Entry(counter: Counter, ids: set<string>, idsAt: int)

  datatype Call = Call(ip: string, id: string, at: int)

  /**
   * The outcome of one call: the entry it leaves, the answer, whether it passed the counter, whether the id set
   * started afresh.
   */
  datatype Verdict = Verdict(entry: Entry, ok: bool, counted: bool, afresh: bool)

  function Check(e: Entry, id: string, now: int): Verdict {
    if e == NoEntry then Verdict(Entry(Counter(0, now), {}, now), true, true, true) else
    var (pass, c) := Pass(LIMIT, e.counter, now);
    var added := if id in e.ids then {} else {id};
    if !pass then Verdict(e, false, false, false)
    else if Secs(now, e.idsAt) > DAY_SECONDS then Verdict(Entry(c, added, now), true, true, true)
    else if |e.ids| > MAX_IDS then Verdict(Entry(c, e.ids, e.idsAt), id in e.ids, true, false)
    else Verdict(Entry(c, e.ids + added, now), true, true, false)
  }

  type Table = map<string, Entry>

  function At(m: Table, ip: string): Entry { if ip in m then m[ip] else NoEntry }

  function CheckIn(m: Table, c: Call): (Table, bool) {
    var v := Check(At(m, c.ip), c.id, c.at);
    (m[c.ip := v.entry], v.ok)
  }

  class Blocker {
    var table: Table

    constructor ()
      ensures table == map[]
    {
      table := map[];
    }

    method CheckIpBlocker(ip: string, id: string, now: int) returns (ok: bool)
      modifies this
      ensures (table, ok) == CheckIn(old(table), Call(ip, id, now))
    {
      if At(table, ip) == NoEntry {
        table := table[ip := Entry(Counter(0, now), {}, now)];
        return true;
      }
      var Entry(counter, ids, idsAt) := table[ip];
      if Secs(now, counter.at) > LIMIT.quiet {
        counter := Counter(0, counter.at);
      } else if counter.count > LIMIT.most {
        assert table == table[ip := table[ip]];
        return false;
      }
      counter := Counter(counter.count + 1, now);
      var isNew := id !in ids;
      if Secs(now, idsAt) > DAY_SECONDS {
        ids := {};
      } else if |ids| > MAX_IDS {
        table := table[ip := Entry(counter, ids, idsAt)];
        return !isNew;
      }
      ghost var added := if isNew then {id} else {};
      assert ids + added == (if isNew then ids + {id} else ids) && {} + added == added;
      if isNew {
        ids := ids + {id};
      }
      table := table[ip := Entry(counter, ids, now)];
      ok := true;
    }
  }

  // ---- runs ------------------------------------------------------------------

  function Run(m: Table, calls: seq<Call>): Table
    decreases calls
  {
    if calls == [] then m else Run(CheckIn(m, calls[0]).0, calls[1..])
  }

  /** The calls from one address. */
  function From(calls: seq<Call>, ip: string): seq<Call> {
    if calls == [] then []
    else if calls[0].ip == ip then [calls[0]] + From(calls[1..], ip)
    else From(calls[1..], ip)
  }

  function RunEntry(e: Entry, calls: seq<Call>): Entry
    decreases calls
  {
    if calls == [] then e else RunEntry(Check(e, calls[0].id, calls[0].at).entry, calls[1..])
  }

  /** Addresses do not influence each other. */
  lemma {:induction false} RunByAddress(m: Table, calls: seq<Call>, ip: string)
    ensures At(Run(m, calls), ip) == RunEntry(At(m, ip), From(calls, ip))
    decreases calls
  {
    if calls != [] {
      RunByAddress(CheckIn(m, calls[0]).0, calls[1..], ip);
      if calls[0].ip == ip { assert From(calls, ip)[1..] == From(calls[1..], ip); }
    }
  }

  /** The times of the calls that got past the counter. */
  function CountedTimes(e: Entry, calls: seq<Call>): seq<int>
    decreases calls
  {
    if calls == [] then [] else
    var v := Check(e, calls[0].id, calls[0].at);
    if v.counted then [calls[0].at] + CountedTimes(v.entry, calls[1..]) else CountedTimes(v.entry, calls[1..])
  }

  function Times(calls: seq<Call>): seq<int> {
    if calls == [] then [] else [calls[0].at] + Times(calls[1..])
  }

  lemma {:induction false} CountedArePasses(e: Entry, calls: seq<Call>)
    requires e.Entry?
    ensures CountedTimes(e, calls) == Passes(LIMIT, e.counter, Times(calls))
    decreases calls
  {
    if calls != [] {
      assert Times(calls)[1..] == Times(calls[1..]);
      CountedArePasses(Check(e, calls[0].id, calls[0].at).entry, calls[1..]);
    }
  }

  /** Among any 33 consecutive calls of one address that pass the counter, some adjacent two are at least 61 s apart. */
  lemma BurstOf33(calls: seq<Call>, ip: string, i: nat) returns (j: nat)
    requires i + 33 <= |CountedTimes(NoEntry, From(calls, ip))|
    ensures var ts := CountedTimes(NoEntry, From(calls, ip)); i < j < i + 33 && ts[j] - ts[j - 1] >= 61_000
  {
    var cs := From(calls, ip);
    var ts := CountedTimes(NoEntry, cs);
    var e := Check(NoEntry, cs[0].id, cs[0].at).entry;
    var rest := CountedTimes(e, cs[1..]);
    CountedArePasses(e, cs[1..]);
    assert ts == [cs[0].at] + rest;
    PassesChain(LIMIT, e.counter, Times(cs[1..]));
    if i > 0 {
      j := QuietAmong(LIMIT, e.counter, rest, i - 1);
      j := j + 1;
      assert ts[j] == rest[j - 1] && ts[j - 1] == rest[j - 2];
    } else {
      ChainPrefix(LIMIT, e.counter, rest, 32);
      j := BurstEnds(LIMIT, e.counter, rest[..32]);
      j := j + 1;
      assert ts[j] == rest[j - 1] && (j >= 2 ==> ts[j - 1] == rest[j - 2]);
    }
  }

  /** A counter and an id set within their bounds. */
  predicate Bounded(e: Entry) {
    e.Entry? ==> e.counter.count <= 31 && |e.ids| <= 301
  }

  lemma CheckBounded(e: Entry, id: string, now: int)
    requires Bounded(e)
    ensures Bounded(Check(e, id, now).entry)
  {
    var added := if e.Entry? && id in e.ids then {} else {id};
    if e.Entry? { UnionSize(e.ids, added); }
  }

  /** The counter never exceeds 31 and the id set never exceeds 301, for every address and every run. */
  lemma {:induction false} RunBounded(m: Table, calls: seq<Call>)
    requires forall ip :: ip in m ==> Bounded(m[ip])
    ensures forall ip :: ip in Run(m, calls) ==> Bounded(Run(m, calls)[ip])
    decreases calls
  {
    if calls != [] {
      CheckBounded(At(m, calls[0].ip), calls[0].id, calls[0].at);
      RunBounded(CheckIn(m, calls[0]).0, calls[1..]);
    }
  }

  // ---- ids let through -----------------------------------------------------------

  /** The ids some call of the run was answered true for. */
  function Allowed(e: Entry, calls: seq<Call>): set<string>
    decreases calls
  {
    if calls == [] then {} else
    var v := Check(e, calls[0].id, calls[0].at);
    (if v.ok then {calls[0].id} else {}) + Allowed(v.entry, calls[1..])
  }

  /** No call of the run starts the id set afresh. */
  predicate KeepsSet(e: Entry, calls: seq<Call>)
    decreases calls
  {
    calls == [] || (var v := Check(e, calls[0].id, calls[0].at); !v.afresh && KeepsSet(v.entry, calls[1..]))
  }

  lemma {:induction false} AllowedAreKnown(e: Entry, calls: seq<Call>)
    requires e.Entry? && Bounded(e) && KeepsSet(e, calls)
    ensures var r := RunEntry(e, calls);
      r.Entry? && Bounded(r) && Allowed(e, calls) <= r.ids && e.ids <= r.ids
    decreases calls
  {
    if calls != [] {
      CheckBounded(e, calls[0].id, calls[0].at);
      AllowedAreKnown(Check(e, calls[0].id, calls[0].at).entry, calls[1..]);
    }
  }

  /**
   * From a call that starts the id set afresh up to the next such call, at most 302 distinct ids are let through:
   * the 301 the set can hold and the one of that first call, which need not be recorded.
   */
  lemma AtMost302Ids(e: Entry, calls: seq<Call>)
    requires Bounded(e) && calls != []
    requires Check(e, calls[0].id, calls[0].at).afresh
    requires KeepsSet(Check(e, calls[0].id, calls[0].at).entry, calls[1..])
    ensures |Allowed(e, calls)| <= 302
  {
    var f := Check(e, calls[0].id, calls[0].at).entry;
    CheckBounded(e, calls[0].id, calls[0].at);
    AllowedAreKnown(f, calls[1..]);
    var ids := RunEntry(f, calls[1..]).ids;
    UnionSize({calls[0].id}, ids);
    SubsetSize(Allowed(e, calls), {calls[0].id} + ids);
  }
}
