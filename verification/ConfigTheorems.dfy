/** What the interface and the relay process read after parameters are saved. */
module ConfigTheorems {
  import opened Text
  import opened ConfigLines
  import opened ConfigText
  import opened ConfigFlat
  import opened ConfigEdit

  /** The two name tables, one in the readers and one in the writers, are inverse to each other. */
  lemma TablesAgree(f: File, i: nat, sec: string, key: string)
    requires i < |KeyMap(f)|
    ensures ApiName(f, sec, key) == Some(KeyMap(f)[i].api) <==> sec == KeyMap(f)[i].sec && key == KeyMap(f)[i].key
  {
  }

  /** Row of an interface name in a file's table. */
  function Row(ps: seq<Place>, a: string): (i: nat)
    ensures i <= |ps| && (i < |ps| ==> ps[i].api == a) && forall j :: 0 <= j < i ==> ps[j].api != a
  {
    if ps == [] || ps[0].api == a then 0 else 1 + Row(ps[1..], a)
  }

  predicate Known(f: File, a: string) { Row(KeyMap(f), a) < |KeyMap(f)| }

  lemma NamesKnown(f: File, sec: string, key: string)
    ensures ApiName(f, sec, key).Some? ==> Known(f, ApiName(f, sec, key).value)
  {
    if ApiName(f, sec, key).Some? {
      var a := ApiName(f, sec, key).value;
      var k := KeyMap(f);
      assert a == k[0].api || a == k[1].api || a == k[2].api || a == k[3].api || a == k[4].api
        || (f == HbbrToml && a == k[5].api);
    }
  }

  /** The reader's report of a parameter is the last setting at its place. */
  lemma {:induction false} ViewReads(f: File, log: Log, i: nat)
    requires i < |KeyMap(f)|
    ensures var p := KeyMap(f)[i];
            (p.api in View(f, log) <==> Lookup(log, p.sec, p.key).Some?)
            && (p.api in View(f, log) ==> View(f, log)[p.api] == Lookup(log, p.sec, p.key).value)
  {
    if log != [] {
      var e := log[|log| - 1];
      ViewReads(f, log[..|log| - 1], i);
      TablesAgree(f, i, e.sec, e.key);
    }
  }

  lemma {:induction false} ViewKnown(f: File, log: Log, a: string)
    requires a in View(f, log)
    ensures Known(f, a)
  {
    if log != [] {
      var e := log[|log| - 1];
      NamesKnown(f, e.sec, e.key);
      if a in View(f, log[..|log| - 1]) { ViewKnown(f, log[..|log| - 1], a); }
    }
  }

  /** The parameters of a map that belong to a file, as they must read back. */
  function Saved(f: File, m: map<string, string>): map<string, string> {
    map a | a in m && Known(f, a) :: Clean(m[a])
  }

  /** No value of a parameter of this file holds a line feed. */
  predicate LineFree(f: File, m: map<string, string>) {
    forall a :: a in m && Known(f, a) ==> '\n' !in m[a]
  }

  /** Two logs related setting by setting as an edit relates them give views related parameter by parameter. */
  lemma ViewAfterEdit(f: File, before: Log, after: Log, m: map<string, string>)
    requires forall i :: 0 <= i < |KeyMap(f)| ==> EditedAt(before, after, m, KeyMap(f)[i])
    ensures View(f, after) == View(f, before) + Saved(f, m)
  {
    var v, w := View(f, after), View(f, before) + Saved(f, m);
    forall a ensures (a in v <==> a in w) && (a in v ==> v[a] == w[a]) {
      if Known(f, a) {
        var i := Row(KeyMap(f), a);
        assert EditedAt(before, after, m, KeyMap(f)[i]);
        ViewReads(f, before, i);
        ViewReads(f, after, i);
      } else {
        if a in v { ViewKnown(f, after, a); }
        if a in View(f, before) { ViewKnown(f, before, a); }
      }
    }
  }

  predicate EditedAt(before: Log, after: Log, m: map<string, string>, p: Place) {
    Lookup(after, p.sec, p.key) ==
    AfterEdit(if p.api in m then Some(m[p.api]) else None, Lookup(before, p.sec, p.key))
  }

  // ---- hbbr.toml ---------------------------------------------------------

  /** Rows name distinct places with usable keys. */
  predicate GoodTable(ps: seq<Place>) {
    && (forall i :: 0 <= i < |ps| ==> GoodKey(ps[i].key) && '\n' !in ps[i].sec)
    && (forall i, j :: 0 <= i < j < |ps| ==> ps[i].sec != ps[j].sec || ps[i].key != ps[j].key)
    && (forall i, j :: 0 <= i < j < |ps| ==> ps[i].api != ps[j].api)
  }

  lemma KeyGood(k: string)
    requires k in ["port", "serial", "key", "mask", "relay_servers", "websocket_port", "secret",
                   "max_connections", "total_limit", "single_limit"]
    ensures GoodKey(k)
  {
  }

  lemma TablesGood(f: File)
    ensures GoodTable(KeyMap(f))
  {
    var ps := KeyMap(f);
    forall i | 0 <= i < |ps| ensures GoodKey(ps[i].key) && '\n' !in ps[i].sec {
      assert i == 0 || i == 1 || i == 2 || i == 3 || i == 4 || i == 5;
      KeyGood(ps[i].key);
    }
    forall i, j | 0 <= i < j < |ps|
      ensures (ps[i].sec != ps[j].sec || ps[i].key != ps[j].key) && ps[i].api != ps[j].api
    {
      TablesAgree(f, i, ps[j].sec, ps[j].key);
      TablesAgree(f, j, ps[j].sec, ps[j].key);
      RowsDiffer(f, i, j);
    }
  }

  lemma RowsDiffer(f: File, i: nat, j: nat)
    requires i < j < |KeyMap(f)|
    ensures KeyMap(f)[i].api != KeyMap(f)[j].api
  {
  }

  lemma {:induction false} RequestsFind(ps: seq<Place>, m: map<string, string>, i: nat)
    requires GoodTable(ps) && i < |ps|
    ensures Find(Requests(ps, m), ps[i].sec, ps[i].key) == if ps[i].api in m then Some(m[ps[i].api]) else None
  {
    if i == 0 {
      RequestsNone(ps[1..], m, ps[0].sec, ps[0].key);
    } else {
      RequestsFind(ps[1..], m, i - 1);
    }
  }

  lemma {:induction false} RequestsNone(ps: seq<Place>, m: map<string, string>, sec: string, key: string)
    requires forall i :: 0 <= i < |ps| ==> ps[i].sec != sec || ps[i].key != key
    ensures forall i :: 0 <= i < |Requests(ps, m)| ==> Requests(ps, m)[i].sec != sec || Requests(ps, m)[i].key != key
    ensures Find(Requests(ps, m), sec, key) == None
  {
    if ps != [] { RequestsNone(ps[1..], m, sec, key); }
  }

  lemma {:induction false} RequestsGood(ps: seq<Place>, m: map<string, string>)
    requires GoodTable(ps) && forall i :: 0 <= i < |ps| && ps[i].api in m ==> '\n' !in m[ps[i].api]
    ensures GoodUpdates(Requests(ps, m))
  {
    if ps != [] {
      RequestsGood(ps[1..], m);
      RequestsNone(ps[1..], m, ps[0].sec, ps[0].key);
    }
  }

  /** The text `write_hbbr_toml` leaves. */
  function HbbrWritten(t: string, m: map<string, string>): string {
    var u := Requests(KeyMap(HbbrToml), m);
    if u == [] then t else EditSectioned(t, u)
  }

  /** Saving then reading `hbbr.toml`: each saved parameter reads its cleaned value, every other reads as before. */
  lemma HbbrSaved(t: string, m: map<string, string>)
    requires LineFree(HbbrToml, m)
    ensures View(HbbrToml, Scan(Lines(HbbrWritten(t, m)), "")) ==
            View(HbbrToml, Scan(Lines(t), "")) + Saved(HbbrToml, m)
  {
    var ps := KeyMap(HbbrToml);
    var u := Requests(ps, m);
    var before, after := Scan(Lines(t), ""), Scan(Lines(HbbrWritten(t, m)), "");
    TablesGood(HbbrToml);
    forall i | 0 <= i < |ps| && ps[i].api in m ensures '\n' !in m[ps[i].api] { RowOf(ps, i); }
    RequestsGood(ps, m);
    forall i | 0 <= i < |ps| ensures EditedAt(before, after, m, ps[i]) {
      RequestsFind(ps, m, i);
      if u != [] { EditSectionedReads(t, u, ps[i].sec, ps[i].key); }
    }
    ViewAfterEdit(HbbrToml, before, after, m);
  }

  lemma RowOf(ps: seq<Place>, i: nat)
    requires GoodTable(ps) && i < |ps|
    ensures Row(ps, ps[i].api) == i
  {
  }

  // ---- config.toml -------------------------------------------------------

  lemma TomlListGood(m: map<string, string>, order: seq<Update>)
    requires LineFree(ConfigToml, m) && Lists(order, TomlUpdates(m))
    ensures GoodUpdates(order)
    ensures forall i :: 0 <= i < |KeyMap(ConfigToml)| ==>
      Find(order, "", KeyMap(ConfigToml)[i].key) ==
      if KeyMap(ConfigToml)[i].api in m then Some(m[KeyMap(ConfigToml)[i].api]) else None
  {
    var ps, toml := KeyMap(ConfigToml), TomlUpdates(m);
    forall i | 0 <= i < |ps|
      ensures ps[i].key in toml <==> ps[i].api in m
      ensures ps[i].key in toml ==> toml[ps[i].key] == m[ps[i].api]
    {
      TablesAgree(ConfigToml, i, "", ps[i].key);
    }
    forall i | 0 <= i < |order| ensures GoodUpdate(order[i]) {
      var p := order[i];
      assert p in order;
      FindPresent(order, i);
      assert p.key in toml;
      TomlKeyRow(p.key);
      var j :| 0 <= j < |ps| && ps[j].key == p.key;
      RowOfConfig(j);
      TablesGood(ConfigToml);
      FindUnique(order, i);
    }
    forall i, j | 0 <= i < j < |order| ensures order[i].sec != order[j].sec || order[i].key != order[j].key {
    }
  }

  lemma {:induction false} FindUnique(u: seq<Update>, i: nat)
    requires i < |u| && forall a, b :: 0 <= a < b < |u| ==> u[a].key != u[b].key
    ensures Find(u, u[i].sec, u[i].key) == Some(u[i].val)
  {
    if i > 0 { FindUnique(u[1..], i - 1); }
  }

  lemma TomlKeyRow(k: string)
    requires k in {"port", "serial", "key", "mask", "relay_servers"}
    ensures exists j :: 0 <= j < |KeyMap(ConfigToml)| && KeyMap(ConfigToml)[j].key == k
  {
    var ps := KeyMap(ConfigToml);
    assert ps[0].key == k || ps[1].key == k || ps[2].key == k || ps[3].key == k || ps[4].key == k;
  }

  lemma RowOfConfig(j: nat)
    requires j < |KeyMap(ConfigToml)|
    ensures Known(ConfigToml, KeyMap(ConfigToml)[j].api)
  {
    TablesGood(ConfigToml);
    RowOf(KeyMap(ConfigToml), j);
  }

  lemma ConfigWrittenAt(t: string, m: map<string, string>, order: seq<Update>, out: string, p: Place)
    requires GoodUpdates(order) && TopLevel(order) && p.sec == ""
    requires Find(order, "", p.key) == if p.api in m then Some(m[p.api]) else None
    requires out == if order == [] then t else EditFlat(t, order)
    ensures EditedAt(TopLog(Lines(t)), TopLog(Lines(out)), m, p)
  {
    if order != [] { EditFlatReads(t, order, p.key); }
  }

  lemma ConfigRowEdited(t: string, m: map<string, string>, order: seq<Update>, out: string, i: nat)
    requires LineFree(ConfigToml, m) && Lists(order, TomlUpdates(m)) && i < |KeyMap(ConfigToml)|
    requires out == if order == [] then t else EditFlat(t, order)
    ensures EditedAt(TopLog(Lines(t)), TopLog(Lines(out)), m, KeyMap(ConfigToml)[i])
  {
    TomlListGood(m, order);
    var p := KeyMap(ConfigToml)[i];
    assert p.sec == "";
    ConfigWrittenAt(t, m, order, out, p);
  }

  /** Saving then reading `config.toml`, for every order the intermediate hash map may iterate in. */
  lemma ConfigSaved(t: string, m: map<string, string>, order: seq<Update>)
    requires LineFree(ConfigToml, m) && Lists(order, TomlUpdates(m))
    ensures var out := if order == [] then t else EditFlat(t, order);
            View(ConfigToml, TopLog(Lines(out))) == View(ConfigToml, TopLog(Lines(t))) + Saved(ConfigToml, m)
  {
    var out := if order == [] then t else EditFlat(t, order);
    var before, after := TopLog(Lines(t)), TopLog(Lines(out));
    forall i | 0 <= i < |KeyMap(ConfigToml)| ensures EditedAt(before, after, m, KeyMap(ConfigToml)[i]) {
      ConfigRowEdited(t, m, order, out, i);
    }
    ViewAfterEdit(ConfigToml, before, after, m);
  }

  // ---- both files --------------------------------------------------------

  /** What `get_server_params` answers from the two texts. */
  function ServerParams(config: string, hbbr: string): map<string, string> {
    View(ConfigToml, TopLog(Lines(config))) + View(HbbrToml, Scan(Lines(hbbr), ""))
  }

  lemma FilesDisjoint(a: string)
    ensures !(Known(ConfigToml, a) && Known(HbbrToml, a))
  {
    if Known(ConfigToml, a) && Known(HbbrToml, a) {
      NamesDiffer(Row(KeyMap(ConfigToml), a), Row(KeyMap(HbbrToml), a));
    }
  }

  lemma NamesDiffer(i: nat, j: nat)
    requires i < |KeyMap(ConfigToml)| && j < |KeyMap(HbbrToml)|
    ensures KeyMap(ConfigToml)[i].api != KeyMap(HbbrToml)[j].api
  {
  }

  /** Saving parameters and asking for them again: the saved ones changed, cleaned, and nothing else. */
  lemma ServerParamsSaved(config: string, hbbr: string, m: map<string, string>, order: seq<Update>)
    requires LineFree(ConfigToml, m) && LineFree(HbbrToml, m) && Lists(order, TomlUpdates(m))
    ensures var config' := if order == [] then config else EditFlat(config, order);
            ServerParams(config', HbbrWritten(hbbr, m)) ==
            ServerParams(config, hbbr) + Saved(ConfigToml, m) + Saved(HbbrToml, m)
  {
    ConfigSaved(config, m, order);
    HbbrSaved(hbbr, m);
    var c, h := View(ConfigToml, TopLog(Lines(config))), View(HbbrToml, Scan(Lines(hbbr), ""));
    forall a ensures a !in Saved(ConfigToml, m) || a !in h {
      FilesDisjoint(a);
      if a in h { ViewKnown(HbbrToml, Scan(Lines(hbbr), ""), a); }
    }
    UpdatesCommute(c, Saved(ConfigToml, m), h, Saved(HbbrToml, m));
  }

  lemma UpdatesCommute(c: map<string, string>, s: map<string, string>, h: map<string, string>, r: map<string, string>)
    requires forall a :: a !in s || a !in h
    ensures (c + s) + (h + r) == c + h + s + r
  {
  }
}
