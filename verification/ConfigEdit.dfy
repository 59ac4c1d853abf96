/** The editors and readers of `config.toml` and `hbbr.toml`, as loops over lines. */
module ConfigEdit {
  import opened Text
  import opened ConfigLines
  import opened ConfigText
  import opened ConfigFlat

  datatype File = ConfigToml | HbbrToml

  // ---- names -----------------------------------------------------------

  /** The parameter name the web interface uses for a setting, if it knows it. */
  function ApiName(f: File, sec: string, key: string): Option<string> {
    match f
    case ConfigToml =>
      if sec != "" then None
      else if key == "port" then Some("hbbs_port")
      else if key == "serial" then Some("hbbs_serial")
      else if key == "key" then Some("hbbs_key")
      else if key == "mask" then Some("hbbs_lan_mask")
      else if key == "relay_servers" then Some("hbbr_relay_host")
      else None
    case HbbrToml =>
      if sec == "server" && key == "port" then Some("hbbr_port")
      else if sec == "server" && key == "websocket_port" then Some("hbbr_websocket_port")
      else if sec == "key" && key == "secret" then Some("hbbr_key")
      else if sec == "connection" && key == "max_connections" then Some("hbbr_max_connections")
      else if sec == "bandwidth" && key == "total_limit" then Some("hbbr_total_bandwidth")
      else if sec == "bandwidth" && key == "single_limit" then Some("hbbr_single_bandwidth")
      else None
  }

  /** One row of the writers' own name table. */
  datatype Place = Place(api: string, sec: string, key: string)

  function KeyMap(f: File): seq<Place> {
    match f
    case ConfigToml => [
      Place("hbbs_port", "", "port"), Place("hbbs_serial", "", "serial"), Place("hbbs_key", "", "key"),
      Place("hbbs_lan_mask", "", "mask"), Place("hbbr_relay_host", "", "relay_servers")]
    case HbbrToml => [
      Place("hbbr_port", "server", "port"), Place("hbbr_websocket_port", "server", "websocket_port"),
      Place("hbbr_key", "key", "secret"), Place("hbbr_max_connections", "connection", "max_connections"),
      Place("hbbr_total_bandwidth", "bandwidth", "total_limit"),
      Place("hbbr_single_bandwidth", "bandwidth", "single_limit")]
  }

  /** What the reader of a file reports: known settings under their interface names, later lines winning. */
  function View(f: File, log: Log): map<string, string> {
    if log == [] then map[] else
    var e := log[|log| - 1];
    var m := View(f, log[..|log| - 1]);
    match ApiName(f, e.sec, e.key) case Some(a) => m[a := e.val] case None => m
  }

  /** The changes a parameter map asks of a file, in table order. */
  function Requests(ps: seq<Place>, m: map<string, string>): seq<Update> {
    if ps == [] then []
    else if ps[0].api in m then [Update(ps[0].sec, ps[0].key, m[ps[0].api])] + Requests(ps[1..], m)
    else Requests(ps[1..], m)
  }

  // ---- readers ---------------------------------------------------------

  /** What one line adds to the parameters read so far. */
  function ViewLine(f: File, m: map<string, string>, l: string, sec: string): map<string, string> {
    match Classify(l)
    case Setting(k, v) => (match ApiName(f, sec, k) case Some(a) => m[a := v] case None => m)
    case _ => m
  }

  function ViewLines(f: File, m: map<string, string>, ls: seq<string>, sec: string): map<string, string>
    decreases ls
  {
    if ls == [] then m else ViewLines(f, ViewLine(f, m, ls[0], sec), ls[1..], NextSection(ls[0], sec))
  }

  lemma ViewSnoc(f: File, log: Log, l: string, sec: string)
    ensures View(f, log + LineLog(l, sec)) == ViewLine(f, View(f, log), l, sec)
  {
    var more := log + LineLog(l, sec);
    if Classify(l).Setting? {
      assert more[..|more| - 1] == log;
    } else {
      assert more == log;
    }
  }

  lemma {:induction false} ViewLinesIsView(f: File, log: Log, ls: seq<string>, sec: string)
    ensures ViewLines(f, View(f, log), ls, sec) == View(f, log + Scan(ls, sec))
    decreases ls
  {
    if ls == [] {
      assert log + [] == log;
    } else {
      var l, n := ls[0], NextSection(ls[0], sec);
      var x := log + LineLog(l, sec);
      ViewSnoc(f, log, l, sec);
      ViewLinesIsView(f, x, ls[1..], n);
      Regrouped(log, ls, sec, x);
    }
  }

  lemma Regrouped(log: Log, ls: seq<string>, sec: string, x: Log)
    requires ls != [] && x == log + LineLog(ls[0], sec)
    ensures log + Scan(ls, sec) == x + Scan(ls[1..], NextSection(ls[0], sec))
  {
  }

  method ReadConfigToml(content: string) returns (m: map<string, string>)
    ensures m == View(ConfigToml, TopLog(Lines(content)))
  {
    m := map[];
    var lines := Lines(content);
    var inSection := false;
    ghost var n := BracketPos(lines);
    for i := 0 to |lines|
      invariant inSection <==> i > n
      invariant ViewLines(ConfigToml, map[], lines[..n], "") ==
                if inSection then m else ViewLines(ConfigToml, m, lines[i..n], "")
    {
      var trimmed := Trim(lines[i]);
      ghost var before := m;
      assert !inSection && i < n ==> lines[i..n][0] == lines[i] && lines[i..n][1..] == lines[i + 1..n];
      if StartsWith(trimmed, '[') {
        inSection := true;
        continue;
      }
      if inSection || StartsWith(trimmed, '#') || trimmed == "" {
        continue;
      }
      var kv := SplitIniKv(trimmed);
      if kv.Some? && ApiName(ConfigToml, "", kv.value.0).Some? {
        m := m[ApiName(ConfigToml, "", kv.value.0).value := kv.value.1];
      }
      assert m == ViewLine(ConfigToml, before, lines[i], "");
    }
    ViewLinesIsView(ConfigToml, [], lines[..n], "");
    assert [] + Scan(lines[..n], "") == Scan(lines[..n], "");
  }

  method ReadHbbrToml(content: string) returns (m: map<string, string>)
    ensures m == View(HbbrToml, Scan(Lines(content), ""))
  {
    m := map[];
    var lines := Lines(content);
    var section := "";
    for i := 0 to |lines|
      invariant ViewLines(HbbrToml, map[], lines, "") == ViewLines(HbbrToml, m, lines[i..], section)
    {
      var trimmed := Trim(lines[i]);
      assert lines[i..][1..] == lines[i + 1..];
      if StartsWith(trimmed, '[') && EndsWith(trimmed, ']') {
        section := trimmed[1..|trimmed| - 1];
        continue;
      }
      if StartsWith(trimmed, '#') || trimmed == "" {
        continue;
      }
      var kv := SplitIniKv(trimmed);
      if kv.Some? && ApiName(HbbrToml, section, kv.value.0).Some? {
        m := m[ApiName(HbbrToml, section, kv.value.0).value := kv.value.1];
      }
    }
    ViewLinesIsView(HbbrToml, [], lines, "");
    assert [] + Scan(lines, "") == Scan(lines, "");
  }

  // ---- the sectioned editor ---------------------------------------------

  /** One line of the first pass: the new line, the section after it, and the pair it updated. */
  method UpdateLine(line: string, currentSection: string, updates: seq<Update>)
    returns (newLine: string, section: string, hit: set<(string, string)>)
    ensures newLine == RewriteLine(line, currentSection, updates)
    ensures section == NextSection(line, currentSection)
    ensures hit == Touch(line, currentSection, updates)
  {
    newLine, section, hit := line, currentSection, {};
    var trimmed := Trim(line);
    if StartsWith(trimmed, '[') && EndsWith(trimmed, ']') {
      section := trimmed[1..|trimmed| - 1];
      return;
    }
    if StartsWith(trimmed, '#') || trimmed == "" {
      return;
    }
    var kv := SplitIniKv(trimmed);
    if kv.Some? {
      var k := kv.value.0;
      for j := 0 to |updates|
        invariant newLine == line && hit == {}
        invariant Find(updates, currentSection, k) == Find(updates[j..], currentSection, k)
      {
        assert updates[j..][1..] == updates[j + 1..];
        if updates[j].sec == currentSection && updates[j].key == k {
          newLine := Format(updates[j].key, updates[j].val);
          hit := {(updates[j].sec, updates[j].key)};
          break;
        }
      }
    }
  }

  method UpdateSectionedKeys(content: string, updates: seq<Update>) returns (out: string)
    ensures out == EditSectioned(content, updates)
  {
    var lines, updated := RewriteLines(Lines(content), updates);
    lines := AppendMissingKeys(lines, updates, updated);
    out := Join(lines) + "\n";
  }

  /** One step of an in-place pass over lines. */
  lemma Advance(whole: seq<string>, lines: seq<string>, i: nat, x: string, rest: seq<string>)
    requires i < |lines| && whole == lines[..i] + ([x] + rest)
    ensures whole == lines[i := x][..i + 1] + rest && lines[i := x][i + 1..] == lines[i + 1..]
  {
    assert lines[i := x][..i + 1] == lines[..i] + [x];
  }

  /** First pass: update in place every line naming a requested pair, and remember the pairs met. */
  method RewriteLines(orig: seq<string>, updates: seq<Update>)
    returns (lines: seq<string>, updated: set<(string, string)>)
    ensures lines == Rewrite(orig, "", updates) && updated == Touched(orig, "", updates)
  {
    lines, updated := orig, {};
    var currentSection := "";
    for i := 0 to |lines|
      invariant |lines| == |orig| && lines[i..] == orig[i..]
      invariant Rewrite(orig, "", updates) == lines[..i] + Rewrite(orig[i..], currentSection, updates)
      invariant Touched(orig, "", updates) == updated + Touched(orig[i..], currentSection, updates)
    {
      assert lines[i] == lines[i..][0] == orig[i];
      assert orig[i..][1..] == orig[i + 1..] && lines[i..][1..] == lines[i + 1..];
      var newLine, section, hit := UpdateLine(lines[i], currentSection, updates);
      Advance(Rewrite(orig, "", updates), lines, i, newLine, Rewrite(orig[i + 1..], section, updates));
      lines, currentSection, updated := lines[i := newLine], section, updated + hit;
    }
  }

  /** Second pass: add every requested pair that was not met. */
  method AppendMissingKeys(start: seq<string>, updates: seq<Update>, updated: set<(string, string)>)
    returns (lines: seq<string>)
    ensures lines == AppendMissing(start, updates, updated)
  {
    lines := start;
    for j := 0 to |updates|
      invariant AppendMissing(lines, updates[j..], updated) == AppendMissing(start, updates, updated)
    {
      assert updates[j..][1..] == updates[j + 1..];
      if (updates[j].sec, updates[j].key) !in updated {
        lines := AddKey(lines, updates[j]);
      }
    }
  }

  /** Insert a setting at the end of its section, or append the section. */
  method AddKey(lines: seq<string>, p: Update) returns (r: seq<string>)
    ensures r == InsertKey(lines, p)
  {
    var start := HeaderPos(lines, p.sec);
    if start < |lines| {
      var end := SectionEnd(lines, start);
      r := lines[..end] + [Format(p.key, p.val)] + lines[end..];
    } else {
      r := lines + ["\n" + HeaderText(p.sec)];
      r := r + [Format(p.key, p.val)];
    }
  }

  method WriteHbbrToml(content: string, updates: map<string, string>) returns (out: string)
    ensures out == if Requests(KeyMap(HbbrToml), updates) == [] then content
                   else EditSectioned(content, Requests(KeyMap(HbbrToml), updates))
  {
    var sectioned := Collect(KeyMap(HbbrToml), updates);
    if sectioned == [] { return content; }
    out := UpdateSectionedKeys(content, sectioned);
  }

  method Collect(keyMap: seq<Place>, updates: map<string, string>) returns (sectioned: seq<Update>)
    ensures sectioned == Requests(keyMap, updates)
  {
    sectioned := [];
    for i := 0 to |keyMap|
      invariant Requests(keyMap, updates) == sectioned + Requests(keyMap[i..], updates)
    {
      assert keyMap[i..][1..] == keyMap[i + 1..];
      if keyMap[i].api in updates {
        sectioned := sectioned + [Update(keyMap[i].sec, keyMap[i].key, updates[keyMap[i].api])];
      }
    }
  }

  // ---- the flat editor ---------------------------------------------------

  /** A listing of a hash map of top-level updates, in whatever order it iterates. */
  ghost predicate Lists(items: seq<Update>, m: map<string, string>) {
    && TopLevel(items)
    && (forall i, j :: 0 <= i < j < |items| ==> items[i].key != items[j].key)
    && (forall k :: Find(items, "", k) == if k in m then Some(m[k]) else None)
  }

  lemma {:induction false} FindSnoc(u: seq<Update>, p: Update, sec: string, key: string)
    ensures Find(u + [p], sec, key) ==
            if Find(u, sec, key).Some? then Find(u, sec, key)
            else if p.sec == sec && p.key == key then Some(p.val) else None
  {
    if u == [] {
      assert u + [p] == [p];
    } else {
      assert (u + [p])[1..] == u[1..] + [p];
      FindSnoc(u[1..], p, sec, key);
    }
  }

  /** The iteration order of a hash map is not specified: any listing may come out. */
  method Items(m: map<string, string>) returns (items: seq<Update>)
    ensures Lists(items, m)
  {
    items := [];
    var rest := m.Keys;
    while rest != {}
      invariant rest <= m.Keys && TopLevel(items)
      invariant forall p :: p in items ==> p.key in m && p.key !in rest
      invariant forall i, j :: 0 <= i < j < |items| ==> items[i].key != items[j].key
      invariant forall k :: Find(items, "", k) == if k in m && k !in rest then Some(m[k]) else None
      decreases rest
    {
      var k :| k in rest;
      ghost var before := items;
      var p := Update("", k, m[k]);
      items := items + [p];
      rest := rest - {k};
      forall q ensures Find(items, "", q) == if q in m && q !in rest then Some(m[q]) else None {
        FindSnoc(before, p, "", q);
      }
      forall i, j | 0 <= i < j < |items| ensures items[i].key != items[j].key { assert items[i] in before; }
    }
  }

  /** One line of the first pass above the first section header. */
  method UpdateTopLine(line: string, updates: map<string, string>, updated: set<string>, ghost items: seq<Update>)
    returns (newLine: string, seen: set<string>)
    requires Lists(items, updates) && !OpensBracket(line)
    ensures newLine == RewriteLine(line, "", items) && NextSection(line, "") == ""
    ensures Tops(seen) == Tops(updated) + Touch(line, "", items)
  {
    newLine, seen := line, updated;
    var trimmed := Trim(line);
    if StartsWith(trimmed, '#') || trimmed == "" {
      return;
    }
    var kv := SplitIniKv(trimmed);
    if kv.Some? {
      var k := kv.value.0;
      assert Find(items, "", k) == if k in updates then Some(updates[k]) else None;
      if k in updates {
        newLine, seen := Format(k, updates[k]), updated + {k};
        assert Tops(seen) == Tops(updated) + {("", k)};
      }
    }
  }

  method UpdateFlatKeys(content: string, updates: map<string, string>) returns (out: string)
    ensures exists order :: Lists(order, updates) && out == EditFlat(content, order)
  {
    var items := Items(updates);
    var lines, updated := RewriteTopLines(Lines(content), updates, items);
    var extra := ExtraLinesFor(items, updated);
    lines := InsertReversed(lines, BracketPos(lines), extra);
    out := Join(lines) + "\n";
    assert out == EditFlat(content, items);
  }

  /** Inserting a reversed list one by one at the same place restores its order. */
  method InsertReversed(start: seq<string>, pos: nat, extra: seq<string>) returns (lines: seq<string>)
    requires pos <= |start|
    ensures lines == start[..pos] + extra + start[pos..]
  {
    lines := start;
    var j := |extra|;
    while j > 0
      invariant 0 <= j <= |extra| && lines == start[..pos] + extra[j..] + start[pos..]
    {
      j := j - 1;
      lines := lines[..pos] + [extra[j]] + lines[pos..];
    }
    assert extra[0..] == extra;
  }

  /** The first `i` lines have been passed, all of them above the first section header. */
  ghost predicate PassedTop(orig: seq<string>, i: nat, lines: seq<string>, updated: set<string>, items: seq<Update>) {
    var n := BracketPos(orig);
    && i <= n && |lines| == |orig| && lines[i..] == orig[i..]
    && Rewrite(orig[..n], "", items) == lines[..i] + Rewrite(orig[i..n], "", items)
    && Touched(orig[..n], "", items) == Tops(updated) + Touched(orig[i..n], "", items)
  }

  lemma PassTop(orig: seq<string>, i: nat, lines: seq<string>, updated: set<string>, items: seq<Update>, x: string,
      seen: set<string>)
    requires PassedTop(orig, i, lines, updated, items) && i < BracketPos(orig) && NextSection(orig[i], "") == ""
    requires x == RewriteLine(orig[i], "", items) && Tops(seen) == Tops(updated) + Touch(orig[i], "", items)
    ensures PassedTop(orig, i + 1, lines[i := x], seen, items)
  {
    var n := BracketPos(orig);
    assert orig[i..n][0] == orig[i] && orig[i..n][1..] == orig[i + 1..n];
    assert lines[i..][1..] == lines[i + 1..] && orig[i..][1..] == orig[i + 1..];
    Advance(Rewrite(orig[..n], "", items), lines, i, x, Rewrite(orig[i + 1..n], "", items));
  }

  lemma PassedAll(orig: seq<string>, lines: seq<string>, updated: set<string>, items: seq<Update>)
    requires PassedTop(orig, BracketPos(orig), lines, updated, items)
    ensures lines == RewriteTop(orig, items) && Tops(updated) == Touched(orig[..BracketPos(orig)], "", items)
  {
    var n := BracketPos(orig);
    assert orig[n..n] == [] && lines == lines[..n] + lines[n..];
  }

  method RewriteTopLines(orig: seq<string>, updates: map<string, string>, ghost items: seq<Update>)
    returns (lines: seq<string>, updated: set<string>)
    requires Lists(items, updates)
    ensures lines == RewriteTop(orig, items)
    ensures Tops(updated) == Touched(orig[..BracketPos(orig)], "", items)
  {
    ghost var n := BracketPos(orig);
    lines, updated := orig, {};
    var inSection := false;
    for i := 0 to |lines|
      invariant |lines| == |orig| && (inSection <==> i > n)
      invariant PassedTop(orig, if inSection then n else i, lines, updated, items)
    {
      ghost var at := if inSection then n else i;
      assert lines[i] == lines[at..][i - at] == orig[i];
      if StartsWith(Trim(lines[i]), '[') {
        inSection := true;
        continue;
      }
      if inSection {
        continue;
      }
      var newLine, seen := UpdateTopLine(lines[i], updates, updated, items);
      PassTop(orig, i, lines, updated, items, newLine, seen);
      lines, updated := lines[i := newLine], seen;
    }
    PassedAll(orig, lines, updated, items);
  }

  method ExtraLinesFor(items: seq<Update>, updated: set<string>) returns (extra: seq<string>)
    ensures extra == Extra(items, Tops(updated))
  {
    extra := [];
    for j := 0 to |items|
      invariant Extra(items, Tops(updated)) == extra + Extra(items[j..], Tops(updated))
    {
      assert items[j..][1..] == items[j + 1..];
      if items[j].key !in updated {
        extra := extra + [Format(items[j].key, items[j].val)];
      }
    }
  }

  function Tops(ks: set<string>): set<(string, string)> { set k | k in ks :: ("", k) }

  method WriteConfigToml(content: string, updates: map<string, string>) returns (out: string)
    ensures exists order :: Lists(order, TomlUpdates(updates)) &&
              out == if order == [] then content else EditFlat(content, order)
  {
    var tomlUpdates := TomlUpdates(updates);
    if tomlUpdates == map[] {
      assert Lists([], tomlUpdates);
      return content;
    }
    out := UpdateFlatKeys(content, tomlUpdates);
    ghost var order :| Lists(order, tomlUpdates) && out == EditFlat(content, order);
    assert order != [] by {
      var k :| k in tomlUpdates;
      assert Find(order, "", k).Some?;
    }
  }

  /** The interface's parameters renamed to the keys of `config.toml`. */
  function TomlUpdates(updates: map<string, string>): map<string, string> {
    map k | k in {"port", "serial", "key", "mask", "relay_servers"} && ApiName(ConfigToml, "", k).value in updates
      :: updates[ApiName(ConfigToml, "", k).value]
  }
}
