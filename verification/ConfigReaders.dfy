/** What the readers of the settings files report, on lines as people write them: margins, quotes, comments. */
module ConfigReaders {
  import opened Text
  import opened ConfigLines
  import opened ConfigText
  import opened ConfigFlat
  import opened ConfigEdit
  import opened ConfigTheorems
  import opened HbbrEnv

  // ---- lines --------------------------------------------------------------------------

  /** What follows the `=` of a trimmed line: the text without its end margin. */
  lemma TailOf(r: string) returns (tail: string, margin: string)
    ensures r == tail + margin && Blank(margin) && Trim(tail) == Trim(r)
    ensures tail == "" || !IsSpace(tail[|tail| - 1])
  {
    var a, b := TrimSplits(r);
    var v := Trim(r);
    if v == "" {
      BlankWhole(r, a, b);
      tail, margin := "", r;
      TrimTidy("");
    } else {
      tail, margin := a + v, b;
      assert a + v + "" == a + v;
      TrimIs(a, v, "");
      assert tail[|tail| - 1] == v[|v| - 1];
    }
  }

  lemma SplitLaidOut(k: string, n: string, tail: string)
    requires GoodKey(k) && Blank(n)
    ensures SplitIniKv(k + n + ['='] + tail) == Some((k, Unquote(Trim(tail))))
  {
    var t := k + n + ['='] + tail;
    IndexOfIs(k + n, '=', tail);
    assert t[..|k + n|] == "" + k + n && t[|k + n| + 1..] == tail;
    TrimIs("", k, n);
  }

  /** A setting with any margins: the key is what stands before the first `=`, the value what stands after it. */
  lemma SettingLine(m: string, k: string, n: string, r: string)
    requires Blank(m) && Blank(n) && GoodKey(k)
    ensures Classify(m + (k + n + ['='] + r)) == Setting(k, Unquote(Trim(r)))
  {
    var tail, margin := TailOf(r);
    var t := k + n + ['='] + tail;
    SplitLaidOut(k, n, tail);
    assert t[0] == k[0] && t[|t| - 1] == if tail == "" then '=' else tail[|tail| - 1];
    assert m + (k + n + ['='] + r) == m + t + margin;
    TrimIs(m, t, margin);
  }

  lemma BlankWhole(r: string, a: string, b: string)
    requires r == a + "" + b && Blank(a) && Blank(b)
    ensures Blank(r)
  {
  }

  /** A value in quotes, or without, reads as the text between them. */
  lemma QuotedValue(m: string, q: string, t: string, p: string, n: string)
    requires Blank(m) && Blank(n) && Quotes(q) && Quotes(p) && Bare(t) && Tidy(q + t + p)
    ensures Unquote(Trim(m + (q + t + p) + n)) == t
  {
    TrimIs(m, q + t + p, n);
    UnquoteIs(q, t, p);
  }

  /** How a setting is laid out: the margins of the key and of the value, and the quotes around the value. */
  datatype Layout = Layout(before: string, afterKey: string, beforeValue: string, open: string, close: string,
    afterValue: string)

  /** Margins of white space, quotes of any number, and a value with nothing to strip between them. */
  predicate Plain(w: Layout, t: string) {
    && Blank(w.before) && Blank(w.afterKey) && Blank(w.beforeValue) && Blank(w.afterValue)
    && Quotes(w.open) && Quotes(w.close) && Bare(t) && Tidy(w.open + t + w.close)
  }

  /** The line that assigns `t` to `k`, laid out like this. */
  function Assigning(w: Layout, k: string, t: string): string {
    w.before + (k + w.afterKey + ['='] + (w.beforeValue + (w.open + t + w.close) + w.afterValue))
  }

  lemma AssignedReads(w: Layout, k: string, t: string)
    requires GoodKey(k) && Plain(w, t)
    ensures Classify(Assigning(w, k, t)) == Setting(k, t)
  {
    SettingLine(w.before, k, w.afterKey, w.beforeValue + (w.open + t + w.close) + w.afterValue);
    QuotedValue(w.beforeValue, w.open, t, w.close, w.afterValue);
  }

  /** Comments and blank lines say nothing, and a trimmed line in brackets names a section. */
  lemma OtherLines(m: string, s: string, n: string)
    requires Blank(m) && Blank(n)
    ensures Classify(m) == Ignored
    ensures Classify(m + (['#'] + s)) == Ignored
    ensures Classify(m + (['['] + s + [']']) + n) == Header(s)
  {
    TrimIs(m, "", "");
    assert m + "" + "" == m;
    TrimTidy("");
    var c := ['#'] + s;
    var a, b := TrimSplits(s);
    var tail := if Trim(s) == "" then "" else a + Trim(s);
    var margin := if Trim(s) == "" then s else b;
    if Trim(s) == "" { BlankWhole(s, a, b); }
    var t := ['#'] + tail;
    assert t[|t| - 1] == if Trim(s) == "" then '#' else Trim(s)[|Trim(s)| - 1];
    assert m + c == m + t + margin;
    TrimIs(m, t, margin);
    var h := ['['] + s + [']'];
    assert h[0] == '[' && h[|h| - 1] == ']' && h[1..|h| - 1] == s;
    TrimIs(m, h, n);
  }

  // ---- files --------------------------------------------------------------------------

  /** A file that ends in this line, in the section of this header. */
  function FileEnding(before: seq<string>, sec: string, mid: seq<string>, l: string): string {
    Terminated(before + [HeaderText(sec)] + mid + [l])
  }

  lemma LastSetting(before: seq<string>, sec: string, mid: seq<string>, k: string, l: string, t: string)
    requires OneLiners(before) && OneLiners(mid) && NoBrackets(mid) && '\n' !in sec && '\n' !in l
    requires Classify(l) == Setting(k, t)
    ensures Lookup(Scan(Lines(FileEnding(before, sec, mid, l)), ""), sec, k) == Some(t)
  {
    var head := before + [HeaderText(sec)] + mid;
    LinesOfTerminated(head + [l]);
    StrippedBrackets(head + [l]);
    ScanConcat(head, [l], "");
    HeadReaches(before, sec, mid);
    ScanOne(l, sec);
    LastWins(Scan(head, ""), Entry(sec, k, t));
  }

  lemma HeadReaches(before: seq<string>, sec: string, mid: seq<string>)
    requires NoBrackets(mid)
    ensures EndSection(before + [HeaderText(sec)] + mid, "") == sec
  {
    var head := before + [HeaderText(sec)] + mid;
    TrimTidy(HeaderText(sec));
    assert head[|before|] == HeaderText(sec) && head[..|head|] == head;
    SectionReaches(head, |before|, sec, |head|);
  }

  lemma LastWins(log: Log, e: Entry)
    ensures Lookup(log + [e], e.sec, e.key) == Some(e.val)
  {
  }

  /** The sections, keys and parameter names of `hbbr.toml`. */
  predicate HbbrPlace(sec: string, k: string, api: string) {
    || (sec == "server" && k == "port" && api == "hbbr_port")
    || (sec == "server" && k == "websocket_port" && api == "hbbr_websocket_port")
    || (sec == "key" && k == "secret" && api == "hbbr_key")
    || (sec == "connection" && k == "max_connections" && api == "hbbr_max_connections")
    || (sec == "bandwidth" && k == "total_limit" && api == "hbbr_total_bandwidth")
    || (sec == "bandwidth" && k == "single_limit" && api == "hbbr_single_bandwidth")
  }

  /** The top-level keys and parameter names of `config.toml`. */
  predicate ConfigPlace(k: string, api: string) {
    || (k == "port" && api == "hbbs_port")
    || (k == "serial" && api == "hbbs_serial")
    || (k == "key" && api == "hbbs_key")
    || (k == "mask" && api == "hbbs_lan_mask")
    || (k == "relay_servers" && api == "hbbr_relay_host")
  }

  lemma {:induction false} ViewOf(f: File, log: Log, sec: string, k: string, a: string)
    requires ApiName(f, sec, k) == Some(a)
    requires forall sec', k' :: ApiName(f, sec', k') == Some(a) ==> sec' == sec && k' == k
    ensures Lookup(log, sec, k).Some? ==> a in View(f, log) && View(f, log)[a] == Lookup(log, sec, k).value
    decreases log
  {
    if log != [] { ViewOf(f, log[..|log| - 1], sec, k, a); }
  }

  lemma HbbrView(log: Log, sec: string, k: string, api: string, t: string)
    requires HbbrPlace(sec, k, api) && Lookup(log, sec, k) == Some(t)
    ensures var m := View(HbbrToml, log); api in m && m[api] == t
  {
    forall sec', k' | ApiName(HbbrToml, sec', k') == Some(api) ensures sec' == sec && k' == k {
      OnlyPlaces(sec', k', api);
    }
    OnlyPlaces(sec, k, api);
    ViewOf(HbbrToml, log, sec, k, api);
  }

  lemma ConfigView(log: Log, k: string, api: string, t: string)
    requires ConfigPlace(k, api) && Lookup(log, "", k) == Some(t)
    ensures var m := View(ConfigToml, log); api in m && m[api] == t
  {
    forall sec', k' | ApiName(ConfigToml, sec', k') == Some(api) ensures sec' == "" && k' == k {
      OnlyPlaces(sec', k', api);
    }
    OnlyPlaces("", k, api);
    ViewOf(ConfigToml, log, "", k, api);
  }

  lemma PlaceGood(sec: string, k: string, api: string)
    requires HbbrPlace(sec, k, api) || ConfigPlace(k, api)
    ensures GoodKey(k) && (HbbrPlace(sec, k, api) ==> '\n' !in sec)
  {
    KeyGood(k);
  }

  /** Whatever stands before it, the last line of a file is what the interface reports for its section and key. */
  lemma InterfaceReads(before: seq<string>, sec: string, mid: seq<string>, k: string, api: string, w: Layout, t: string)
    requires OneLiners(before) && OneLiners(mid) && NoBrackets(mid) && HbbrPlace(sec, k, api)
    requires Plain(w, t) && '\n' !in Assigning(w, k, t)
    ensures var m := View(HbbrToml, Scan(Lines(FileEnding(before, sec, mid, Assigning(w, k, t))), ""));
      api in m && m[api] == t
  {
    PlaceGood(sec, k, api);
    AssignedReads(w, k, t);
    var l := Assigning(w, k, t);
    LastSetting(before, sec, mid, k, l, t);
    HbbrView(Scan(Lines(FileEnding(before, sec, mid, l)), ""), sec, k, api, t);
  }

  lemma EnvView(log: Log, env: Env, port: bool, t: string)
    requires Lookup(log, if port then "server" else "key", if port then "port" else "secret") == Some(t)
    ensures var name := if port then "PORT" else "KEY";
      var r := EnvAfter(log, env); r.Some? ==> name in r.value && r.value[name] == t
  {
    if EnvAfter(log, env).Some? {
      EnvReads(log, env, if port then "server" else "key", if port then "port" else "secret");
    }
  }

  /** And what the relay process sets its variable to, unless an earlier port or secret holds a NUL. */
  lemma RelayReads(before: seq<string>, mid: seq<string>, w: Layout, t: string, env: Env, port: bool)
    requires OneLiners(before) && OneLiners(mid) && NoBrackets(mid)
    requires Plain(w, t) && '\n' !in Assigning(w, if port then "port" else "secret", t)
    ensures var sec, k, name :=
        if port then "server" else "key", if port then "port" else "secret", if port then "PORT" else "KEY";
      var r := EnvAfter(Scan(Lines(FileEnding(before, sec, mid, Assigning(w, k, t))), ""), env);
      r.Some? ==> name in r.value && r.value[name] == t
  {
    var sec, k := if port then "server" else "key", if port then "port" else "secret";
    PlaceGood(sec, k, if port then "hbbr_port" else "hbbr_key");
    AssignedReads(w, k, t);
    var l := Assigning(w, k, t);
    LastSetting(before, sec, mid, k, l, t);
    EnvView(Scan(Lines(FileEnding(before, sec, mid, l)), ""), env, port, t);
  }

  /** A top-level line of `config.toml`, with no section header before it, whatever sections follow. */
  lemma ConfigReads(before: seq<string>, k: string, api: string, w: Layout, t: string, after: seq<string>)
    requires OneLiners(before) && OneLiners(after) && ConfigPlace(k, api)
    requires Plain(w, t) && '\n' !in Assigning(w, k, t)
    requires NoBrackets(before) && (after != [] ==> OpensBracket(after[0]))
    ensures var m := View(ConfigToml, TopLog(Lines(Terminated(before + [Assigning(w, k, t)] + after))));
      api in m && m[api] == t
  {
    PlaceGood("", k, api);
    AssignedReads(w, k, t);
    var l := Assigning(w, k, t);
    SettingOpensNone(l, k, t);
    LastTopSetting(before, k, l, t, after);
    ConfigView(TopLog(Lines(Terminated(before + [l] + after))), k, api, t);
  }

  lemma LastTopSetting(before: seq<string>, k: string, l: string, t: string, after: seq<string>)
    requires OneLiners(before) && OneLiners(after) && '\n' !in l && Classify(l) == Setting(k, t) && !OpensBracket(l)
    requires NoBrackets(before) && (after != [] ==> OpensBracket(after[0]))
    ensures Lookup(TopLog(Lines(Terminated(before + [l] + after))), "", k) == Some(t)
  {
    var top := before + [l];
    LinesOfTerminated(top + after);
    StrippedTop(top, after);
    assert (StripCrs(top) + StripCrs(after))[..|top|] == StripCrs(top);
    ScanConcat(before, [l], "");
    NoBracketKeepsSection(before, "");
    ScanOne(l, "");
    LastWins(Scan(before, ""), Entry("", k, t));
  }

  /** A line with a key opens no bracket. */
  lemma SettingOpensNone(l: string, k: string, t: string)
    requires GoodKey(k) && Classify(l) == Setting(k, t)
    ensures !OpensBracket(l)
  {
    FirstKept(Trim(l)[..IndexOf(Trim(l), '=')]);
  }

  lemma FirstKept(x: string)
    ensures x != "" && !IsSpace(x[0]) ==> Trim(x) != "" && Trim(x)[0] == x[0]
  {
    var a, b := TrimSplits(x);
    if x != "" { assert x[0] == (a + Trim(x) + b)[0]; }
  }

  /** Settings under another name, or below a section of `config.toml`, are not reported at all. */
  lemma OnlyPlaces(sec: string, k: string, api: string)
    ensures ApiName(HbbrToml, sec, k) == Some(api) <==> HbbrPlace(sec, k, api)
    ensures ApiName(ConfigToml, sec, k) == Some(api) <==> sec == "" && ConfigPlace(k, api)
    ensures EnvName(sec, k) ==
      if sec == "server" && k == "port" then Some("PORT")
      else if sec == "key" && k == "secret" then Some("KEY")
      else None
  {
  }

  lemma {:induction false} RewriteAt(ls: seq<string>, s: string, u: seq<Update>, i: nat)
    requires i < |ls|
    ensures Rewrite(ls, s, u)[i] == RewriteLine(ls[i], EndSection(ls[..i], s), u)
  {
    if i > 0 {
      assert ls[..i][0] == ls[0] && ls[..i][1..] == ls[1..][..i - 1];
      RewriteAt(ls[1..], NextSection(ls[0], s), u, i - 1);
    }
  }

  /** A setting that is asked for is replaced in place by `key = value`, as given; one that is not stays as it is. */
  lemma RewrittenLine(ls: seq<string>, u: seq<Update>, i: nat, k: string, was: string)
    requires GoodUpdates(u) && i < |ls| && Classify(ls[i]) == Setting(k, was)
    ensures var r, sec := Rewrite(ls, "", u), EndSection(ls[..i], "");
      && (forall j :: 0 <= j < |u| && u[j].sec == sec && u[j].key == k ==> r[i] == k + " = " + u[j].val)
      && ((forall j :: 0 <= j < |u| ==> u[j].sec != sec || u[j].key != k) ==> r[i] == ls[i])
  {
    RewriteAt(ls, "", u, i);
    var sec := EndSection(ls[..i], "");
    forall j | 0 <= j < |u| && u[j].sec == sec && u[j].key == k ensures Find(u, sec, k) == Some(u[j].val) {
      FindSelf(u, j);
    }
    if forall j :: 0 <= j < |u| ==> u[j].sec != sec || u[j].key != k { FindAbsent(u, sec, k); }
  }

  /** The section that starts at line `h` ends at line `end`, the next one with a bracket, or with the file. */
  predicate EndsSectionAt(ls: seq<string>, h: int, end: int) {
    0 <= h < end <= |ls| && (forall j :: h < j < end ==> !OpensBracket(ls[j])) && (end < |ls| ==> OpensBracket(ls[end]))
  }

  /** A missing key goes to the end of its section: right before the next bracket, or to the end of the file. */
  lemma MissingKeyGoesLast(ls: seq<string>, p: Update, h: nat)
    requires h < |ls| && Trim(ls[h]) == "[" + p.sec + "]" && forall j :: 0 <= j < h ==> Trim(ls[j]) != "[" + p.sec + "]"
    ensures exists end: nat ::
      EndsSectionAt(ls, h, end) && InsertKey(ls, p) == ls[..end] + [p.key + " = " + p.val] + ls[end..]
  {
    var start := HeaderPos(ls, p.sec);
    assert start == h;
    var end: nat := SectionEnd(ls, start);
    assert EndsSectionAt(ls, h, end) && InsertKey(ls, p) == ls[..end] + [p.key + " = " + p.val] + ls[end..];
  }

  /** Without the section, its header and the key go to the end of the file, after a blank line. */
  lemma MissingSectionGoesLast(ls: seq<string>, p: Update)
    requires forall j :: 0 <= j < |ls| ==> Trim(ls[j]) != "[" + p.sec + "]"
    ensures InsertKey(ls, p) == ls + ["\n[" + p.sec + "]"] + [p.key + " = " + p.val]
  {
    assert "\n" + ("[" + p.sec + "]") == "\n[" + p.sec + "]";
  }
}
