/** What a sectioned settings file says, line by line, and what an edit makes of it. */
module ConfigLines {
  import opened Text

  /** How one line is understood, from its trimmed text alone. */
  datatype Kind = Header(name: string) | Ignored | Setting(key: string, val: string) | Noise

  /** One setting met while scanning, with the section it stands in. */
  datatype Entry = Entry(sec: string, key: string, val: string)

  /** One requested change. */
  datatype Update = Update(sec: string, key: string, val: string)

  type Log = seq<Entry>

  function SplitIniKv(line: string): Option<(string, string)> {
    var pos := IndexOf(line, '=');
    if pos == |line| then None else
    var k := Trim(line[..pos]);
    if k == "" then None else Some((k, Clean(line[pos + 1..])))
  }

  /** The value a reader sees for the raw text after `=`. */
  function Clean(v: string): string { Unquote(Trim(v)) }

  function Classify(l: string): Kind { ClassifyTrimmed(Trim(l)) }

  function ClassifyTrimmed(t: string): Kind {
    if StartsWith(t, '[') && EndsWith(t, ']') then Header(t[1..|t| - 1])
    else if StartsWith(t, '#') || t == "" then Ignored
    else match SplitIniKv(t)
      case Some((k, v)) => Setting(k, v)
      case None => Noise
  }

  function Format(k: string, v: string): string { k + " = " + v }

  // ---- reading ---------------------------------------------------------

  function NextSection(l: string, sec: string): string {
    match Classify(l) case Header(n) => n case _ => sec
  }

  function LineLog(l: string, sec: string): Log {
    match Classify(l) case Setting(k, v) => [Entry(sec, k, v)] case _ => []
  }

  function Scan(ls: seq<string>, sec: string): Log {
    if ls == [] then [] else LineLog(ls[0], sec) + Scan(ls[1..], NextSection(ls[0], sec))
  }

  function EndSection(ls: seq<string>, sec: string): string {
    if ls == [] then sec else EndSection(ls[1..], NextSection(ls[0], sec))
  }

  /** The last setting of a key in a section wins. */
  function Lookup(log: Log, sec: string, key: string): Option<string> {
    if log == [] then None else
    var e := log[|log| - 1];
    if e.sec == sec && e.key == key then Some(e.val) else Lookup(log[..|log| - 1], sec, key)
  }

  // ---- editing ---------------------------------------------------------

  function Find(u: seq<Update>, sec: string, key: string): Option<string> {
    if u == [] then None
    else if u[0].sec == sec && u[0].key == key then Some(u[0].val)
    else Find(u[1..], sec, key)
  }

  function RewriteLine(l: string, sec: string, u: seq<Update>): string {
    match Classify(l)
    case Setting(k, _) => (match Find(u, sec, k) case Some(v) => Format(k, v) case None => l)
    case _ => l
  }

  function Rewrite(ls: seq<string>, sec: string, u: seq<Update>): (r: seq<string>)
    ensures |r| == |ls|
  {
    if ls == [] then []
    else [RewriteLine(ls[0], sec, u)] + Rewrite(ls[1..], NextSection(ls[0], sec), u)
  }

  /** The pair a line updates, if any. */
  function Touch(l: string, sec: string, u: seq<Update>): set<(string, string)> {
    match Classify(l)
    case Setting(k, _) => if Find(u, sec, k).Some? then {(sec, k)} else {}
    case _ => {}
  }

  function Touched(ls: seq<string>, sec: string, u: seq<Update>): set<(string, string)> {
    if ls == [] then {} else Touch(ls[0], sec, u) + Touched(ls[1..], NextSection(ls[0], sec), u)
  }

  predicate OpensBracket(l: string) { StartsWith(Trim(l), '[') }

  /** First line that opens a bracket, or the number of lines. */
  function BracketPos(ls: seq<string>): (i: nat)
    ensures i <= |ls| && (i < |ls| ==> OpensBracket(ls[i]))
    ensures forall j :: 0 <= j < i ==> !OpensBracket(ls[j])
  {
    if ls == [] || OpensBracket(ls[0]) then 0 else 1 + BracketPos(ls[1..])
  }

  function HeaderText(sec: string): string { "[" + sec + "]" }

  /** First line that is exactly the header of `sec`, or the number of lines. */
  function HeaderPos(ls: seq<string>, sec: string): (i: nat)
    ensures i <= |ls| && (i < |ls| ==> Trim(ls[i]) == HeaderText(sec))
    ensures forall j :: 0 <= j < i ==> Trim(ls[j]) != HeaderText(sec)
  {
    if ls == [] || Trim(ls[0]) == HeaderText(sec) then 0 else 1 + HeaderPos(ls[1..], sec)
  }

  /** One past the last line of the section whose header is at `start`. */
  function SectionEnd(ls: seq<string>, start: nat): (end: nat)
    requires start < |ls|
    ensures start < end <= |ls| && forall i :: start < i < end ==> !OpensBracket(ls[i])
    ensures end < |ls| ==> OpensBracket(ls[end])
  {
    var rest := ls[start + 1..];
    var n := BracketPos(rest);
    assert forall i :: start < i < start + 1 + n ==> ls[i] == rest[i - start - 1];
    start + 1 + n
  }

  function InsertKey(ls: seq<string>, p: Update): seq<string> {
    var start := HeaderPos(ls, p.sec);
    if start < |ls| then
      var end := SectionEnd(ls, start);
      ls[..end] + [Format(p.key, p.val)] + ls[end..]
    else ls + ["\n" + HeaderText(p.sec)] + [Format(p.key, p.val)]
  }

  function AppendMissing(ls: seq<string>, u: seq<Update>, seen: set<(string, string)>): seq<string>
    decreases u
  {
    if u == [] then ls
    else AppendMissing(if (u[0].sec, u[0].key) in seen then ls else InsertKey(ls, u[0]), u[1..], seen)
  }

  function EditLines(ls: seq<string>, u: seq<Update>): seq<string> {
    AppendMissing(Rewrite(ls, "", u), u, Touched(ls, "", u))
  }

  /** The new file text for sectioned updates. */
  function EditSectioned(t: string, u: seq<Update>): string {
    Join(EditLines(Lines(t), u)) + "\n"
  }

  // ---- well-formed requests --------------------------------------------

  predicate GoodKey(k: string) {
    k != "" && Tidy(k) && '=' !in k && '\n' !in k && k[0] != '[' && k[0] != '#'
  }

  predicate GoodUpdate(p: Update) {
    GoodKey(p.key) && '\n' !in p.sec && '\n' !in p.val
  }

  predicate GoodUpdates(u: seq<Update>) {
    && (forall i :: 0 <= i < |u| ==> GoodUpdate(u[i]))
    && (forall i, j :: 0 <= i < j < |u| ==> u[i].sec != u[j].sec || u[i].key != u[j].key)
  }

  // ---- lemmas ----------------------------------------------------------

  /** What `format!` writes after the equals sign, once the line is trimmed. */
  lemma FormatTrim(k: string, v: string) returns (tail: string)
    requires GoodKey(k)
    ensures Trim(Format(k, v)) == (k + " ") + ['='] + tail && Trim(tail) == Trim(v)
  {
    var x, y := TrimSplits(v);
    var m := Trim(v);
    if m == "" {
      tail := "";
      var t := (k + " ") + ['='] + tail;
      assert Format(k, v) == "" + t + (" " + v);
      TrimIs("", t, " " + v);
      TrimTidy("");
    } else {
      tail := " " + x + m;
      var t := (k + " ") + ['='] + tail;
      assert Format(k, v) == "" + t + y;
      assert t[|t| - 1] == m[|m| - 1];
      TrimIs("", t, y);
      assert tail == (" " + x) + m + "";
      TrimIs(" " + x, m, "");
    }
  }

  /** A formatted setting is read back as its key with the value trimmed and unquoted. */
  lemma FormatReads(k: string, v: string)
    requires GoodKey(k)
    ensures Classify(Format(k, v)) == Setting(k, Clean(v))
  {
    var tail := FormatTrim(k, v);
    var t := (k + " ") + ['='] + tail;
    SplitWritten(k, tail);
    assert t[0] == k[0];
  }

  lemma SplitWritten(k: string, tail: string)
    requires GoodKey(k)
    ensures SplitIniKv((k + " ") + ['='] + tail) == Some((k, Clean(tail)))
  {
    var t := (k + " ") + ['='] + tail;
    IndexOfIs(k + " ", '=', tail);
    assert t[..|k| + 1] == "" + k + " " && t[|k| + 2..] == tail;
    TrimIs("", k, " ");
  }

  lemma {:induction false} ScanConcat(a: seq<string>, b: seq<string>, s: string)
    ensures Scan(a + b, s) == Scan(a, s) + Scan(b, EndSection(a, s))
    ensures EndSection(a + b, s) == EndSection(b, EndSection(a, s))
  {
    if a == [] {
      assert a + b == b;
    } else {
      assert (a + b)[1..] == a[1..] + b;
      ScanConcat(a[1..], b, NextSection(a[0], s));
    }
  }

  /** Scanning sees only trimmed lines. */
  lemma {:induction false} ScanTrimmed(a: seq<string>, b: seq<string>, s: string)
    requires |a| == |b| && forall i :: 0 <= i < |a| ==> Trim(a[i]) == Trim(b[i])
    ensures Scan(a, s) == Scan(b, s) && EndSection(a, s) == EndSection(b, s)
  {
    if a != [] {
      ScanTrimmed(a[1..], b[1..], NextSection(a[0], s));
    }
  }

  lemma {:induction false} LookupConcat(a: Log, b: Log, sec: string, key: string)
    ensures Lookup(a + b, sec, key) == (if Lookup(b, sec, key).Some? then Lookup(b, sec, key) else Lookup(a, sec, key))
  {
    if b == [] {
      assert a + b == a;
    } else {
      var c := b[..|b| - 1];
      assert (a + b)[..|a + b| - 1] == a + c;
      LookupConcat(a, c, sec, key);
    }
  }

  /** The log after every line naming an updated pair has been rewritten. */
  function Revalue(log: Log, u: seq<Update>): (r: Log)
    ensures |r| == |log|
  {
    if log == [] then [] else
    var e := log[0];
    [match Find(u, e.sec, e.key) case Some(v) => e.(val := Clean(v)) case None => e] + Revalue(log[1..], u)
  }

  lemma {:induction false} FindGood(u: seq<Update>, sec: string, key: string)
    requires GoodUpdates(u) && Find(u, sec, key).Some?
    ensures GoodKey(key) && '\n' !in Find(u, sec, key).value
  {
    if u[0].sec == sec && u[0].key == key {
      assert GoodUpdate(u[0]);
    } else {
      FindGood(u[1..], sec, key);
    }
  }

  lemma RewriteLineReads(l: string, s: string, u: seq<Update>)
    requires GoodUpdates(u)
    ensures LineLog(RewriteLine(l, s, u), s) == Revalue(LineLog(l, s), u)
    ensures NextSection(RewriteLine(l, s, u), s) == NextSection(l, s)
  {
    match Classify(l)
    case Setting(k, v) =>
      assert LineLog(l, s)[1..] == [];
      if Find(u, s, k).Some? {
        FindGood(u, s, k);
        FormatReads(k, Find(u, s, k).value);
      }
    case _ =>
  }

  lemma {:induction false} RevalueConcat(a: Log, b: Log, u: seq<Update>)
    ensures Revalue(a + b, u) == Revalue(a, u) + Revalue(b, u)
  {
    if a == [] {
      assert a + b == b;
    } else {
      assert (a + b)[1..] == a[1..] + b;
      RevalueConcat(a[1..], b, u);
    }
  }

  lemma {:induction false} ScanRewrite(ls: seq<string>, s: string, u: seq<Update>)
    requires GoodUpdates(u)
    ensures Scan(Rewrite(ls, s, u), s) == Revalue(Scan(ls, s), u)
    ensures EndSection(Rewrite(ls, s, u), s) == EndSection(ls, s)
  {
    if ls != [] {
      var n := NextSection(ls[0], s);
      ScanRewrite(ls[1..], n, u);
      RewriteLineReads(ls[0], s, u);
      RevalueConcat(LineLog(ls[0], s), Scan(ls[1..], n), u);
    }
  }

  lemma {:induction false} LookupRevalue(log: Log, u: seq<Update>, sec: string, key: string)
    ensures Lookup(Revalue(log, u), sec, key) ==
            if Lookup(log, sec, key).Some? && Find(u, sec, key).Some?
            then Some(Clean(Find(u, sec, key).value)) else Lookup(log, sec, key)
  {
    if log != [] {
      var e := log[0];
      var r := Revalue(log, u);
      assert log == [e] + log[1..] && r == [r[0]] + Revalue(log[1..], u);
      LookupConcat([e], log[1..], sec, key);
      LookupConcat([r[0]], Revalue(log[1..], u), sec, key);
      LookupRevalue(log[1..], u, sec, key);
      LookupOne(e, sec, key);
      LookupOne(r[0], sec, key);
    }
  }

  lemma LookupOne(e: Entry, sec: string, key: string)
    ensures Lookup([e], sec, key) == if e.sec == sec && e.key == key then Some(e.val) else None
  {
    assert [e][..0] == [];
  }

  lemma TouchIff(l: string, s: string, u: seq<Update>, sec: string, key: string)
    ensures (sec, key) in Touch(l, s, u) <==> Find(u, sec, key).Some? && Lookup(LineLog(l, s), sec, key).Some?
  {
    match Classify(l)
    case Setting(k, v) => LookupOne(Entry(s, k, v), sec, key);
    case _ =>
  }

  lemma {:induction false} TouchedIff(ls: seq<string>, s: string, u: seq<Update>, sec: string, key: string)
    ensures (sec, key) in Touched(ls, s, u) <==> Find(u, sec, key).Some? && Lookup(Scan(ls, s), sec, key).Some?
  {
    if ls != [] {
      var n := NextSection(ls[0], s);
      TouchedIff(ls[1..], n, u, sec, key);
      TouchIff(ls[0], s, u, sec, key);
      LookupConcat(LineLog(ls[0], s), Scan(ls[1..], n), sec, key);
    }
  }

  lemma {:induction false} NoBracketKeepsSection(ls: seq<string>, s: string)
    requires forall i :: 0 <= i < |ls| ==> !OpensBracket(ls[i])
    ensures EndSection(ls, s) == s
  {
    if ls != [] {
      NoBracketKeepsSection(ls[1..], s);
    }
  }

  lemma HeaderClass(l: string, sec: string)
    requires Trim(l) == HeaderText(sec)
    ensures Classify(l) == Header(sec)
  {
    assert HeaderText(sec)[1..|HeaderText(sec)| - 1] == sec;
  }

  lemma ScanOne(l: string, s: string)
    ensures EndSection([l], s) == NextSection(l, s)
    ensures Scan([l], s) == LineLog(l, s)
  {
    assert [l][1..] == [];
  }

  /** Everything from a header up to the next opening bracket stands in that section. */
  lemma SectionReaches(ls: seq<string>, start: nat, sec: string, end: nat)
    requires start < end <= |ls| && Trim(ls[start]) == HeaderText(sec)
    requires forall i :: start < i < end ==> !OpensBracket(ls[i])
    ensures EndSection(ls[..end], "") == sec
  {
    var mid := ls[start + 1..end];
    assert ls[..end] == (ls[..start] + [ls[start]]) + mid;
    ScanConcat(ls[..start] + [ls[start]], mid, "");
    ScanConcat(ls[..start], [ls[start]], "");
    HeaderClass(ls[start], sec);
    ScanOne(ls[start], EndSection(ls[..start], ""));
    NoBracketKeepsSection(mid, sec);
  }

  /** A setting placed between two runs of lines adds exactly itself to the log. */
  lemma ScanInserted(pre: seq<string>, p: Update, post: seq<string>)
    requires GoodUpdate(p) && EndSection(pre, "") == p.sec
    ensures Scan(pre + post, "") == Scan(pre, "") + Scan(post, p.sec)
    ensures Scan(pre + [Format(p.key, p.val)] + post, "") ==
            Scan(pre, "") + [Entry(p.sec, p.key, Clean(p.val))] + Scan(post, p.sec)
  {
    var line := Format(p.key, p.val);
    FormatReads(p.key, p.val);
    ScanOne(line, p.sec);
    ScanConcat(pre, post, "");
    ScanConcat(pre + [line], post, "");
    ScanConcat(pre, [line], "");
  }

  lemma NewHeader(ls: seq<string>, sec: string)
    ensures Scan(ls + ["\n" + HeaderText(sec)], "") == Scan(ls, "")
    ensures EndSection(ls + ["\n" + HeaderText(sec)], "") == sec
  {
    var head := "\n" + HeaderText(sec);
    assert head == "\n" + HeaderText(sec) + "";
    TrimIs("\n", HeaderText(sec), "");
    HeaderClass(head, sec);
    ScanOne(head, EndSection(ls, ""));
    ScanConcat(ls, [head], "");
  }

  /** An insertion into an existing section splits the lines where that section ends. */
  lemma InsertShape(ls: seq<string>, p: Update) returns (pre: seq<string>, post: seq<string>)
    requires HeaderPos(ls, p.sec) < |ls|
    ensures ls == pre + post && EndSection(pre, "") == p.sec
    ensures InsertKey(ls, p) == pre + [Format(p.key, p.val)] + post
  {
    var start := HeaderPos(ls, p.sec);
    var end := SectionEnd(ls, start);
    SectionReaches(ls, start, p.sec, end);
    pre, post := ls[..end], ls[end..];
    assert ls == pre + post;
    assert InsertKey(ls, p) == ls[..end] + [Format(p.key, p.val)] + ls[end..];
  }

  lemma InsertInSection(ls: seq<string>, p: Update) returns (a: Log, b: Log)
    requires GoodUpdate(p) && HeaderPos(ls, p.sec) < |ls|
    ensures Scan(ls, "") == a + b
    ensures Scan(InsertKey(ls, p), "") == a + [Entry(p.sec, p.key, Clean(p.val))] + b
  {
    var pre, post := InsertShape(ls, p);
    ScanInserted(pre, p, post);
    a, b := Scan(pre, ""), Scan(post, p.sec);
  }

  lemma InsertNewSection(ls: seq<string>, p: Update)
    requires GoodUpdate(p) && HeaderPos(ls, p.sec) == |ls|
    ensures Scan(InsertKey(ls, p), "") == Scan(ls, "") + [Entry(p.sec, p.key, Clean(p.val))]
  {
    var pre := ls + ["\n" + HeaderText(p.sec)];
    NewHeader(ls, p.sec);
    ScanInserted(pre, p, []);
    assert pre + [Format(p.key, p.val)] + [] == InsertKey(ls, p);
  }

  /** Where an inserted setting lands in the log. */
  lemma InsertKeyScan(ls: seq<string>, p: Update) returns (a: Log, b: Log)
    requires GoodUpdate(p)
    ensures Scan(ls, "") == a + b
    ensures Scan(InsertKey(ls, p), "") == a + [Entry(p.sec, p.key, Clean(p.val))] + b
  {
    if HeaderPos(ls, p.sec) < |ls| {
      a, b := InsertInSection(ls, p);
    } else {
      InsertNewSection(ls, p);
      a, b := Scan(ls, ""), [];
    }
  }

  lemma InsertKeyReads(ls: seq<string>, p: Update, sec: string, key: string)
    requires GoodUpdate(p)
    requires Lookup(Scan(ls, ""), p.sec, p.key) == None
    ensures Lookup(Scan(InsertKey(ls, p), ""), sec, key) ==
            if p.sec == sec && p.key == key then Some(Clean(p.val)) else Lookup(Scan(ls, ""), sec, key)
  {
    var e := Entry(p.sec, p.key, Clean(p.val));
    var a, b := InsertKeyScan(ls, p);
    LookupConcat(a, b, sec, key);
    LookupConcat(a + [e], b, sec, key);
    LookupConcat(a, [e], sec, key);
    LookupOne(e, sec, key);
  }

  predicate Missing(ls: seq<string>, u: seq<Update>, seen: set<(string, string)>) {
    forall i :: 0 <= i < |u| && (u[i].sec, u[i].key) !in seen ==> Lookup(Scan(ls, ""), u[i].sec, u[i].key) == None
  }

  lemma MissingAfterInsert(ls: seq<string>, u: seq<Update>, seen: set<(string, string)>)
    requires GoodUpdates(u) && Missing(ls, u, seen) && u != [] && (u[0].sec, u[0].key) !in seen
    ensures Missing(InsertKey(ls, u[0]), u[1..], seen)
  {
    assert GoodUpdate(u[0]);
    forall i | 0 <= i < |u[1..]| && (u[1..][i].sec, u[1..][i].key) !in seen
      ensures Lookup(Scan(InsertKey(ls, u[0]), ""), u[1..][i].sec, u[1..][i].key) == None
    {
      InsertKeyReads(ls, u[0], u[i + 1].sec, u[i + 1].key);
    }
  }

  lemma {:induction false} AppendMissingReads(ls: seq<string>, u: seq<Update>, seen: set<(string, string)>,
      sec: string, key: string)
    requires GoodUpdates(u) && Missing(ls, u, seen)
    ensures Lookup(Scan(AppendMissing(ls, u, seen), ""), sec, key) ==
            if Find(u, sec, key).Some? && (sec, key) !in seen
            then Some(Clean(Find(u, sec, key).value)) else Lookup(Scan(ls, ""), sec, key)
    decreases u
  {
    if u != [] {
      var p := u[0];
      if p.sec == sec && p.key == key { FindAbsent(u[1..], sec, key); }
      if (p.sec, p.key) in seen {
        AppendMissingReads(ls, u[1..], seen, sec, key);
      } else {
        assert GoodUpdate(p);
        InsertKeyReads(ls, p, sec, key);
        MissingAfterInsert(ls, u, seen);
        AppendMissingReads(InsertKey(ls, p), u[1..], seen, sec, key);
      }
    }
  }

  lemma {:induction false} FindAbsent(u: seq<Update>, sec: string, key: string)
    requires forall i :: 0 <= i < |u| ==> u[i].sec != sec || u[i].key != key
    ensures Find(u, sec, key) == None
  {
    if u != [] { FindAbsent(u[1..], sec, key); }
  }

  /** What a pair must read after an edit: the cleaned new value if it was updated, else what it read before. */
  function AfterEdit(asked: Option<string>, before: Option<string>): Option<string> {
    match asked case Some(v) => Some(Clean(v)) case None => before
  }

  /** Read-after-write and frame on lines still in memory. */
  lemma EditLinesReads(ls: seq<string>, u: seq<Update>, sec: string, key: string)
    requires GoodUpdates(u)
    ensures Lookup(Scan(EditLines(ls, u), ""), sec, key) ==
            AfterEdit(Find(u, sec, key), Lookup(Scan(ls, ""), sec, key))
  {
    var r, seen := Rewrite(ls, "", u), Touched(ls, "", u);
    ScanRewrite(ls, "", u);
    forall i | 0 <= i < |u| && (u[i].sec, u[i].key) !in seen
      ensures Lookup(Scan(r, ""), u[i].sec, u[i].key) == None
    {
      TouchedIff(ls, "", u, u[i].sec, u[i].key);
      LookupRevalue(Scan(ls, ""), u, u[i].sec, u[i].key);
      if Find(u, u[i].sec, u[i].key) == None { FindPresent(u, i); }
    }
    AppendMissingReads(r, u, seen, sec, key);
    TouchedIff(ls, "", u, sec, key);
    LookupRevalue(Scan(ls, ""), u, sec, key);
  }

  lemma {:induction false} FindPresent(u: seq<Update>, i: nat)
    requires i < |u|
    ensures Find(u, u[i].sec, u[i].key).Some?
  {
    if i > 0 { FindPresent(u[1..], i - 1); }
  }
}
