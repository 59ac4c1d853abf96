/** Settings above the first section header of a file, and edits of them. */
module ConfigFlat {
  import opened Text
  import opened ConfigLines
  import opened ConfigText

  /** The settings before the first line that opens a bracket. */
  function TopLog(ls: seq<string>): Log { Scan(ls[..BracketPos(ls)], "") }

  function Extra(u: seq<Update>, seen: set<(string, string)>): seq<string> {
    if u == [] then []
    else if ("", u[0].key) in seen then Extra(u[1..], seen)
    else [Format(u[0].key, u[0].val)] + Extra(u[1..], seen)
  }

  /** The lines after every top-level setting named in `u` has been rewritten in place. */
  function RewriteTop(ls: seq<string>, u: seq<Update>): seq<string> {
    var n := BracketPos(ls);
    Rewrite(ls[..n], "", u) + ls[n..]
  }

  function EditFlatLines(ls: seq<string>, u: seq<Update>): seq<string> {
    var w := RewriteTop(ls, u);
    var m := BracketPos(w);
    w[..m] + Extra(u, Touched(ls[..BracketPos(ls)], "", u)) + w[m..]
  }

  /** The new file text for top-level updates, listed in the order the hash map yields them. */
  function EditFlat(t: string, u: seq<Update>): string {
    Join(EditFlatLines(Lines(t), u)) + "\n"
  }

  predicate TopLevel(u: seq<Update>) {
    forall p :: p in u ==> p.sec == ""
  }

  predicate NoBrackets(ls: seq<string>) {
    forall i :: 0 <= i < |ls| ==> !OpensBracket(ls[i])
  }

  /** Where the first bracket is, given what stands before and after it. */
  lemma {:induction false} BracketPosIs(a: seq<string>, b: seq<string>)
    requires NoBrackets(a) && (b != [] ==> OpensBracket(b[0]))
    ensures BracketPos(a + b) == |a|
  {
    if a == [] {
      assert a + b == b;
    } else {
      assert (a + b)[1..] == a[1..] + b;
      BracketPosIs(a[1..], b);
    }
  }

  lemma FormatNoBracket(k: string, v: string)
    requires GoodKey(k)
    ensures !OpensBracket(Format(k, v))
  {
    var tail := FormatTrim(k, v);
    assert ((k + " ") + ['='] + tail)[0] == k[0];
  }

  lemma {:induction false} RewriteNoBrackets(ls: seq<string>, s: string, u: seq<Update>)
    requires NoBrackets(ls) && GoodUpdates(u)
    ensures NoBrackets(Rewrite(ls, s, u))
  {
    if ls != [] {
      RewriteNoBrackets(ls[1..], NextSection(ls[0], s), u);
      match Classify(ls[0])
      case Setting(k, _) =>
        if Find(u, s, k).Some? {
          FindGood(u, s, k);
          FormatNoBracket(k, Find(u, s, k).value);
        }
      case _ =>
    }
  }

  lemma FormatOneLine(u: Update)
    requires GoodUpdate(u)
    ensures '\n' !in Format(u.key, u.val) && !OpensBracket(Format(u.key, u.val))
  {
    FormatNoBracket(u.key, u.val);
  }

  lemma {:induction false} ExtraLines(u: seq<Update>, seen: set<(string, string)>)
    requires GoodUpdates(u)
    ensures NoBrackets(Extra(u, seen)) && OneLiners(Extra(u, seen))
  {
    if u != [] {
      assert GoodUpdate(u[0]);
      FormatOneLine(u[0]);
      ExtraLines(u[1..], seen);
    }
  }

  /** The three runs of an edited file: rewritten top, inserted settings, sections as they were. */
  lemma EditFlatShape(ls: seq<string>, u: seq<Update>) returns (top: seq<string>, extra: seq<string>, rest: seq<string>)
    requires GoodUpdates(u)
    ensures top == Rewrite(ls[..BracketPos(ls)], "", u)
    ensures extra == Extra(u, Touched(ls[..BracketPos(ls)], "", u))
    ensures rest == ls[BracketPos(ls)..]
    ensures EditFlatLines(ls, u) == top + extra + rest
    ensures NoBrackets(top + extra) && (rest != [] ==> OpensBracket(rest[0]))
  {
    var n := BracketPos(ls);
    top, rest := Rewrite(ls[..n], "", u), ls[n..];
    extra := Extra(u, Touched(ls[..n], "", u));
    RewriteNoBrackets(ls[..n], "", u);
    ExtraLines(u, Touched(ls[..n], "", u));
    BracketPosIs(top, rest);
  }

  /** A written setting in front of other top-level lines. */
  lemma LookupInFront(p: Update, rest: seq<string>, key: string)
    requires GoodKey(p.key)
    ensures EndSection([Format(p.key, p.val)] + rest, "") == EndSection(rest, "")
    ensures Lookup(Scan([Format(p.key, p.val)] + rest, ""), "", key) ==
            if Lookup(Scan(rest, ""), "", key).Some? then Lookup(Scan(rest, ""), "", key)
            else if p.key == key then Some(Clean(p.val)) else None
  {
    var l := Format(p.key, p.val);
    FormatReads(p.key, p.val);
    ScanOne(l, "");
    ScanConcat([l], rest, "");
    LookupConcat(LineLog(l, ""), Scan(rest, ""), "", key);
    LookupOne(Entry("", p.key, Clean(p.val)), "", key);
  }

  lemma {:induction false} LookupExtra(u: seq<Update>, seen: set<(string, string)>, key: string)
    requires GoodUpdates(u) && TopLevel(u)
    ensures Lookup(Scan(Extra(u, seen), ""), "", key) ==
            if Find(u, "", key).Some? && ("", key) !in seen then Some(Clean(Find(u, "", key).value)) else None
  {
    if u != [] {
      var p, tail := u[0], u[1..];
      assert GoodUpdate(p) && p in u;
      LookupExtra(tail, seen, key);
      if p.key == key { FindAbsent(tail, "", key); }
      if ("", p.key) !in seen { LookupInFront(p, Extra(tail, seen), key); }
    }
  }

  lemma WrittenNothing()
    ensures Lines("\n") == [""] && BracketPos([""]) == 1 && Scan([""], "") == []
  {
    assert [""][1..] == [] && Terminated([""]) == "" + "\n" + "";
    LinesOfTerminated([""]);
    EmptyLineIgnored("");
    TrimTidy("");
    ScanOne("", "");
  }

  lemma StripConcat(a: seq<string>, b: seq<string>)
    ensures StripCrs(a + b) == StripCrs(a) + StripCrs(b)
  {
  }

  lemma StrippedBrackets(a: seq<string>)
    ensures NoBrackets(a) ==> NoBrackets(StripCrs(a))
    ensures a != [] ==> OpensBracket(StripCrs(a)[0]) == OpensBracket(a[0])
    ensures Scan(StripCrs(a), "") == Scan(a, "")
  {
    var c := StripCrs(a);
    forall i | 0 <= i < |a| ensures Trim(c[i]) == Trim(a[i]) { StripCrTrim(a[i]); }
    ScanTrimmed(c, a, "");
  }

  lemma StrippedTop(a: seq<string>, b: seq<string>)
    requires NoBrackets(a) && (b != [] ==> OpensBracket(b[0]))
    ensures StripCrs(a + b) == StripCrs(a) + StripCrs(b)
    ensures BracketPos(StripCrs(a + b)) == |a| && Scan(StripCrs(a), "") == Scan(a, "")
  {
    StripConcat(a, b);
    StrippedBrackets(a);
    StrippedBrackets(b);
    BracketPosIs(StripCrs(a), StripCrs(b));
  }

  /** What a file's top level reads after being written from these lines. */
  lemma WrittenTop(a: seq<string>, b: seq<string>)
    requires OneLiners(a + b) && NoBrackets(a) && (b != [] ==> OpensBracket(b[0]))
    ensures TopLog(Lines(Join(a + b) + "\n")) == Scan(a, "")
    ensures a + b != [] ==> Lines(Join(a + b) + "\n") == StripCrs(a + b)
  {
    if a + b == [] {
      WrittenNothing();
      assert [""][..1] == [""];
    } else {
      JoinTerminated(a + b);
      LinesOfTerminated(a + b);
      StrippedTop(a, b);
      assert (StripCrs(a) + StripCrs(b))[..|a|] == StripCrs(a);
    }
  }

  lemma EditFlatOneLiners(t: string, u: seq<Update>)
    requires GoodUpdates(u)
    ensures OneLiners(EditFlatLines(Lines(t), u))
  {
    var ls := Lines(t);
    var top, extra, rest := EditFlatShape(ls, u);
    RewriteOneLiners(ls[..BracketPos(ls)], "", u);
    ExtraLines(u, Touched(ls[..BracketPos(ls)], "", u));
  }

  /** Read-after-write and frame on the top-level lines still in memory. */
  lemma EditFlatLinesRead(ls: seq<string>, u: seq<Update>, top: seq<string>, extra: seq<string>, key: string)
    requires GoodUpdates(u) && TopLevel(u)
    requires top == Rewrite(ls[..BracketPos(ls)], "", u)
    requires extra == Extra(u, Touched(ls[..BracketPos(ls)], "", u))
    ensures Lookup(Scan(top + extra, ""), "", key) == AfterEdit(Find(u, "", key), Lookup(TopLog(ls), "", key))
  {
    var p := ls[..BracketPos(ls)];
    ScanConcat(top, extra, "");
    NoBracketKeepsSection(p, "");
    ScanRewrite(p, "", u);
    LookupConcat(Scan(top, ""), Scan(extra, ""), "", key);
    LookupRevalue(Scan(p, ""), u, "", key);
    LookupExtra(u, Touched(p, "", u), key);
    TouchedIff(p, "", u, "", key);
  }

  /** Read-after-write and frame for top-level settings, for every text and every iteration order. */
  lemma EditFlatReads(t: string, u: seq<Update>, key: string)
    requires GoodUpdates(u) && TopLevel(u)
    ensures Lookup(TopLog(Lines(EditFlat(t, u))), "", key) ==
            AfterEdit(Find(u, "", key), Lookup(TopLog(Lines(t)), "", key))
  {
    var top, extra, rest := EditFlatShape(Lines(t), u);
    EditFlatOneLiners(t, u);
    WrittenTop(top + extra, rest);
    EditFlatLinesRead(Lines(t), u, top, extra, key);
  }

  lemma SettledInFront(p: Update, rest: seq<string>, u: seq<Update>)
    requires p.sec == "" && GoodUpdate(p) && Find(u, p.sec, p.key) == Some(p.val)
    requires Rewrite(rest, "", u) == rest
    ensures Rewrite([Format(p.key, p.val)] + rest, "", u) == [Format(p.key, p.val)] + rest
    ensures Untouched([Format(p.key, p.val)] + rest, "", u) == Untouched(rest, "", u)
  {
    var l := Format(p.key, p.val);
    FormatSettled(u, p);
    RewriteOne(l, "", u);
    UntouchedOne(l, "", u);
    ScanOne(l, "");
    RewriteConcat([l], rest, "", u);
    UntouchedConcat([l], rest, "", u);
  }

  lemma {:induction false} ExtraSettled(todo: seq<Update>, seen: set<(string, string)>, u: seq<Update>)
    requires TopLevel(todo) && Asked(todo, u)
    ensures Rewrite(Extra(todo, seen), "", u) == Extra(todo, seen)
    ensures Untouched(Extra(todo, seen), "", u) == []
  {
    if todo != [] {
      var p, tail := todo[0], todo[1..];
      assert p in todo && forall q :: q in tail ==> q in todo;
      ExtraSettled(tail, seen, u);
      if ("", p.key) !in seen { SettledInFront(p, Extra(tail, seen), u); }
    }
  }

  /**
   * Comments and settings nobody asked to change stay, in order, and everything from the first bracket on is verbatim.
   */
  lemma EditFlatKeepsLines(ls: seq<string>, u: seq<Update>) returns (top: seq<string>)
    requires GoodUpdates(u) && TopLevel(u)
    ensures EditFlatLines(ls, u) == top + ls[BracketPos(ls)..] && NoBrackets(top)
    ensures Untouched(top, "", u) == Untouched(ls[..BracketPos(ls)], "", u)
    ensures Rewrite(top, "", u) == top
  {
    var p := ls[..BracketPos(ls)];
    var seen := Touched(p, "", u);
    var head, extra, rest := EditFlatShape(ls, u);
    top := head + extra;
    RewriteSettles(p, "", u);
    forall q | q in u ensures GoodUpdate(q) && Find(u, q.sec, q.key) == Some(q.val) {
      var i :| 0 <= i < |u| && u[i] == q;
      FindSelf(u, i);
    }
    ExtraSettled(u, seen, u);
    ScanRewrite(p, "", u);
    NoBracketKeepsSection(p, "");
    RewriteConcat(head, extra, "", u);
    UntouchedConcat(head, extra, "", u);
  }

  lemma {:induction false} AllSeenNoExtra(u: seq<Update>, seen: set<(string, string)>)
    requires forall i :: 0 <= i < |u| ==> ("", u[i].key) in seen
    ensures Extra(u, seen) == []
  {
    if u != [] { AllSeenNoExtra(u[1..], seen); }
  }

  lemma StripNothing(ls: seq<string>)
    ensures StripCrs(ls) == ls <==> NoStrayCr(ls)
  {
    if StripCrs(ls) == ls {
      forall i | 0 <= i < |ls| ensures !EndsWith(ls[i], '\r') { assert StripCrs(ls)[i] == ls[i]; }
    }
  }

  /** The same updates, whatever order a hash map yields them in. */
  ghost predicate SameUpdates(u: seq<Update>, v: seq<Update>) {
    forall sec, key :: Find(u, sec, key) == Find(v, sec, key)
  }

  lemma {:induction false} RewriteSame(ls: seq<string>, s: string, u: seq<Update>, v: seq<Update>)
    requires SameUpdates(u, v)
    ensures Rewrite(ls, s, u) == Rewrite(ls, s, v) && Touched(ls, s, u) == Touched(ls, s, v)
  {
    if ls != [] { RewriteSame(ls[1..], NextSection(ls[0], s), u, v); }
  }

  /** Once every key is present, an edit only rewrites the top. */
  lemma ReEditFlat(g: seq<string>, v: seq<Update>)
    requires GoodUpdates(v) && TopLevel(v)
    requires forall i :: 0 <= i < |v| ==> Lookup(TopLog(g), "", v[i].key).Some?
    ensures EditFlatLines(g, v) == RewriteTop(g, v)
  {
    var p := g[..BracketPos(g)];
    forall i | 0 <= i < |v| ensures ("", v[i].key) in Touched(p, "", v) {
      FindPresent(v, i);
      assert v[i] in v;
      TouchedIff(p, "", v, "", v[i].key);
    }
    AllSeenNoExtra(v, Touched(p, "", v));
    var h, x, r := EditFlatShape(g, v);
    assert h + x == h;
  }

  lemma WrittenTextSame(r: seq<string>, f: seq<string>)
    requires OneLiners(r) && OneLiners(f) && r != [] && f != []
    ensures Join(r) + "\n" == Join(f) + "\n" <==> r == f
  {
    JoinTerminated(r);
    JoinTerminated(f);
    if Terminated(r) == Terminated(f) { TerminatedInjective(r, f); }
  }

  /** A top-level edit with something to do never writes an empty file. */
  lemma EditFlatNonEmpty(ls: seq<string>, u: seq<Update>)
    requires GoodUpdates(u) && TopLevel(u) && u != []
    ensures EditFlatLines(ls, u) != []
  {
    var top, extra, rest := EditFlatShape(ls, u);
    assert u[0] in u;
    FindPresent(u, 0);
    EditFlatLinesRead(ls, u, top, extra, u[0].key);
    assert Scan(top + extra, "") != [];
  }

  lemma SplitEqual(a: seq<string>, b: seq<string>, c: seq<string>, d: seq<string>)
    requires |a| == |c|
    ensures a + b == c + d <==> a == c && b == d
  {
    if a + b == c + d { assert a == (a + b)[..|a|] && b == (a + b)[|a|..]; }
  }

  /**
   * A second edit with the same updates, in whatever order the hash map yields them then, changes nothing exactly
   * when no line left alone still ends in a carriage return.
   */
  lemma EditFlatTwice(t: string, u: seq<Update>, v: seq<Update>)
    requires GoodUpdates(u) && TopLevel(u) && u != []
    requires GoodUpdates(v) && TopLevel(v) && SameUpdates(u, v)
    ensures EditFlat(EditFlat(t, u), v) == EditFlat(t, u) <==>
            NoStrayCr(Untouched(Lines(t)[..BracketPos(Lines(t))], "", u)) && NoStrayCr(Lines(t)[BracketPos(Lines(t))..])
  {
    var rest := Lines(t)[BracketPos(Lines(t))..];
    var top := EditFlatKeepsLines(Lines(t), u);
    var g, gt := StripCrs(top + rest), StripCrs(top);
    WrittenAgain(t, u, v, top, rest);
    RewriteSame(gt, "", u, v);
    RestripIff(top, "", u);
    StripNothing(rest);
    SplitEqual(Rewrite(gt, "", u), StripCrs(rest), top, rest);
    SecondFlatText(g, gt, rest, top, v);
  }

  /** The lines a second edit starts from, and what it does to them. */
  lemma WrittenAgain(t: string, u: seq<Update>, v: seq<Update>, top: seq<string>, rest: seq<string>)
    requires GoodUpdates(u) && TopLevel(u) && u != []
    requires GoodUpdates(v) && TopLevel(v) && SameUpdates(u, v)
    requires EditFlatLines(Lines(t), u) == top + rest && NoBrackets(top) && (rest != [] ==> OpensBracket(rest[0]))
    ensures top + rest != [] && OneLiners(top + rest)
    ensures StripCrs(top + rest) == StripCrs(top) + StripCrs(rest)
    ensures BracketPos(StripCrs(top + rest)) == |top|
    ensures EditFlat(EditFlat(t, u), v) == Join(RewriteTop(StripCrs(top + rest), v)) + "\n"
  {
    EditFlatOneLiners(t, u);
    EditFlatNonEmpty(Lines(t), u);
    WrittenTop(top, rest);
    StrippedTop(top, rest);
    var g := StripCrs(top + rest);
    forall i | 0 <= i < |v| ensures Lookup(TopLog(g), "", v[i].key).Some? {
      assert v[i] in v;
      FindPresent(v, i);
      EditFlatReads(t, u, v[i].key);
    }
    ReEditFlat(g, v);
  }

  lemma SecondFlatText(g: seq<string>, gt: seq<string>, rest: seq<string>, top: seq<string>, v: seq<Update>)
    requires g == gt + StripCrs(rest) && gt == StripCrs(top) && BracketPos(g) == |top| && top + rest != []
    requires OneLiners(top + rest) && GoodUpdates(v)
    ensures Join(RewriteTop(g, v)) + "\n" == Join(top + rest) + "\n" <==>
            Rewrite(gt, "", v) + StripCrs(rest) == top + rest
  {
    var r := Rewrite(gt, "", v) + StripCrs(rest);
    assert RewriteTop(g, v) == r by { assert g[..|top|] == gt && g[|top|..] == StripCrs(rest); }
    OneLinersSplit(top, rest);
    StrippedOneLiners(top);
    StrippedOneLiners(rest);
    RewriteOneLiners(gt, "", v);
    OneLinersSplit(Rewrite(gt, "", v), StripCrs(rest));
    WrittenTextSame(r, top + rest);
  }

  lemma OneLinersSplit(a: seq<string>, b: seq<string>)
    ensures OneLiners(a + b) <==> OneLiners(a) && OneLiners(b)
  {
    if OneLiners(a + b) {
      forall i | 0 <= i < |a| ensures '\n' !in a[i] { assert a[i] == (a + b)[i]; }
      forall i | 0 <= i < |b| ensures '\n' !in b[i] { assert b[i] == (a + b)[|a| + i]; }
    }
  }

  lemma StrippedOneLiners(ls: seq<string>)
    requires OneLiners(ls)
    ensures OneLiners(StripCrs(ls))
  {
  }

  /** The same input shows it for the top-level editor. */
  lemma SecondFlatEditDiffers()
    ensures var u := [Update("", "port", "1")];
      GoodUpdates(u) && TopLevel(u) && EditFlat(EditFlat(STRAY, u), u) != EditFlat(STRAY, u)
  {
    var u := [Update("", "port", "1")];
    StrayLine(u);
    assert !OpensBracket("\r");
    assert BracketPos(["\r"]) == 1 && ["\r"][..1] == ["\r"];
    EditFlatTwice(STRAY, u, u);
    assert EndsWith(Untouched(["\r"], "", u)[0], '\r');
  }
}
