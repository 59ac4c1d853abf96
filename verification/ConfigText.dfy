/**
 * From edited lines back to file text: what a later reader sees, what survives, and when a second edit changes
 * nothing.
 */
module ConfigText {
  import opened Text
  import opened ConfigLines

  /** The lines an edit leaves alone: comments, headers, blanks and settings nobody asked to change. */
  function Untouched(ls: seq<string>, s: string, u: seq<Update>): seq<string> {
    if ls == [] then []
    else (if Touch(ls[0], s, u) == {} then [ls[0]] else []) + Untouched(ls[1..], NextSection(ls[0], s), u)
  }

  predicate NoStrayCr(ls: seq<string>) {
    forall i :: 0 <= i < |ls| ==> !EndsWith(ls[i], '\r')
  }

  /** A header pushed together with the blank line before it. */
  predicate PushedHeader(l: string) {
    StartsWith(l, '\n') && StartsWith(l[1..], '[') && EndsWith(l[1..], ']') && '\n' !in l[1..]
  }

  predicate Physical(ls: seq<string>) {
    forall i :: 0 <= i < |ls| ==> '\n' !in ls[i] || PushedHeader(ls[i])
  }

  /** The pieces of one pushed line. */
  function Pieces(l: string): seq<string> {
    if StartsWith(l, '\n') then ["", l[1..]] else [l]
  }

  /** The one-line pieces of what was pushed. */
  function Flatten(ls: seq<string>): seq<string> {
    if ls == [] then []
    else Pieces(ls[0]) + Flatten(ls[1..])
  }

  lemma PushedHeaderClass(l: string)
    requires PushedHeader(l)
    ensures Trim(l) == Trim(l[1..]) == l[1..]
    ensures Classify(l) == Classify(l[1..]) && Classify(l).Header?
  {
    var x := l[1..];
    assert l == "\n" + x + "" && x == "" + x + "";
    TrimIs("\n", x, "");
    TrimIs("", x, "");
  }

  lemma EmptyLineIgnored(s: string)
    ensures Classify("") == Ignored && LineLog("", s) == [] && NextSection("", s) == s
  {
    TrimTidy("");
  }

  lemma {:induction false} FlattenText(ls: seq<string>)
    requires Physical(ls)
    ensures OneLiners(Flatten(ls)) && Terminated(Flatten(ls)) == Terminated(ls)
  {
    if ls != [] {
      var l := ls[0];
      FlattenText(ls[1..]);
      if StartsWith(l, '\n') {
        TerminatedConcat(["", l[1..]], Flatten(ls[1..]));
        assert ["", l[1..]][1..] == [l[1..]] && [l[1..]][1..] == [];
        assert Terminated(["", l[1..]]) == "" + "\n" + (l[1..] + "\n" + "");
        assert l == "\n" + l[1..];
      }
    }
  }

  lemma {:induction false} FlattenScan(ls: seq<string>, s: string)
    requires Physical(ls)
    ensures Scan(Flatten(ls), s) == Scan(ls, s)
  {
    if ls != [] {
      var l := ls[0];
      if StartsWith(l, '\n') {
        PushedHeaderClass(l);
        EmptyLineIgnored(s);
        assert Flatten(ls)[1..] == [l[1..]] + Flatten(ls[1..]);
        assert Flatten(ls)[1..][1..] == Flatten(ls[1..]);
        FlattenScan(ls[1..], NextSection(l, s));
      } else {
        FlattenScan(ls[1..], NextSection(l, s));
      }
    }
  }

  /** Reading written lines gives the same log as scanning them in memory. */
  lemma WrittenLines(ls: seq<string>)
    requires Physical(ls)
    ensures ls != [] ==> Lines(Join(ls) + "\n") == StripCrs(Flatten(ls)) && Join(ls) + "\n" == Terminated(Flatten(ls))
    ensures Scan(Lines(Join(ls) + "\n"), "") == Scan(ls, "")
  {
    if ls == [] {
      var blank := [""];
      assert Terminated(blank[1..]) == "" && Terminated(blank) == "" + "\n" + "" == Join(ls) + "\n";
      LinesOfTerminated(blank);
      EmptyLineIgnored("");
      ScanOne("", "");
      assert StripCrs(blank) == blank;
    } else {
      var f := Flatten(ls);
      JoinTerminated(ls);
      FlattenText(ls);
      LinesOfTerminated(f);
      forall i | 0 <= i < |f| ensures Trim(StripCrs(f)[i]) == Trim(f[i]) { StripCrTrim(f[i]); }
      ScanTrimmed(StripCrs(f), f, "");
      FlattenScan(ls, "");
    }
  }

  // ---- every pushed line is a line or a header behind a blank -----------

  lemma {:induction false} RewriteOneLiners(ls: seq<string>, s: string, u: seq<Update>)
    requires OneLiners(ls) && GoodUpdates(u)
    ensures OneLiners(Rewrite(ls, s, u))
  {
    if ls != [] {
      RewriteOneLiners(ls[1..], NextSection(ls[0], s), u);
      match Classify(ls[0])
      case Setting(k, _) => if Find(u, s, k).Some? { FindGood(u, s, k); }
      case _ =>
    }
  }

  lemma InsertKeyPhysical(ls: seq<string>, p: Update)
    requires Physical(ls) && GoodUpdate(p)
    ensures Physical(InsertKey(ls, p))
  {
    assert '\n' !in Format(p.key, p.val);
    var head := "\n" + HeaderText(p.sec);
    assert head[1..] == HeaderText(p.sec);
    assert PushedHeader(head);
  }

  lemma {:induction false} AppendMissingPhysical(ls: seq<string>, u: seq<Update>, seen: set<(string, string)>)
    requires Physical(ls) && GoodUpdates(u)
    ensures Physical(AppendMissing(ls, u, seen))
    ensures |ls| <= |AppendMissing(ls, u, seen)|
    ensures ls == [] && u != [] && seen == {} ==> AppendMissing(ls, u, seen) != []
    decreases u
  {
    if u != [] {
      assert GoodUpdate(u[0]);
      if (u[0].sec, u[0].key) in seen {
        AppendMissingPhysical(ls, u[1..], seen);
      } else {
        InsertKeyPhysical(ls, u[0]);
        AppendMissingPhysical(InsertKey(ls, u[0]), u[1..], seen);
      }
    }
  }

  lemma EditLinesPhysical(t: string, u: seq<Update>)
    requires GoodUpdates(u)
    ensures Physical(EditLines(Lines(t), u))
    ensures u != [] ==> EditLines(Lines(t), u) != []
  {
    var ls := Lines(t);
    RewriteOneLiners(ls, "", u);
    AppendMissingPhysical(Rewrite(ls, "", u), u, Touched(ls, "", u));
  }

  /** Read-after-write and frame for a sectioned file, for every text. */
  lemma EditSectionedReads(t: string, u: seq<Update>, sec: string, key: string)
    requires GoodUpdates(u)
    ensures Lookup(Scan(Lines(EditSectioned(t, u)), ""), sec, key) ==
            AfterEdit(Find(u, sec, key), Lookup(Scan(Lines(t), ""), sec, key))
  {
    EditLinesPhysical(t, u);
    WrittenLines(EditLines(Lines(t), u));
    EditLinesReads(Lines(t), u, sec, key);
  }

  // ---- what survives ----------------------------------------------------

  lemma {:induction false} UntouchedConcat(a: seq<string>, b: seq<string>, s: string, u: seq<Update>)
    ensures Untouched(a + b, s, u) == Untouched(a, s, u) + Untouched(b, EndSection(a, s), u)
  {
    if a == [] {
      assert a + b == b;
    } else {
      assert (a + b)[1..] == a[1..] + b;
      UntouchedConcat(a[1..], b, NextSection(a[0], s), u);
    }
  }

  lemma UntouchedOne(l: string, s: string, u: seq<Update>)
    ensures Untouched([l], s, u) == if Touch(l, s, u) == {} then [l] else []
  {
    assert [l][1..] == [];
  }

  /** Rewriting settles a line: a second pass finds nothing to change, and touches the same pair. */
  lemma RewriteLineSettles(l: string, s: string, u: seq<Update>)
    requires GoodUpdates(u)
    ensures var r := RewriteLine(l, s, u);
            RewriteLine(r, s, u) == r && Touch(r, s, u) == Touch(l, s, u) && NextSection(r, s) == NextSection(l, s)
    ensures Touch(l, s, u) == {} ==> RewriteLine(l, s, u) == l
  {
    match Classify(l)
    case Setting(k, v) =>
      if Find(u, s, k).Some? {
        FindGood(u, s, k);
        FormatReads(k, Find(u, s, k).value);
      }
    case _ =>
  }

  lemma {:induction false} RewriteSettles(ls: seq<string>, s: string, u: seq<Update>)
    requires GoodUpdates(u)
    ensures Rewrite(Rewrite(ls, s, u), s, u) == Rewrite(ls, s, u)
    ensures Untouched(Rewrite(ls, s, u), s, u) == Untouched(ls, s, u)
  {
    if ls != [] {
      RewriteLineSettles(ls[0], s, u);
      RewriteSettles(ls[1..], NextSection(ls[0], s), u);
    }
  }

  lemma {:induction false} RewriteConcat(a: seq<string>, b: seq<string>, s: string, u: seq<Update>)
    ensures Rewrite(a + b, s, u) == Rewrite(a, s, u) + Rewrite(b, EndSection(a, s), u)
  {
    if a == [] {
      assert a + b == b;
    } else {
      assert (a + b)[1..] == a[1..] + b;
      RewriteConcat(a[1..], b, NextSection(a[0], s), u);
    }
  }

  lemma RewriteOne(l: string, s: string, u: seq<Update>)
    ensures Rewrite([l], s, u) == [RewriteLine(l, s, u)]
  {
    assert [l][1..] == [];
  }

  /** A formatted request is settled and touched where it stands. */
  lemma FormatSettled(u: seq<Update>, p: Update)
    requires GoodUpdate(p) && Find(u, p.sec, p.key) == Some(p.val)
    ensures var l := Format(p.key, p.val);
            RewriteLine(l, p.sec, u) == l && Touch(l, p.sec, u) != {} && NextSection(l, p.sec) == p.sec
  {
    FormatReads(p.key, p.val);
    assert (p.sec, p.key) in Touch(Format(p.key, p.val), p.sec, u);
  }

  lemma SettledSplit(a: seq<string>, b: seq<string>, s: string, u: seq<Update>)
    ensures Rewrite(a + b, s, u) == a + b <==> Rewrite(a, s, u) == a && Rewrite(b, EndSection(a, s), u) == b
  {
    var x, y := Rewrite(a, s, u), Rewrite(b, EndSection(a, s), u);
    RewriteConcat(a, b, s, u);
    if x + y == a + b {
      assert x == (x + y)[..|a|] && y == (x + y)[|a|..];
    }
  }

  lemma InsertedUntouched(pre: seq<string>, l: string, post: seq<string>, s: string, u: seq<Update>)
    requires Touch(l, s, u) != {} && EndSection(pre, "") == s && NextSection(l, s) == s
    ensures Untouched(pre + [l] + post, "", u) == Untouched(pre + post, "", u)
  {
    ScanConcat(pre, [l], "");
    ScanOne(l, s);
    UntouchedConcat(pre, post, "", u);
    UntouchedConcat(pre + [l], post, "", u);
    UntouchedConcat(pre, [l], "", u);
    UntouchedOne(l, s, u);
  }

  /** Placing a settled setting between two runs keeps both runs as they were. */
  lemma InsertedSettles(pre: seq<string>, p: Update, post: seq<string>, u: seq<Update>)
    requires GoodUpdate(p) && Find(u, p.sec, p.key) == Some(p.val) && EndSection(pre, "") == p.sec
    requires Rewrite(pre + post, "", u) == pre + post
    ensures Rewrite(pre + [Format(p.key, p.val)] + post, "", u) == pre + [Format(p.key, p.val)] + post
    ensures Untouched(pre + [Format(p.key, p.val)] + post, "", u) == Untouched(pre + post, "", u)
  {
    var l := Format(p.key, p.val);
    FormatSettled(u, p);
    InsertedUntouched(pre, l, post, p.sec, u);
    SettledSplit(pre, post, "", u);
    SettledSplit(pre + [l], post, "", u);
    SettledSplit(pre, [l], "", u);
    RewriteOne(l, p.sec, u);
    ScanConcat(pre, [l], "");
    ScanOne(l, p.sec);
  }

  lemma NewHeaderSettles(ls: seq<string>, sec: string, u: seq<Update>)
    requires Rewrite(ls, "", u) == ls && '\n' !in sec
    ensures var r := ls + ["\n" + HeaderText(sec)];
            Rewrite(r, "", u) == r && Untouched(r, "", u) == Untouched(ls, "", u) + ["\n" + HeaderText(sec)]
  {
    var head := "\n" + HeaderText(sec);
    assert head[1..] == HeaderText(sec);
    assert PushedHeader(head);
    PushedHeaderClass(head);
    RewriteConcat(ls, [head], "", u);
    RewriteOne(head, EndSection(ls, ""), u);
    UntouchedConcat(ls, [head], "", u);
    UntouchedOne(head, EndSection(ls, ""), u);
  }

  /** The header line an insertion has to create, if any. */
  function Created(ls: seq<string>, p: Update): seq<string> {
    if HeaderPos(ls, p.sec) < |ls| then [] else ["\n" + HeaderText(p.sec)]
  }

  lemma CreatedPushed(ls: seq<string>, p: Update)
    requires GoodUpdate(p)
    ensures AllPushed(Created(ls, p))
  {
    var head := "\n" + HeaderText(p.sec);
    assert head[1..] == HeaderText(p.sec);
  }

  lemma InsertInSectionSettles(ls: seq<string>, p: Update, u: seq<Update>)
    requires GoodUpdate(p) && Find(u, p.sec, p.key) == Some(p.val)
    requires Rewrite(ls, "", u) == ls && HeaderPos(ls, p.sec) < |ls|
    ensures Rewrite(InsertKey(ls, p), "", u) == InsertKey(ls, p)
    ensures Untouched(InsertKey(ls, p), "", u) == Untouched(ls, "", u)
  {
    var pre, post := InsertShape(ls, p);
    InsertedSettles(pre, p, post, u);
  }

  lemma InsertKeySettles(ls: seq<string>, p: Update, u: seq<Update>)
    requires GoodUpdate(p) && Find(u, p.sec, p.key) == Some(p.val)
    requires Rewrite(ls, "", u) == ls
    ensures Rewrite(InsertKey(ls, p), "", u) == InsertKey(ls, p)
    ensures Untouched(InsertKey(ls, p), "", u) == Untouched(ls, "", u) + Created(ls, p)
  {
    if HeaderPos(ls, p.sec) < |ls| {
      InsertInSectionSettles(ls, p, u);
    } else {
      var pre := ls + ["\n" + HeaderText(p.sec)];
      NewHeaderSettles(ls, p.sec, u);
      NewHeader(ls, p.sec);
      assert pre + [] == pre;
      InsertedSettles(pre, p, [], u);
      assert pre + [Format(p.key, p.val)] + [] == InsertKey(ls, p);
    }
  }

  predicate AllPushed(hs: seq<string>) {
    forall i :: 0 <= i < |hs| ==> PushedHeader(hs[i])
  }

  predicate Asked(todo: seq<Update>, u: seq<Update>) {
    forall p :: p in todo ==> GoodUpdate(p) && Find(u, p.sec, p.key) == Some(p.val)
  }

  lemma {:induction false} AppendMissingSettles(ls: seq<string>, todo: seq<Update>, seen: set<(string, string)>,
      u: seq<Update>)
    requires Asked(todo, u) && Rewrite(ls, "", u) == ls
    ensures Rewrite(AppendMissing(ls, todo, seen), "", u) == AppendMissing(ls, todo, seen)
    decreases todo
  {
    if todo != [] {
      if (todo[0].sec, todo[0].key) in seen {
        AppendMissingSettles(ls, todo[1..], seen, u);
      } else {
        InsertKeySettles(ls, todo[0], u);
        AppendMissingSettles(InsertKey(ls, todo[0]), todo[1..], seen, u);
      }
    }
  }

  function CreatedAll(ls: seq<string>, todo: seq<Update>, seen: set<(string, string)>): seq<string>
    decreases todo
  {
    if todo == [] then []
    else if (todo[0].sec, todo[0].key) in seen then CreatedAll(ls, todo[1..], seen)
    else Created(ls, todo[0]) + CreatedAll(InsertKey(ls, todo[0]), todo[1..], seen)
  }

  lemma {:induction false} CreatedAllPushed(ls: seq<string>, todo: seq<Update>, seen: set<(string, string)>,
      u: seq<Update>)
    requires Asked(todo, u)
    ensures AllPushed(CreatedAll(ls, todo, seen))
    decreases todo
  {
    if todo != [] {
      if (todo[0].sec, todo[0].key) in seen {
        CreatedAllPushed(ls, todo[1..], seen, u);
      } else {
        CreatedPushed(ls, todo[0]);
        CreatedAllPushed(InsertKey(ls, todo[0]), todo[1..], seen, u);
      }
    }
  }

  lemma {:induction false} AppendMissingKeeps(ls: seq<string>, todo: seq<Update>, seen: set<(string, string)>,
      u: seq<Update>)
    requires Asked(todo, u) && Rewrite(ls, "", u) == ls
    ensures Untouched(AppendMissing(ls, todo, seen), "", u) == Untouched(ls, "", u) + CreatedAll(ls, todo, seen)
    decreases todo
  {
    if todo != [] {
      if (todo[0].sec, todo[0].key) in seen {
        AppendMissingKeeps(ls, todo[1..], seen, u);
      } else {
        InsertKeySettles(ls, todo[0], u);
        AppendMissingKeeps(InsertKey(ls, todo[0]), todo[1..], seen, u);
      }
    }
  }

  lemma {:induction false} FindSelf(u: seq<Update>, i: nat)
    requires GoodUpdates(u) && i < |u|
    ensures Find(u, u[i].sec, u[i].key) == Some(u[i].val)
  {
    if i > 0 { FindSelf(u[1..], i - 1); }
  }

  /**
   * Structure is preserved: every line the edit was not asked to change is still there, in order and
   * character for character; the only other untouched lines are headers of sections that were missing.
   */
  lemma EditKeepsLines(ls: seq<string>, u: seq<Update>) returns (heads: seq<string>)
    requires GoodUpdates(u)
    ensures Untouched(EditLines(ls, u), "", u) == Untouched(ls, "", u) + heads && AllPushed(heads)
    ensures Rewrite(EditLines(ls, u), "", u) == EditLines(ls, u)
  {
    RewriteSettles(ls, "", u);
    forall p | p in u ensures GoodUpdate(p) && Find(u, p.sec, p.key) == Some(p.val) {
      var i :| 0 <= i < |u| && u[i] == p;
      FindSelf(u, i);
    }
    AppendMissingSettles(Rewrite(ls, "", u), u, Touched(ls, "", u), u);
    AppendMissingKeeps(Rewrite(ls, "", u), u, Touched(ls, "", u), u);
    CreatedAllPushed(Rewrite(ls, "", u), u, Touched(ls, "", u), u);
    heads := CreatedAll(Rewrite(ls, "", u), u, Touched(ls, "", u));
  }

  // ---- a second edit ----------------------------------------------------

  lemma PiecesSettled(l: string, s: string, u: seq<Update>)
    requires '\n' !in l || PushedHeader(l)
    requires RewriteLine(l, s, u) == l
    ensures Rewrite(Pieces(l), s, u) == Pieces(l) && EndSection(Pieces(l), s) == NextSection(l, s)
    ensures NoStrayCr(Untouched(Pieces(l), s, u)) <==> NoStrayCr(Untouched([l], s, u))
  {
    UntouchedOne(l, s, u);
    if StartsWith(l, '\n') {
      PushedHeaderClass(l);
      EmptyLineIgnored(s);
      assert Pieces(l)[1..] == [l[1..]] && [l[1..]][1..] == [];
      assert Untouched(Pieces(l), s, u) == ["", l[1..]];
      assert EndSection(Pieces(l), s) == EndSection([l[1..]], s) == NextSection(l[1..], s);
    } else {
      RewriteOne(l, s, u);
      ScanOne(l, s);
    }
  }

  lemma {:induction false} FlattenSettled(ls: seq<string>, s: string, u: seq<Update>)
    requires Physical(ls) && Rewrite(ls, s, u) == ls
    ensures Rewrite(Flatten(ls), s, u) == Flatten(ls)
    ensures NoStrayCr(Untouched(Flatten(ls), s, u)) <==> NoStrayCr(Untouched(ls, s, u))
  {
    if ls != [] {
      var l, n := ls[0], NextSection(ls[0], s);
      var a, f := Pieces(l), Flatten(ls[1..]);
      assert ls == [l] + ls[1..];
      SettledSplit([l], ls[1..], s, u);
      RewriteOne(l, s, u);
      ScanOne(l, s);
      PiecesSettled(l, s, u);
      FlattenSettled(ls[1..], n, u);
      SettledSplit(a, f, s, u);
      UntouchedConcat([l], ls[1..], s, u);
      UntouchedConcat(a, f, s, u);
      NoStraySplit(Untouched([l], s, u), Untouched(ls[1..], n, u));
      NoStraySplit(Untouched(a, s, u), Untouched(f, n, u));
    }
  }

  lemma NoStraySplit(a: seq<string>, b: seq<string>)
    ensures NoStrayCr(a + b) <==> NoStrayCr(a) && NoStrayCr(b)
  {
    if NoStrayCr(a + b) {
      forall i | 0 <= i < |b| ensures !EndsWith(b[i], '\r') { assert b[i] == (a + b)[|a| + i]; }
      forall i | 0 <= i < |a| ensures !EndsWith(a[i], '\r') { assert a[i] == (a + b)[i]; }
    }
  }

  /** Losing trailing carriage returns and rewriting again restores settled lines exactly when none was stray. */
  lemma {:induction false} RestripIff(f: seq<string>, s: string, u: seq<Update>)
    requires Rewrite(f, s, u) == f
    ensures Rewrite(StripCrs(f), s, u) == f <==> NoStrayCr(Untouched(f, s, u))
  {
    if f != [] {
      var l, n := f[0], NextSection(f[0], s);
      assert Rewrite(f[1..], n, u) == f[1..] by { assert Rewrite(f, s, u)[1..] == f[1..]; }
      RestripIff(f[1..], n, u);
      StripCrTrim(l);
      UntouchedOne(l, s, u);
      NoStraySplit(Untouched([l], s, u), Untouched(f[1..], n, u));
      assert RewriteLine(l, s, u) == l by { assert Rewrite(f, s, u)[0] == l; }
      var r := Rewrite(StripCrs(f), s, u);
      assert StripCrs(f)[1..] == StripCrs(f[1..]);
      assert r[0] == RewriteLine(StripCr(l), s, u) && r[1..] == Rewrite(StripCrs(f[1..]), n, u);
      assert r == f <==> r[0] == f[0] && r[1..] == f[1..] by { assert r == [r[0]] + r[1..] && f == [f[0]] + f[1..]; }
      RestripLine(l, s, u);
      assert NoStrayCr(Untouched([l], s, u)) <==> (Touch(l, s, u) == {} ==> !EndsWith(l, '\r'));
    }
  }

  lemma RestripLine(l: string, s: string, u: seq<Update>)
    requires RewriteLine(l, s, u) == l
    ensures RewriteLine(StripCr(l), s, u) == l <==> (Touch(l, s, u) == {} ==> !EndsWith(l, '\r'))
  {
    StripCrTrim(l);
  }

  lemma {:induction false} AllSeenAppendsNothing(ls: seq<string>, u: seq<Update>, seen: set<(string, string)>)
    requires forall i :: 0 <= i < |u| ==> (u[i].sec, u[i].key) in seen
    ensures AppendMissing(ls, u, seen) == ls
    decreases u
  {
    if u != [] { AllSeenAppendsNothing(ls, u[1..], seen); }
  }

  /**
   * Applying the same edit twice equals applying it once, exactly for the texts where no line the edit leaves
   * alone still ends in a carriage return once its line ending is removed.
   */
  lemma EditTwice(t: string, u: seq<Update>)
    requires GoodUpdates(u) && u != []
    ensures EditSectioned(EditSectioned(t, u), u) == EditSectioned(t, u) <==> NoStrayCr(Untouched(Lines(t), "", u))
  {
    var ls := EditLines(Lines(t), u);
    var once := EditSectioned(t, u);
    EditLinesPhysical(t, u);
    WrittenLines(ls);
    var f := Flatten(ls);
    var g := StripCrs(f);
    forall i | 0 <= i < |u| ensures (u[i].sec, u[i].key) in Touched(g, "", u) {
      FindPresent(u, i);
      EditSectionedReads(t, u, u[i].sec, u[i].key);
      TouchedIff(g, "", u, u[i].sec, u[i].key);
    }
    AllSeenAppendsNothing(Rewrite(g, "", u), u, Touched(g, "", u));
    var heads := EditKeepsLines(Lines(t), u);
    FlattenText(ls);
    FlattenSettled(ls, "", u);
    RestripIff(f, "", u);
    NoStraySplit(Untouched(Lines(t), "", u), heads);
    assert NoStrayCr(heads) by {
      forall i | 0 <= i < |heads| ensures !EndsWith(heads[i], '\r') { assert PushedHeader(heads[i]); }
    }
    SecondText(g, f, u);
  }

  lemma SecondText(g: seq<string>, f: seq<string>, u: seq<Update>)
    requires OneLiners(f) && OneLiners(g) && |g| == |f| && f != [] && GoodUpdates(u)
    ensures Join(Rewrite(g, "", u)) + "\n" == Terminated(f) <==> Rewrite(g, "", u) == f
  {
    var r := Rewrite(g, "", u);
    JoinTerminated(r);
    RewriteOneLiners(g, "", u);
    if Terminated(r) == Terminated(f) { TerminatedInjective(r, f); }
  }

  /** A line that keeps a carriage return when its line ending is taken off. */
  const STRAY := "\r\r\n"

  lemma StrayLine(u: seq<Update>)
    ensures Lines(STRAY) == ["\r"] && Untouched(["\r"], "", u) == ["\r"] && Trim("\r") == ""
  {
    assert IndexOf(STRAY, '\n') == 2 by {
      assert STRAY[1..] == "\r\n" && STRAY[1..][1..] == "\n";
    }
    assert STRAY[..2] == "\r\r" && STRAY[3..] == "";
    assert StripCr("\r\r") == "\r";
    assert Trim("\r") == "" by { assert "\r"[1..] == ""; }
    assert ["\r"][1..] == [];
  }

  /** An input on which a second edit changes the file again. */
  lemma SecondEditDiffers()
    ensures var u := [Update("s", "k", "v")];
      GoodUpdates(u) && EditSectioned(EditSectioned(STRAY, u), u) != EditSectioned(STRAY, u)
  {
    var u := [Update("s", "k", "v")];
    StrayLine(u);
    EditTwice(STRAY, u);
    assert EndsWith(Untouched(Lines(STRAY), "", u)[0], '\r');
  }
}
