/** Rust string operations used by the file editors: `trim`, `trim_matches`, `lines`, `join`, `find`. */
module Text {

  datatype Option<+T> = None | Some(value: T)

  /** `char::is_whitespace`: the Unicode White_Space property. */
  predicate IsSpace(c: char) {
    || '\t' <= c <= '\r' || c == ' ' || c == '\U{0085}' || c == '\U{00A0}' || c == '\U{1680}'
    || '\U{2000}' <= c <= '\U{200A}' || c == '\U{2028}' || c == '\U{2029}' || c == '\U{202F}'
    || c == '\U{205F}' || c == '\U{3000}'
  }

  /** The twenty-five characters with that property, one by one. */
  lemma SpacesAre(c: char)
    ensures IsSpace(c) <==>
      c in "\t\n\U{000B}\U{000C}\r \U{0085}\U{00A0}\U{1680}\U{2000}\U{2001}\U{2002}\U{2003}\U{2004}\U{2005}\U{2006}"
           + "\U{2007}\U{2008}\U{2009}\U{200A}\U{2028}\U{2029}\U{202F}\U{205F}\U{3000}"
  {
  }

  predicate Blank(s: string) {
    forall i :: 0 <= i < |s| ==> IsSpace(s[i])
  }

  /** No white space at either end. */
  predicate Tidy(s: string) {
    s == "" || (!IsSpace(s[0]) && !IsSpace(s[|s| - 1]))
  }

  function TrimStart(s: string): string {
    if s != "" && IsSpace(s[0]) then TrimStart(s[1..]) else s
  }

  function TrimEnd(s: string): string {
    if s != "" && IsSpace(s[|s| - 1]) then TrimEnd(s[..|s| - 1]) else s
  }

  /** `str::trim`. */
  function Trim(s: string): string {
    TrimEnd(TrimStart(s))
  }

  lemma {:induction false} TrimStartSplits(s: string) returns (a: string)
    ensures s == a + TrimStart(s) && Blank(a)
    ensures TrimStart(s) != "" ==> !IsSpace(TrimStart(s)[0])
  {
    if s != "" && IsSpace(s[0]) {
      var b := TrimStartSplits(s[1..]);
      a := [s[0]] + b;
      assert s == [s[0]] + s[1..];
    } else {
      a := "";
    }
  }

  lemma {:induction false} TrimEndSplits(s: string) returns (b: string)
    ensures s == TrimEnd(s) + b && Blank(b)
    ensures TrimEnd(s) != "" ==> !IsSpace(TrimEnd(s)[|TrimEnd(s)| - 1])
  {
    if s != "" && IsSpace(s[|s| - 1]) {
      var c := TrimEndSplits(s[..|s| - 1]);
      b := c + [s[|s| - 1]];
      assert s == s[..|s| - 1] + [s[|s| - 1]];
    } else {
      b := "";
    }
  }

  /** Trimming splits a string into blank margins around a tidy middle. */
  lemma TrimSplits(s: string) returns (a: string, b: string)
    ensures s == a + Trim(s) + b && Blank(a) && Blank(b) && Tidy(Trim(s))
  {
    a := TrimStartSplits(s);
    b := TrimEndSplits(TrimStart(s));
    if Trim(s) != "" { assert Trim(s)[0] == TrimStart(s)[0]; }
  }

  lemma {:induction false} TrimStartIs(a: string, m: string)
    requires Blank(a) && (m != "" ==> !IsSpace(m[0]))
    ensures TrimStart(a + m) == m
  {
    if a == "" {
      assert a + m == m;
    } else {
      assert (a + m)[1..] == a[1..] + m;
      TrimStartIs(a[1..], m);
    }
  }

  lemma {:induction false} TrimEndIs(m: string, b: string)
    requires Blank(b) && (m != "" ==> !IsSpace(m[|m| - 1]))
    ensures TrimEnd(m + b) == m
  {
    if b == "" {
      assert m + b == m;
    } else {
      var c := b[..|b| - 1];
      assert (m + b)[..|m + b| - 1] == m + c;
      TrimEndIs(m, c);
    }
  }

  /** The trimmed string is the only tidy middle between blank margins. */
  lemma TrimIs(a: string, t: string, b: string)
    requires Blank(a) && Blank(b) && Tidy(t)
    ensures Trim(a + t + b) == t
  {
    if t == "" {
      assert a + t + b == (a + b) + "";
      TrimStartIs(a + b, "");
    } else {
      assert a + t + b == a + (t + b);
      TrimStartIs(a, t + b);
      TrimEndIs(t, b);
    }
  }

  lemma TrimTidy(t: string)
    requires Tidy(t)
    ensures Trim(t) == t
  {
    TrimIs("", t, "");
    assert "" + t + "" == t;
  }

  lemma Regroup(a: string, x: string, t: string, y: string, b: string)
    ensures a + (x + t + y) + b == (a + x) + t + (y + b)
  {
  }

  /** Blank margins never change what trimming returns. */
  lemma TrimPadded(a: string, s: string, b: string)
    requires Blank(a) && Blank(b)
    ensures Trim(a + s + b) == Trim(s)
  {
    var x, y := TrimSplits(s);
    var t := Trim(s);
    Regroup(a, x, t, y, b);
    TrimIs(a + x, t, y + b);
  }

  /** `str::trim_matches('"')`. */
  function Unquote(s: string): string {
    if s != "" && s[0] == '"' then Unquote(s[1..])
    else if s != "" && s[|s| - 1] == '"' then Unquote(s[..|s| - 1])
    else s
  }

  /** Quotes only. */
  predicate Quotes(s: string) { forall i :: 0 <= i < |s| ==> s[i] == '"' }

  /** No quote at either end. */
  predicate Bare(s: string) { s == "" || (s[0] != '"' && s[|s| - 1] != '"') }

  /** Removing quotes splits a string into quotes around a middle without quotes at its ends. */
  lemma {:induction false} UnquoteSplits(s: string) returns (a: string, b: string)
    ensures s == a + Unquote(s) + b && Quotes(a) && Quotes(b) && Bare(Unquote(s))
    decreases |s|
  {
    if s != "" && s[0] == '"' {
      var c, d := UnquoteSplits(s[1..]);
      a, b := ['"'] + c, d;
      assert s == [s[0]] + s[1..];
    } else if s != "" && s[|s| - 1] == '"' {
      var c, d := UnquoteSplits(s[..|s| - 1]);
      a, b := c, d + ['"'];
      assert s == s[..|s| - 1] + [s[|s| - 1]];
    } else {
      a, b := "", "";
    }
  }

  /** And that middle is the only one, unless nothing but quotes is there. */
  lemma {:induction false} UnquoteIs(a: string, m: string, b: string)
    requires Quotes(a) && Quotes(b) && Bare(m)
    ensures Unquote(a + m + b) == m
    decreases |a| + |b|
  {
    var s := a + m + b;
    if a != "" {
      assert s[1..] == a[1..] + m + b;
      UnquoteIs(a[1..], m, b);
    } else if b != "" {
      var c := b[..|b| - 1];
      if m == "" {
        assert s[1..] == "" + "" + b[1..];
        UnquoteIs("", "", b[1..]);
      } else {
        assert s[0] == m[0] && s[..|s| - 1] == a + m + c;
        UnquoteIs(a, m, c);
      }
    } else {
      assert s == m;
    }
  }

  predicate StartsWith(s: string, c: char) { s != "" && s[0] == c }

  predicate EndsWith(s: string, c: char) { s != "" && s[|s| - 1] == c }

  /** Index of the first `c`, or the length when there is none. */
  function IndexOf(s: string, c: char): (i: nat)
    ensures i <= |s| && c !in s[..i] && (i < |s| ==> s[i] == c)
  {
    if s == "" || s[0] == c then 0
    else
      var j := IndexOf(s[1..], c);
      assert s[..j + 1] == [s[0]] + s[1..][..j];
      j + 1
  }

  lemma {:induction false} IndexOfIs(a: string, c: char, b: string)
    requires c !in a
    ensures IndexOf(a + [c] + b, c) == |a|
  {
    if a != "" {
      assert (a + [c] + b)[1..] == a[1..] + [c] + b;
      IndexOfIs(a[1..], c, b);
    }
  }

  // ---- lines -----------------------------------------------------------

  function StripCr(l: string): string {
    if EndsWith(l, '\r') then l[..|l| - 1] else l
  }

  lemma StripCrTrim(l: string)
    ensures Trim(StripCr(l)) == Trim(l)
  {
    if EndsWith(l, '\r') {
      var m := l[..|l| - 1];
      assert l == "" + m + "\r";
      TrimPadded("", m, "\r");
    }
  }

  /** `str::lines`: split at line feeds, one carriage return before a line feed belongs to the line ending. */
  function Lines(t: string): (ls: seq<string>)
    ensures OneLiners(ls)
    decreases |t|
  {
    if t == "" then [] else
    var i := IndexOf(t, '\n');
    if i == |t| then
      assert t[..i] == t;
      [t]
    else [StripCr(t[..i])] + Lines(t[i + 1..])
  }

  predicate OneLiners(ls: seq<string>) {
    forall i :: 0 <= i < |ls| ==> '\n' !in ls[i]
  }

  /** `lines.join("\n")`. */
  function Join(ls: seq<string>): string {
    if |ls| == 0 then "" else if |ls| == 1 then ls[0] else ls[0] + "\n" + Join(ls[1..])
  }

  /** Every line followed by a line feed. */
  function Terminated(ls: seq<string>): string {
    if ls == [] then "" else ls[0] + "\n" + Terminated(ls[1..])
  }

  lemma JoinTerminated(ls: seq<string>)
    requires ls != []
    ensures Join(ls) + "\n" == Terminated(ls)
  {
    if |ls| == 1 {
      assert Terminated(ls[1..]) == "";
    } else {
      JoinTerminated(ls[1..]);
      assert Join(ls) + "\n" == ls[0] + "\n" + (Join(ls[1..]) + "\n");
    }
  }

  function StripCrs(ls: seq<string>): (r: seq<string>)
    ensures |r| == |ls| && forall i :: 0 <= i < |ls| ==> r[i] == StripCr(ls[i])
  {
    if ls == [] then [] else [StripCr(ls[0])] + StripCrs(ls[1..])
  }

  /** Reading back written lines returns them, less one trailing carriage return each. */
  lemma {:induction false} LinesOfTerminated(ls: seq<string>)
    requires OneLiners(ls)
    ensures Lines(Terminated(ls)) == StripCrs(ls)
  {
    if ls != [] {
      var t, rest := Terminated(ls), Terminated(ls[1..]);
      assert t == ls[0] + ['\n'] + rest;
      IndexOfIs(ls[0], '\n', rest);
      assert t[..|ls[0]|] == ls[0] && t[|ls[0]| + 1..] == rest;
      LinesOfTerminated(ls[1..]);
    }
  }

  /** A last line without a line feed keeps its carriage return. */
  lemma {:induction false} LinesOfUnterminated(ls: seq<string>, last: string)
    requires OneLiners(ls) && last != "" && '\n' !in last
    ensures Lines(Terminated(ls) + last) == StripCrs(ls) + [last]
    decreases ls
  {
    if ls == [] {
      assert Terminated(ls) + last == last && last[..|last|] == last;
      assert StripCrs(ls) + [last] == [last];
    } else {
      var l := ls[0];
      var rest := Terminated(ls[1..]) + last;
      assert Terminated(ls) + last == l + ['\n'] + rest;
      IndexOfIs(l, '\n', rest);
      assert (l + ['\n'] + rest)[..|l|] == l && (l + ['\n'] + rest)[|l| + 1..] == rest;
      LinesOfUnterminated(ls[1..], last);
    }
  }

  lemma {:induction false} TerminatedInjective(a: seq<string>, b: seq<string>)
    requires OneLiners(a) && OneLiners(b) && Terminated(a) == Terminated(b)
    ensures a == b
  {
    if a != [] && b != [] {
      var t := Terminated(a);
      assert t == a[0] + ['\n'] + Terminated(a[1..]);
      assert t == b[0] + ['\n'] + Terminated(b[1..]);
      IndexOfIs(a[0], '\n', Terminated(a[1..]));
      IndexOfIs(b[0], '\n', Terminated(b[1..]));
      assert a[0] == t[..|a[0]|] == b[0];
      assert t[|a[0]| + 1..] == Terminated(a[1..]) == Terminated(b[1..]);
      TerminatedInjective(a[1..], b[1..]);
    }
  }

  lemma {:induction false} TerminatedConcat(a: seq<string>, b: seq<string>)
    ensures Terminated(a + b) == Terminated(a) + Terminated(b)
  {
    if a == [] {
      assert a + b == b;
    } else {
      TerminatedConcat(a[1..], b);
      assert (a + b)[1..] == a[1..] + b;
    }
  }
}
