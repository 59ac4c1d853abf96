/** The two readers of an ip list on files nobody serialized: which listed addresses are loaded, and the reverse. */
module IpListReaders {
  import opened Text
  import opened IpList

  /** What the relay loads from a line. */
  function Word(l: string): string { FirstWord(Trim(l)) }

  /** The line up to its first space, and what follows it. */
  function Head(l: string): string { l[..IndexOf(l, ' ')] }

  function Tail(l: string): string { if IndexOf(l, ' ') < |l| then l[IndexOf(l, ' ') + 1..] else "" }

  /** No white space between the address and the first space, unless nothing follows. */
  predicate Clean(l: string) { Trim(Tail(l)) == "" || TrimStart(Head(l)) == Trim(Head(l)) }

  predicate Comment(l: string) { StartsWith(TrimStart(l), '#') }

  lemma HeadAndTail(l: string)
    ensures ' ' !in Head(l) && l == Head(l) + if IndexOf(l, ' ') < |l| then [' '] + Tail(l) else ""
  {
    SplitAt(l, IndexOf(l, ' '));
  }

  lemma SplitAt(l: string, i: nat)
    requires i <= |l|
    ensures l == l[..i] + if i < |l| then [l[i]] + l[i + 1..] else ""
  {
  }

  lemma BlankTrims(s: string)
    ensures Trim(s) == "" ==> Blank(s)
  {
    var a, b := TrimSplits(s);
    assert Trim(s) == "" ==> s == a + b;
  }

  lemma StartOf(a: string, f: string, b: string)
    requires Blank(a) && f != "" && !IsSpace(f[0])
    ensures TrimStart(a + f + b) == f + b
  {
    assert (f + b)[0] == f[0] && a + f + b == a + (f + b);
    TrimStartIs(a, f + b);
  }

  /** Nothing but white space follows: the word is the trimmed head. */
  lemma WordAlone(l: string)
    requires Trim(Head(l)) != "" && Trim(Tail(l)) == ""
    ensures Word(l) == Trim(Head(l))
  {
    HeadAndTail(l);
    BlankTrims(Tail(l));
    var h := Head(l);
    var rest := if IndexOf(l, ' ') < |l| then [' '] + Tail(l) else "";
    TrimPadded("", h, rest);
    assert l == "" + h + rest;
    TrimWithin(h, ' ');
    SpaceFree(Trim(h));
  }

  /** Something follows: the word keeps white space that stands before the first space. */
  lemma WordFollowed(l: string)
    requires Trim(Head(l)) != "" && Trim(Tail(l)) != ""
    ensures Word(l) == TrimStart(Head(l))
  {
    HeadAndTail(l);
    var a, b := TrimSplits(Head(l));
    var c, d := TrimSplits(Tail(l));
    StartOf(a, Trim(Head(l)), b);
    WordOfParts(l, a, Trim(Head(l)), b, c, Trim(Tail(l)), d);
  }

  lemma Regrouped(a: string, f: string, b: string, c: string, g: string, d: string)
    ensures (a + f + b) + ([' '] + (c + g + d)) == a + (f + b + [' '] + (c + g)) + d
  {
  }

  lemma WordOfParts(l: string, a: string, f: string, b: string, c: string, g: string, d: string)
    requires Blank(a) && Blank(d) && f != "" && g != "" && ' ' !in a + f + b
    requires !IsSpace(f[0]) && !IsSpace(g[|g| - 1]) && l == (a + f + b) + ([' '] + (c + g + d))
    ensures Word(l) == f + b
  {
    Regrouped(a, f, b, c, g, d);
    NoSpaceWithin(a, f, b);
    WordOf(a, f + b, c + g, d);
  }

  lemma NoSpaceWithin(a: string, f: string, b: string)
    requires ' ' !in a + f + b
    ensures ' ' !in f + b
  {
    forall i | 0 <= i < |f + b| ensures (f + b)[i] != ' ' { assert (f + b)[i] == (a + f + b)[|a| + i]; }
  }

  lemma WordOf(a: string, w: string, g: string, d: string)
    requires Blank(a) && Blank(d) && w != "" && g != "" && ' ' !in w
    requires !IsSpace(w[0]) && !IsSpace(g[|g| - 1])
    ensures Word(a + (w + [' '] + g) + d) == w
  {
    var m := w + [' '] + g;
    assert m[0] == w[0] && m[|m| - 1] == g[|g| - 1];
    TrimIs(a, m, d);
    IndexOfIs(w, ' ', g);
  }

  /** A line that starts with a space is hidden from the interface, whatever it holds. */
  lemma HiddenLine(l: string)
    requires Trim(Head(l)) == ""
    ensures ParseLine(l) == None
  {
  }

  lemma HeadShows(l: string)
    requires Trim(Head(l)) != ""
    ensures Trim(l) != ""
  {
    if Trim(Tail(l)) == "" {
      WordAlone(l);
      assert Trim(l) == "" ==> Word(l) == "";
    } else {
      WordFollowed(l);
      var a, b := TrimSplits(Head(l));
      StartOf(a, Trim(Head(l)), b);
      assert Trim(l) == "" ==> Word(l) == "";
    }
  }

  /** The interface lists a line exactly if something stands before its first space and it is no comment. */
  lemma ListedExactly(l: string)
    ensures ParseLine(l).Some? <==> Trim(Head(l)) != "" && !Comment(l)
    ensures ParseLine(l).Some? ==> ParseLine(l).value.ip == Trim(Head(l))
  {
    if Trim(Head(l)) != "" { HeadShows(l); }
  }

  /** The readers agree on a listed line exactly if it is clean. */
  lemma LineReadersAgree(l: string)
    requires ParseLine(l).Some?
    ensures Word(l) == ParseLine(l).value.ip <==> Clean(l)
  {
    ListedExactly(l);
    if Trim(Tail(l)) == "" { WordAlone(l); } else { WordFollowed(l); }
  }

  // ---- whole files -------------------------------------------------------------

  predicate Ends(t: string) { t == "" || t[|t| - 1] == '\n' }

  lemma FirstLine(t: string, i: nat)
    requires i == IndexOf(t, '\n') && i < |t|
    ensures SplitNl(t) == [t[..i]] + SplitNl(t[i + 1..])
    ensures Lines(t) == [StripCr(t[..i])] + Lines(t[i + 1..])
    ensures Ends(t) <==> Ends(t[i + 1..])
  {
    assert i + 1 < |t| ==> t[i + 1..][|t| - i - 2] == t[|t| - 1];
  }

  /** The loader sees the lines the interface sees, and an empty word after the last line end. */
  lemma {:induction false} LoadedLines(t: string)
    ensures Loaded(SplitNl(t)) == Loaded(Lines(t)) + if Ends(t) then {""} else {}
    decreases |t|
  {
    var i := IndexOf(t, '\n');
    if t == "" {
      LoadedBlank();
    } else if i == |t| {
      assert !Ends(t);
    } else {
      FirstLine(t, i);
      LoadedLines(t[i + 1..]);
      StripCrTrim(t[..i]);
      LoadedCons(t[..i], SplitNl(t[i + 1..]));
      LoadedCons(StripCr(t[..i]), Lines(t[i + 1..]));
    }
  }

  lemma {:induction false} LoadedIff(ls: seq<string>, w: string)
    ensures w in Loaded(ls) <==> exists n :: 0 <= n < |ls| && Word(ls[n]) == w
  {
    if ls != [] {
      LoadedIff(ls[1..], w);
      if n :| 0 <= n < |ls[1..]| && Word(ls[1..][n]) == w { assert Word(ls[n + 1]) == w; }
      if n :| 0 <= n < |ls| && Word(ls[n]) == w { if n > 0 { assert ls[1..][n - 1] == ls[n]; } }
    }
  }

  /** The line lists this address. */
  predicate Lists(l: string, w: string) { ParseLine(l).Some? && ParseLine(l).value.ip == w }

  lemma {:induction false} ListedIff(ls: seq<string>, w: string)
    ensures w in Ips(ParseLines(ls)) <==> exists n :: 0 <= n < |ls| && Lists(ls[n], w)
  {
    if ls != [] {
      ListedIff(ls[1..], w);
      if ParseLine(ls[0]).Some? {
        assert ParseLines(ls)[1..] == ParseLines(ls[1..]);
        IpsCons(ParseLines(ls));
      }
      if n :| 0 <= n < |ls[1..]| && Lists(ls[1..][n], w) { assert Lists(ls[n + 1], w); }
      if n :| 0 <= n < |ls| && Lists(ls[n], w) { if n > 0 { assert ls[1..][n - 1] == ls[n]; } }
    }
  }

  /**
   * For every text and address: the interface lists it if and only if some line that is no comment has it before its
   * first space; the relay loads it if and only if it is the first word of some trimmed line; and a line that lists it
   * is also one the relay loads it from exactly if the line is clean.
   */
  lemma ReadersOfAnyText(t: string, w: string)
    requires w != ""
    ensures w in Ips(ParseIpFile(t)) <==>
      exists n :: 0 <= n < |Lines(t)| && Lists(Lines(t)[n], w)
    ensures w in Loaded(SplitNl(t)) <==>
      exists n :: 0 <= n < |Lines(t)| && Word(Lines(t)[n]) == w
    ensures forall n :: 0 <= n < |Lines(t)| && Lists(Lines(t)[n], w) ==>
      (Word(Lines(t)[n]) == w <==> Clean(Lines(t)[n]))
    ensures forall n :: 0 <= n < |Lines(t)| && Word(Lines(t)[n]) == w ==>
      (Lists(Lines(t)[n], w) <==>
        Trim(Head(Lines(t)[n])) != "" && !Comment(Lines(t)[n]) && Clean(Lines(t)[n]))
  {
    var ls := Lines(t);
    ListedIff(ls, w);
    LoadedLines(t);
    LoadedIff(ls, w);
    forall n | 0 <= n < |ls|
      ensures Lists(ls[n], w) ==> (Word(ls[n]) == w <==> Clean(ls[n]))
      ensures Word(ls[n]) == w ==>
        (Lists(ls[n], w) <==> Trim(Head(ls[n])) != "" && !Comment(ls[n]) && Clean(ls[n]))
    {
      ListedExactly(ls[n]);
      if ParseLine(ls[n]).Some? { LineReadersAgree(ls[n]); }
    }
  }

  lemma SpacedLine()
    ensures Word(" 1") == "1" && ParseLine(" 1") == None
  {
    IndexOfIs("", ' ', "1");
    assert "" + [' '] + "1" == " 1";
    TrimTidy("");
    HiddenLine(" 1");
    TrimIs(" ", "1", "");
    assert " " + "1" + "" == " 1";
    SpaceFree("1");
  }

  lemma OneLineFile(l: string)
    requires '\n' !in l && !EndsWith(l, '\r')
    ensures Lines(l + "\n") == [l] && Word(l) in Loaded(SplitNl(l + "\n"))
  {
    assert l + "\n" == Terminated([l]);
    LinesOfTerminated([l]);
    assert StripCr(l) == l && [l][1..] == [];
    assert StripCrs([l]) == [l];
    LoadedLines(l + "\n");
    LoadedIff([l], Word(l));
    assert Word([l][0]) == Word(l);
  }

  /** A leading space: the interface lists nothing, the relay loads the address, and the next save drops it. */
  lemma LeadingSpace()
    ensures ParseIpFile(" 1\n") == [] && "1" in Loaded(SplitNl(" 1\n"))
    ensures "1" !in Loaded(SplitNl(SerializeIpFile(ParseIpFile(" 1\n"))))
  {
    SpacedLine();
    assert " 1" + "\n" == " 1\n";
    OneLineFile(" 1");
    assert [" 1"][1..] == [];
    LoaderAgrees([]);
  }
}
