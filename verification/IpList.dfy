/** The black- and blocklist files: the interface's parser and serializer, and the relay's own loader. */
module IpList {
  import opened Text

  datatype IpEntry = IpEntry(ip: string, comment: string)

  function ParseLine(l: string): Option<IpEntry> {
    if Trim(l) == "" || StartsWith(TrimStart(l), '#') then None else
    var pos := IndexOf(l, ' ');
    var ip := Trim(l[..pos]);
    var comment := if pos < |l| then Trim(l[pos + 1..]) else Trim("");
    if ip == "" then None else Some(IpEntry(ip, comment))
  }

  function ParseLines(ls: seq<string>): seq<IpEntry> {
    if ls == [] then []
    else (match ParseLine(ls[0]) case Some(e) => [e] case None => []) + ParseLines(ls[1..])
  }

  function ParseIpFile(content: string): seq<IpEntry> { ParseLines(Lines(content)) }

  function EntryLine(e: IpEntry): string {
    if e.comment == "" then e.ip else e.ip + " " + e.comment
  }

  function EntryLines(es: seq<IpEntry>): seq<string> {
    if es == [] then [] else [EntryLine(es[0])] + EntryLines(es[1..])
  }

  function SerializeIpFile(es: seq<IpEntry>): string { Join(EntryLines(es)) + "\n" }

  /** An entry that can stand on a line of its own. */
  predicate WellFormed(e: IpEntry) {
    && e.ip != "" && Tidy(e.ip) && ' ' !in e.ip && '\n' !in e.ip && e.ip[0] != '#'
    && Tidy(e.comment) && '\n' !in e.comment
  }

  predicate AllWellFormed(es: seq<IpEntry>) {
    forall i :: 0 <= i < |es| ==> WellFormed(es[i])
  }

  // ---- parsing what was serialized ----------------------------------------

  lemma WrittenTrims(e: IpEntry)
    requires WellFormed(e)
    ensures Trim(EntryLine(e)) == EntryLine(e) == TrimStart(EntryLine(e))
    ensures EntryLine(e) != "" && EntryLine(e)[0] == e.ip[0]
    ensures '\n' !in EntryLine(e) && !EndsWith(EntryLine(e), '\r')
  {
    var l := EntryLine(e);
    assert l[0] == e.ip[0];
    assert l[|l| - 1] == if e.comment == "" then e.ip[|e.ip| - 1] else e.comment[|e.comment| - 1];
    TrimTidy(l);
  }

  lemma ParseWritten(e: IpEntry)
    requires WellFormed(e)
    ensures ParseLine(EntryLine(e)) == Some(e)
  {
    var l := EntryLine(e);
    WrittenTrims(e);
    TrimTidy(e.ip);
    TrimTidy(e.comment);
    TrimTidy("");
    if e.comment == "" {
      SpaceFree(l);
      assert l[..|l|] == l;
    } else {
      assert l == e.ip + [' '] + e.comment;
      IndexOfIs(e.ip, ' ', e.comment);
      assert l[..|e.ip|] == e.ip && l[|e.ip| + 1..] == e.comment;
    }
  }

  lemma SpaceFree(l: string)
    requires ' ' !in l
    ensures IndexOf(l, ' ') == |l|
  {
  }

  lemma {:induction false} ParseEntryLines(es: seq<IpEntry>)
    requires AllWellFormed(es)
    ensures ParseLines(EntryLines(es)) == es && OneLiners(EntryLines(es)) && StripCrs(EntryLines(es)) == EntryLines(es)
  {
    if es != [] {
      assert WellFormed(es[0]);
      ParseEntryLines(es[1..]);
      ParseWritten(es[0]);
      WrittenTrims(es[0]);
      assert es == [es[0]] + es[1..];
    }
  }

  lemma BlankFile()
    ensures Lines("\n") == [""] && ParseIpFile("\n") == []
  {
    assert [""][1..] == [] && Terminated([""]) == "" + "\n" + "";
    LinesOfTerminated([""]);
    TrimTidy("");
  }

  lemma ParseSerialized(es: seq<IpEntry>)
    requires AllWellFormed(es)
    ensures ParseIpFile(SerializeIpFile(es)) == es
  {
    if es == [] {
      BlankFile();
    } else {
      ParseEntryLines(es);
      JoinTerminated(EntryLines(es));
      LinesOfTerminated(EntryLines(es));
    }
  }

  // ---- everything parsed is well formed -------------------------------------

  lemma PartsOf(l: string, i: nat, j: nat, c: char)
    requires i <= j <= |l| && c !in l
    ensures c !in l[i..j]
  {
  }

  lemma TrimWithin(s: string, c: char)
    requires c !in s
    ensures c !in Trim(s)
  {
    var a, b := TrimSplits(s);
    var t := Trim(s);
    forall i | 0 <= i < |t| ensures t[i] != c { assert t[i] == s[|a| + i]; }
  }

  lemma FirstWordOfLine(l: string, first: string, tail: string)
    requires l == first + tail && '\n' !in first && ' ' !in first
    requires Trim(first) != "" && !StartsWith(TrimStart(l), '#')
    ensures Tidy(Trim(first)) && ' ' !in Trim(first) && '\n' !in Trim(first) && Trim(first)[0] != '#'
  {
    var a, b := TrimSplits(first);
    TrimWithin(first, '\n');
    TrimWithin(first, ' ');
    FirstVisible(a, Trim(first), b + tail);
    assert l == a + (Trim(first) + (b + tail));
  }

  lemma RestOfLine(rest: string)
    requires '\n' !in rest
    ensures Tidy(Trim(rest)) && '\n' !in Trim(rest)
  {
    var a, b := TrimSplits(rest);
    TrimWithin(rest, '\n');
  }

  lemma ParseLineWellFormed(l: string)
    requires '\n' !in l
    ensures ParseLine(l).Some? ==> WellFormed(ParseLine(l).value)
  {
    if ParseLine(l).Some? {
      var pos := IndexOf(l, ' ');
      PartsOf(l, 0, pos, '\n');
      FirstWordOfLine(l, l[..pos], l[pos..]);
      if pos < |l| {
        PartsOf(l, pos + 1, |l|, '\n');
        RestOfLine(l[pos + 1..]);
      } else {
        RestOfLine("");
      }
    }
  }

  /** The first visible character of a line is that of its first word. */
  lemma FirstVisible(a: string, m: string, tail: string)
    requires Blank(a) && m != "" && !IsSpace(m[0])
    ensures TrimStart(a + (m + tail)) == m + tail
  {
    assert (m + tail)[0] == m[0];
    TrimStartIs(a, m + tail);
  }

  lemma {:induction false} ParseLinesWellFormed(ls: seq<string>)
    requires OneLiners(ls)
    ensures AllWellFormed(ParseLines(ls))
  {
    if ls != [] {
      ParseLineWellFormed(ls[0]);
      ParseLinesWellFormed(ls[1..]);
    }
  }

  /** Parsing undoes serializing exactly for lists of well-formed entries. */
  lemma RoundTripIff(es: seq<IpEntry>)
    ensures ParseIpFile(SerializeIpFile(es)) == es <==> AllWellFormed(es)
  {
    ParseLinesWellFormed(Lines(SerializeIpFile(es)));
    if AllWellFormed(es) { ParseSerialized(es); }
  }

  /** Reading, writing and reading again gives the same entries, for every text. */
  lemma ReadWriteRead(t: string)
    ensures ParseIpFile(SerializeIpFile(ParseIpFile(t))) == ParseIpFile(t)
  {
    ParseLinesWellFormed(Lines(t));
    ParseSerialized(ParseIpFile(t));
  }

  // ---- the relay's loader ----------------------------------------------------

  /** `contents.split('\n')`. */
  function SplitNl(t: string): (r: seq<string>)
    ensures r != []
    decreases |t|
  {
    var i := IndexOf(t, '\n');
    if i == |t| then [t] else [t[..i]] + SplitNl(t[i + 1..])
  }

  function FirstWord(x: string): string { x[..IndexOf(x, ' ')] }

  function Loaded(xs: seq<string>): set<string> {
    if xs == [] then {} else {FirstWord(Trim(xs[0]))} + Loaded(xs[1..])
  }

  method LoadIpSet(contents: string) returns (ips: set<string>)
    ensures ips == Loaded(SplitNl(contents))
  {
    ips := {};
    var xs := SplitNl(contents);
    for i := 0 to |xs|
      invariant Loaded(xs) == ips + Loaded(xs[i..])
    {
      assert xs[i..][1..] == xs[i + 1..];
      ips := ips + {FirstWord(Trim(xs[i]))};
    }
  }

  function Ips(es: seq<IpEntry>): set<string> {
    set e | e in es :: e.ip
  }

  lemma SplitFirst(a: string, rest: string)
    requires '\n' !in a
    ensures SplitNl(a + ['\n'] + rest) == [a] + SplitNl(rest)
  {
    var t := a + ['\n'] + rest;
    IndexOfIs(a, '\n', rest);
    assert t[..|a|] == a && t[|a| + 1..] == rest;
  }

  lemma {:induction false} SplitTerminated(ls: seq<string>)
    requires OneLiners(ls)
    ensures SplitNl(Terminated(ls)) == ls + [""]
  {
    if ls != [] {
      SplitFirst(ls[0], Terminated(ls[1..]));
      SplitTerminated(ls[1..]);
      assert Terminated(ls) == ls[0] + ['\n'] + Terminated(ls[1..]);
    }
  }

  lemma LoadedEntry(e: IpEntry)
    requires WellFormed(e)
    ensures FirstWord(Trim(EntryLine(e))) == e.ip
  {
    WrittenTrims(e);
    if e.comment == "" {
      SpaceFree(e.ip);
    } else {
      assert EntryLine(e) == e.ip + [' '] + e.comment;
      IndexOfIs(e.ip, ' ', e.comment);
    }
  }

  lemma LoadedBlank()
    ensures Loaded([""]) == {""}
  {
    TrimTidy("");
    assert [""][1..] == [];
  }

  lemma IpsCons(es: seq<IpEntry>)
    requires es != []
    ensures Ips(es) == {es[0].ip} + Ips(es[1..])
  {
    assert es == [es[0]] + es[1..];
  }

  lemma LoadedCons(x: string, xs: seq<string>)
    ensures Loaded([x] + xs) == {FirstWord(Trim(x))} + Loaded(xs)
  {
    assert ([x] + xs)[1..] == xs;
  }

  lemma {:induction false} LoadedEntries(es: seq<IpEntry>)
    requires AllWellFormed(es)
    ensures Loaded(EntryLines(es) + [""]) == Ips(es) + {""}
  {
    if es == [] {
      assert EntryLines(es) + [""] == [""];
      LoadedBlank();
    } else {
      var l, rest := EntryLine(es[0]), EntryLines(es[1..]) + [""];
      assert WellFormed(es[0]);
      LoadedEntry(es[0]);
      LoadedEntries(es[1..]);
      assert EntryLines(es) + [""] == [l] + rest;
      LoadedCons(l, rest);
      IpsCons(es);
    }
  }

  /** The relay loads exactly the addresses of a serialized list, and the empty string for the end of the file. */
  lemma LoaderAgrees(es: seq<IpEntry>)
    requires AllWellFormed(es)
    ensures Loaded(SplitNl(SerializeIpFile(es))) == Ips(es) + {""}
  {
    if es == [] {
      assert IndexOf("\n", '\n') == 0;
      assert SplitNl("\n") == ["", ""] by { assert "\n"[1..] == "" && "\n"[..0] == ""; }
      assert ["", ""][1..] == [""];
      LoadedBlank();
      TrimTidy("");
    } else {
      ParseEntryLines(es);
      JoinTerminated(EntryLines(es));
      SplitTerminated(EntryLines(es));
      LoadedEntries(es);
    }
  }

  // ---- the interface's two edits ------------------------------------------------

  datatype Outcome = Saved(text: string) | EmptyIp | Duplicate | NotFound

  function AddIp(t: string, ip: string, comment: string): Outcome {
    var addr := Trim(ip);
    if addr == "" then EmptyIp
    else if addr in Ips(ParseIpFile(t)) then Duplicate
    else Saved(SerializeIpFile(ParseIpFile(t) + [IpEntry(addr, comment)]))
  }

  function Retain(es: seq<IpEntry>, ip: string): seq<IpEntry> {
    if es == [] then []
    else (if es[0].ip != ip then [es[0]] else []) + Retain(es[1..], ip)
  }

  function DeleteIp(t: string, ip: string): Outcome {
    var es := ParseIpFile(t);
    var kept := Retain(es, ip);
    if |kept| == |es| then NotFound else Saved(SerializeIpFile(kept))
  }

  /**
   * A saved addition is listed last and loaded by the relay, with everything listed before kept, exactly when the
   * new entry is well formed.
   */
  lemma AddedIff(t: string, ip: string, comment: string)
    requires AddIp(t, ip, comment).Saved?
    ensures var e := IpEntry(Trim(ip), comment);
            var text := AddIp(t, ip, comment).text;
            (ParseIpFile(text) == ParseIpFile(t) + [e] <==> WellFormed(e))
            && (WellFormed(e) ==> Loaded(SplitNl(text)) == Ips(ParseIpFile(t)) + {e.ip, ""})
  {
    var e := IpEntry(Trim(ip), comment);
    var es := ParseIpFile(t) + [e];
    ParseLinesWellFormed(Lines(t));
    RoundTripIff(es);
    assert es[|es| - 1] == e;
    if WellFormed(e) {
      LoaderAgrees(es);
      assert Ips(es) == Ips(ParseIpFile(t)) + {e.ip};
    }
  }

  /** An addition is refused exactly for an address of white space and for one that is listed already. */
  lemma AdditionRefused(t: string, ip: string, comment: string)
    ensures AddIp(t, ip, comment) == EmptyIp <==> Blank(ip)
    ensures AddIp(t, ip, comment) == Duplicate <==>
      !Blank(ip) && exists i :: 0 <= i < |ParseIpFile(t)| && ParseIpFile(t)[i].ip == Trim(ip)
    ensures AddIp(t, ip, comment) != NotFound
  {
    var a, b := TrimSplits(ip);
    if Trim(ip) == "" {
      assert Blank(ip);
    } else {
      assert ip[|a|] == Trim(ip)[0];
    }
    var es := ParseIpFile(t);
    if Trim(ip) in Ips(es) {
      var e :| e in es && e.ip == Trim(ip);
      var i :| 0 <= i < |es| && es[i] == e;
    }
  }

  lemma {:induction false} RetainKeeps(es: seq<IpEntry>, ip: string)
    ensures |Retain(es, ip)| <= |es|
    ensures |Retain(es, ip)| == |es| <==> ip !in Ips(es)
    ensures forall e :: e in Retain(es, ip) <==> e in es && e.ip != ip
    ensures Ips(Retain(es, ip)) == Ips(es) - {ip}
  {
    if es != [] {
      RetainKeeps(es[1..], ip);
      assert es == [es[0]] + es[1..];
      IpsCons(es);
    }
  }

  /**
   * A deletion is refused exactly for an address that is not listed; otherwise that address, and only it, is gone for
   * both readers.
   */
  lemma DeletedIff(t: string, ip: string)
    ensures DeleteIp(t, ip) == NotFound <==> ip !in Ips(ParseIpFile(t))
    ensures DeleteIp(t, ip).Saved? ==>
      && ParseIpFile(DeleteIp(t, ip).text) == Retain(ParseIpFile(t), ip)
      && Loaded(SplitNl(DeleteIp(t, ip).text)) == Ips(ParseIpFile(t)) - {ip} + {""}
  {
    var es := ParseIpFile(t);
    RetainKeeps(es, ip);
    ParseLinesWellFormed(Lines(t));
    forall i | 0 <= i < |Retain(es, ip)| ensures WellFormed(Retain(es, ip)[i]) { assert Retain(es, ip)[i] in es; }
    ParseSerialized(Retain(es, ip));
    LoaderAgrees(Retain(es, ip));
  }
}
