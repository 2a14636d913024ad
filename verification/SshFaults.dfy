/** Where a text of lines ends or breaks off: a last line without a line end, and everything that the lexer refuses. */
module SshFaults {
  import opened Wrappers
  import opened SshLex
  import opened SshParse
  import opened SshDoc

  // ---------- The last line ----------

  /** One more line, in the last host or before the first. */
  function Extend(d: Doc, e: Entry): Doc {
    if d.blocks == [] then d.(preamble := d.preamble + [e])
    else
      var n := |d.blocks| - 1;
      d.(blocks := d.blocks[..n] + [d.blocks[n].(body := d.blocks[n].body + [e])])
  }

  lemma ExtendedHosts(y: Syntax, d: Doc, e: Entry)
    requires d.blocks != []
    ensures var n := |d.blocks| - 1;
      Hosts(y, Extend(d, e)) == IncludedOf(y, d.preamble) + DoneOf(y, d.blocks)
                                + [HostOf(y, d.blocks[n].names, d.blocks[n].body + [e])]
  {
    hide HostOf, IncludedOf;
    var n := |d.blocks| - 1;
    assert HostsOf(y, Extend(d, e).blocks)
        == HostsOf(y, d.blocks[..n]) + [HostOf(y, d.blocks[n].names, d.blocks[n].body + [e])];
  }

  lemma ExtendedPreamble(y: Syntax, d: Doc, e: Entry)
    requires d.blocks == []
    ensures Hosts(y, Extend(d, e))
         == IncludedOf(y, d.preamble) + if e.Included? && y.included(e.path).Some? then y.included(e.path).value else []
  {
    BodySnoc(d.preamble, e);
    assert HostsOf(y, []) == [];
  }

  /** The last line need not be ended: it means the same. */
  lemma LastLineParses(a: Alphabet, y: Syntax, d: Doc, e: Entry)
    requires AlphabetOk(a) && DocOk(a, d) && EntryOk(a, e)
    ensures var r := DocRefusal(y, d); var last := Refusal(y, d.blocks != [], e, |Text(d)|);
      ParseText(a, y, Text(d) + EntryText(e))
      == if r.Some? then Err(r.value) else if last.Some? then Err(last.value) else Ok(Hosts(y, Extend(d, e)))
  {
    hide AlphabetOk, DocOk, EntryOk, At, Meaning, Tokens, ParseText, Text, EntryText, DocRefusal, Hosts, Extend, HostOf,
      IncludedOf, DoneOf, Atoi;
    var s, i := Text(d) + EntryText(e), |Text(d)|;
    LastStands(d, e);
    DocMeaning(a, y, d, s);
    var done := IncludedOf(y, d.preamble) + DoneOf(y, d.blocks);
    if d.blocks != [] {
      var b := d.blocks[|d.blocks| - 1];
      ExtendedHosts(y, d, e);
      BodyEntryMeaning(a, y, b.names, b.body, e, s, i, done);
      EndMeaning(a, y, s, done, Some(HostOf(y, b.names, b.body + [e])));
    } else {
      ExtendedPreamble(y, d, e);
      assert done == IncludedOf(y, d.preamble) by { NoneDone(y); assert done == IncludedOf(y, d.preamble) + []; }
      EarlyEntryMeaning(a, y, e, s, i, done);
      EndMeaning(a, y, s, Hosts(y, Extend(d, e)), None);
    }
  }

  lemma NoneDone(y: Syntax)
    ensures DoneOf(y, []) == []
  {}

  lemma LastStands(d: Doc, e: Entry)
    ensures var s := Text(d) + EntryText(e);
      At(s, 0, Text(d)) && Stands(s, |Text(d)|, e) && |Text(d)| + |EntryText(e)| == |s|
  {
    hide Text, EntryText;
    var s := Text(d) + EntryText(e);
    assert s[0..0 + |Text(d)|] == Text(d) && s[|Text(d)|..|Text(d)| + |EntryText(e)|] == EntryText(e);
  }

  // ---------- What the lexer refuses ----------

  /** A character that starts nothing, a carriage return by itself, a word that is not ended by a space or an equals
      sign, or a line that breaks off at a carriage return by itself. */
  datatype Fault =
    | StrayChar(c: char)
    | StrayReturn
    | CutWord(word: string)
    | CutNote(text: string)
    | CutLine(style: Style, kind: Option<Kind>, value: string)

  function FaultText(f: Fault): string {
    match f
    case StrayChar(c) => [c]
    case StrayReturn => "\r"
    case CutWord(w) => w
    case CutNote(text) => "#" + (text + "\r")
    case CutLine(st, _, v) => LineText(st, v)
  }

  /** The fault is one, whatever comes after it in s, from e on. */
  ghost predicate IsFault(a: Alphabet, f: Fault, s: string, e: nat)
    requires e <= |s|
  {
    match f
    case StrayChar(c) => !a.alphaNumeric(c) && c != '#' && c != ' ' && c != '\t' && !IsBreak(c)
    case StrayReturn => e < |s| ==> s[e] != '\n'
    case CutWord(w) => WordOk(a, w) && (e < |s| ==> !a.alphaNumeric(s[e]) && s[e] != ' ' && s[e] != '=')
    case CutNote(text) => Unbroken(text) && (e < |s| ==> s[e] != '\n')
    case CutLine(st, k, v) =>
      && st.indent == "" && WordOk(a, st.word) && (st.sep == ' ' || st.sep == '=') && st.eol == "\r"
      && KeywordOf(Lower(a, st.word)) == k && Unbroken(v) && (k == Some(Host) ==> !EndsInSpace(v))
      && (e < |s| ==> s[e] != '\n')
  }

  /** What is reported of a fault at position i, before the first host or in one. */
  function FaultReason(inHost: bool, f: Fault, s: string, i: nat): Reason
    requires i + |FaultText(f)| <= |s|
  {
    var e := i + |FaultText(f)|;
    match f
    case StrayChar(c) => if inHost then Lexical("unable to parse character: " + [c], i) else BeforeHost(i)
    case StrayReturn => if inHost then Lexical("expected \\n", i + 1) else BeforeHost(i + 1)
    case CutWord(w) =>
      if inHost then Lexical("invalid pattern: " + w + (if e < |s| then [s[e]] else ""), i) else BeforeHost(i)
    case CutNote(_) => if inHost then Lexical("expected \\n", e) else BeforeHost(e)
    case CutLine(st, None, _) => if inHost then Lexical("expected \\n", i) else BeforeHost(i)
    case CutLine(st, Some(k), _) =>
      if k == Host then Lexical("expected \\n", i + |st.word| + 1)
      else if k == Include then (if inHost then IncludeInHost else BadItem("expected \\n"))
      else if !inHost then BeforeHost(i)
      else if k == LocalForward || k == RemoteForward || k == Kind.DynamicForward then BadForward("expected \\n")
      else BadItem("expected \\n")
  }

  lemma LoneReturn(s: string, i: nat, v: string)
    requires At(s, i, v + "\r") && Unbroken(v) && (i + |v| + 1 < |s| ==> s[i + |v| + 1] != '\n')
    ensures i + |v| < |s| && At(s, i, v) && LineEnd(s, i) == i + |v| && !EndsWell(s, i + |v|)
  {
    AtConcat(s, i, v, "\r");
    CharAt(s, i + |v|, "\r", 0);
    hide LineEnd;
    assert forall k :: i <= k < i + |v| ==> s[k] == v[k - i] && !IsBreak(s[k]);
  }

  lemma StopTokens(a: Alphabet, s: string, i: nat, t: Item)
    requires i <= |s| && EnvScan(a, s, i) == Scan([t], None)
    ensures Tokens(a, s, i) == [t]
  {
    hide EnvScan;
    assert [t] + [] == [t];
  }

  lemma CharTokens(a: Alphabet, s: string, i: nat, c: char)
    requires AlphabetOk(a) && At(s, i, [c]) && IsFault(a, StrayChar(c), s, i + 1)
    ensures Tokens(a, s, i) == [Item(Error, i, UNABLE + [c])]
  {
    CharAt(s, i, [c], 0);
    hide WordScan, CommentScan, Tokens;
    StopTokens(a, s, i, Item(Error, i, UNABLE + [c]));
  }

  lemma ReturnTokens(a: Alphabet, s: string, i: nat)
    requires AlphabetOk(a) && At(s, i, "\r") && IsFault(a, StrayReturn, s, i + 1)
    ensures Tokens(a, s, i) == [Item(Error, i + 1, EXPECTED)]
  {
    CharAt(s, i, "\r", 0);
    hide WordScan, CommentScan, Tokens;
    StopTokens(a, s, i, Item(Error, i + 1, EXPECTED));
  }

  lemma NoteTokens(a: Alphabet, s: string, i: nat, text: string)
    requires AlphabetOk(a) && At(s, i, "#" + (text + "\r")) && Unbroken(text)
    requires i + |text| + 2 < |s| ==> s[i + |text| + 2] != '\n'
    ensures i < |s| && Tokens(a, s, i) == [Item(Error, i + |text| + 2, EXPECTED)]
  {
    AtConcat(s, i, "#", text + "\r");
    CharAt(s, i, "#", 0);
    LoneReturn(s, i + 1, text);
    hide WordScan, Tokens, LineEnd, EndsWell, At, Unbroken;
    StopTokens(a, s, i, Item(Error, i + |text| + 2, EXPECTED));
  }

  lemma WordFaultTokens(a: Alphabet, s: string, i: nat, w: string)
    requires At(s, i, w) && WordOk(a, w)
    requires i + |w| < |s| ==> !a.alphaNumeric(s[i + |w|]) && s[i + |w|] != ' ' && s[i + |w|] != '='
    ensures i + |w| <= |s|
    ensures Tokens(a, s, i) == [Item(Error, i, INVALID + w + (if i + |w| < |s| then [s[i + |w|]] else ""))]
  {
    var j := i + |w|;
    WordEndAt(a, s, i, w);
    WordScanAt(a, s, i, j);
    assert s[i..j] == w;
    assert s[i..if j == |s| then j else j + 1] == w + (if j < |s| then [s[j]] else "");
    assert INVALID + (w + (if j < |s| then [s[j]] else "")) == INVALID + w + (if j < |s| then [s[j]] else "");
    hide WordScan, Tokens, WordEnd, CommentScan, KeywordOf, Lower, HostScan, ValueScan;
    StopTokens(a, s, i, Item(Error, i, INVALID + w + (if j < |s| then [s[j]] else "")));
  }

  lemma CutValueScan(s: string, start: nat, pos: nat, e: nat)
    requires start <= pos <= |s| && LineEnd(s, pos) == e && !EndsWell(s, e)
    ensures ValueScan(s, start, pos) == Scan([Item(Error, start, EXPECTED)], None)
    ensures start == pos ==> HostScan(s, start) == Scan([Item(Error, start, EXPECTED)], None)
  {
    hide LineEnd, EndsWell;
  }

  lemma CutFinish(a: Alphabet, s: string, t: Item)
    ensures Finish(a, s, Scan([t], None)) == [t]
  {
    assert [t] + [] == [t];
  }

  /** A line that breaks off at a carriage return: its keyword, and then an error in the place of the value. */
  lemma LineFaultTokens(a: Alphabet, st: Style, k: Option<Kind>, v: string, s: string, i: nat)
    requires AlphabetOk(a) && At(s, i, LineText(st, v)) && i + |LineText(st, v)| <= |s|
    requires IsFault(a, CutLine(st, k, v), s, i + |LineText(st, v)|)
    ensures Tokens(a, s, i)
         == match k
            case None => [Item(Error, i, EXPECTED)]
            case Some(kind) => [Item(kind, i, st.word), Item(Error, i + |st.word| + 1, EXPECTED)]
  {
    hide LineText, At, Unbroken, KeywordOf, Lower, Tokens, LineEnd, EndsWell, Finish, HostScan, ValueScan, WordOk;
    LinePlaces(st, v, s, i);
    var j := i + |st.word|;
    AtConcat(s, j + 1, v, st.eol);
    LoneReturn(s, j + 1, v);
    WordTokens(a, s, i, st.word, k);
    if k.None? {
      SpaceThenLine(s, j);
      CutValueScan(s, i, j, j + 1 + |v|);
      CutFinish(a, s, Item(Error, i, EXPECTED));
    } else {
      CutValueScan(s, j + 1, j + 1, j + 1 + |v|);
      CutFinish(a, s, Item(Error, j + 1, EXPECTED));
      assert [Item(k.value, i, st.word)] + [Item(Error, j + 1, EXPECTED)]
          == [Item(k.value, i, st.word), Item(Error, j + 1, EXPECTED)];
    }
  }

  lemma SpaceThenLine(s: string, j: nat)
    requires j < |s| && (s[j] == ' ' || s[j] == '=')
    ensures LineEnd(s, j) == LineEnd(s, j + 1)
  {}

  lemma ErrorMeaning(y: Syntax, t: Item, done: seq<SshHost>, host: Option<SshHost>)
    requires t.kind == Error
    ensures Meaning(y, [t], done, host) == Err(if host.Some? then Lexical(t.val, t.pos) else BeforeHost(t.pos))
  {}

  lemma CutMeaning(y: Syntax, t: Item, u: Item, done: seq<SshHost>, host: Option<SshHost>)
    requires AsksForDigit(y) && IsKeyword(t.kind) && u.kind == Error && u.val == EXPECTED
    ensures Meaning(y, [t, u], done, host)
         == Err(if t.kind == Host then Lexical(EXPECTED, u.pos)
                else if t.kind == Include then (if host.Some? then IncludeInHost else BadItem(EXPECTED))
                else if host.None? then BeforeHost(t.pos)
                else if t.kind == LocalForward || t.kind == RemoteForward || t.kind == Kind.DynamicForward then
                  BadForward(EXPECTED)
                else BadItem(EXPECTED))
  {
    if HasField(t.kind) && host.Some? {
      ErrorIsNoValue(y, host.value, t.kind, u);
    }
    hide AsksForDigit;
    assert [t, u][1..] == [u];
  }

  lemma FaultMeaning(a: Alphabet, y: Syntax, f: Fault, s: string, i: nat, done: seq<SshHost>, host: Option<SshHost>)
    requires AlphabetOk(a) && AsksForDigit(y) && At(s, i, FaultText(f)) && i + |FaultText(f)| <= |s|
    requires IsFault(a, f, s, i + |FaultText(f)|)
    ensures Meaning(y, Tokens(a, s, i), done, host) == Err(FaultReason(host.Some?, f, s, i))
  {
    hide AlphabetOk, AsksForDigit, At, Tokens, Meaning, LineText, WordOk, Unbroken, KeywordOf, Lower, Assign;
    match f
    case StrayChar(c) =>
      CharTokens(a, s, i, c);
      ErrorMeaning(y, Item(Error, i, UNABLE + [c]), done, host);
    case StrayReturn =>
      ReturnTokens(a, s, i);
      ErrorMeaning(y, Item(Error, i + 1, EXPECTED), done, host);
    case CutWord(w) =>
      WordFaultTokens(a, s, i, w);
      ErrorMeaning(y, Tokens(a, s, i)[0], done, host);
    case CutNote(text) =>
      NoteTokens(a, s, i, text);
      ErrorMeaning(y, Tokens(a, s, i)[0], done, host);
    case CutLine(st, k, v) =>
      LineFaultTokens(a, st, k, v, s, i);
      if k.None? {
        ErrorMeaning(y, Item(Error, i, EXPECTED), done, host);
      } else {
        assert KeywordOf(Lower(a, st.word)) == k;
        CutMeaning(y, Item(k.value, i, st.word), Item(Error, i + |st.word| + 1, EXPECTED), done, host);
      }
  }

  /** A fault after good lines, whatever comes after it, makes the parser refuse the text, and for this reason. */
  lemma FaultRefuses(a: Alphabet, y: Syntax, d: Doc, indent: string, f: Fault, s: string)
    requires AlphabetOk(a) && AsksForDigit(y) && DocOk(a, d) && DocRefusal(y, d) == None && Blanks(indent)
    requires At(s, 0, Text(d) + (indent + FaultText(f))) && |Text(d)| + |indent| + |FaultText(f)| <= |s|
    requires IsFault(a, f, s, |Text(d)| + |indent| + |FaultText(f)|)
    ensures ParseText(a, y, s) == Err(FaultReason(d.blocks != [], f, s, |Text(d)| + |indent|))
  {
    hide AlphabetOk, AsksForDigit, DocOk, DocRefusal, Blanks, At, Text, FaultText, IsFault, ParseText, Meaning, Tokens,
      FaultReason, HostOf, IncludedOf, DoneOf;
    var i := |Text(d)|;
    AtConcat(s, 0, Text(d), indent + FaultText(f));
    AtConcat(s, i, indent, FaultText(f));
    DocMeaning(a, y, d, s);
    IndentIsSkipped(a, s, i, indent);
    FaultMeaning(a, y, f, s, i + |indent|, IncludedOf(y, d.preamble) + DoneOf(y, d.blocks), CurrentOf(y, d.blocks));
  }

  // ---------- A space after the names ----------

  lemma BlankItems(y: Syntax, t: Item, u: Item, x: Item, rest: seq<Item>, done: seq<SshHost>, host: Option<SshHost>)
    requires t.kind == Host && u.kind == Value && x.kind == HostValue && x.val == ""
    ensures Meaning(y, [t] + ([u] + ([x] + rest)), done, host)
         == Meaning(y, rest, Flush(done, host), Some(NEW_HOST.(names := [""])))
  {
    hide Assign;
    var ts := [t] + ([u] + ([x] + rest));
    assert ts[1..] == [u] + ([x] + rest) && ([u] + ([x] + rest))[1..] == [x] + rest && ([x] + rest)[1..] == rest;
    var d := Flush(done, host);
    assert Meaning(y, ts, done, host) == Meaning(y, ts[1..], d, Some(NEW_HOST));
    assert Meaning(y, ts[1..], d, Some(NEW_HOST)) == Meaning(y, [x] + rest, d, Some(NEW_HOST));
    assert Split("") == [""];
  }

  lemma RefusedItems(y: Syntax, t: Item, u: Item, done: seq<SshHost>, host: Option<SshHost>)
    requires t.kind == Host && u.kind == Error
    ensures Meaning(y, [t] + [u], done, host) == Err(Lexical(u.val, u.pos))
  {
    hide Assign;
    assert ([t] + [u])[1..] == [u];
  }

  lemma SpacedScanAt(s: string, i: nat, v: string, eol: string)
    requires At(s, i, v) && Ends(s, i + |v|, eol) && LineEnd(s, i) == i + |v| && EndsInSpace(v)
    requires i + |v| + |eol| <= |s|
    ensures var names, e := Item(HostValue, i + |v|, ""), i + |v|;
      var rest := if e == |s| then Scan([names, Item(Eof, e, "")], None) else Scan([names], Some(e));
      HostScan(s, i) == if eol == "\r\n" then Scan([Item(Error, i, EXPECTED)], None)
                        else Scan([Item(Value, i, v)] + rest.items, rest.next)
  {
    var e := i + |v|;
    EndsFacts(s, e, eol);
    CharAt(s, i, v, |v| - 1);
    HostScanAt(s, i, e);
    hide LineEnd, EndsWell, HostScan;
  }

  /** The names become a value, and then there are no names; before a carriage return there is an error instead. */
  lemma SpacedTokens(a: Alphabet, s: string, i: nat, v: string, eol: string)
    requires AlphabetOk(a) && At(s, i, v) && Unbroken(v) && Ends(s, i + |v|, eol) && EndsInSpace(v)
    requires i + |v| + |eol| <= |s|
    ensures Finish(a, s, HostScan(s, i))
         == if eol == "\r\n" then [Item(Error, i, EXPECTED)]
            else [Item(Value, i, v)] + ([Item(HostValue, i + |v|, "")] + Tokens(a, s, i + |v| + |eol|))
  {
    hide *;
    var names, e := Item(HostValue, i + |v|, ""), i + |v|;
    LineEndAt(s, i, v, eol);
    SpacedScanAt(s, i, v, eol);
    CutFinish(a, s, Item(Error, i, EXPECTED));
    ItemTokens(a, s, names, e, eol);
    FinishCons(a, s, Item(Value, i, v),
               if e == |s| then Scan([names, Item(Eof, e, "")], None) else Scan([names], Some(e)));
  }

  /** A line of names that ends in a space: with a carriage return the whole text is refused; otherwise the host is left
      with one empty name. */
  lemma SpaceAfterNames(a: Alphabet, y: Syntax, st: Style, v: string, s: string, i: nat, done: seq<SshHost>,
                        host: Option<SshHost>)
    requires AlphabetOk(a) && StyleOk(a, st, Some(Host)) && Unbroken(v) && EndsInSpace(v) && Fits(st, v, s, i)
    requires i + |LineText(st, v)| <= |s|
    ensures Meaning(y, Tokens(a, s, i), done, host)
         == if st.eol == "\r\n" then Err(Lexical(EXPECTED, i + |st.indent| + |st.word| + 1))
            else Meaning(y, Tokens(a, s, i + |LineText(st, v)|), Flush(done, host), Some(NEW_HOST.(names := [""])))
  {
    hide *;
    StyleFacts(a, st, Some(Host), v, s, i);
    var j := i + |st.indent|;
    var n := j + |st.word| + 1;
    WordTokens(a, s, j, st.word, Some(Host));
    SpacedTokens(a, s, n, v, st.eol);
    if st.eol == "\r\n" {
      RefusedItems(y, Item(Host, j, st.word), Item(Error, n, EXPECTED), done, host);
    } else {
      BlankItems(y, Item(Host, j, st.word), Item(Value, n, v), Item(HostValue, n + |v|, ""),
                 Tokens(a, s, i + |LineText(st, v)|), done, host);
    }
  }
}
