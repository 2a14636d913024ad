/** What an ssh configuration file means, line by line: for every text made up of the lines below, indented, spelled and
    ended in any way, the hosts that the parser returns or the first line that it refuses. */
module SshDoc {
  import opened Wrappers
  import opened SshLex
  import opened SshParse

  // ---------- Documents ----------

  /** How a line with a word and a value is laid out. */
  datatype Style = Style(indent: string, word: string, sep: char, eol: string)

  datatype Entry =
    | Blank(indent: string, eol: string)
    | Note(indent: string, text: string, eol: string) // a comment
    | Setting(style: Style, kind: Kind, value: string)
    | Unknown(style: Style, value: string)            // a word that is no keyword
    | Included(style: Style, path: string)

  datatype Block = Block(style: Style, names: seq<string>, body: seq<Entry>)

  /** Lines before the first host, and then hosts. */
  datatype Doc = Doc(preamble: seq<Entry>, blocks: seq<Block>)

  function LineText(st: Style, v: string): (r: string)
    ensures |r| == |st.indent| + |st.word| + 1 + |v| + |st.eol|
  {
    st.indent + (st.word + ([st.sep] + (v + st.eol)))
  }

  function EntryText(e: Entry): string {
    match e
    case Blank(indent, eol) => indent + eol
    case Note(indent, text, eol) => indent + ("#" + (text + eol))
    case Setting(st, _, v) => LineText(st, v)
    case Unknown(st, v) => LineText(st, v)
    case Included(st, path) => LineText(st, path)
  }

  function BodyText(body: seq<Entry>): string {
    if body == [] then "" else BodyText(body[..|body| - 1]) + EntryText(body[|body| - 1])
  }

  function NamesText(b: Block): string {
    LineText(b.style, Join(b.names))
  }

  function BlocksText(blocks: seq<Block>): string {
    if blocks == [] then ""
    else
      var b := blocks[|blocks| - 1];
      BlocksText(blocks[..|blocks| - 1]) + (NamesText(b) + BodyText(b.body))
  }

  function Text(d: Doc): string {
    BodyText(d.preamble) + BlocksText(d.blocks)
  }

  // ---------- Which lines there can be ----------

  /** What stands between lines is neither letter nor digit. */
  ghost predicate AlphabetOk(a: Alphabet) {
    && !a.alphaNumeric(' ') && !a.alphaNumeric('\t') && !a.alphaNumeric('\r') && !a.alphaNumeric('\n')
    && !a.alphaNumeric('#') && !a.alphaNumeric('=')
  }

  predicate Blanks(indent: string) {
    forall i :: 0 <= i < |indent| ==> indent[i] == ' ' || indent[i] == '\t'
  }

  predicate EolOk(eol: string) {
    eol == "\n" || eol == "\r\n"
  }

  predicate Unbroken(v: string) {
    forall i :: 0 <= i < |v| ==> !IsBreak(v[i])
  }

  predicate NameOk(v: string) {
    Unbroken(v) && ' ' !in v
  }

  /** At least one name; and if several, the last is not empty. */
  predicate NamesOk(names: seq<string>) {
    names != [] && (forall n <- names :: NameOk(n)) && (|names| > 1 ==> names[|names| - 1] != "")
  }

  ghost predicate WordOk(a: Alphabet, w: string) {
    w != "" && forall i :: 0 <= i < |w| ==> a.alphaNumeric(w[i])
  }

  /** Any indentation, any spelling of the keyword, a space or an equals sign, and either line end; only at the end of
      the text may the line end be missing. */
  ghost predicate StyleOk(a: Alphabet, st: Style, k: Option<Kind>) {
    && Blanks(st.indent) && WordOk(a, st.word) && (st.sep == ' ' || st.sep == '=') && (EolOk(st.eol) || st.eol == "")
    && KeywordOf(Lower(a, st.word)) == k
  }

  ghost predicate EntryOk(a: Alphabet, e: Entry) {
    match e
    case Blank(indent, eol) => Blanks(indent) && (EolOk(eol) || eol == "")
    case Note(indent, text, eol) => Blanks(indent) && Unbroken(text) && (EolOk(eol) || eol == "")
    case Setting(st, k, v) => StyleOk(a, st, Some(k)) && HasField(k) && Unbroken(v)
    case Unknown(st, v) => StyleOk(a, st, None) && Unbroken(v)
    case Included(st, path) => StyleOk(a, st, Some(Include)) && Unbroken(path)
  }

  function EolOf(e: Entry): string {
    match e
    case Blank(_, eol) => eol
    case Note(_, _, eol) => eol
    case Setting(st, _, _) => st.eol
    case Unknown(st, _) => st.eol
    case Included(st, _) => st.eol
  }

  ghost predicate BodyOk(a: Alphabet, body: seq<Entry>) {
    forall e <- body :: EntryOk(a, e) && EolOf(e) != ""
  }

  ghost predicate BlockOk(a: Alphabet, b: Block) {
    StyleOk(a, b.style, Some(Host)) && b.style.eol != "" && NamesOk(b.names) && BodyOk(a, b.body)
  }

  ghost predicate BlocksOk(a: Alphabet, blocks: seq<Block>) {
    forall b <- blocks :: BlockOk(a, b)
  }

  ghost predicate DocOk(a: Alphabet, d: Doc) {
    BodyOk(a, d.preamble) && BlocksOk(a, d.blocks)
  }

  // ---------- What they mean ----------

  /** The value of the last line that sets k. */
  function LastOf(body: seq<Entry>, k: Kind): Option<string> {
    if body == [] then None
    else
      var e := body[|body| - 1];
      if e.Setting? && e.kind == k then Some(e.value) else LastOf(body[..|body| - 1], k)
  }

  function TextOf(body: seq<Entry>, k: Kind): string {
    match LastOf(body, k)
    case Some(v) => v
    case None => ""
  }

  function PortOf(body: seq<Entry>): int {
    match LastOf(body, Port)
    case Some(v) => (match Atoi(v) case Some(n) => n case None => 22)
    case None => 22
  }

  /** The forwards of the lines that set k, in order. */
  function ForwardsOf(y: Syntax, body: seq<Entry>, k: Kind): seq<Forward> {
    if body == [] then []
    else
      var e := body[|body| - 1];
      ForwardsOf(y, body[..|body| - 1], k)
      + if e.Setting? && e.kind == k && y.forward(e.value).Some? then [y.forward(e.value).value] else []
  }

  function DynamicsOf(y: Syntax, body: seq<Entry>): seq<DynamicForward> {
    if body == [] then []
    else
      var e := body[|body| - 1];
      DynamicsOf(y, body[..|body| - 1])
      + if e.Setting? && e.kind == Kind.DynamicForward && y.dynamic(e.value).Some? then [y.dynamic(e.value).value]
        else []
  }

  /** Of each field the last line counts, and 22 is the port if there is none; forwards are gathered. */
  function HostOf(y: Syntax, names: seq<string>, body: seq<Entry>): SshHost {
    SshHost(names, TextOf(body, HostName), TextOf(body, User), PortOf(body), TextOf(body, ProxyCommand),
            TextOf(body, HostKeyAlgorithms), TextOf(body, IdentityFile), ForwardsOf(y, body, LocalForward),
            ForwardsOf(y, body, RemoteForward), DynamicsOf(y, body))
  }

  function HostsOf(y: Syntax, blocks: seq<Block>): (r: seq<SshHost>)
    ensures |r| == |blocks|
  {
    seq(|blocks|, i requires 0 <= i < |blocks| => HostOf(y, blocks[i].names, blocks[i].body))
  }

  /** The hosts that the included files give. */
  function IncludedOf(y: Syntax, body: seq<Entry>): seq<SshHost> {
    if body == [] then []
    else
      var e := body[|body| - 1];
      IncludedOf(y, body[..|body| - 1])
      + if e.Included? && y.included(e.path).Some? then y.included(e.path).value else []
  }

  function Hosts(y: Syntax, d: Doc): seq<SshHost> {
    IncludedOf(y, d.preamble) + HostsOf(y, d.blocks)
  }

  /** Why a line that starts at pos is refused: it sets something before the first host, includes a file inside a host,
      or its value cannot be read. */
  function Refusal(y: Syntax, inHost: bool, e: Entry, pos: nat): Option<Reason> {
    match e
    case Blank(_, _) => None
    case Note(_, _, _) => None
    case Setting(st, k, v) =>
      if !inHost then Some(BeforeHost(pos + |st.indent|))
      else if k == Port && Atoi(v).None? then Some(BadPort(v))
      else if (k == LocalForward || k == RemoteForward) && y.forward(v).None? then Some(BadForward(v))
      else if k == Kind.DynamicForward && y.dynamic(v).None? then Some(BadForward(v))
      else None
    case Unknown(st, _) => if inHost then None else Some(BeforeHost(pos + |st.indent|))
    case Included(_, path) =>
      if inHost then Some(IncludeInHost) else if y.included(path).None? then Some(BadInclude(path)) else None
  }

  /** Why the first refused line of a text that starts at pos is refused. */
  function BodyRefusal(y: Syntax, inHost: bool, body: seq<Entry>, pos: nat): Option<Reason> {
    if body == [] then None
    else
      var before := body[..|body| - 1];
      var r := BodyRefusal(y, inHost, before, pos);
      if r.Some? then r else Refusal(y, inHost, body[|body| - 1], pos + |BodyText(before)|)
  }

  function BlocksRefusal(y: Syntax, blocks: seq<Block>, pos: nat): Option<Reason> {
    if blocks == [] then None
    else
      var before, b := blocks[..|blocks| - 1], blocks[|blocks| - 1];
      var r := BlocksRefusal(y, before, pos);
      if r.Some? then r else BodyRefusal(y, true, b.body, pos + |BlocksText(before)| + |NamesText(b)|)
  }

  function DocRefusal(y: Syntax, d: Doc): Option<Reason> {
    var r := BodyRefusal(y, false, d.preamble, 0);
    if r.Some? then r else BlocksRefusal(y, d.blocks, |BodyText(d.preamble)|)
  }

  // ---------- Texts within texts ----------

  /** t stands in s at position i. */
  predicate At(s: string, i: nat, t: string) {
    i + |t| <= |s| && s[i..i + |t|] == t
  }

  lemma AtConcat(s: string, i: nat, t: string, u: string)
    ensures At(s, i, t + u) <==> At(s, i, t) && At(s, i + |t|, u)
  {
    if i + |t| + |u| <= |s| {
      var x := s[i..i + |t| + |u|];
      assert x[..|t|] == s[i..i + |t|] && x[|t|..] == s[i + |t|..i + |t| + |u|] && x == x[..|t|] + x[|t|..];
      assert (t + u)[..|t|] == t && (t + u)[|t|..] == u;
    }
  }

  lemma CharAt(s: string, i: nat, t: string, k: nat)
    requires At(s, i, t) && k < |t|
    ensures i + k < |s| && s[i + k] == t[k]
  {
    assert s[i..i + |t|][k] == s[i + k];
  }

  /** The line end stands at e; it may be missing at the end of the text. */
  predicate Ends(s: string, e: nat, eol: string) {
    At(s, e, eol) && (EolOk(eol) || (eol == "" && e == |s|))
  }

  lemma EndsFacts(s: string, e: nat, eol: string)
    requires Ends(s, e, eol)
    ensures e + |eol| <= |s| && EndsWell(s, e) && (e < |s| ==> IsBreak(s[e]))
    ensures e < |s| ==> s[e] == eol[0] && (eol == "\r\n" ==> e + 1 < |s| && s[e + 1] == '\n')
  {
    if eol != "" {
      CharAt(s, e, eol, 0);
      if eol == "\r\n" {
        CharAt(s, e, eol, 1);
      }
    }
  }

  // ---------- Lexing one line ----------

  /** Between lines, blanks mean nothing. */
  lemma BlankIsSkipped(a: Alphabet, s: string, i: nat)
    requires i < |s| && (s[i] == ' ' || s[i] == '\t') && !a.alphaNumeric(s[i])
    ensures Tokens(a, s, i) == Tokens(a, s, i + 1)
  {
    assert [] + Tokens(a, s, i + 1) == Tokens(a, s, i + 1);
    hide WordScan, CommentScan;
  }

  lemma IndentParts(a: Alphabet, s: string, i: nat, indent: string)
    requires AlphabetOk(a) && Blanks(indent) && At(s, i, indent)
    ensures i + |indent| <= |s|
    ensures indent != "" ==>
      Blanks(indent[1..]) && At(s, i + 1, indent[1..]) && (s[i] == ' ' || s[i] == '\t') && !a.alphaNumeric(s[i])
  {
    if indent != "" {
      CharAt(s, i, indent, 0);
      assert indent == [indent[0]] + indent[1..];
      AtConcat(s, i, [indent[0]], indent[1..]);
    }
  }

  lemma {:induction false} IndentIsSkipped(a: Alphabet, s: string, i: nat, indent: string)
    requires AlphabetOk(a) && Blanks(indent) && At(s, i, indent)
    ensures i + |indent| <= |s| && Tokens(a, s, i) == Tokens(a, s, i + |indent|)
    decreases |indent|
  {
    hide *;
    IndentParts(a, s, i, indent);
    if indent != "" {
      BlankIsSkipped(a, s, i);
      IndentIsSkipped(a, s, i + 1, indent[1..]);
    }
  }

  lemma EolScan(a: Alphabet, s: string, e: nat, eol: string)
    requires AlphabetOk(a) && Ends(s, e, eol) && eol != ""
    ensures e + |eol| <= |s| && EnvScan(a, s, e) == Scan([], Some(e + |eol|))
  {
    EndsFacts(s, e, eol);
    hide At, EndsWell, WordScan, CommentScan;
  }

  /** After the line end, the lexer is between lines. */
  lemma EolIsSkipped(a: Alphabet, s: string, e: nat, eol: string)
    requires AlphabetOk(a) && Ends(s, e, eol)
    ensures e + |eol| <= |s| && Tokens(a, s, e) == Tokens(a, s, e + |eol|)
  {
    EndsFacts(s, e, eol);
    hide *;
    if eol != "" {
      EolScan(a, s, e, eol);
      BetweenLines(a, s, e);
      BetweenLines(a, s, e + |eol|);
    }
  }

  /** A text without line breaks, up to the line end, is all of its line. */
  lemma LineEndAt(s: string, i: nat, v: string, eol: string)
    requires At(s, i, v) && Unbroken(v) && Ends(s, i + |v|, eol)
    ensures LineEnd(s, i) == i + |v| && EndsWell(s, i + |v|)
  {
    EndsFacts(s, i + |v|, eol);
    hide LineEnd;
    assert forall k :: i <= k < i + |v| ==> s[k] == v[k - i] && !IsBreak(s[k]);
  }

  lemma CommentScanAt(s: string, i: nat, text: string, eol: string)
    requires At(s, i, text) && Unbroken(text) && Ends(s, i + |text|, eol)
    ensures i + |text| + |eol| <= |s| && CommentScan(s, i) == Scan([], Some(i + |text| + |eol|))
  {
    LineEndAt(s, i, text, eol);
    EndsFacts(s, i + |text|, eol);
    hide LineEnd, EndsWell, At, Unbroken;
  }

  /** A comment means nothing. */
  lemma NoteIsSkipped(a: Alphabet, s: string, i: nat, text: string, eol: string)
    requires AlphabetOk(a) && At(s, i, "#" + (text + eol)) && Unbroken(text) && Ends(s, i + 1 + |text|, eol)
    ensures i + 1 + |text| + |eol| <= |s| && Tokens(a, s, i) == Tokens(a, s, i + 1 + |text| + |eol|)
  {
    hide At, Ends, Unbroken, CommentScan, WordScan, Tokens, Finish;
    AtConcat(s, i, "#", text + eol);
    AtConcat(s, i + 1, text, eol);
    CharAt(s, i, "#", 0);
    CommentScanAt(s, i + 1, text, eol);
    BetweenLines(a, s, i);
    BetweenLines(a, s, i + 1 + |text| + |eol|);
  }

  lemma WordEndAt(a: Alphabet, s: string, i: nat, w: string)
    requires At(s, i, w) && WordOk(a, w) && (i + |w| < |s| ==> !a.alphaNumeric(s[i + |w|]))
    ensures i < |s| && a.alphaNumeric(s[i]) && WordEnd(a, s, i + 1) == i + |w|
  {
    hide WordEnd;
    assert forall k :: i <= k < i + |w| ==> s[k] == w[k - i] && a.alphaNumeric(s[k]);
  }

  /** One item and the end of the line, or of the text. */
  lemma ItemTokens(a: Alphabet, s: string, t: Item, e: nat, eol: string)
    requires AlphabetOk(a) && Ends(s, e, eol)
    ensures e + |eol| <= |s|
    ensures var r := if e == |s| then Scan([t, Item(Eof, e, "")], None) else Scan([t], Some(e));
      Finish(a, s, r) == [t] + Tokens(a, s, e + |eol|)
  {
    EndsFacts(s, e, eol);
    EolIsSkipped(a, s, e, eol);
    hide EndsWell, Tokens, Ends, AlphabetOk;
    if e == |s| {
      EndTokens(a, s);
      assert [t, Item(Eof, e, "")] + [] == [t] + [Item(Eof, e, "")];
    }
  }

  lemma EndTokens(a: Alphabet, s: string)
    ensures Tokens(a, s, |s|) == [Item(Eof, |s|, "")]
  {
    assert [Item(Eof, |s|, "")] + [] == [Item(Eof, |s|, "")];
  }

  lemma ValueScanAt(s: string, start: nat, pos: nat, e: nat)
    requires start <= pos <= |s| && LineEnd(s, pos) == e && EndsWell(s, e)
    ensures var t := Item(Value, start, s[start..e]);
      ValueScan(s, start, pos) == if e == |s| then Scan([t, Item(Eof, e, "")], None) else Scan([t], Some(e))
  {
    hide LineEnd, EndsWell;
  }

  lemma NamesScanAt(s: string, i: nat, v: string)
    requires At(s, i, v) && LineEnd(s, i) == i + |v| && EndsWell(s, i + |v|) && !EndsInSpace(v)
    ensures var t, e := Item(HostValue, i, v), i + |v|;
      HostScan(s, i) == if e == |s| then Scan([t, Item(Eof, e, "")], None) else Scan([t], Some(e))
  {
    if v != "" {
      CharAt(s, i, v, |v| - 1);
    }
    HostScanAt(s, i, i + |v|);
    hide LineEnd, EndsWell, HostScan;
  }

  /** The value of a line is sent as one item. */
  lemma ValueTokens(a: Alphabet, s: string, start: nat, pos: nat, v: string, eol: string)
    requires start <= pos && pos + |v| + |eol| <= |s|
    requires AlphabetOk(a) && At(s, pos, v) && Unbroken(v) && Ends(s, pos + |v|, eol)
    ensures Finish(a, s, ValueScan(s, start, pos))
         == [Item(Value, start, s[start..pos + |v|])] + Tokens(a, s, pos + |v| + |eol|)
  {
    hide *;
    EndsFacts(s, pos + |v|, eol);
    LineEndAt(s, pos, v, eol);
    ValueScanAt(s, start, pos, pos + |v|);
    ItemTokens(a, s, Item(Value, start, s[start..pos + |v|]), pos + |v|, eol);
  }

  predicate EndsInSpace(v: string) {
    v != "" && v[|v| - 1] == ' '
  }

  /** So are the names, if they do not end in a space. */
  lemma NamesTokens(a: Alphabet, s: string, i: nat, v: string, eol: string)
    requires i + |v| + |eol| <= |s|
    requires AlphabetOk(a) && At(s, i, v) && Unbroken(v) && Ends(s, i + |v|, eol) && !EndsInSpace(v)
    ensures Finish(a, s, HostScan(s, i)) == [Item(HostValue, i, v)] + Tokens(a, s, i + |v| + |eol|)
  {
    hide *;
    EndsFacts(s, i + |v|, eol);
    LineEndAt(s, i, v, eol);
    NamesScanAt(s, i, v);
    ItemTokens(a, s, Item(HostValue, i, v), i + |v|, eol);
  }

  /** Where the parts of a line stand. */
  lemma LinePlaces(st: Style, v: string, s: string, i: nat)
    requires At(s, i, LineText(st, v))
    ensures var j := i + |st.indent|; var e := j + |st.word| + 1 + |v|;
      && At(s, i, st.indent) && At(s, j, st.word) && At(s, j + |st.word| + 1, v) && At(s, e, st.eol)
      && e + |st.eol| == i + |LineText(st, v)| <= |s| && j + |st.word| < |s| && s[j + |st.word|] == st.sep
  {
    var j := i + |st.indent|;
    AtConcat(s, i, st.indent, st.word + ([st.sep] + (v + st.eol)));
    AtConcat(s, j, st.word, [st.sep] + (v + st.eol));
    AtConcat(s, j + |st.word|, [st.sep], v + st.eol);
    AtConcat(s, j + |st.word| + 1, v, st.eol);
    CharAt(s, j + |st.word|, [st.sep], 0);
  }

  lemma FinishCons(a: Alphabet, s: string, t: Item, r: Scan)
    requires r.next.Some? ==> r.next.value <= |s|
    ensures Finish(a, s, Scan([t] + r.items, r.next)) == [t] + Finish(a, s, r)
  {
    hide Tokens;
  }

  /** What a word that is ended well starts. */
  function AfterWord(a: Alphabet, s: string, i: nat, j: nat, k: Kind): (r: Scan)
    requires i <= j < |s|
    ensures r.next.Some? ==> r.next.value <= |s|
  {
    if k == Host then HostScan(s, j + 1) else ValueScan(s, j + 1, j + 1)
  }

  lemma WordScanIs(a: Alphabet, s: string, i: nat, w: string, k: Option<Kind>)
    requires At(s, i, w) && WordOk(a, w) && KeywordOf(Lower(a, w)) == k
    requires i + |w| < |s| && (s[i + |w|] == ' ' || s[i + |w|] == '=') && !a.alphaNumeric(s[i + |w|])
    ensures i < |s| && a.alphaNumeric(s[i])
    ensures var j := i + |w|;
      WordScan(a, s, i)
      == match k
         case None => ValueScan(s, i, j)
         case Some(kind) =>
           Scan([Item(kind, i, w)] + AfterWord(a, s, i, j, kind).items, AfterWord(a, s, i, j, kind).next)
  {
    WordEndAt(a, s, i, w);
    AtIs(s, i, w);
    hide WordEnd, WordScan, ValueScan, HostScan, Lower, KeywordOf, At, WordOk;
    WordScanAt(a, s, i, i + |w|);
  }

  lemma TokensOfWord(a: Alphabet, s: string, i: nat)
    requires i < |s| && a.alphaNumeric(s[i])
    ensures Tokens(a, s, i) == Finish(a, s, WordScan(a, s, i))
  {
    hide WordScan, CommentScan, Tokens, Finish;
    BetweenLines(a, s, i);
  }

  /** A word and a separator: a keyword is sent by itself; any other word becomes part of the value. */
  lemma WordTokens(a: Alphabet, s: string, i: nat, w: string, k: Option<Kind>)
    requires At(s, i, w) && WordOk(a, w) && KeywordOf(Lower(a, w)) == k
    requires i + |w| < |s| && (s[i + |w|] == ' ' || s[i + |w|] == '=') && !a.alphaNumeric(s[i + |w|])
    ensures var j := i + |w|;
      Tokens(a, s, i)
      == if k.None? then Finish(a, s, ValueScan(s, i, j))
         else [Item(k.value, i, w)]
              + Finish(a, s, if k.value == Host then HostScan(s, j + 1) else ValueScan(s, j + 1, j + 1))
  {
    hide WordScan, ValueScan, HostScan, Lower, KeywordOf, At, WordOk, Tokens, Finish;
    WordScanIs(a, s, i, w, k);
    TokensOfWord(a, s, i);
    if k.Some? {
      FinishCons(a, s, Item(k.value, i, w), AfterWord(a, s, i, i + |w|, k.value));
    }
  }

  /** The line ends where its text does. */
  predicate Fits(st: Style, v: string, s: string, i: nat) {
    At(s, i, LineText(st, v)) && (st.eol == "" ==> i + |LineText(st, v)| == |s|)
  }

  lemma StyleFacts(a: Alphabet, st: Style, k: Option<Kind>, v: string, s: string, i: nat)
    requires AlphabetOk(a) && StyleOk(a, st, k) && Fits(st, v, s, i)
    ensures var j := i + |st.indent|; var e := j + |st.word| + 1 + |v|;
      && Tokens(a, s, i) == Tokens(a, s, j) && At(s, j, st.word) && WordOk(a, st.word)
      && KeywordOf(Lower(a, st.word)) == k
      && j + |st.word| < |s| && (s[j + |st.word|] == ' ' || s[j + |st.word|] == '=')
      && !a.alphaNumeric(s[j + |st.word|])
      && At(s, j + |st.word| + 1, v) && Ends(s, e, st.eol) && e + |st.eol| == i + |LineText(st, v)| <= |s|
  {
    hide LineText, Tokens, At, Blanks, WordOk, KeywordOf, Lower;
    LinePlaces(st, v, s, i);
    IndentIsSkipped(a, s, i, st.indent);
  }

  /** A line with a keyword gives the keyword and the value, and then what comes after it. */
  lemma KeywordTokens(a: Alphabet, st: Style, k: Kind, v: string, s: string, i: nat)
    requires AlphabetOk(a) && StyleOk(a, st, Some(k)) && k != Host && Unbroken(v) && Fits(st, v, s, i)
    ensures i + |LineText(st, v)| <= |s|
    ensures var j := i + |st.indent|;
      Tokens(a, s, i)
      == [Item(k, j, st.word), Item(Value, j + |st.word| + 1, v)] + Tokens(a, s, i + |LineText(st, v)|)
  {
    hide *;
    StyleFacts(a, st, Some(k), v, s, i);
    var j := i + |st.indent|;
    WordTokens(a, s, j, st.word, Some(k));
    ValueTokens(a, s, j + |st.word| + 1, j + |st.word| + 1, v, st.eol);
    AtIs(s, j + |st.word| + 1, v);
    assert [Item(k, j, st.word)] + [Item(Value, j + |st.word| + 1, v)]
        == [Item(k, j, st.word), Item(Value, j + |st.word| + 1, v)];
    Together([Item(k, j, st.word)], [Item(Value, j + |st.word| + 1, v)], Tokens(a, s, i + |LineText(st, v)|));
  }

  lemma AtIs(s: string, i: nat, t: string)
    requires At(s, i, t)
    ensures i + |t| <= |s| && s[i..i + |t|] == t
  {}

  lemma Together(t: seq<Item>, u: seq<Item>, rest: seq<Item>)
    ensures t + (u + rest) == (t + u) + rest
  {}

  /** A line with names gives them in one item. */
  lemma HostTokens(a: Alphabet, st: Style, v: string, s: string, i: nat)
    requires AlphabetOk(a) && StyleOk(a, st, Some(Host)) && Unbroken(v) && !EndsInSpace(v) && Fits(st, v, s, i)
    ensures i + |LineText(st, v)| <= |s|
    ensures var j := i + |st.indent|;
      Tokens(a, s, i)
      == [Item(Host, j, st.word), Item(HostValue, j + |st.word| + 1, v)] + Tokens(a, s, i + |LineText(st, v)|)
  {
    hide *;
    StyleFacts(a, st, Some(Host), v, s, i);
    var j := i + |st.indent|;
    WordTokens(a, s, j, st.word, Some(Host));
    NamesTokens(a, s, j + |st.word| + 1, v, st.eol);
    assert [Item(Host, j, st.word)] + [Item(HostValue, j + |st.word| + 1, v)]
        == [Item(Host, j, st.word), Item(HostValue, j + |st.word| + 1, v)];
    Together([Item(Host, j, st.word)], [Item(HostValue, j + |st.word| + 1, v)], Tokens(a, s, i + |LineText(st, v)|));
  }

  /** A line with any other word is a value by itself. */
  lemma UnknownTokens(a: Alphabet, st: Style, v: string, s: string, i: nat)
    requires AlphabetOk(a) && StyleOk(a, st, None) && Unbroken(v) && Fits(st, v, s, i)
    ensures i + |LineText(st, v)| <= |s|
    ensures var j := i + |st.indent|;
      Tokens(a, s, i)
      == [Item(Value, j, s[j..j + |st.word| + 1 + |v|])] + Tokens(a, s, i + |LineText(st, v)|)
  {
    hide *;
    StyleFacts(a, st, None, v, s, i);
    var j := i + |st.indent|;
    WordTokens(a, s, j, st.word, None);
    SeparatorJoins(s, j + |st.word|, v);
    ValueTokens(a, s, j, j + |st.word|, [s[j + |st.word|]] + v, st.eol);
  }

  lemma SeparatorJoins(s: string, j: nat, v: string)
    requires j < |s| && (s[j] == ' ' || s[j] == '=') && At(s, j + 1, v) && Unbroken(v)
    ensures At(s, j, [s[j]] + v) && Unbroken([s[j]] + v)
  {
    assert At(s, j, [s[j]]);
    AtConcat(s, j, [s[j]], v);
  }

  // ---------- Names ----------

  lemma {:induction false} SplitFirst(x: string, rest: string)
    requires ' ' !in x
    ensures Split(x + (" " + rest)) == [x] + Split(rest) && Split(x) == [x]
  {
    var v := x + (" " + rest);
    if x == "" {
      assert v[1..] == rest;
    } else {
      SplitFirst(x[1..], rest);
      assert v[1..] == x[1..] + (" " + rest);
      assert [x[0]] + x[1..] == x;
    }
  }

  lemma UnbrokenConcat(v: string, w: string)
    ensures Unbroken(v + w) <==> Unbroken(v) && Unbroken(w)
  {
    assert forall i :: 0 <= i < |w| ==> w[i] == (v + w)[|v| + i];
    assert forall i :: 0 <= i < |v| ==> v[i] == (v + w)[i];
  }

  lemma NamesRest(names: seq<string>)
    requires NamesOk(names) && |names| > 1
    ensures NamesOk(names[1..]) && NameOk(names[0]) && (|names| == 2 ==> Join(names[1..]) == names[1] != "")
  {
    assert names[0] in names && forall n <- names[1..] :: n in names;
  }

  lemma {:induction false} JoinUnbroken(names: seq<string>)
    requires NamesOk(names)
    ensures Unbroken(Join(names))
  {
    if |names| > 1 {
      assert Unbroken(" ");
      hide Unbroken;
      NamesRest(names);
      JoinUnbroken(names[1..]);
      UnbrokenConcat(names[0] + " ", Join(names[1..]));
      UnbrokenConcat(names[0], " ");
    } else {
      assert NameOk(names[0]);
    }
  }

  /** Names are never joined to a text that ends in a space. */
  lemma {:induction false} JoinEndsInName(names: seq<string>)
    requires NamesOk(names)
    ensures !EndsInSpace(Join(names))
    ensures |names| > 1 ==> Join(names) != ""
  {
    if |names| > 1 {
      NamesRest(names);
      JoinEndsInName(names[1..]);
    } else {
      assert NameOk(names[0]);
    }
  }

  predicate NoSpaces(names: seq<string>) {
    names != [] && forall n <- names :: ' ' !in n
  }

  lemma {:induction false} JoinBack(names: seq<string>)
    requires NoSpaces(names)
    ensures Split(Join(names)) == names
  {
    hide Split;
    if |names| > 1 {
      assert names[0] in names && forall n <- names[1..] :: n in names;
      JoinBack(names[1..]);
      SplitFirst(names[0], Join(names[1..]));
      assert names[0] + " " + Join(names[1..]) == names[0] + (" " + Join(names[1..]));
      assert names == [names[0]] + names[1..];
    } else {
      assert names[0] in names;
      SplitFirst(names[0], "");
    }
  }

  lemma NamesHaveNoSpaces(names: seq<string>)
    requires NamesOk(names)
    ensures NoSpaces(names)
  {}

  lemma {:induction false} SplitJoins(v: string)
    ensures NoSpaces(Split(v)) && Join(Split(v)) == v
  {
    if v != "" {
      var rest := Split(v[1..]);
      SplitJoins(v[1..]);
      assert v == [v[0]] + v[1..];
      if v[0] == ' ' {
        assert ([""] + rest)[1..] == rest;
        assert Join([""] + rest) == "" + " " + Join(rest);
      } else {
        var first := [v[0]] + rest[0];
        assert ([first] + rest[1..])[1..] == rest[1..];
        assert rest[0] in rest && forall n <- rest[1..] :: n in rest;
      }
    }
  }

  /** The names of a text are the pieces without spaces that it is joined from with one space between each two. */
  lemma SplitIff(v: string, names: seq<string>)
    ensures Split(v) == names <==> NoSpaces(names) && v == Join(names)
  {
    hide Split, Join, NoSpaces;
    SplitJoins(v);
    if NoSpaces(names) {
      JoinBack(names);
    }
  }

  // ---------- Parsing one line ----------

  lemma BodySnoc(body: seq<Entry>, e: Entry)
    ensures (body + [e])[..|body|] == body
  {}

  lemma FieldsSnoc(body: seq<Entry>, e: Entry, k: Kind)
    ensures LastOf(body + [e], k) == if e.Setting? && e.kind == k then Some(e.value) else LastOf(body, k)
  {
    BodySnoc(body, e);
  }

  lemma ForwardsSnoc(y: Syntax, body: seq<Entry>, e: Entry, k: Kind)
    ensures ForwardsOf(y, body + [e], k)
         == ForwardsOf(y, body, k)
            + if e.Setting? && e.kind == k && y.forward(e.value).Some? then [y.forward(e.value).value] else []
  {
    BodySnoc(body, e);
  }

  lemma DynamicsSnoc(y: Syntax, body: seq<Entry>, e: Entry)
    ensures DynamicsOf(y, body + [e])
         == DynamicsOf(y, body)
            + if e.Setting? && e.kind == Kind.DynamicForward && y.dynamic(e.value).Some? then [y.dynamic(e.value).value]
              else []
  {
    BodySnoc(body, e);
  }

  lemma HostSnoc(y: Syntax, names: seq<string>, body: seq<Entry>, e: Entry)
    ensures forall k :: LastOf(body + [e], k) == if e.Setting? && e.kind == k then Some(e.value) else LastOf(body, k)
    ensures !e.Setting? ==> HostOf(y, names, body + [e]) == HostOf(y, names, body)
  {
    forall k
      ensures LastOf(body + [e], k) == if e.Setting? && e.kind == k then Some(e.value) else LastOf(body, k)
    {
      FieldsSnoc(body, e, k);
    }
    if !e.Setting? {
      ForwardsSnoc(y, body, e, LocalForward);
      ForwardsSnoc(y, body, e, RemoteForward);
      DynamicsSnoc(y, body, e);
      hide LastOf, ForwardsOf, DynamicsOf;
    }
  }

  /** The parser's own step on a setting is one more line. */
  lemma SettingAssigns(y: Syntax, names: seq<string>, body: seq<Entry>, e: Entry, pos: nat, at: nat)
    requires e.Setting? && HasField(e.kind)
    ensures Assign(y, HostOf(y, names, body), e.kind, Item(Value, pos, e.value))
         == match Refusal(y, true, e, at)
            case Some(r) => Failed(r)
            case None => Set(HostOf(y, names, body + [e]))
  {
    HostSnoc(y, names, body, e);
    ForwardsSnoc(y, body, e, LocalForward);
    ForwardsSnoc(y, body, e, RemoteForward);
    DynamicsSnoc(y, body, e);
    hide LastOf, ForwardsOf, DynamicsOf, Atoi;
  }

  lemma PairMeaning(y: Syntax, ts: seq<Item>, t: Item, u: Item, rest: seq<Item>, done: seq<SshHost>, h: SshHost)
    requires ts == [t, u] + rest && HasField(t.kind)
    ensures Meaning(y, ts, done, Some(h))
         == match Assign(y, h, t.kind, u)
            case Failed(reason) => Err(reason)
            case Set(after) => Meaning(y, rest, done, Some(after))
  {
    hide Assign, Split;
    assert ts[2..] == rest;
  }

  lemma IncludeMeaning(y: Syntax, ts: seq<Item>, t: Item, u: Item, rest: seq<Item>, done: seq<SshHost>,
                       host: Option<SshHost>)
    requires ts == [t, u] + rest && t.kind == Include && u.kind == Value
    ensures Meaning(y, ts, done, host)
         == if host.Some? then Err(IncludeInHost)
            else match y.included(u.val)
                 case None => Err(BadInclude(u.val))
                 case Some(hosts) => Meaning(y, rest, done + hosts, None)
  {
    hide Assign, Split;
    assert ts[2..] == rest;
  }

  lemma NamesMeaning(y: Syntax, ts: seq<Item>, t: Item, u: Item, rest: seq<Item>, done: seq<SshHost>,
                     host: Option<SshHost>)
    requires ts == [t, u] + rest && t.kind == Host && u.kind == HostValue
    ensures Meaning(y, ts, done, host)
         == Meaning(y, rest, Flush(done, host), Some(NEW_HOST.(names := Split(u.val))))
  {
    hide Assign, Split;
    assert ts[1..][0] == u && ts[1..][1..] == rest;
  }

  lemma ValueMeaning(y: Syntax, t: Item, rest: seq<Item>, done: seq<SshHost>, host: Option<SshHost>)
    requires t.kind == Value
    ensures Meaning(y, [t] + rest, done, host)
         == if host.None? then Err(BeforeHost(t.pos)) else Meaning(y, rest, done, host)
  {
    hide Assign, Split;
    assert ([t] + rest)[1..] == rest;
  }

  lemma EarlyMeaning(y: Syntax, ts: seq<Item>, done: seq<SshHost>)
    requires ts != [] && ts[0].kind != Eof && ts[0].kind != Host && ts[0].kind != Include
    ensures Meaning(y, ts, done, None) == Err(BeforeHost(ts[0].pos))
  {}

  lemma EndMeaning(a: Alphabet, y: Syntax, s: string, done: seq<SshHost>, host: Option<SshHost>)
    ensures Meaning(y, Tokens(a, s, |s|), done, host) == Ok(Flush(done, host))
  {}

  /** The entry stands at i, with its line end, which may be missing at the end of the text. */
  predicate Stands(s: string, i: nat, e: Entry) {
    At(s, i, EntryText(e)) && (EolOf(e) == "" ==> i + |EntryText(e)| == |s|)
  }

  lemma StandsFits(s: string, i: nat, e: Entry)
    requires Stands(s, i, e)
    ensures i + |EntryText(e)| <= |s|
    ensures e.Setting? || e.Unknown? ==> Fits(e.style, e.value, s, i) && EntryText(e) == LineText(e.style, e.value)
    ensures e.Included? ==> Fits(e.style, e.path, s, i) && EntryText(e) == LineText(e.style, e.path)
  {
    hide LineText;
  }

  /** Blank lines and comments mean nothing. */
  lemma FillerIsSkipped(a: Alphabet, s: string, i: nat, e: Entry)
    requires AlphabetOk(a) && EntryOk(a, e) && Stands(s, i, e) && (e.Blank? || e.Note?)
    ensures i + |EntryText(e)| <= |s| && Tokens(a, s, i) == Tokens(a, s, i + |EntryText(e)|)
  {
    hide At, Tokens, Unbroken, Blanks;
    if e.Blank? {
      AtConcat(s, i, e.indent, e.eol);
      IndentIsSkipped(a, s, i, e.indent);
      EolIsSkipped(a, s, i + |e.indent|, e.eol);
    } else {
      AtConcat(s, i, e.indent, "#" + (e.text + e.eol));
      AtConcat(s, i + |e.indent|, "#", e.text + e.eol);
      AtConcat(s, i + |e.indent| + 1, e.text, e.eol);
      IndentIsSkipped(a, s, i, e.indent);
      NoteIsSkipped(a, s, i + |e.indent|, e.text, e.eol);
    }
  }

  lemma EntryFacts(a: Alphabet, e: Entry)
    requires EntryOk(a, e)
    ensures e.Setting? ==> StyleOk(a, e.style, Some(e.kind)) && HasField(e.kind) && Unbroken(e.value)
    ensures e.Setting? ==> e.kind != Eof && e.kind != Host && e.kind != Include
    ensures e.Unknown? ==> StyleOk(a, e.style, None) && Unbroken(e.value)
    ensures e.Included? ==> StyleOk(a, e.style, Some(Include)) && Unbroken(e.path)
  {
    hide StyleOk, Unbroken;
  }

  lemma SettingMeaning(a: Alphabet, y: Syntax, names: seq<string>, body: seq<Entry>, e: Entry, s: string, i: nat,
                       done: seq<SshHost>)
    requires AlphabetOk(a) && EntryOk(a, e) && Stands(s, i, e) && e.Setting?
    ensures i + |EntryText(e)| <= |s|
    ensures Meaning(y, Tokens(a, s, i), done, Some(HostOf(y, names, body)))
         == match Refusal(y, true, e, i)
            case Some(r) => Err(r)
            case None =>
              Meaning(y, Tokens(a, s, i + |EntryText(e)|), done, Some(HostOf(y, names, body + [e])))
    ensures Meaning(y, Tokens(a, s, i), done, None) == Err(BeforeHost(i + |e.style.indent|))
  {
    hide *;
    StandsFits(s, i, e);
    EntryFacts(a, e);
    var st := e.style;
    var j := i + |st.indent|;
    var t, u := Item(e.kind, j, st.word), Item(Value, j + |st.word| + 1, e.value);
    var ts, rest := Tokens(a, s, i), Tokens(a, s, i + |EntryText(e)|);
    KeywordTokens(a, st, e.kind, e.value, s, i);
    assert ts == [t, u] + rest && ts[0] == t;
    SettingAssigns(y, names, body, e, u.pos, i);
    PairMeaning(y, ts, t, u, rest, done, HostOf(y, names, body));
    EarlyMeaning(y, ts, done);
  }

  lemma UnknownMeaning(a: Alphabet, y: Syntax, e: Entry, s: string, i: nat, done: seq<SshHost>, host: Option<SshHost>)
    requires AlphabetOk(a) && EntryOk(a, e) && Stands(s, i, e) && e.Unknown?
    ensures i + |EntryText(e)| <= |s|
    ensures Meaning(y, Tokens(a, s, i), done, host)
         == if host.None? then Err(BeforeHost(i + |e.style.indent|))
            else Meaning(y, Tokens(a, s, i + |EntryText(e)|), done, host)
  {
    hide *;
    StandsFits(s, i, e);
    EntryFacts(a, e);
    UnknownTokens(a, e.style, e.value, s, i);
    var j := i + |e.style.indent|;
    var t := Item(Value, j, s[j..j + |e.style.word| + 1 + |e.value|]);
    ValueMeaning(y, t, Tokens(a, s, i + |EntryText(e)|), done, host);
  }

  lemma IncludedMeaning(a: Alphabet, y: Syntax, e: Entry, s: string, i: nat, done: seq<SshHost>, host: Option<SshHost>)
    requires AlphabetOk(a) && EntryOk(a, e) && Stands(s, i, e) && e.Included?
    ensures i + |EntryText(e)| <= |s|
    ensures Meaning(y, Tokens(a, s, i), done, host)
         == if host.Some? then Err(IncludeInHost)
            else match y.included(e.path)
                 case None => Err(BadInclude(e.path))
                 case Some(hosts) => Meaning(y, Tokens(a, s, i + |EntryText(e)|), done + hosts, None)
  {
    hide *;
    StandsFits(s, i, e);
    EntryFacts(a, e);
    var st := e.style;
    var j := i + |st.indent|;
    KeywordTokens(a, st, Include, e.path, s, i);
    IncludeMeaning(y, Tokens(a, s, i), Item(Include, j, st.word), Item(Value, j + |st.word| + 1, e.path),
                   Tokens(a, s, i + |EntryText(e)|), done, host);
  }

  /** A line inside a host is refused, or it adds to the host what HostOf says. */
  lemma BodyEntryMeaning(a: Alphabet, y: Syntax, names: seq<string>, body: seq<Entry>, e: Entry, s: string, i: nat,
                         done: seq<SshHost>)
    requires AlphabetOk(a) && EntryOk(a, e) && Stands(s, i, e)
    ensures i + |EntryText(e)| <= |s|
    ensures Meaning(y, Tokens(a, s, i), done, Some(HostOf(y, names, body)))
         == match Refusal(y, true, e, i)
            case Some(r) => Err(r)
            case None =>
              Meaning(y, Tokens(a, s, i + |EntryText(e)|), done, Some(HostOf(y, names, body + [e])))
  {
    hide AlphabetOk, EntryOk, Stands, Meaning, Tokens, HostOf, EntryText, Atoi;
    HostSnoc(y, names, body, e);
    match e
    case Setting(_, _, _) => SettingMeaning(a, y, names, body, e, s, i, done);
    case Unknown(_, _) => UnknownMeaning(a, y, e, s, i, done, Some(HostOf(y, names, body)));
    case Included(_, _) => IncludedMeaning(a, y, e, s, i, done, Some(HostOf(y, names, body)));
    case _ => FillerIsSkipped(a, s, i, e);
  }

  /** A line before the first host is refused, or it is an include, or it means nothing. */
  lemma EarlyEntryMeaning(a: Alphabet, y: Syntax, e: Entry, s: string, i: nat, done: seq<SshHost>)
    requires AlphabetOk(a) && EntryOk(a, e) && Stands(s, i, e)
    ensures i + |EntryText(e)| <= |s|
    ensures Meaning(y, Tokens(a, s, i), done, None)
         == match Refusal(y, false, e, i)
            case Some(r) => Err(r)
            case None =>
              Meaning(y, Tokens(a, s, i + |EntryText(e)|),
                      done + if e.Included? then y.included(e.path).value else [], None)
  {
    hide AlphabetOk, EntryOk, Stands, Meaning, Tokens, EntryText, Atoi;
    assert done + [] == done;
    match e
    case Setting(_, _, _) => SettingMeaning(a, y, [], [], e, s, i, done);
    case Unknown(_, _) => UnknownMeaning(a, y, e, s, i, done, None);
    case Included(_, _) => IncludedMeaning(a, y, e, s, i, done, None);
    case _ => FillerIsSkipped(a, s, i, e);
  }

  /** A line of names starts a new host, and finishes the one before. */
  lemma HostMeaning(a: Alphabet, y: Syntax, st: Style, names: seq<string>, s: string, i: nat, done: seq<SshHost>,
                    host: Option<SshHost>)
    requires AlphabetOk(a) && StyleOk(a, st, Some(Host)) && NamesOk(names) && Fits(st, Join(names), s, i)
    ensures i + |LineText(st, Join(names))| <= |s|
    ensures Meaning(y, Tokens(a, s, i), done, host)
         == Meaning(y, Tokens(a, s, i + |LineText(st, Join(names))|), Flush(done, host), Some(HostOf(y, names, [])))
  {
    hide *;
    var v, j := Join(names), i + |st.indent|;
    JoinUnbroken(names);
    JoinEndsInName(names);
    NamesHaveNoSpaces(names);
    JoinBack(names);
    HostTokens(a, st, v, s, i);
    NamesMeaning(y, Tokens(a, s, i), Item(Host, j, st.word), Item(HostValue, j + |st.word| + 1, v),
                 Tokens(a, s, i + |LineText(st, v)|), done, host);
    NewHost(y, names);
  }

  lemma NewHost(y: Syntax, names: seq<string>)
    ensures HostOf(y, names, []) == NEW_HOST.(names := names)
  {}

  // ---------- Parsing all lines ----------

  lemma BodyOkParts(a: Alphabet, body: seq<Entry>)
    requires BodyOk(a, body) && body != []
    ensures var before, e := body[..|body| - 1], body[|body| - 1];
      BodyOk(a, before) && EntryOk(a, e) && EolOf(e) != "" && body == before + [e]
  {
    hide EntryOk, EolOf;
    var before, e := body[..|body| - 1], body[|body| - 1];
    assert e in body && forall x <- before :: x in body;
  }

  lemma BodyTextLast(body: seq<Entry>)
    requires body != []
    ensures BodyText(body) == BodyText(body[..|body| - 1]) + EntryText(body[|body| - 1])
  {
    hide EntryText;
  }

  lemma BodyTextParts(body: seq<Entry>, s: string, i: nat)
    requires At(s, i, BodyText(body)) && body != []
    ensures var before, e := body[..|body| - 1], body[|body| - 1];
      && At(s, i, BodyText(before)) && At(s, i + |BodyText(before)|, EntryText(e))
      && |BodyText(body)| == |BodyText(before)| + |EntryText(e)|
  {
    hide *;
    BodyTextLast(body);
    AtConcat(s, i, BodyText(body[..|body| - 1]), EntryText(body[|body| - 1]));
  }

  lemma BodyParts(a: Alphabet, body: seq<Entry>, s: string, i: nat)
    requires BodyOk(a, body) && At(s, i, BodyText(body)) && body != []
    ensures var before, e := body[..|body| - 1], body[|body| - 1];
      && BodyOk(a, before) && At(s, i, BodyText(before)) && EntryOk(a, e) && Stands(s, i + |BodyText(before)|, e)
      && |BodyText(body)| == |BodyText(before)| + |EntryText(e)| && body == before + [e]
  {
    hide BodyOk, EntryOk, EolOf, EntryText, BodyText, At;
    BodyOkParts(a, body);
    BodyTextParts(body, s, i);
  }

  /** The lines of a host, in whatever order, come to what HostOf says of them, or the first bad one is refused. */
  lemma {:induction false} BodyMeaning(a: Alphabet, y: Syntax, names: seq<string>, body: seq<Entry>, s: string, i: nat,
                                       done: seq<SshHost>)
    requires AlphabetOk(a) && BodyOk(a, body) && At(s, i, BodyText(body)) && i + |BodyText(body)| <= |s|
    ensures Meaning(y, Tokens(a, s, i), done, Some(HostOf(y, names, [])))
         == match BodyRefusal(y, true, body, i)
            case Some(r) => Err(r)
            case None => Meaning(y, Tokens(a, s, i + |BodyText(body)|), done, Some(HostOf(y, names, body)))
    decreases |body|
  {
    hide AlphabetOk, BodyOk, EntryOk, Stands, At, Meaning, Tokens, HostOf, EntryText, Refusal;
    if body != [] {
      var before, e := body[..|body| - 1], body[|body| - 1];
      BodyParts(a, body, s, i);
      BodyMeaning(a, y, names, before, s, i, done);
      BodyEntryMeaning(a, y, names, before, e, s, i + |BodyText(before)|, done);
      InHostRefusal(y, e, i + |BodyText(before)|, i + |BodyText(before)|);
    }
  }

  /** Inside a host no refusal depends on where the line is. */
  lemma InHostRefusal(y: Syntax, e: Entry, pos: nat, at: nat)
    ensures Refusal(y, true, e, pos) == Refusal(y, true, e, at)
  {}

  lemma {:induction false} PreambleMeaning(a: Alphabet, y: Syntax, body: seq<Entry>, s: string, i: nat)
    requires AlphabetOk(a) && BodyOk(a, body) && At(s, i, BodyText(body)) && i + |BodyText(body)| <= |s|
    ensures Meaning(y, Tokens(a, s, i), [], None)
         == match BodyRefusal(y, false, body, i)
            case Some(r) => Err(r)
            case None => Meaning(y, Tokens(a, s, i + |BodyText(body)|), IncludedOf(y, body), None)
    decreases |body|
  {
    hide AlphabetOk, BodyOk, EntryOk, Stands, At, Meaning, Tokens, EntryText;
    if body != [] {
      var before, e := body[..|body| - 1], body[|body| - 1];
      BodyParts(a, body, s, i);
      PreambleMeaning(a, y, before, s, i);
      EarlyEntryMeaning(a, y, e, s, i + |BodyText(before)|, IncludedOf(y, before));
    }
  }

  /** The hosts that are done when the last of blocks is the current one. */
  function DoneOf(y: Syntax, blocks: seq<Block>): seq<SshHost> {
    if blocks == [] then [] else HostsOf(y, blocks[..|blocks| - 1])
  }

  function CurrentOf(y: Syntax, blocks: seq<Block>): Option<SshHost> {
    if blocks == [] then None
    else
      var b := blocks[|blocks| - 1];
      Some(HostOf(y, b.names, b.body))
  }

  lemma FlushedHosts(y: Syntax, done: seq<SshHost>, blocks: seq<Block>)
    ensures Flush(done + DoneOf(y, blocks), CurrentOf(y, blocks)) == done + HostsOf(y, blocks)
  {
    hide HostOf;
    if blocks != [] {
      var n := |blocks| - 1;
      assert HostsOf(y, blocks) == HostsOf(y, blocks[..n]) + [HostOf(y, blocks[n].names, blocks[n].body)];
    }
  }

  lemma BlocksOkParts(a: Alphabet, blocks: seq<Block>)
    requires BlocksOk(a, blocks) && blocks != []
    ensures BlocksOk(a, blocks[..|blocks| - 1])
    ensures var b := blocks[|blocks| - 1];
      StyleOk(a, b.style, Some(Host)) && NamesOk(b.names) && b.style.eol != "" && BodyOk(a, b.body)
  {
    var before, b := blocks[..|blocks| - 1], blocks[|blocks| - 1];
    hide StyleOk, NamesOk, BodyOk;
    assert b in blocks && forall x <- before :: x in blocks;
  }

  lemma BlocksTextLast(blocks: seq<Block>)
    requires blocks != []
    ensures var before, b := blocks[..|blocks| - 1], blocks[|blocks| - 1];
      && NamesText(b) == LineText(b.style, Join(b.names))
      && BlocksText(blocks) == BlocksText(before) + (LineText(b.style, Join(b.names)) + BodyText(b.body))
  {
    hide LineText, BodyText, Join;
  }

  lemma BlocksTextParts(blocks: seq<Block>, s: string, i: nat)
    requires At(s, i, BlocksText(blocks)) && blocks != []
    ensures var before, b := blocks[..|blocks| - 1], blocks[|blocks| - 1];
      var j := i + |BlocksText(before)|;
      && At(s, i, BlocksText(before)) && At(s, j, LineText(b.style, Join(b.names)))
      && At(s, j + |NamesText(b)|, BodyText(b.body))
      && |BlocksText(blocks)| == |BlocksText(before)| + |NamesText(b)| + |BodyText(b.body)|
  {
    var before, b := blocks[..|blocks| - 1], blocks[|blocks| - 1];
    BlocksTextLast(blocks);
    hide *;
    var names, lines := LineText(b.style, Join(b.names)), BodyText(b.body);
    AtConcat(s, i, BlocksText(before), names + lines);
    AtConcat(s, i + |BlocksText(before)|, names, lines);
  }

  lemma {:induction false} BlocksMeaning(a: Alphabet, y: Syntax, blocks: seq<Block>, s: string, i: nat,
                                         done: seq<SshHost>)
    requires AlphabetOk(a) && BlocksOk(a, blocks) && At(s, i, BlocksText(blocks)) && i + |BlocksText(blocks)| <= |s|
    ensures Meaning(y, Tokens(a, s, i), done, None)
         == match BlocksRefusal(y, blocks, i)
            case Some(r) => Err(r)
            case None =>
              Meaning(y, Tokens(a, s, i + |BlocksText(blocks)|), done + DoneOf(y, blocks), CurrentOf(y, blocks))
    decreases |blocks|
  {
    hide AlphabetOk, BlocksOk, StyleOk, NamesOk, BodyOk, At, Meaning, Tokens, HostOf, LineText, Join, BodyText;
    hide BodyRefusal, Flush;
    assert done + [] == done;
    if blocks != [] {
      var before, b := blocks[..|blocks| - 1], blocks[|blocks| - 1];
      var j := i + |BlocksText(before)|;
      BlocksOkParts(a, blocks);
      BlocksTextParts(blocks, s, i);
      BlocksMeaning(a, y, before, s, i, done);
      HostMeaning(a, y, b.style, b.names, s, j, done + DoneOf(y, before), CurrentOf(y, before));
      FlushedHosts(y, done, before);
      BodyMeaning(a, y, b.names, b.body, s, j + |NamesText(b)|, done + HostsOf(y, before));
    }
  }

  /** After the lines of d, whatever comes then: the parser has refused, or it has all hosts but the last, and the last
      as the current one. */
  lemma DocMeaning(a: Alphabet, y: Syntax, d: Doc, s: string)
    requires AlphabetOk(a) && DocOk(a, d) && At(s, 0, Text(d)) && |Text(d)| <= |s|
    ensures ParseText(a, y, s)
         == match DocRefusal(y, d)
            case Some(r) => Err(r)
            case None =>
              Meaning(y, Tokens(a, s, |Text(d)|), IncludedOf(y, d.preamble) + DoneOf(y, d.blocks),
                      CurrentOf(y, d.blocks))
  {
    hide AlphabetOk, BodyOk, BlocksOk, At, Meaning, Tokens, BodyText, BlocksText, BodyRefusal, BlocksRefusal,
      IncludedOf, DoneOf, CurrentOf;
    AtConcat(s, 0, BodyText(d.preamble), BlocksText(d.blocks));
    PreambleMeaning(a, y, d.preamble, s, 0);
    BlocksMeaning(a, y, d.blocks, s, |BodyText(d.preamble)|, IncludedOf(y, d.preamble));
  }

  /** Every text of such lines gives the hosts that the lines say, or is refused for the first line that is bad. */
  lemma DocParses(a: Alphabet, y: Syntax, d: Doc)
    requires AlphabetOk(a) && DocOk(a, d)
    ensures ParseText(a, y, Text(d))
         == match DocRefusal(y, d)
            case Some(r) => Err(r)
            case None => Ok(Hosts(y, d))
  {
    hide AlphabetOk, DocOk, Meaning, Tokens, ParseText, Text, DocRefusal, IncludedOf, DoneOf, CurrentOf;
    var s := Text(d);
    assert s[0..0 + |s|] == s;
    DocMeaning(a, y, d, s);
    EndMeaning(a, y, s, IncludedOf(y, d.preamble) + DoneOf(y, d.blocks), CurrentOf(y, d.blocks));
    FlushedHosts(y, IncludedOf(y, d.preamble), d.blocks);
  }
}
