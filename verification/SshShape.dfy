/** What comes out of the parser, whatever the text. */
module SshShape {
  import opened Wrappers
  import opened SshLex
  import opened SshParse
  import opened SshDoc

  predicate FieldsOk(h: SshHost) {
    && Unbroken(h.hostName) && Unbroken(h.user) && Unbroken(h.proxyCommand) && Unbroken(h.hostKeyAlgorithms)
    && Unbroken(h.identityFile)
    && MIN_INT <= h.port <= MAX_INT
  }

  predicate Shaped(h: SshHost) {
    NamesOk(h.names) && FieldsOk(h)
  }

  /** Every forward was read from some value. */
  ghost predicate FromSyntax(y: Syntax, h: SshHost) {
    && (forall f <- h.localForwards :: exists v :: y.forward(v) == Some(f))
    && (forall f <- h.remoteForwards :: exists v :: y.forward(v) == Some(f))
    && (forall f <- h.dynamicForwards :: exists v :: y.dynamic(v) == Some(f))
  }

  ghost predicate Parsed(y: Syntax, h: SshHost) {
    Shaped(h) && FromSyntax(y, h)
  }

  /** What comes out of Split, for a text that does not end in a space, is a list of names. */
  lemma {:induction false} SplitShapes(v: string)
    requires Unbroken(v) && (v != "" ==> v[|v| - 1] != ' ')
    ensures NamesOk(Split(v)) && (v != "" ==> Split(v)[|Split(v)| - 1] != "")
  {
    if v != "" {
      SplitShapes(v[1..]);
      var rest := Split(v[1..]);
      assert NameOk(rest[0]) && NameOk("");
      forall n <- Split(v)
        ensures NameOk(n)
      {
        assert n == "" || n == [v[0]] + rest[0] || n in rest;
      }
    }
  }

  predicate Clean(t: Item) {
    && (t.kind == Value || t.kind == HostValue ==> Unbroken(t.val))
    && (t.kind == HostValue ==> !EndsInSpace(t.val))
  }

  predicate AllClean(ts: seq<Item>) {
    forall t <- ts :: Clean(t)
  }

  lemma AllCleanConcat(ts: seq<Item>, us: seq<Item>)
    requires AllClean(ts) && AllClean(us)
    ensures AllClean(ts + us)
  {
    hide Clean;
  }

  lemma ValueClean(s: string, start: nat, pos: nat)
    requires start <= pos <= |s| && forall i :: start <= i < pos ==> !IsBreak(s[i])
    ensures AllClean(ValueScan(s, start, pos).items)
  {
    hide LineEnd, IsBreak;
  }

  lemma HostClean(s: string, start: nat)
    requires start <= |s|
    ensures AllClean(HostScan(s, start).items)
  {
    hide LineEnd, IsBreak;
  }

  lemma KeywordClean(k: Kind, pos: nat, val: string, s: string, j: nat)
    requires IsKeyword(k) && j <= |s|
    ensures AllClean([Item(k, pos, val)] + (if k == Host then HostScan(s, j) else ValueScan(s, j, j)).items)
  {
    HostClean(s, j);
    ValueClean(s, j, j);
    hide HostScan, ValueScan;
    AllCleanConcat([Item(k, pos, val)], (if k == Host then HostScan(s, j) else ValueScan(s, j, j)).items);
  }

  lemma WordClean(a: Alphabet, s: string, i: nat)
    requires AlphabetOk(a) && i < |s| && a.alphaNumeric(s[i])
    ensures AllClean(WordScan(a, s, i).items)
  {
    hide WordEnd, ValueScan, HostScan, KeywordOf, Lower, AllClean;
    var j := WordEnd(a, s, i + 1);
    if j < |s| && (s[j] == ' ' || s[j] == '=') {
      match KeywordOf(Lower(a, s[i..j]))
      case None => ValueClean(s, i, j);
      case Some(k) => KeywordClean(k, i, s[i..j], s, j + 1);
    } else {
      ErrorClean(WordScan(a, s, i).items);
    }
  }

  lemma ErrorClean(ts: seq<Item>)
    requires |ts| == 1 && (ts[0].kind == Error || ts[0].kind == Eof)
    ensures AllClean(ts)
  {}

  lemma {:induction false} TokensClean(a: Alphabet, s: string, i: nat)
    requires AlphabetOk(a) && i <= |s|
    ensures AllClean(Tokens(a, s, i))
    decreases |s| - i
  {
    var r := EnvScan(a, s, i);
    assert AllClean(r.items) by {
      hide WordScan, LineEnd, AllClean;
      if i < |s| && a.alphaNumeric(s[i]) {
        WordClean(a, s, i);
      } else if r.items != [] {
        ErrorClean(r.items);
      } else {
        NothingClean();
      }
    }
    hide EnvScan, AllClean;
    if r.next.Some? {
      TokensClean(a, s, r.next.value);
      AllCleanConcat(r.items, Tokens(a, s, r.next.value));
    } else {
      assert r.items + [] == r.items;
    }
  }

  lemma NothingClean()
    ensures AllClean([])
  {}

  /** The fields are as they should be, whatever the names. */
  ghost predicate FieldsRead(y: Syntax, h: SshHost) {
    FieldsOk(h) && FromSyntax(y, h)
  }

  lemma AssignShapes(y: Syntax, h: SshHost, k: Kind, t: Item)
    requires FieldsRead(y, h) && HasField(k) && Clean(t) && Assign(y, h, k, t).Set?
    ensures var r := Assign(y, h, k, t).host; FieldsRead(y, r) && r.names == h.names
  {
    hide Unbroken, EndsInSpace;
    assert forall v {:trigger Atoi(v)} :: Atoi(v).Some? ==> MIN_INT <= Atoi(v).value <= MAX_INT;
    hide Atoi;
  }

  /** What including a file gives was itself parsed. */
  ghost predicate IncludesShaped(y: Syntax) {
    forall v :: y.included(v).Some? ==> AllParsed(y, y.included(v).value)
  }

  ghost predicate AllParsed(y: Syntax, hosts: seq<SshHost>) {
    forall h <- hosts :: Parsed(y, h)
  }

  /** The current host is complete, but for the names just after its keyword. */
  ghost predicate HostSoFar(y: Syntax, q: Place, host: Option<SshHost>) {
    host.Some? ==> FieldsRead(y, host.value) && (q == Between ==> NamesOk(host.value.names))
  }

  lemma FlushShaped(y: Syntax, done: seq<SshHost>, host: Option<SshHost>)
    requires AllParsed(y, done) && HostSoFar(y, Between, host)
    ensures AllParsed(y, Flush(done, host))
  {
    hide NamesOk, FieldsOk, FromSyntax;
  }

  lemma NewHostShapes(y: Syntax, t: Item, h: SshHost)
    requires Clean(t) && t.kind == HostValue && FieldsRead(y, h)
    ensures NamesOk(Split(t.val)) && FieldsRead(y, h.(names := Split(t.val)))
  {
    SplitShapes(t.val);
  }

  lemma NewHostFields(y: Syntax)
    ensures FieldsRead(y, NEW_HOST)
  {}

  lemma {:induction false} MeaningShaped(y: Syntax, q: Place, ts: seq<Item>, done: seq<SshHost>, host: Option<SshHost>)
    requires IncludesShaped(y) && FollowAll(q, ts) == Some(Ended) && AtLoop(q, host) && AllClean(ts)
    requires AllParsed(y, done) && HostSoFar(y, q, host)
    ensures var r := Meaning(y, ts, done, host); r.Ok? ==> AllParsed(y, r.hosts)
    decreases |ts|
  {
    hide Assign, FollowAll, Split, AllParsed, FieldsRead, NamesOk, Clean, Flush, IncludesShaped, EndsInSpace, Unbroken;
    SentenceStep(q, ts);
    var t, r := ts[0], Follow(q, ts[0]).value;
    assert Clean(t);
    if r == AfterKeyword {
      SentenceStep(r, ts[1..]);
      assert ts[1..][0] == ts[1] && ts[1..][1..] == ts[2..];
      if t.kind == Include && ts[1].kind == Value && y.included(ts[1].val).Some? {
        IncludedShaped(y, done, ts[1].val);
        MeaningShaped(y, Between, ts[2..], done + y.included(ts[1].val).value, host);
      } else if t.kind != Include && host.Some? && Assign(y, host.value, t.kind, ts[1]).Set? && ts[1].kind == Value {
        AssignShapes(y, host.value, t.kind, ts[1]);
        MeaningShaped(y, Between, ts[2..], done, Some(Assign(y, host.value, t.kind, ts[1]).host));
      }
    } else if q == Between && t.kind == Eof {
      FlushShaped(y, done, host);
    } else if t.kind == Host {
      FlushShaped(y, done, host);
      assert FieldsRead(y, NEW_HOST) by { NewHostFields(y); }
      MeaningShaped(y, r, ts[1..], Flush(done, host), Some(NEW_HOST));
    } else if t.kind == HostValue {
      NewHostShapes(y, t, host.value);
      MeaningShaped(y, r, ts[1..], done, Some(host.value.(names := Split(t.val))));
    } else if t.kind == Value && host.Some? {
      MeaningShaped(y, r, ts[1..], done, host);
    }
  }

  lemma IncludedShaped(y: Syntax, done: seq<SshHost>, v: string)
    requires IncludesShaped(y) && AllParsed(y, done) && y.included(v).Some?
    ensures AllParsed(y, done + y.included(v).value)
  {
    hide Parsed;
  }

  /** On every text, the hosts that are returned have names without blanks or line breaks, values without line breaks,
      a port of 64 bits, and only forwards that some value is read as. */
  lemma ParsedIsShaped(a: Alphabet, y: Syntax, s: string)
    requires AlphabetOk(a) && IncludesShaped(y)
    ensures var r := ParseText(a, y, s); r.Ok? ==> AllParsed(y, r.hosts)
  {
    TokensInGrammar(a, s, 0) by { hide *; }
    TokensClean(a, s, 0) by { hide *; }
    hide Tokens, Meaning, AllClean, AlphabetOk, IncludesShaped, FollowAll;
    MeaningShaped(y, Between, Tokens(a, s, 0), [], None);
  }
}
