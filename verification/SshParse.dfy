/** The parser of ssh configuration files, which receives the lexer's items. */
module SshParse {
  import opened Wrappers
  import opened SshLex

  datatype Forward = Forward(inHost: string, inPort: int, outHost: string, outPort: int)

  datatype DynamicForward = DynamicForward(host: string, port: int)

  datatype SshHost = SshHost(names: seq<string>, hostName: string, user: string, port: int, proxyCommand: string,
                             hostKeyAlgorithms: string, identityFile: string, localForwards: seq<Forward>,
                             remoteForwards: seq<Forward>, dynamicForwards: seq<DynamicForward>)

  const NEW_HOST := SshHost([], "", "", 22, "", "", "", [], [], [])

  /** What the regular expressions make of a value, and what including a path gives. */
  datatype Syntax = Syntax(forward: string -> Option<Forward>, dynamic: string -> Option<DynamicForward>,
                           included: string -> Option<seq<SshHost>>)

  datatype Reason =
    | BeforeHost(pos: nat) | IncludeInHost | BadItem(text: string) | BadPort(text: string) | BadForward(text: string)
    | BadInclude(path: string) | Lexical(text: string, pos: nat)
    | Starved // waiting for an item that is not coming

  datatype Outcome = Ok(hosts: seq<SshHost>) | Err(reason: Reason)

  datatype Assigned = Set(host: SshHost) | Failed(reason: Reason)

  // ---------- Values ----------

  /** The pieces between spaces: one more than there are spaces. */
  function Split(v: string): (r: seq<string>)
    ensures r != []
  {
    if v == "" then [""]
    else
      var rest := Split(v[1..]);
      if v[0] == ' ' then [""] + rest else [[v[0]] + rest[0]] + rest[1..]
  }

  function Join(names: seq<string>): string {
    if names == [] then "" else if |names| == 1 then names[0] else names[0] + " " + Join(names[1..])
  }

  predicate IsDigit(c: char) {
    '0' <= c <= '9'
  }

  predicate AllDigits(v: string) {
    forall i :: 0 <= i < |v| ==> IsDigit(v[i])
  }

  function Digits(v: string): (n: nat)
    requires AllDigits(v)
  {
    if v == "" then 0
    else
      assert IsDigit(v[|v| - 1]);
      Digits(v[..|v| - 1]) * 10 + (v[|v| - 1] - '0') as int
  }

  const MIN_INT := -0x8000_0000_0000_0000
  const MAX_INT := 0x7FFF_FFFF_FFFF_FFFF

  /** A decimal number with an optional sign, if it fits in 64 bits. */
  function Atoi(v: string): Option<int> {
    var sign := v != "" && (v[0] == '-' || v[0] == '+');
    var digits := if sign then v[1..] else v;
    if digits == "" || !AllDigits(digits) then None
    else
      var size: int := Digits(digits);
      var n := if sign && v[0] == '-' then -size else size;
      if MIN_INT <= n <= MAX_INT then Some(n) else None
  }

  // ---------- What a stream of items means ----------

  predicate HasField(k: Kind) {
    IsKeyword(k) && k != Host && k != Include
  }

  /** A keyword's value, put into its field. */
  function Assign(y: Syntax, h: SshHost, k: Kind, next: Item): Assigned
    requires HasField(k)
  {
    match k
    case LocalForward =>
      (match y.forward(next.val)
       case None => Failed(BadForward(next.val))
       case Some(f) => Set(h.(localForwards := h.localForwards + [f])))
    case RemoteForward =>
      (match y.forward(next.val)
       case None => Failed(BadForward(next.val))
       case Some(f) => Set(h.(remoteForwards := h.remoteForwards + [f])))
    case DynamicForward =>
      (match y.dynamic(next.val)
       case None => Failed(BadForward(next.val))
       case Some(f) => Set(h.(dynamicForwards := h.dynamicForwards + [f])))
    case _ =>
      if next.kind != Value then Failed(BadItem(next.val))
      else
        match k
        case HostName => Set(h.(hostName := next.val))
        case User => Set(h.(user := next.val))
        case Port =>
          (match Atoi(next.val)
           case None => Failed(BadPort(next.val))
           case Some(n) => Set(h.(port := n)))
        case ProxyCommand => Set(h.(proxyCommand := next.val))
        case HostKeyAlgorithms => Set(h.(hostKeyAlgorithms := next.val))
        case _ => Set(h.(identityFile := next.val))
  }

  function Flush(done: seq<SshHost>, host: Option<SshHost>): seq<SshHost> {
    if host.Some? then done + [host.value] else done
  }

  /** What is returned when the items of ts are still to come, with the hosts that are done and the current one. */
  function Meaning(y: Syntax, ts: seq<Item>, done: seq<SshHost>, host: Option<SshHost>): Outcome
    decreases |ts|
  {
    if ts == [] then Err(Starved)
    else
      var t := ts[0];
      if host.None? && t.kind != Eof && t.kind != Host && t.kind != Include then Err(BeforeHost(t.pos))
      else if host.Some? && t.kind == Include then Err(IncludeInHost)
      else
        match t.kind
        case Host => Meaning(y, ts[1..], Flush(done, host), Some(NEW_HOST))
        case HostValue => Meaning(y, ts[1..], done, Some(host.value.(names := Split(t.val))))
        case Value => Meaning(y, ts[1..], done, host)
        case Error => Err(Lexical(t.val, t.pos))
        case Eof => Ok(Flush(done, host))
        case Include =>
          if |ts| == 1 then Err(Starved)
          else if ts[1].kind != Value then Err(BadItem(ts[1].val))
          else
            (match y.included(ts[1].val)
             case None => Err(BadInclude(ts[1].val))
             case Some(hosts) => Meaning(y, ts[2..], done + hosts, host))
        case k =>
          if |ts| == 1 then Err(Starved)
          else
            match Assign(y, host.value, k, ts[1])
            case Failed(reason) => Err(reason)
            case Set(h) => Meaning(y, ts[2..], done, Some(h))
  }

  function ParseText(a: Alphabet, y: Syntax, s: string): Outcome {
    Meaning(y, Tokens(a, s, 0), [], None)
  }

  /** The loop of parse, over the items that come through the channel. */
  method Receive(y: Syntax, items: seq<Item>) returns (r: Outcome)
    ensures r == Meaning(y, items, [], None)
  {
    hide Assign, Split;
    var sshConfigs: seq<SshHost> := [];
    var sshHost: Option<SshHost> := None;
    var i := 0;
    while true
      invariant i <= |items| && Meaning(y, items, [], None) == Meaning(y, items[i..], sshConfigs, sshHost)
      decreases |items| - i
    {
      if i == |items| {
        return Err(Starved);
      }
      var token := items[i];
      i := i + 1;
      if sshHost.None? {
        if token.kind != Eof && token.kind != Host && token.kind != Include {
          return Err(BeforeHost(token.pos));
        }
      } else if token.kind == Include {
        return Err(IncludeInHost);
      }
      if token.kind == Host {
        if sshHost.Some? {
          sshConfigs := sshConfigs + [sshHost.value];
        }
        sshHost := Some(NEW_HOST);
      } else if token.kind == HostValue {
        sshHost := Some(sshHost.value.(names := Split(token.val)));
      } else if token.kind == Error {
        return Err(Lexical(token.val, token.pos));
      } else if token.kind == Eof {
        if sshHost.Some? {
          sshConfigs := sshConfigs + [sshHost.value];
        }
        return Ok(sshConfigs);
      } else if IsKeyword(token.kind) {
        if i == |items| {
          return Err(Starved);
        }
        var next := items[i];
        i := i + 1;
        if token.kind == Include {
          if next.kind != Value {
            return Err(BadItem(next.val));
          }
          var hosts := y.included(next.val);
          if hosts.None? {
            return Err(BadInclude(next.val));
          }
          sshConfigs := sshConfigs + hosts.value;
        } else {
          var outcome := Assign(y, sshHost.value, token.kind, next);
          if outcome.Failed? {
            return Err(outcome.reason);
          }
          sshHost := Some(outcome.host);
        }
      }
    }
  }

  /** Lexer and parser together. */
  method Parse(a: Alphabet, y: Syntax, input: string) returns (r: Outcome)
    ensures r == ParseText(a, y, input)
  {
    var lexer := new Lexer(a, input);
    lexer.Run();
    r := Receive(y, lexer.items);
  }

  // ---------- The parser never waits in vain ----------

  /** Both expressions ask for a decimal digit somewhere. */
  ghost predicate AsksForDigit(y: Syntax) {
    && (forall v :: y.forward(v).Some? ==> exists i :: 0 <= i < |v| && IsDigit(v[i]))
    && (forall v :: y.dynamic(v).Some? ==> exists i :: 0 <= i < |v| && IsDigit(v[i]))
  }

  /** Even where the parser does not look at the kind of the next item, a stream that has ended is not taken for a
      value: the text of that error is no forward. */
  lemma ErrorIsNoValue(y: Syntax, h: SshHost, k: Kind, t: Item)
    requires AsksForDigit(y) && HasField(k) && t.kind == Error && t.val == EXPECTED
    ensures Assign(y, h, k, t).Failed?
  {
    assert forall i :: 0 <= i < |EXPECTED| ==> !IsDigit(EXPECTED[i]);
  }

  /** Where the loop of parse is when it asks for its next item. */
  predicate AtLoop(q: Place, host: Option<SshHost>) {
    q == Between || ((q == AfterHost || q == AfterBlank) && host.Some?)
  }

  lemma SentenceStep(q: Place, ts: seq<Item>)
    requires FollowAll(q, ts) == Some(Ended) && q != Ended
    ensures ts != [] && Follow(q, ts[0]).Some?
    ensures Follow(q, ts[0]) == Some(Ended) ==> |ts| == 1
    ensures Follow(q, ts[0]) != Some(Ended) ==> FollowAll(Follow(q, ts[0]).value, ts[1..]) == Some(Ended)
  {}

  /** On a sentence of the grammar the parser never asks for an item past the last. */
  lemma {:induction false} NeverStarves(y: Syntax, q: Place, ts: seq<Item>, done: seq<SshHost>, host: Option<SshHost>)
    requires AsksForDigit(y) && FollowAll(q, ts) == Some(Ended) && AtLoop(q, host)
    ensures Meaning(y, ts, done, host) != Err(Starved)
    decreases |ts|
  {
    hide Assign, AsksForDigit, FollowAll, Split;
    SentenceStep(q, ts);
    var t, r := ts[0], Follow(q, ts[0]).value;
    if r == AfterKeyword {
      SentenceStep(r, ts[1..]);
      assert ts[1..][0] == ts[1] && ts[1..][1..] == ts[2..];
      if t.kind == Include {
        if y.included(ts[1].val).Some? && ts[1].kind == Value {
          NeverStarves(y, Between, ts[2..], done + y.included(ts[1].val).value, host);
        }
      } else if host.Some? {
        if ts[1].kind == Error {
          ErrorIsNoValue(y, host.value, t.kind, ts[1]);
        }
        AssignNeverStarves(y, host.value, t.kind, ts[1]);
        match Assign(y, host.value, t.kind, ts[1]) {
          case Set(h) => NeverStarves(y, Between, ts[2..], done, Some(h));
          case Failed(_) =>
        }
      }
    } else if r != Ended {
      if t.kind == Host {
        NeverStarves(y, r, ts[1..], Flush(done, host), Some(NEW_HOST));
      } else if host.Some? {
        NeverStarves(y, r, ts[1..], done,
                     if t.kind == HostValue then Some(host.value.(names := Split(t.val))) else host);
      }
    }
  }

  lemma AssignNeverStarves(y: Syntax, h: SshHost, k: Kind, t: Item)
    requires HasField(k)
    ensures Assign(y, h, k, t).Failed? ==> Assign(y, h, k, t).reason != Starved
  {}

  /** On every text, the lexer sends all that the parser asks for. */
  lemma ParseNeverStarves(a: Alphabet, y: Syntax, s: string)
    requires AsksForDigit(y)
    ensures ParseText(a, y, s) != Err(Starved)
  {
    TokensInGrammar(a, s, 0);
    NeverStarves(y, Between, Tokens(a, s, 0), [], None);
  }
}
