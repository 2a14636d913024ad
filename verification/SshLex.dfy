/** The lexer of ssh configuration files: state functions that walk over the text and send items to the parser. */
module SshLex {
  import opened Wrappers

  datatype Kind =
    | Error | Eof | Value | Host | HostValue | HostName | User | Port | ProxyCommand | HostKeyAlgorithms
    | IdentityFile | LocalForward | RemoteForward | DynamicForward | Include

  datatype Item = Item(kind: Kind, pos: nat, val: string)

  /** What the language's library says of characters: letters and digits, and the lower case of each. */
  datatype Alphabet = Alphabet(alphaNumeric: char -> bool, toLower: char -> char)

  const EXPECTED := "expected \\n"
  const UNABLE := "unable to parse character: "
  const INVALID := "invalid pattern: "

  function Lower(a: Alphabet, word: string): string {
    seq(|word|, i requires 0 <= i < |word| => a.toLower(word[i]))
  }

  predicate IsKeyword(k: Kind) {
    k != Error && k != Eof && k != Value && k != HostValue
  }

  function KeywordOf(word: string): (k: Option<Kind>)
    ensures k.Some? ==> IsKeyword(k.value)
  {
    if word == "host" then Some(Host)
    else if word == "hostname" then Some(HostName)
    else if word == "user" then Some(User)
    else if word == "port" then Some(Port)
    else if word == "proxycommand" then Some(ProxyCommand)
    else if word == "hostkeyalgorithms" then Some(HostKeyAlgorithms)
    else if word == "identityfile" then Some(IdentityFile)
    else if word == "localforward" then Some(LocalForward)
    else if word == "remoteforward" then Some(RemoteForward)
    else if word == "dynamicforward" then Some(DynamicForward)
    else if word == "include" then Some(Include)
    else None
  }

  // ---------- What a text means to the lexer, a line at a time ----------

  predicate IsBreak(c: char) {
    c == '\r' || c == '\n'
  }

  /** The first line break from i on, or the end. */
  function LineEnd(s: string, i: nat): (e: nat)
    requires i <= |s|
    ensures i <= e <= |s| && (e < |s| ==> IsBreak(s[e]))
    ensures forall k :: i <= k < e ==> !IsBreak(s[k])
    decreases |s| - i
  {
    if i == |s| || IsBreak(s[i]) then i else LineEnd(s, i + 1)
  }

  /** The first character from i on that is neither letter nor digit, or the end. */
  function WordEnd(a: Alphabet, s: string, i: nat): (e: nat)
    requires i <= |s|
    ensures i <= e <= |s| && (e < |s| ==> !a.alphaNumeric(s[e]))
    ensures forall k :: i <= k < e ==> a.alphaNumeric(s[k])
    decreases |s| - i
  {
    if i == |s| || !a.alphaNumeric(s[i]) then i else WordEnd(a, s, i + 1)
  }

  /** A line may end with the text, with a line feed, or with a carriage return and a line feed. */
  predicate EndsWell(s: string, e: nat)
    requires e <= |s|
  {
    e == |s| || s[e] == '\n' || (s[e] == '\r' && e + 1 < |s| && s[e + 1] == '\n')
  }

  /** What is sent, and where the lexer goes on between lines, if it does. */
  datatype Scan = Scan(items: seq<Item>, next: Option<nat>)

  function ValueScan(s: string, start: nat, pos: nat): Scan
    requires start <= pos <= |s|
  {
    var e := LineEnd(s, pos);
    if !EndsWell(s, e) then Scan([Item(Error, start, EXPECTED)], None)
    else if e == |s| then Scan([Item(Value, start, s[start..e]), Item(Eof, e, "")], None)
    else Scan([Item(Value, start, s[start..e])], Some(e))
  }

  /** The names of a host; a space before the end of the line sends them as a value, and then no names. */
  function HostScan(s: string, start: nat): Scan
    requires start <= |s|
  {
    var e := LineEnd(s, start);
    var spaced := start < e && s[e - 1] == ' ';
    if !EndsWell(s, e) || (spaced && e < |s| && s[e] == '\r') then Scan([Item(Error, start, EXPECTED)], None)
    else
      var names := if spaced then [Item(Value, start, s[start..e]), Item(HostValue, e, "")]
                   else [Item(HostValue, start, s[start..e])];
      if e == |s| then Scan(names + [Item(Eof, e, "")], None) else Scan(names, Some(e))
  }

  function WordScan(a: Alphabet, s: string, i: nat): Scan
    requires i < |s|
  {
    var j := WordEnd(a, s, i + 1);
    if j < |s| && (s[j] == ' ' || s[j] == '=') then
      match KeywordOf(Lower(a, s[i..j]))
      case None => ValueScan(s, i, j)
      case Some(k) =>
        var rest := if k == Host then HostScan(s, j + 1) else ValueScan(s, j + 1, j + 1);
        Scan([Item(k, i, s[i..j])] + rest.items, rest.next)
    else Scan([Item(Error, i, INVALID + s[i..if j == |s| then j else j + 1])], None)
  }

  function CommentScan(s: string, i: nat): Scan
    requires i <= |s|
  {
    var e := LineEnd(s, i);
    if !EndsWell(s, e) then Scan([Item(Error, e + 1, EXPECTED)], None)
    else Scan([], Some(if e == |s| then e else if s[e] == '\n' then e + 1 else e + 2))
  }

  function EnvScan(a: Alphabet, s: string, i: nat): (r: Scan)
    requires i <= |s|
    ensures r.next.Some? ==> i < r.next.value <= |s|
  {
    if i == |s| then Scan([Item(Eof, i, "")], None)
    else if a.alphaNumeric(s[i]) then WordScan(a, s, i)
    else if s[i] == '#' then CommentScan(s, i + 1)
    else if s[i] == '\r' then
      if i + 1 < |s| && s[i + 1] == '\n' then Scan([], Some(i + 2)) else Scan([Item(Error, i + 1, EXPECTED)], None)
    else if s[i] == '\t' || s[i] == ' ' || s[i] == '\n' then Scan([], Some(i + 1))
    else Scan([Item(Error, i, UNABLE + [s[i]])], None)
  }

  /** Everything that is sent from position i, between lines, on. */
  function Tokens(a: Alphabet, s: string, i: nat): seq<Item>
    requires i <= |s|
    decreases |s| - i
  {
    var r := EnvScan(a, s, i);
    r.items + if r.next.Some? then Tokens(a, s, r.next.value) else []
  }

  function Finish(a: Alphabet, s: string, r: Scan): seq<Item>
    requires r.next.Some? ==> r.next.value <= |s|
  {
    r.items + if r.next.Some? then Tokens(a, s, r.next.value) else []
  }

  lemma FinishOn(a: Alphabet, s: string, before: seq<Item>, r: Scan, items: seq<Item>, p: Scan)
    requires before + r.items == items + p.items && r.next == p.next && (r.next.Some? ==> r.next.value <= |s|)
    ensures before + Finish(a, s, r) == items + Finish(a, s, p)
  {
    hide Tokens;
    var rest := if r.next.Some? then Tokens(a, s, r.next.value) else [];
    assert before + (r.items + rest) == (before + r.items) + rest;
    assert items + (p.items + rest) == (items + p.items) + rest;
  }

  lemma BetweenLines(a: Alphabet, s: string, i: nat)
    requires i <= |s|
    ensures Finish(a, s, Scan([], Some(i))) == Tokens(a, s, i) == Finish(a, s, EnvScan(a, s, i))
  {
    assert [] + Tokens(a, s, i) == Tokens(a, s, i);
  }

  /** The three ways in which a word can end. */
  lemma WordScanAt(a: Alphabet, s: string, i: nat, j: nat)
    requires i < |s| && WordEnd(a, s, i + 1) == j
    ensures j == |s| || (s[j] != ' ' && s[j] != '=') ==>
      WordScan(a, s, i) == Scan([Item(Error, i, INVALID + s[i..if j == |s| then j else j + 1])], None)
    ensures j < |s| && (s[j] == ' ' || s[j] == '=') ==>
      match KeywordOf(Lower(a, s[i..j]))
      case None => WordScan(a, s, i) == ValueScan(s, i, j)
      case Some(k) =>
        var rest := if k == Host then HostScan(s, j + 1) else ValueScan(s, j + 1, j + 1);
        WordScan(a, s, i) == Scan([Item(k, i, s[i..j])] + rest.items, rest.next)
  {
    hide KeywordOf, HostScan, ValueScan, Lower, WordEnd;
  }

  /** What the end of the line makes of the names. */
  lemma HostScanAt(s: string, start: nat, e: nat)
    requires start <= |s| && LineEnd(s, start) == e
    ensures s[e..e] == ""
    ensures var spaced := start < e && s[e - 1] == ' '; var blank := Item(Value, start, s[start..e]);
      && (!EndsWell(s, e) || (spaced && e < |s| && s[e] == '\r') ==>
            HostScan(s, start) == Scan([Item(Error, start, EXPECTED)], None))
      && (EndsWell(s, e) && !spaced ==>
            HostScan(s, start) == if e == |s| then Scan([Item(HostValue, start, s[start..e]), Item(Eof, e, "")], None)
                                  else Scan([Item(HostValue, start, s[start..e])], Some(e)))
      && (EndsWell(s, e) && spaced && (e == |s| || s[e] == '\n') ==>
            HostScan(s, start) == if e == |s| then Scan([blank] + [Item(HostValue, e, ""), Item(Eof, e, "")], None)
                                  else Scan([blank] + [Item(HostValue, e, "")], Some(e)))
  {
    hide LineEnd;
  }

  lemma Regroup(before: seq<Item>, t: Item, rest: seq<Item>)
    ensures before + ([t] + rest) == (before + [t]) + rest
  {}

  // ---------- The state machine ----------

  datatype State = Env | Comment | Variable | Names | Rest | Done

  function Rank(q: State): nat {
    match q
    case Variable => 3
    case Comment | Names | Rest => 2
    case Env => 1
    case Done => 0
  }

  class Lexer {
    const a: Alphabet
    const input: string
    var state: State
    var pos: nat
    var start: nat
    var width: nat
    var items: seq<Item> // what went through the channel

    constructor (a: Alphabet, input: string)
      ensures this.a == a && this.input == input
      ensures At() && state == Env && pos == 0 && items == []
    {
      this.a, this.input := a, input;
      state, pos, start, width, items := Env, 0, 0, 0, [];
    }

    /** Where a state function finds the lexer. */
    ghost predicate At()
      reads this
    {
      && start <= pos <= |input|
      && match state
         case Env => start == pos
         case Comment => true
         case Variable => pos == start + 1 && a.alphaNumeric(input[start])
         case Names => start == pos
         case Rest => true
         case Done => true
    }

    /** What the current state function and those it leads to send, until the lexer is between lines again. */
    ghost function Promise(): (r: Scan)
      requires At()
      reads this
      ensures r.next.Some? ==> r.next.value <= |input|
    {
      match state
      case Env => Scan([], Some(pos))
      case Comment => CommentScan(input, pos)
      case Variable => WordScan(a, input, start)
      case Names => HostScan(input, start)
      case Rest => ValueScan(input, start, pos)
      case Done => Scan([], None)
    }

    /** With what was sent before, scan r is partly sent and partly promised. */
    ghost predicate Keeps(before: seq<Item>, r: Scan)
      reads this
    {
      At() && before + r.items == items + Promise().items && r.next == Promise().next
    }

    /** Scan r was sent after before, and the lexer is between lines again or has stopped. */
    ghost predicate Sent(before: seq<Item>, r: Scan)
      reads this
    {
      && items == before + r.items && start <= pos <= |input|
      && if r.next.Some? then state == Env && start == pos == r.next.value else state == Done
    }

    lemma SentKeeps(before: seq<Item>, r: Scan)
      requires Sent(before, r)
      ensures Keeps(before, r)
    {
      assert items + [] == items;
    }

    /** The next character, if any. */
    method Next() returns (r: Option<char>)
      requires pos <= |input|
      modifies this`pos, this`width
      ensures pos == old(pos) + width <= |input|
      ensures if old(pos) < |input| then width == 1 && r == Some(input[old(pos)]) else width == 0 && r == None
    {
      if pos >= |input| {
        width := 0;
        return None;
      }
      r := Some(input[pos]);
      width := 1;
      pos := pos + width;
    }

    method Backup()
      requires width <= pos
      modifies this`pos
      ensures pos == old(pos) - width
    {
      pos := pos - width;
    }

    method Peek() returns (r: Option<char>)
      requires pos <= |input|
      modifies this`pos, this`width
      ensures pos == old(pos)
      ensures if pos < |input| then width == 1 && r == Some(input[pos]) else width == 0 && r == None
    {
      r := Next();
      Backup();
    }

    method Emit(kind: Kind)
      requires start <= pos <= |input|
      modifies this`items, this`start
      ensures items == old(items) + [Item(kind, old(start), input[old(start)..pos])] && start == pos
    {
      items := items + [Item(kind, start, input[start..pos])];
      start := pos;
    }

    method Ignore()
      modifies this`start
      ensures start == pos
    {
      start := pos;
    }

    method Fail(text: string)
      modifies this`items, this`state
      ensures items == old(items) + [Item(Error, start, text)] && state == Done
    {
      items := items + [Item(Error, start, text)];
      state := Done;
    }

    method LexEnv()
      requires At() && state == Env
      modifies this
      ensures Keeps(old(items), EnvScan(a, input, old(pos)))
      ensures pos > old(pos) || (state == Done && pos == old(pos))
    {
      var r := Next();
      if r.None? {
        Emit(Eof);
        state := Done;
        assert input[pos..pos] == "";
      } else if a.alphaNumeric(r.value) {
        state := Variable;
      } else if r.value == '#' {
        state := Comment;
      } else if r.value == '\r' {
        Ignore();
        var n := Next();
        if n != Some('\n') {
          Fail(EXPECTED);
        } else {
          Ignore();
        }
      } else if r.value == '\t' || r.value == ' ' || r.value == '\n' {
        Ignore();
      } else {
        Fail(UNABLE + [r.value]);
      }
    }

    method LexComment()
      requires At() && state == Comment
      modifies this
      ensures Sent(old(items), old(CommentScan(input, pos))) && pos >= old(pos)
      ensures state == Env || state == Done
    {
      hide LineEnd;
      ghost var e := LineEnd(input, pos);
      while true
        invariant start <= pos <= e
        invariant state == Comment && items == old(items) && pos >= old(pos)
        decreases e - pos
      {
        var r := Next();
        if r == Some('\r') {
          Ignore();
          var n := Next();
          if n != Some('\n') {
            Fail(EXPECTED);
          } else {
            Ignore();
            state := Env;
          }
          return;
        } else if r == Some('\n') || r == None {
          Ignore();
          state := Env;
          return;
        } else {
          Ignore();
        }
      }
    }

    method LexVariable()
      requires At() && state == Variable
      modifies this
      ensures Keeps(old(items), old(Promise())) && pos >= old(pos)
      ensures state == Names || state == Rest || state == Done
    {
      hide KeywordOf, HostScan, ValueScan, Lower, WordEnd, WordScan;
      ghost var j := WordEnd(a, input, pos);
      WordScanAt(a, input, start, j);
      while true
        invariant start == old(start) < pos <= j
        invariant state == Variable && items == old(items) && pos >= old(pos)
        decreases j - pos
      {
        var r := Next();
        if r.Some? && a.alphaNumeric(r.value) {
        } else if r == Some(' ') || r == Some('=') {
          Backup();
          EndVariable();
          ghost var k := KeywordOf(Lower(a, input[old(start)..j]));
          if k.Some? {
            Regroup(old(items), Item(k.value, old(start), input[old(start)..j]), Promise().items);
          }
          return;
        } else {
          Fail(INVALID + input[start..pos]);
          return;
        }
      }
    }

    /** The end of a word, before a space or an equals sign: what follows it is its value, or the names of a host; a
        word that is no keyword becomes part of the value. */
    method EndVariable()
      requires state == Variable && start <= pos < |input|
      modifies this
      ensures start <= pos <= |input| && pos >= old(pos)
      ensures match KeywordOf(Lower(a, input[old(start)..old(pos)]))
              case None => state == Rest && items == old(items) && start == old(start) && pos == old(pos)
              case Some(k) =>
                && items == old(items) + [Item(k, old(start), input[old(start)..old(pos)])]
                && start == pos == old(pos) + 1 && state == if k == Host then Names else Rest
    {
      hide KeywordOf, HostScan, ValueScan, Lower, WordEnd, WordScan;
      var kind := KeywordOf(Lower(a, input[start..pos]));
      state := Rest;
      if kind.Some? {
        Emit(kind.value);
        var _ := Next();
        Ignore();
        if kind.value == Host {
          state := Names;
        }
      }
    }

    /** The end of a value or of names, at the line break or the end of the text that was just read. */
    method EndLine(kind: Kind, r: Option<char>)
      requires start <= pos - width && pos <= |input|
      requires if pos - width < |input| then width == 1 && r == Some(input[pos - 1]) && IsBreak(r.value)
               else width == 0 && r == None
      modifies this
      ensures var e := old(pos - width); var t := Item(kind, old(start), input[old(start)..e]);
        if !EndsWell(input, e) then Sent(old(items), Scan([Item(Error, old(start), EXPECTED)], None))
        else if e == |input| then Sent(old(items), Scan([t, Item(Eof, e, "")], None))
        else Sent(old(items), Scan([t], Some(e)))
      ensures pos >= old(pos - width)
    {
      ghost var e := pos - width;
      assert input[e..e] == "";
      if r == Some('\r') {
        var p := Peek();
        if p != Some('\n') {
          Fail(EXPECTED);
          return;
        }
      }
      Backup();
      Emit(kind);
      state := Env;
      if r == None {
        var _ := Next();
        Emit(Eof);
        state := Done;
        assert items == old(items) + [Item(kind, old(start), input[old(start)..e]), Item(Eof, e, "")];
      }
    }

    method LexHostValue()
      requires At() && state == Names
      modifies this
      ensures Sent(old(items), old(HostScan(input, start))) && pos >= old(pos)
      ensures state == Env || state == Done
    {
      hide LineEnd, HostScan;
      ghost var e := LineEnd(input, pos);
      ghost var blank := false; // whether the names have been sent as a value
      HostScanAt(input, start, e);
      while true
        invariant old(start) <= pos <= e && state == Names && pos >= old(pos)
        invariant !blank ==> items == old(items) && start == old(start)
        invariant !blank ==> pos == start || pos < e || input[e - 1] != ' '
        invariant blank ==> old(start) < e && input[e - 1] == ' ' && (e == |input| || input[e] == '\n')
        invariant blank ==> start == pos == e && items == old(items) + [Item(Value, old(start), input[old(start)..e])]
        decreases e - pos
      {
        var r := Next();
        if r == Some(' ') {
          var p := Peek();
          if p == Some('\r') {
            var again := Peek();
            if again != Some('\n') {
              Fail(EXPECTED);
              return;
            }
          }
          if p == Some('\r') || p == Some('\n') || p == None {
            Emit(Value);
            blank := true;
          }
        } else if r == None || r == Some('\r') || r == Some('\n') {
          EndLine(HostValue, r);
          if blank {
            var names := Item(HostValue, e, "");
            Regroup(old(items), Item(Value, old(start), input[old(start)..e]),
                    if e == |input| then [names, Item(Eof, e, "")] else [names]);
          }
          return;
        }
      }
    }

    method LexValue()
      requires At() && state == Rest
      modifies this
      ensures Sent(old(items), old(ValueScan(input, start, pos))) && pos >= old(pos)
      ensures state == Env || state == Done
    {
      hide LineEnd, EndsWell;
      ghost var e := LineEnd(input, pos);
      while true
        invariant start == old(start) <= pos <= e
        invariant state == Rest && items == old(items) && pos >= old(pos)
        decreases e - pos
      {
        var r := Next();
        if r == None || r == Some('\r') || r == Some('\n') {
          EndLine(Value, r);
          return;
        }
      }
    }

    /** The state functions call each other until one stops, on every input. */
    method Run()
      requires At() && state == Env && pos == 0 && items == []
      modifies this
      ensures items == Tokens(a, input, 0)
    {
      hide EnvScan, WordScan, HostScan, ValueScan, CommentScan, Tokens;
      BetweenLines(a, input, 0);
      while state != Done
        invariant At() && items + Finish(a, input, Promise()) == Tokens(a, input, 0)
        decreases |input| - pos, Rank(state)
      {
        ghost var before, r := items, if state == Env then EnvScan(a, input, pos) else Promise();
        if state == Env {
          BetweenLines(a, input, pos);
        }
        match state {
          case Env => LexEnv();
          case Comment =>
            LexComment();
            SentKeeps(before, r);
          case Variable => LexVariable();
          case Names =>
            LexHostValue();
            SentKeeps(before, r);
          case Rest =>
            LexValue();
            SentKeeps(before, r);
        }
        FinishOn(a, input, before, r, items, Promise());
      }
    }
  }

  // ---------- The language of the token stream ----------

  /** Where a reader of the stream is: between lines, after a keyword, after Host, after a Host and a value, or after
      the last item. */
  datatype Place = Between | AfterKeyword | AfterHost | AfterBlank | Ended

  function Follow(q: Place, t: Item): Option<Place> {
    match q
    case Between =>
      (match t.kind
       case Error | Eof => Some(Ended)
       case Value => Some(Between)
       case HostValue => None
       case Host => Some(AfterHost)
       case _ => Some(AfterKeyword))
    case AfterKeyword =>
      if t.kind == Value then Some(Between) else if t.kind == Error && t.val == EXPECTED then Some(Ended) else None
    case AfterHost =>
      if t.kind == Value then Some(AfterBlank)
      else if t.kind == HostValue then Some(Between)
      else if t.kind == Error && t.val == EXPECTED then Some(Ended)
      else None
    case AfterBlank => if t.kind == HostValue then Some(Between) else None
    case Ended => None
  }

  /** Following a stream, from a place on, if the grammar allows it: (keyword Value | Value | Host Value? HostValue)*,
      then Eof, or cut short at any point by one Error. */
  function FollowAll(q: Place, ts: seq<Item>): Option<Place>
    decreases |ts|
  {
    if ts == [] then Some(q)
    else if Follow(q, ts[0]).Some? then FollowAll(Follow(q, ts[0]).value, ts[1..])
    else None
  }

  lemma {:induction false} FollowConcat(q: Place, ts: seq<Item>, us: seq<Item>)
    requires FollowAll(q, ts).Some?
    ensures FollowAll(q, ts + us) == FollowAll(FollowAll(q, ts).value, us)
    decreases |ts|
  {
    if ts == [] {
      assert ts + us == us;
    } else {
      FollowConcat(Follow(q, ts[0]).value, ts[1..], us);
      assert (ts + us)[1..] == ts[1..] + us;
    }
  }

  lemma FollowCons(q: Place, t: Item, ts: seq<Item>)
    ensures FollowAll(q, [t] + ts) == if Follow(q, t).Some? then FollowAll(Follow(q, t).value, ts) else None
    ensures FollowAll(q, [t]) == Follow(q, t)
  {
    assert ([t] + ts)[1..] == ts;
  }

  function Where(r: Scan): Place {
    if r.next.Some? then Between else Ended
  }

  lemma ValueFollows(q: Place, s: string, start: nat, pos: nat)
    requires start <= pos <= |s| && (q == Between || q == AfterKeyword)
    ensures var r := ValueScan(s, start, pos); FollowAll(q, r.items) == Some(Where(r))
  {
    hide LineEnd, EndsWell;
    var r := ValueScan(s, start, pos);
    assert r.items == [r.items[0]] + r.items[1..];
    FollowCons(q, r.items[0], r.items[1..]);
  }

  lemma HostFollows(s: string, start: nat)
    requires start <= |s|
    ensures var r := HostScan(s, start); FollowAll(AfterHost, r.items) == Some(Where(r))
  {
    hide LineEnd, EndsWell;
    var r := HostScan(s, start);
    assert r.items == [r.items[0]] + r.items[1..];
    FollowCons(AfterHost, r.items[0], r.items[1..]);
    if |r.items| > 1 {
      var ts := r.items[1..];
      assert ts == [ts[0]] + ts[1..];
      FollowCons(Follow(AfterHost, r.items[0]).value, ts[0], ts[1..]);
    }
  }

  lemma KeywordFollows(k: Kind, pos: nat, val: string, s: string, j: nat)
    requires IsKeyword(k) && j <= |s|
    ensures var rest := if k == Host then HostScan(s, j) else ValueScan(s, j, j);
      FollowAll(Between, [Item(k, pos, val)] + rest.items) == Some(Where(rest))
  {
    ValueFollows(AfterKeyword, s, j, j);
    HostFollows(s, j);
    hide ValueScan, HostScan, FollowAll;
    FollowCons(Between, Item(k, pos, val), if k == Host then HostScan(s, j).items else ValueScan(s, j, j).items);
  }

  lemma WordFollows(a: Alphabet, s: string, i: nat)
    requires i < |s|
    ensures var r := WordScan(a, s, i); FollowAll(Between, r.items) == Some(Where(r))
  {
    hide ValueScan, HostScan, FollowAll, Follow, KeywordOf, Lower, WordEnd;
    var r := WordScan(a, s, i);
    var j := WordEnd(a, s, i + 1);
    if j < |s| && (s[j] == ' ' || s[j] == '=') {
      match KeywordOf(Lower(a, s[i..j]))
      case None => ValueFollows(Between, s, i, j);
      case Some(k) => KeywordFollows(k, i, s[i..j], s, j + 1);
    } else {
      ErrorFollows(r.items[0]);
    }
  }

  lemma ErrorFollows(t: Item)
    requires t.kind == Error
    ensures FollowAll(Between, [t]) == Some(Ended)
  {
    FollowCons(Between, t, []);
  }

  /** A scan that goes on leaves the reader between lines; one that stops sent the last item. */
  lemma ScanFollows(a: Alphabet, s: string, i: nat)
    requires i <= |s|
    ensures var r := EnvScan(a, s, i); FollowAll(Between, r.items) == Some(Where(r))
  {
    var r := EnvScan(a, s, i);
    if i < |s| && a.alphaNumeric(s[i]) {
      WordFollows(a, s, i);
    } else if r.items != [] {
      FollowCons(Between, r.items[0], []);
    }
    hide LineEnd, WordScan;
  }

  /** On every input, the stream is a sentence of the grammar, with nothing after its end. */
  lemma {:induction false} TokensInGrammar(a: Alphabet, s: string, i: nat)
    requires i <= |s|
    ensures FollowAll(Between, Tokens(a, s, i)) == Some(Ended)
    decreases |s| - i
  {
    hide EnvScan, FollowAll;
    var r := EnvScan(a, s, i);
    ScanFollows(a, s, i);
    if r.next.Some? {
      TokensInGrammar(a, s, r.next.value);
      FollowConcat(Between, r.items, Tokens(a, s, r.next.value));
    } else {
      assert r.items + [] == r.items;
    }
  }

  // ---------- Where the items lie ----------

  function EndOf(t: Item): nat {
    t.pos + if t.kind == Error then 0 else |t.val|
  }

  /** Not before position from; and if it is no error, the text at its position. */
  predicate OneSliced(s: string, from: nat, t: Item) {
    from <= t.pos && EndOf(t) <= |s| && (t.kind != Error ==> s[t.pos..EndOf(t)] == t.val)
  }

  /** In order and without overlap. */
  predicate Sliced(s: string, from: nat, ts: seq<Item>)
    decreases |ts|
  {
    ts == [] || (OneSliced(s, from, ts[0]) && Sliced(s, EndOf(ts[0]), ts[1..]))
  }

  lemma {:induction false} SlicedConcat(s: string, from: nat, ts: seq<Item>, mid: nat, us: seq<Item>)
    requires Sliced(s, from, ts) && Sliced(s, mid, us)
    requires if ts == [] then from <= mid else EndOf(ts[|ts| - 1]) <= mid
    ensures Sliced(s, from, ts + us)
    decreases |ts|
  {
    if ts == [] {
      assert ts + us == us;
    } else {
      if |ts| > 1 {
        SlicedConcat(s, EndOf(ts[0]), ts[1..], mid, us);
      } else {
        assert ts[1..] + us == us;
      }
      assert (ts + us)[1..] == ts[1..] + us;
    }
  }

  /** What a scan sends lies in the text before the place where it goes on. */
  ghost predicate ScanSliced(s: string, from: nat, r: Scan) {
    && Sliced(s, from, r.items)
    && (r.next.Some? ==> if r.items == [] then from <= r.next.value else EndOf(r.items[|r.items| - 1]) <= r.next.value)
  }

  lemma SlicedCons(s: string, from: nat, t: Item, ts: seq<Item>)
    ensures Sliced(s, from, [t] + ts) == (OneSliced(s, from, t) && Sliced(s, EndOf(t), ts))
    ensures Sliced(s, from, [t]) == OneSliced(s, from, t)
  {
    assert ([t] + ts)[1..] == ts;
    assert [t] + ts == [t] || ts != [];
  }

  lemma ValueSliced(s: string, start: nat, pos: nat)
    requires start <= pos <= |s|
    ensures ScanSliced(s, start, ValueScan(s, start, pos)) && ValueScan(s, start, pos).items != []
  {
    hide LineEnd;
    var r := ValueScan(s, start, pos);
    SlicedCons(s, start, r.items[0], r.items[1..]);
    assert r.items == [r.items[0]] + r.items[1..];
    assert s[|s|..|s|] == "";
    SlicedCons(s, |s|, Item(Eof, |s|, ""), []);
  }

  lemma HostSliced(s: string, start: nat)
    requires start <= |s|
    ensures ScanSliced(s, start, HostScan(s, start)) && HostScan(s, start).items != []
  {
    var e := LineEnd(s, start);
    hide LineEnd, EndsWell;
    var r := HostScan(s, start);
    assert s[e..e] == "";
    var ts := r.items[1..];
    assert r.items == [r.items[0]] + ts;
    SlicedCons(s, start, r.items[0], ts);
    if |ts| > 0 {
      assert ts == [ts[0]] + ts[1..];
      SlicedCons(s, e, ts[0], ts[1..]);
      SlicedCons(s, e, Item(Eof, e, ""), []);
    }
  }

  lemma KeywordSliced(k: Kind, s: string, i: nat, j: nat)
    requires IsKeyword(k) && i <= j < |s|
    ensures var rest := if k == Host then HostScan(s, j + 1) else ValueScan(s, j + 1, j + 1);
      ScanSliced(s, i, Scan([Item(k, i, s[i..j])] + rest.items, rest.next))
  {
    hide HostScan, ValueScan, ScanSliced;
    HostSliced(s, j + 1);
    ValueSliced(s, j + 1, j + 1);
    SlicedAfter(s, i, Item(k, i, s[i..j]), j + 1,
                if k == Host then HostScan(s, j + 1) else ValueScan(s, j + 1, j + 1));
  }

  lemma SlicedAfter(s: string, i: nat, t: Item, mid: nat, rest: Scan)
    requires OneSliced(s, i, t) && EndOf(t) <= mid && ScanSliced(s, mid, rest) && rest.items != []
    ensures ScanSliced(s, i, Scan([t] + rest.items, rest.next))
  {
    SlicedCons(s, i, t, []);
    SlicedConcat(s, i, [t], mid, rest.items);
    hide Sliced;
  }

  lemma WordSliced(a: Alphabet, s: string, i: nat)
    requires i < |s|
    ensures ScanSliced(s, i, WordScan(a, s, i))
  {
    hide ValueScan, HostScan, KeywordOf, Lower, WordEnd, ScanSliced;
    var j := WordEnd(a, s, i + 1);
    if j < |s| && (s[j] == ' ' || s[j] == '=') {
      match KeywordOf(Lower(a, s[i..j]))
      case None => ValueSliced(s, i, j);
      case Some(k) => KeywordSliced(k, s, i, j);
    } else {
      OneIsSliced(s, i, WordScan(a, s, i));
    }
  }

  lemma OneIsSliced(s: string, from: nat, r: Scan)
    requires |r.items| == 1 && OneSliced(s, from, r.items[0]) && r.next == None
    ensures ScanSliced(s, from, r)
  {
    SlicedCons(s, from, r.items[0], []);
  }

  lemma EnvSliced(a: Alphabet, s: string, i: nat)
    requires i <= |s|
    ensures ScanSliced(s, i, EnvScan(a, s, i))
  {
    hide LineEnd, WordScan;
    if i < |s| && a.alphaNumeric(s[i]) {
      WordSliced(a, s, i);
    } else if EnvScan(a, s, i).items != [] {
      assert s[|s|..|s|] == "";
      OneIsSliced(s, i, EnvScan(a, s, i));
    }
  }

  /** Every item but an error is exactly a stretch of the text, and the stretches follow each other. */
  lemma {:induction false} TokensSliced(a: Alphabet, s: string, i: nat)
    requires i <= |s|
    ensures Sliced(s, i, Tokens(a, s, i))
    decreases |s| - i
  {
    hide EnvScan, Sliced;
    var r := EnvScan(a, s, i);
    EnvSliced(a, s, i);
    if r.next.Some? {
      TokensSliced(a, s, r.next.value);
      SlicedConcat(s, i, r.items, r.next.value, Tokens(a, s, r.next.value));
    } else {
      assert r.items + [] == r.items;
    }
  }
}
