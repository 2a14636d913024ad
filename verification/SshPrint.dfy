/** A printer of ssh configurations; lexer and parser undo it on exactly the hosts that they can produce. */
module SshPrint {
  import opened Wrappers
  import opened SshLex
  import opened SshParse
  import opened SshDoc
  import opened SshShape

  // ---------- Keywords ----------

  function Plain(k: Kind): string {
    match k
    case Host => "host"
    case HostName => "hostname"
    case User => "user"
    case Port => "port"
    case ProxyCommand => "proxycommand"
    case HostKeyAlgorithms => "hostkeyalgorithms"
    case IdentityFile => "identityfile"
    case LocalForward => "localforward"
    case RemoteForward => "remoteforward"
    case DynamicForward => "dynamicforward"
    case Include => "include"
    case _ => ""
  }

  /** Whether a word spells k, in any mixture of cases. */
  predicate Spells(a: Alphabet, w: string, k: Kind) {
    |w| == |Plain(k)| && forall i :: 0 <= i < |w| ==> a.toLower(w[i]) == Plain(k)[i]
  }

  lemma KeywordIff(w: string, k: Kind)
    ensures KeywordOf(w) == Some(k) <==> IsKeyword(k) && w == Plain(k)
  {
    if IsKeyword(k) && w == Plain(k) {
      PlainIsKeyword(k);
    }
  }

  lemma PlainIsKeyword(k: Kind)
    requires IsKeyword(k)
    ensures KeywordOf(Plain(k)) == Some(k)
  {
    var w := Plain(k);
    assert k == HostName ==> |w| == 8 && |"host"| == 4;
  }

  /** The words of each keyword are those that spell it. */
  lemma SpellingIff(a: Alphabet, w: string, k: Kind)
    ensures KeywordOf(Lower(a, w)) == Some(k) <==> IsKeyword(k) && Spells(a, w, k)
  {
    KeywordIff(Lower(a, w), k);
    hide KeywordOf, Plain;
    assert Lower(a, w) == Plain(k) <==> Spells(a, w, k) by {
      if Lower(a, w) == Plain(k) {
        assert forall i :: 0 <= i < |w| ==> a.toLower(w[i]) == Lower(a, w)[i];
      }
    }
  }

  // ---------- The printer ----------

  /** How the lines of each kind are laid out, and how forwards are written. */
  datatype Printer = Printer(style: Kind -> Style, forward: Forward -> string, dynamic: DynamicForward -> string)

  predicate Printed(k: Kind) {
    IsKeyword(k) && k != Include
  }

  /** Any layout that the lexer knows, and forwards on one line. */
  ghost predicate PrinterOk(a: Alphabet, p: Printer) {
    && (forall k :: Printed(k) ==> StyleOk(a, p.style(k), Some(k)) && p.style(k).eol != "")
    && (forall f :: Unbroken(p.forward(f))) && (forall f :: Unbroken(p.dynamic(f)))
  }

  /** Lower case, unindented, with one space. */
  function PlainStyle(eol: string): Kind -> Style {
    (k: Kind) => Style("", Plain(k), ' ', eol)
  }

  lemma PlainWord(a: Alphabet, k: Kind)
    requires Printed(k)
    requires forall c :: 'a' <= c <= 'z' ==> a.alphaNumeric(c) && a.toLower(c) == c
    ensures WordOk(a, Plain(k)) && KeywordOf(Lower(a, Plain(k))) == Some(k)
  {
    hide KeywordOf, Lower, Plain;
    SpellingIff(a, Plain(k), k);
    PlainLetters(k);
  }

  lemma PlainLetters(k: Kind)
    requires IsKeyword(k)
    ensures Plain(k) != "" && forall i :: 0 <= i < |Plain(k)| ==> 'a' <= Plain(k)[i] <= 'z'
  {}

  /** The plain layout will do, in any alphabet with the lower-case letters. */
  lemma PlainPrinter(a: Alphabet, eol: string, forward: Forward -> string, dynamic: DynamicForward -> string)
    requires EolOk(eol) && forall c :: 'a' <= c <= 'z' ==> a.alphaNumeric(c) && a.toLower(c) == c
    requires (forall f :: Unbroken(forward(f))) && (forall f :: Unbroken(dynamic(f)))
    ensures PrinterOk(a, Printer(PlainStyle(eol), forward, dynamic))
  {
    hide Plain, KeywordOf, Lower, WordOk, Unbroken;
    forall k | Printed(k)
      ensures StyleOk(a, PlainStyle(eol)(k), Some(k))
    {
      PlainWord(a, k);
    }
  }

  function DecimalNat(n: nat): string {
    (if n < 10 then "" else DecimalNat(n / 10)) + [(n % 10 + '0' as int) as char]
  }

  function Decimal(n: int): string {
    if n < 0 then "-" + DecimalNat(-n) else DecimalNat(n)
  }

  function Line(p: Printer, k: Kind, v: string): Entry {
    Setting(p.style(k), k, v)
  }

  function Fields(p: Printer, h: SshHost): seq<Entry> {
    [Line(p, HostName, h.hostName), Line(p, User, h.user), Line(p, Port, Decimal(h.port)),
     Line(p, ProxyCommand, h.proxyCommand), Line(p, HostKeyAlgorithms, h.hostKeyAlgorithms),
     Line(p, IdentityFile, h.identityFile)]
  }

  function ForwardLines(p: Printer, k: Kind, fs: seq<Forward>): (r: seq<Entry>)
    ensures |r| == |fs|
  {
    seq(|fs|, i requires 0 <= i < |fs| => Line(p, k, p.forward(fs[i])))
  }

  function DynamicLines(p: Printer, fs: seq<DynamicForward>): (r: seq<Entry>)
    ensures |r| == |fs|
  {
    seq(|fs|, i requires 0 <= i < |fs| => Line(p, Kind.DynamicForward, p.dynamic(fs[i])))
  }

  function HostLines(p: Printer, h: SshHost): seq<Entry> {
    Fields(p, h) + (ForwardLines(p, LocalForward, h.localForwards)
    + (ForwardLines(p, RemoteForward, h.remoteForwards) + DynamicLines(p, h.dynamicForwards)))
  }

  function Blocks(p: Printer, hosts: seq<SshHost>): (r: seq<Block>)
    ensures |r| == |hosts|
  {
    seq(|hosts|, i requires 0 <= i < |hosts| => Block(p.style(Host), hosts[i].names, HostLines(p, hosts[i])))
  }

  function Print(p: Printer, hosts: seq<SshHost>): string {
    Text(Doc([], Blocks(p, hosts)))
  }

  // ---------- Which hosts come back ----------

  /** What is written for a forward is read as that forward. */
  predicate ForwardsBack(y: Syntax, p: Printer, h: SshHost) {
    && (forall f <- h.localForwards :: y.forward(p.forward(f)) == Some(f))
    && (forall f <- h.remoteForwards :: y.forward(p.forward(f)) == Some(f))
    && (forall f <- h.dynamicForwards :: y.dynamic(p.dynamic(f)) == Some(f))
  }

  // ---------- Numbers ----------

  lemma {:induction false} DecimalNatBack(n: nat)
    ensures DecimalNat(n) != "" && AllDigits(DecimalNat(n)) && Digits(DecimalNat(n)) == n
  {
    var v := DecimalNat(n);
    if n >= 10 {
      DecimalNatBack(n / 10);
      assert v[..|v| - 1] == DecimalNat(n / 10);
    } else {
      assert v[..|v| - 1] == "";
    }
  }

  lemma AtoiPlain(v: string)
    requires v != "" && AllDigits(v)
    ensures Atoi(v) == if Digits(v) <= MAX_INT then Some(Digits(v)) else None
  {
    assert IsDigit(v[0]);
    hide Digits;
  }

  lemma AtoiNegative(v: string)
    requires v != "" && AllDigits(v)
    ensures Atoi("-" + v) == if MIN_INT + Digits(v) <= 0 then Some(0 - Digits(v)) else None
  {
    assert ("-" + v)[1..] == v;
    hide Digits;
  }

  lemma DigitsUnbroken(v: string)
    requires AllDigits(v)
    ensures Unbroken(v) && Unbroken("-" + v)
  {
    forall i | 0 <= i < |v|
      ensures !IsBreak(v[i])
    {
      assert IsDigit(v[i]);
    }
    UnbrokenConcat("-", v);
  }

  lemma DecimalBack(n: int)
    requires MIN_INT <= n <= MAX_INT
    ensures Atoi(Decimal(n)) == Some(n) && Unbroken(Decimal(n))
  {
    hide DecimalNat, Digits, Atoi, AllDigits, Unbroken;
    var v := DecimalNat(if n < 0 then -n else n);
    DecimalNatBack(if n < 0 then -n else n);
    DigitsUnbroken(v);
    if n < 0 {
      AtoiNegative(v);
    } else {
      AtoiPlain(v);
    }
  }

  function Zeros(k: nat): string {
    seq(k, _ => '0')
  }

  lemma {:induction false} ZerosAhead(k: nat, v: string)
    requires AllDigits(v)
    ensures AllDigits(Zeros(k) + v) && Digits(Zeros(k) + v) == Digits(v)
    decreases |v| + k
  {
    var w := Zeros(k) + v;
    assert forall i :: 0 <= i < |v| ==> w[k + i] == v[i];
    if v != "" {
      assert IsDigit(v[|v| - 1]);
      ZerosAhead(k, v[..|v| - 1]);
      assert w[..|w| - 1] == Zeros(k) + v[..|v| - 1];
    } else if k > 0 {
      ZerosAhead(k - 1, "");
      assert w[..|w| - 1] == Zeros(k - 1) + "";
    }
  }

  lemma {:induction false} DigitsAreDecimal(v: string) returns (k: nat)
    requires v != "" && AllDigits(v)
    ensures v == Zeros(k) + DecimalNat(Digits(v))
  {
    var n := |v| - 1;
    assert IsDigit(v[n]);
    if n == 0 {
      k := 0;
      assert v[..0] == "";
    } else {
      k := DigitsAreDecimal(v[..n]);
      assert v == v[..n] + [v[n]];
      if Digits(v[..n]) == 0 {
        k := k + 1;
      }
    }
  }

  predicate SignOk(sign: string, n: int) {
    if n < 0 then sign == "-" else sign == "" || sign == "+" || (n == 0 && sign == "-")
  }

  /** A decimal numeral of n: a sign, which may be left out or be a plus if n is not negative, any number of zeros, and
      the digits. */
  ghost predicate Numeral(v: string, n: int) {
    exists sign, k :: SignOk(sign, n) && v == sign + (Zeros(k) + DecimalNat(if n < 0 then -n else n))
  }

  lemma AtoiSigned(sign: string, v: string)
    requires (sign == "" || sign == "+" || sign == "-") && v != "" && AllDigits(v)
    ensures var n: int := if sign == "-" then 0 - Digits(v) else Digits(v);
      Atoi(sign + v) == if MIN_INT <= n <= MAX_INT then Some(n) else None
  {
    assert IsDigit(v[0]);
    assert "" + v == v && sign != "" ==> (sign + v)[1..] == v;
    hide Digits;
  }

  lemma SignedParts(v: string) returns (sign: string, digits: string)
    requires Atoi(v).Some?
    ensures (sign == "" || sign == "+" || sign == "-") && digits != "" && AllDigits(digits) && v == sign + digits
  {
    hide Digits;
    if v[0] == '-' || v[0] == '+' {
      sign, digits := [v[0]], v[1..];
      assert sign == "+" || sign == "-";
    } else {
      sign, digits := "", v;
    }
  }

  /** The port is read from exactly the decimal numerals of 64-bit numbers. */
  lemma AtoiIff(v: string, n: int)
    ensures Atoi(v) == Some(n) <==> -0x8000_0000_0000_0000 <= n <= 0x7FFF_FFFF_FFFF_FFFF && Numeral(v, n)
  {
    hide Atoi, Digits, DecimalNat, AllDigits, Zeros;
    if Atoi(v) == Some(n) {
      var sign, digits := SignedParts(v);
      AtoiSigned(sign, digits);
      var k := DigitsAreDecimal(digits);
      assert SignOk(sign, n);
    }
    if MIN_INT <= n <= MAX_INT && Numeral(v, n) {
      var size := if n < 0 then -n else n;
      var sign, k :| SignOk(sign, n) && v == sign + (Zeros(k) + DecimalNat(size));
      DecimalNatBack(size);
      ZerosAhead(k, DecimalNat(size));
      AtoiSigned(sign, Zeros(k) + DecimalNat(size));
    }
  }

  // ---------- What the printed lines mean ----------

  lemma {:induction false} LastOfConcat(b: seq<Entry>, c: seq<Entry>, k: Kind)
    ensures LastOf(b + c, k) == if LastOf(c, k).Some? then LastOf(c, k) else LastOf(b, k)
    decreases |c|
  {
    if c == [] {
      assert b + c == b;
    } else {
      LastOfConcat(b, c[..|c| - 1], k);
      assert (b + c)[..|b + c| - 1] == b + c[..|c| - 1];
    }
  }

  lemma {:induction false} ForwardsConcat(y: Syntax, b: seq<Entry>, c: seq<Entry>, k: Kind)
    ensures ForwardsOf(y, b + c, k) == ForwardsOf(y, b, k) + ForwardsOf(y, c, k)
    decreases |c|
  {
    if c == [] {
      assert b + c == b;
    } else {
      ForwardsConcat(y, b, c[..|c| - 1], k);
      assert (b + c)[..|b + c| - 1] == b + c[..|c| - 1];
    }
  }

  lemma {:induction false} DynamicsConcat(y: Syntax, b: seq<Entry>, c: seq<Entry>)
    ensures DynamicsOf(y, b + c) == DynamicsOf(y, b) + DynamicsOf(y, c)
    decreases |c|
  {
    if c == [] {
      assert b + c == b;
    } else {
      DynamicsConcat(y, b, c[..|c| - 1]);
      assert (b + c)[..|b + c| - 1] == b + c[..|c| - 1];
    }
  }

  /** Lines that set something else. */
  lemma {:induction false} OthersSetNothing(y: Syntax, c: seq<Entry>, k: Kind)
    requires forall e <- c :: e.Setting? ==> e.kind != k
    ensures LastOf(c, k) == None && ForwardsOf(y, c, k) == []
    ensures k == Kind.DynamicForward ==> DynamicsOf(y, c) == []
    decreases |c|
  {
    if c != [] {
      assert c[|c| - 1] in c && forall e <- c[..|c| - 1] :: e in c;
      OthersSetNothing(y, c[..|c| - 1], k);
    }
  }

  lemma {:induction false} ForwardLinesMean(y: Syntax, p: Printer, k: Kind, fs: seq<Forward>)
    requires forall f <- fs :: y.forward(p.forward(f)).Some?
    ensures |ForwardsOf(y, ForwardLines(p, k, fs), k)| == |fs|
    ensures forall i :: 0 <= i < |fs| ==>
      ForwardsOf(y, ForwardLines(p, k, fs), k)[i] == y.forward(p.forward(fs[i])).value
    decreases |fs|
  {
    if fs != [] {
      var n := |fs| - 1;
      var f, lines := fs[n], ForwardLines(p, k, fs[..n]);
      assert f in fs && forall g <- fs[..n] :: g in fs;
      ForwardLinesMean(y, p, k, fs[..n]);
      assert ForwardLines(p, k, fs) == lines + [Line(p, k, p.forward(f))];
      hide ForwardsOf, ForwardLines;
      ForwardsSnoc(y, lines, Line(p, k, p.forward(f)), k);
    }
  }

  lemma {:induction false} DynamicLinesMean(y: Syntax, p: Printer, fs: seq<DynamicForward>)
    requires forall f <- fs :: y.dynamic(p.dynamic(f)).Some?
    ensures |DynamicsOf(y, DynamicLines(p, fs))| == |fs|
    ensures forall i :: 0 <= i < |fs| ==> DynamicsOf(y, DynamicLines(p, fs))[i] == y.dynamic(p.dynamic(fs[i])).value
    decreases |fs|
  {
    if fs != [] {
      var n := |fs| - 1;
      var f, lines := fs[n], DynamicLines(p, fs[..n]);
      assert f in fs && forall g <- fs[..n] :: g in fs;
      DynamicLinesMean(y, p, fs[..n]);
      assert DynamicLines(p, fs) == lines + [Line(p, Kind.DynamicForward, p.dynamic(f))];
      hide DynamicsOf, DynamicLines;
      DynamicsSnoc(y, lines, Line(p, Kind.DynamicForward, p.dynamic(f)));
    }
  }

  /** Every forward is written so that it can be read. */
  predicate ForwardsRead(y: Syntax, p: Printer, h: SshHost) {
    && (forall f <- h.localForwards :: y.forward(p.forward(f)).Some?)
    && (forall f <- h.remoteForwards :: y.forward(p.forward(f)).Some?)
    && (forall f <- h.dynamicForwards :: y.dynamic(p.dynamic(f)).Some?)
  }

  lemma LastOfLines(p: Printer, h: SshHost, k: Kind)
    requires Printed(k) && k != Host && k != LocalForward && k != RemoteForward && k != Kind.DynamicForward
    ensures LastOf(HostLines(p, h), k) == LastOf(Fields(p, h), k)
    ensures TextOf(HostLines(p, h), k) == TextOf(Fields(p, h), k)
  {
    var y := Syntax(_ => None, _ => None, _ => None);
    var locals := ForwardLines(p, LocalForward, h.localForwards);
    var remotes := ForwardLines(p, RemoteForward, h.remoteForwards);
    var dynamics := DynamicLines(p, h.dynamicForwards);
    OthersSetNothing(y, locals + (remotes + dynamics), k);
    hide LastOf, Fields, ForwardLines, DynamicLines;
    LastOfConcat(Fields(p, h), locals + (remotes + dynamics), k);
  }

  lemma ForwardsOfParts(y: Syntax, k: Kind, b: seq<Entry>, c: seq<Entry>, d: seq<Entry>, e: seq<Entry>)
    ensures ForwardsOf(y, b + (c + (d + e)), k)
         == ForwardsOf(y, b, k) + (ForwardsOf(y, c, k) + (ForwardsOf(y, d, k) + ForwardsOf(y, e, k)))
  {
    hide ForwardsOf;
    ForwardsConcat(y, b, c + (d + e), k);
    ForwardsConcat(y, c, d + e, k);
    ForwardsConcat(y, d, e, k);
  }

  lemma DynamicsOfParts(y: Syntax, b: seq<Entry>, c: seq<Entry>, d: seq<Entry>, e: seq<Entry>)
    ensures DynamicsOf(y, b + (c + (d + e)))
         == DynamicsOf(y, b) + (DynamicsOf(y, c) + (DynamicsOf(y, d) + DynamicsOf(y, e)))
  {
    hide DynamicsOf;
    DynamicsConcat(y, b, c + (d + e));
    DynamicsConcat(y, c, d + e);
    DynamicsConcat(y, d, e);
  }

  lemma LocalsOfLines(y: Syntax, p: Printer, h: SshHost)
    ensures var locals := ForwardLines(p, LocalForward, h.localForwards);
      ForwardsOf(y, HostLines(p, h), LocalForward) == ForwardsOf(y, locals, LocalForward)
  {
    var fields, dynamics := Fields(p, h), DynamicLines(p, h.dynamicForwards);
    var locals := ForwardLines(p, LocalForward, h.localForwards);
    var remotes := ForwardLines(p, RemoteForward, h.remoteForwards);
    OthersSetNothing(y, fields, LocalForward);
    OthersSetNothing(y, remotes, LocalForward);
    OthersSetNothing(y, dynamics, LocalForward);
    hide ForwardsOf, Fields, ForwardLines, DynamicLines;
    ForwardsOfParts(y, LocalForward, fields, locals, remotes, dynamics);
  }

  lemma RemotesOfLines(y: Syntax, p: Printer, h: SshHost)
    ensures var remotes := ForwardLines(p, RemoteForward, h.remoteForwards);
      ForwardsOf(y, HostLines(p, h), RemoteForward) == ForwardsOf(y, remotes, RemoteForward)
  {
    var fields, dynamics := Fields(p, h), DynamicLines(p, h.dynamicForwards);
    var locals := ForwardLines(p, LocalForward, h.localForwards);
    var remotes := ForwardLines(p, RemoteForward, h.remoteForwards);
    OthersSetNothing(y, fields, RemoteForward);
    OthersSetNothing(y, locals, RemoteForward);
    OthersSetNothing(y, dynamics, RemoteForward);
    hide ForwardsOf, Fields, ForwardLines, DynamicLines;
    ForwardsOfParts(y, RemoteForward, fields, locals, remotes, dynamics);
  }

  lemma DynamicsOfLines(y: Syntax, p: Printer, h: SshHost)
    ensures DynamicsOf(y, HostLines(p, h)) == DynamicsOf(y, DynamicLines(p, h.dynamicForwards))
  {
    var fields, dynamics := Fields(p, h), DynamicLines(p, h.dynamicForwards);
    var locals := ForwardLines(p, LocalForward, h.localForwards);
    var remotes := ForwardLines(p, RemoteForward, h.remoteForwards);
    OthersSetNothing(y, fields, Kind.DynamicForward);
    OthersSetNothing(y, locals, Kind.DynamicForward);
    OthersSetNothing(y, remotes, Kind.DynamicForward);
    hide DynamicsOf, Fields, ForwardLines, DynamicLines;
    DynamicsOfParts(y, fields, locals, remotes, dynamics);
  }

  lemma FieldAt(p: Printer, h: SshHost)
    ensures TextOf(Fields(p, h), HostName) == h.hostName && TextOf(Fields(p, h), User) == h.user
    ensures LastOf(Fields(p, h), Port) == Some(Decimal(h.port))
    ensures TextOf(Fields(p, h), ProxyCommand) == h.proxyCommand
    ensures TextOf(Fields(p, h), HostKeyAlgorithms) == h.hostKeyAlgorithms
    ensures TextOf(Fields(p, h), IdentityFile) == h.identityFile
  {
    var y := Syntax(_ => None, _ => None, _ => None);
    var b := Fields(p, h);
    hide LastOf, Decimal, HostOf;
    HostSnoc(y, [], [], b[0]);
    HostSnoc(y, [], [] + [b[0]], b[1]);
    HostSnoc(y, [], [] + [b[0]] + [b[1]], b[2]);
    HostSnoc(y, [], [] + [b[0]] + [b[1]] + [b[2]], b[3]);
    HostSnoc(y, [], [] + [b[0]] + [b[1]] + [b[2]] + [b[3]], b[4]);
    HostSnoc(y, [], [] + [b[0]] + [b[1]] + [b[2]] + [b[3]] + [b[4]], b[5]);
    assert b == [] + [b[0]] + [b[1]] + [b[2]] + [b[3]] + [b[4]] + [b[5]];
  }

  lemma PortOfLines(p: Printer, h: SshHost)
    requires MIN_INT <= h.port <= MAX_INT
    ensures PortOf(HostLines(p, h)) == h.port
  {
    hide LastOf, TextOf, HostLines, Fields, Decimal, DecimalNat, Atoi, Digits, Unbroken, AllDigits;
    FieldAt(p, h);
    DecimalBack(h.port);
    LastOfLines(p, h, Port);
  }

  lemma HostOfLines(y: Syntax, p: Printer, h: SshHost)
    requires Shaped(h)
    ensures var lines := HostLines(p, h);
      HostOf(y, h.names, lines)
      == h.(localForwards := ForwardsOf(y, lines, LocalForward), remoteForwards := ForwardsOf(y, lines, RemoteForward),
            dynamicForwards := DynamicsOf(y, lines))
  {
    assert MIN_INT <= h.port <= MAX_INT;
    hide TextOf, PortOf, ForwardsOf, DynamicsOf, HostLines, Fields, Shaped;
    PortOfLines(p, h);
    FieldAt(p, h);
    LastOfLines(p, h, HostName);
    LastOfLines(p, h, User);
    LastOfLines(p, h, ProxyCommand);
    LastOfLines(p, h, HostKeyAlgorithms);
    LastOfLines(p, h, IdentityFile);
  }

  /** The lines printed for a host mean that host, with its forwards as they are read back. */
  lemma HostLinesMean(y: Syntax, p: Printer, h: SshHost)
    requires Shaped(h) && ForwardsRead(y, p, h)
    ensures HostOf(y, h.names, HostLines(p, h)) == h <==> ForwardsBack(y, p, h)
  {
    hide HostOf, Shaped, ForwardsOf, DynamicsOf, HostLines, ForwardLines, DynamicLines;
    HostOfLines(y, p, h);
    LocalsOfLines(y, p, h);
    RemotesOfLines(y, p, h);
    DynamicsOfLines(y, p, h);
    ForwardLinesMean(y, p, LocalForward, h.localForwards);
    ForwardLinesMean(y, p, RemoteForward, h.remoteForwards);
    DynamicLinesMean(y, p, h.dynamicForwards);
  }

  // ---------- Which of them are refused ----------

  /** No line of a host is refused. */
  predicate AllRead(y: Syntax, body: seq<Entry>) {
    forall e <- body :: Refusal(y, true, e, 0) == None
  }

  /** A line that is printed for a field with a single value. */
  predicate IsFieldLine(p: Printer, h: SshHost, k: Kind, v: string) {
    || (k == HostName && v == h.hostName) || (k == User && v == h.user) || (k == Port && v == Decimal(h.port))
    || (k == ProxyCommand && v == h.proxyCommand) || (k == HostKeyAlgorithms && v == h.hostKeyAlgorithms)
    || (k == IdentityFile && v == h.identityFile)
  }

  lemma FieldIs(p: Printer, h: SshHost, e: Entry)
    requires e in Fields(p, h)
    ensures e.Setting? && e == Line(p, e.kind, e.value) && IsFieldLine(p, h, e.kind, e.value)
  {
    hide Decimal;
    var i :| 0 <= i < 6 && Fields(p, h)[i] == e;
  }

  lemma FieldLineRead(y: Syntax, p: Printer, h: SshHost, k: Kind, v: string)
    requires FieldsOk(h) && IsFieldLine(p, h, k, v)
    ensures HasField(k) && Unbroken(v) && Refusal(y, true, Line(p, k, v), 0) == None
  {
    hide Decimal, DecimalNat, Atoi, Digits, Unbroken, AllDigits;
    DecimalBack(h.port);
  }

  lemma {:induction false} BodyRefusalIff(y: Syntax, body: seq<Entry>, pos: nat)
    ensures BodyRefusal(y, true, body, pos) == None <==> AllRead(y, body)
    decreases |body|
  {
    if body != [] {
      var n := |body| - 1;
      hide Refusal, AllRead, BodyText;
      BodyRefusalIff(y, body[..n], pos);
      InHostRefusal(y, body[n], pos + |BodyText(body[..n])|, 0);
      AllReadSnoc(y, body);
    }
  }

  lemma AllReadSnoc(y: Syntax, body: seq<Entry>)
    requires body != []
    ensures var n := |body| - 1; AllRead(y, body) <==> AllRead(y, body[..n]) && Refusal(y, true, body[n], 0) == None
  {
    hide Refusal;
    var n := |body| - 1;
    assert forall e :: e in body <==> e in body[..n] || e == body[n];
  }

  lemma {:induction false} BlocksRefusalIff(y: Syntax, blocks: seq<Block>, pos: nat)
    ensures BlocksRefusal(y, blocks, pos) == None <==> forall b <- blocks :: AllRead(y, b.body)
    decreases |blocks|
  {
    hide AllRead, BodyRefusal, BlocksText, NamesText;
    if blocks != [] {
      var n := |blocks| - 1;
      BlocksRefusalIff(y, blocks[..n], pos);
      BodyRefusalIff(y, blocks[n].body, pos + |BlocksText(blocks[..n])| + |NamesText(blocks[n])|);
      assert forall b :: b in blocks <==> b in blocks[..n] || b == blocks[n];
    }
  }

  lemma ForwardLinesRefused(y: Syntax, p: Printer, k: Kind, fs: seq<Forward>)
    requires k == LocalForward || k == RemoteForward
    ensures AllRead(y, ForwardLines(p, k, fs))
      <==> forall f <- fs :: y.forward(p.forward(f)).Some?
  {
    var es := ForwardLines(p, k, fs);
    assert forall i :: 0 <= i < |fs| ==> es[i] in es && fs[i] in fs;
    if AllRead(y, es) {
      forall f | f in fs
        ensures y.forward(p.forward(f)).Some?
      {
        var i :| 0 <= i < |fs| && fs[i] == f;
        assert Refusal(y, true, es[i], 0) == None;
      }
    }
  }

  lemma DynamicLinesRefused(y: Syntax, p: Printer, fs: seq<DynamicForward>)
    ensures AllRead(y, DynamicLines(p, fs))
      <==> forall f <- fs :: y.dynamic(p.dynamic(f)).Some?
  {
    var es := DynamicLines(p, fs);
    assert forall i :: 0 <= i < |fs| ==> es[i] in es && fs[i] in fs;
    if AllRead(y, es) {
      forall f | f in fs
        ensures y.dynamic(p.dynamic(f)).Some?
      {
        var i :| 0 <= i < |fs| && fs[i] == f;
        assert Refusal(y, true, es[i], 0) == None;
      }
    }
  }

  lemma FieldsNotRefused(y: Syntax, p: Printer, h: SshHost)
    requires FieldsOk(h)
    ensures AllRead(y, Fields(p, h))
  {
    hide FieldsOk, Fields, Refusal, Line, IsFieldLine;
    forall e | e in Fields(p, h)
      ensures Refusal(y, true, e, 0) == None
    {
      FieldIs(p, h, e);
      FieldLineRead(y, p, h, e.kind, e.value);
    }
  }

  /** A printed host is refused exactly for a forward that cannot be read. */
  lemma HostLinesRefused(y: Syntax, p: Printer, h: SshHost)
    requires FieldsOk(h)
    ensures AllRead(y, HostLines(p, h)) <==> ForwardsRead(y, p, h)
  {
    FieldsNotRefused(y, p, h);
    ForwardLinesRefused(y, p, LocalForward, h.localForwards);
    ForwardLinesRefused(y, p, RemoteForward, h.remoteForwards);
    DynamicLinesRefused(y, p, h.dynamicForwards);
    hide Refusal, Fields, ForwardLines, DynamicLines, FieldsOk;
    var fields, dynamics := Fields(p, h), DynamicLines(p, h.dynamicForwards);
    var locals := ForwardLines(p, LocalForward, h.localForwards);
    var remotes := ForwardLines(p, RemoteForward, h.remoteForwards);
    assert forall e :: e in HostLines(p, h) <==> e in fields || e in locals || e in remotes || e in dynamics;
  }

  // ---------- The printer is undone ----------

  lemma LineOk(a: Alphabet, p: Printer, k: Kind, v: string)
    requires PrinterOk(a, p) && HasField(k) && Unbroken(v)
    ensures EntryOk(a, Line(p, k, v)) && EolOf(Line(p, k, v)) != ""
  {
    assert Printed(k);
    hide StyleOk;
  }

  lemma FieldsAreOk(a: Alphabet, p: Printer, h: SshHost)
    requires PrinterOk(a, p) && FieldsOk(h)
    ensures BodyOk(a, Fields(p, h))
  {
    hide PrinterOk, FieldsOk, EntryOk, EolOf, Line, Fields, IsFieldLine, Unbroken, HasField;
    forall e | e in Fields(p, h)
      ensures EntryOk(a, e) && EolOf(e) != ""
    {
      FieldIs(p, h, e);
      FieldLineRead(Syntax(_ => None, _ => None, _ => None), p, h, e.kind, e.value);
      LineOk(a, p, e.kind, e.value);
    }
  }

  lemma ForwardLinesOk(a: Alphabet, p: Printer, k: Kind, fs: seq<Forward>)
    requires PrinterOk(a, p) && (k == LocalForward || k == RemoteForward)
    ensures BodyOk(a, ForwardLines(p, k, fs))
  {
    forall f
      ensures EntryOk(a, Line(p, k, p.forward(f))) && EolOf(Line(p, k, p.forward(f))) != ""
    {
      LineOk(a, p, k, p.forward(f));
    }
    hide PrinterOk, EntryOk, Line, EolOf;
  }

  lemma DynamicLinesOk(a: Alphabet, p: Printer, fs: seq<DynamicForward>)
    requires PrinterOk(a, p)
    ensures BodyOk(a, DynamicLines(p, fs))
  {
    forall f
      ensures var e := Line(p, Kind.DynamicForward, p.dynamic(f)); EntryOk(a, e) && EolOf(e) != ""
    {
      LineOk(a, p, Kind.DynamicForward, p.dynamic(f));
    }
    hide PrinterOk, EntryOk, Line, EolOf;
  }

  lemma BodyOkConcat(a: Alphabet, b: seq<Entry>, c: seq<Entry>)
    requires BodyOk(a, b) && BodyOk(a, c)
    ensures BodyOk(a, b + c)
  {
    hide EntryOk, EolOf;
  }

  lemma LinesOk(a: Alphabet, p: Printer, h: SshHost)
    requires PrinterOk(a, p) && FieldsOk(h)
    ensures BodyOk(a, HostLines(p, h))
  {
    hide PrinterOk, FieldsOk, BodyOk, Fields, ForwardLines, DynamicLines;
    var locals := ForwardLines(p, LocalForward, h.localForwards);
    var remotes := ForwardLines(p, RemoteForward, h.remoteForwards);
    var dynamics := DynamicLines(p, h.dynamicForwards);
    FieldsAreOk(a, p, h);
    ForwardLinesOk(a, p, LocalForward, h.localForwards);
    ForwardLinesOk(a, p, RemoteForward, h.remoteForwards);
    DynamicLinesOk(a, p, h.dynamicForwards);
    BodyOkConcat(a, remotes, dynamics);
    BodyOkConcat(a, locals, remotes + dynamics);
    BodyOkConcat(a, Fields(p, h), locals + (remotes + dynamics));
  }

  lemma PrintedOk(a: Alphabet, p: Printer, hosts: seq<SshHost>)
    requires PrinterOk(a, p) && (forall h <- hosts :: Shaped(h))
    ensures DocOk(a, Doc([], Blocks(p, hosts)))
  {
    hide StyleOk, NamesOk, BodyOk, FieldsOk, HostLines;
    var blocks := Blocks(p, hosts);
    forall b | b in blocks
      ensures BlockOk(a, b)
    {
      var i :| 0 <= i < |blocks| && blocks[i] == b;
      assert hosts[i] in hosts;
      LinesOk(a, p, hosts[i]);
      assert Printed(Host);
    }
    assert BodyOk(a, []) by { NoLinesOk(a); }
  }

  lemma NoLinesOk(a: Alphabet)
    ensures BodyOk(a, [])
  {}

  lemma PrintedRefused(y: Syntax, p: Printer, hosts: seq<SshHost>)
    requires forall h <- hosts :: Shaped(h)
    ensures DocRefusal(y, Doc([], Blocks(p, hosts))) == None <==> forall h <- hosts :: ForwardsRead(y, p, h)
  {
    hide AllRead, HostLines, FieldsOk, NamesOk, ForwardsRead, BlocksRefusal;
    var blocks := Blocks(p, hosts);
    BlocksRefusalIff(y, blocks, 0);
    forall i | 0 <= i < |hosts|
      ensures AllRead(y, blocks[i].body) <==> ForwardsRead(y, p, hosts[i])
    {
      assert hosts[i] in hosts;
      HostLinesRefused(y, p, hosts[i]);
    }
    assert forall i :: 0 <= i < |hosts| ==> blocks[i] in blocks && hosts[i] in hosts;
  }

  lemma PointwiseBack(y: Syntax, p: Printer, hosts: seq<SshHost>, back: seq<SshHost>)
    requires |back| == |hosts|
    requires forall i :: 0 <= i < |hosts| ==> (back[i] == hosts[i] <==> ForwardsBack(y, p, hosts[i]))
    ensures back == hosts <==> forall h <- hosts :: ForwardsBack(y, p, h)
  {
    hide ForwardsBack;
    assert forall i :: 0 <= i < |hosts| ==> hosts[i] in hosts;
  }

  lemma PrintedHosts(y: Syntax, p: Printer, hosts: seq<SshHost>)
    requires forall h <- hosts :: Shaped(h) && ForwardsRead(y, p, h)
    ensures Hosts(y, Doc([], Blocks(p, hosts))) == hosts <==> forall h <- hosts :: ForwardsBack(y, p, h)
  {
    hide Shaped, ForwardsRead, ForwardsBack, HostOf, HostLines;
    var back := HostsOf(y, Blocks(p, hosts));
    assert [] + back == back;
    forall i | 0 <= i < |hosts|
      ensures back[i] == hosts[i] <==> ForwardsBack(y, p, hosts[i])
    {
      assert hosts[i] in hosts;
      HostLinesMean(y, p, hosts[i]);
    }
    hide HostsOf, Blocks;
    PointwiseBack(y, p, hosts, back);
  }

  /** Parsing undoes printing, whatever the layout, on the hosts whose forwards are read back. */
  lemma PrintThenParse(a: Alphabet, y: Syntax, p: Printer, hosts: seq<SshHost>)
    requires AlphabetOk(a) && PrinterOk(a, p) && (forall h <- hosts :: Shaped(h))
    ensures ParseText(a, y, Print(p, hosts)) == Ok(hosts) <==> forall h <- hosts :: ForwardsBack(y, p, h)
  {
    hide AlphabetOk, PrinterOk, Shaped, DocOk, DocRefusal, Hosts, Blocks, ParseText, Text, ForwardsRead;
    PrintedOk(a, p, hosts);
    PrintedRefused(y, p, hosts);
    DocParses(a, y, Doc([], Blocks(p, hosts)));
    if forall h <- hosts :: ForwardsRead(y, p, h) {
      PrintedHosts(y, p, hosts);
    } else {
      BackMeansRead(y, p, hosts);
    }
  }

  lemma BackMeansRead(y: Syntax, p: Printer, hosts: seq<SshHost>)
    ensures (forall h <- hosts :: ForwardsBack(y, p, h)) ==> forall h <- hosts :: ForwardsRead(y, p, h)
  {}

  lemma ParsedAreShaped(y: Syntax, hosts: seq<SshHost>)
    requires AllParsed(y, hosts)
    ensures forall h <- hosts :: Shaped(h) && FromSyntax(y, h)
  {
    hide Shaped, FromSyntax;
  }

  /** Parsing undoes printing on exactly the hosts that have names without blanks, values without line breaks, ports of
      64 bits, and forwards that are read back. */
  lemma RoundTripIff(a: Alphabet, y: Syntax, p: Printer, hosts: seq<SshHost>)
    requires AlphabetOk(a) && PrinterOk(a, p) && IncludesShaped(y)
    ensures ParseText(a, y, Print(p, hosts)) == Ok(hosts) <==> forall h <- hosts :: Shaped(h) && ForwardsBack(y, p, h)
  {
    hide AlphabetOk, PrinterOk, IncludesShaped, Shaped, ParseText, Print, ForwardsBack, AllParsed, FromSyntax;
    ParsedIsShaped(a, y, Print(p, hosts));
    if ParseText(a, y, Print(p, hosts)) == Ok(hosts) {
      ParsedAreShaped(y, hosts);
    }
    if forall h <- hosts :: Shaped(h) {
      PrintThenParse(a, y, p, hosts);
    }
  }

  /** The printer writes every forward that there is so that it is read back. */
  ghost predicate WritesForwards(y: Syntax, p: Printer) {
    && (forall v :: y.forward(v).Some? ==> y.forward(p.forward(y.forward(v).value)) == y.forward(v))
    && (forall v :: y.dynamic(v).Some? ==> y.dynamic(p.dynamic(y.dynamic(v).value)) == y.dynamic(v))
  }

  lemma WrittenBack(y: Syntax, p: Printer, h: SshHost)
    requires WritesForwards(y, p) && FromSyntax(y, h)
    ensures ForwardsBack(y, p, h)
  {}

  /** Printing what was parsed, in any layout, and parsing it again changes nothing. */
  lemma ReprintKeeps(a: Alphabet, y: Syntax, p: Printer, s: string)
    requires AlphabetOk(a) && PrinterOk(a, p) && IncludesShaped(y) && WritesForwards(y, p) && ParseText(a, y, s).Ok?
    ensures var r := ParseText(a, y, s); ParseText(a, y, Print(p, r.hosts)) == r
  {
    hide AlphabetOk, PrinterOk, IncludesShaped, WritesForwards, Shaped, ParseText, Print, ForwardsBack, AllParsed,
      FromSyntax;
    var hosts := ParseText(a, y, s).hosts;
    ParsedIsShaped(a, y, s);
    ParsedAreShaped(y, hosts);
    forall h | h in hosts
      ensures ForwardsBack(y, p, h)
    {
      WrittenBack(y, p, h);
    }
    PrintThenParse(a, y, p, hosts);
  }
}
