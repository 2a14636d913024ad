/** The shaper: the priority order on write requests, the binary heap that keeps it, and shaperLoop. */
module Shaper {
  import opened Arith
  import opened Wire
  import opened Wrappers

  datatype Class = CLSCTRL | CLSDATA

  datatype Request = Request(cls: Class, seqno: uint32, frame: Frame)

  const MAX_SHAPER_SIZE := 1024

  // ---------- The order ----------

  function TimeDiff(later: uint32, earlier: uint32): int {
    I32(later - earlier)
  }

  predicate Less(a: Request, b: Request) {
    if a.cls != b.cls then a.cls == CLSCTRL else TimeDiff(b.seqno, a.seqno) > 0
  }

  /** Every control request comes before every data request. */
  lemma ControlFirst(a: Request, b: Request)
    requires a.cls == CLSCTRL && b.cls == CLSDATA
    ensures Less(a, b) && !Less(b, a)
  {}

  /** How far a sequence number is past base, going round at 2^32. */
  function Rank(base: uint32, r: Request): nat {
    (r.seqno - base) % TWO_32
  }

  /** The requests were all numbered within one stretch of 2^31 numbers, starting at base. */
  predicate InWindow(base: uint32, s: seq<Request>) {
    forall i :: 0 <= i < |s| ==> Rank(base, s[i]) < TWO_31
  }

  /** Class first, then distance from base. */
  function Key(base: uint32, r: Request): nat {
    if r.cls == CLSCTRL then Rank(base, r) else TWO_32 + Rank(base, r)
  }

  /** Two requests of one class, issued as numbers i and j of an unbounded count: the heap puts i first exactly
      when j is less than 2^31 issues ahead of i, modulo 2^32 (section 3.2 of RFC 1982). */
  lemma SerialOrder(a: Request, b: Request, i: nat, j: nat)
    requires a.cls == b.cls && a.seqno == U32(i) && b.seqno == U32(j)
    ensures Less(a, b) <==> 0 < (j - i) % TWO_32 < TWO_31
  {
    assert (b.seqno - a.seqno) - (j - i) == TWO_32 * (i / TWO_32 - j / TWO_32);
  }

  /** Inside a window Less is the order of the keys: control before data, and then by issue. */
  lemma LessIsKeyOrder(base: uint32, a: Request, b: Request)
    requires InWindow(base, [a, b])
    ensures Less(a, b) <==> Key(base, a) < Key(base, b)
  {
    assert Rank(base, [a, b][0]) < TWO_31 && Rank(base, [a, b][1]) < TWO_31;
    var k := (a.seqno - base) / TWO_32 - (b.seqno - base) / TWO_32;
    assert b.seqno - a.seqno == Rank(base, b) - Rank(base, a) + TWO_32 * -k;
  }

  /** Numbers drawn from any 2^31 consecutive issues, wrapped to 32 bits, are ranked in their unbounded order. */
  lemma RankIsIssueOrder(first: nat, i: nat, r: Request)
    requires first <= i < first + TWO_31 && r.seqno == U32(i)
    ensures Rank(U32(first), r) == i - first
  {
    assert r.seqno - U32(first) == (i - first) + TWO_32 * (first / TWO_32 - i / TWO_32);
  }

  /** Two requests of one class, issued as numbers i and j, are not ordered either way exactly when they are a multiple
      of 2^31 issues apart: an even one gives them the same number, an odd one the two opposite ones. */
  lemma UnorderedIff(a: Request, b: Request, i: nat, j: nat)
    requires a.cls == b.cls && a.seqno == U32(i) && b.seqno == U32(j)
    ensures !Less(a, b) && !Less(b, a) <==> (j - i) % TWO_31 == 0
  {
    SerialOrder(a, b, i, j);
    SerialOrder(b, a, j, i);
    HalfTurns(j - i);
    hide Less;
  }

  lemma Mod32Is(d: int, q: int, r: int)
    requires 0 <= r < TWO_32 && d == TWO_32 * q + r
    ensures d % TWO_32 == r
  {}

  lemma Mod31Is(d: int, q: int, r: int)
    requires 0 <= r < TWO_31 && d == TWO_31 * q + r
    ensures d % TWO_31 == r
  {}

  /** Going round at 2^32, a distance and its opposite are both zero or at least half a turn exactly at the multiples of
      half a turn. */
  lemma HalfTurns(d: int)
    ensures !(0 < d % TWO_32 < TWO_31) && !(0 < -d % TWO_32 < TWO_31) <==> d % TWO_31 == 0
  {
    var q, r := d / TWO_32, d % TWO_32;
    if r == 0 {
      Mod32Is(-d, -q, 0);
      Mod31Is(d, 2 * q, 0);
    } else {
      Mod32Is(-d, -q - 1, TWO_32 - r);
      Mod31Is(d, if r < TWO_31 then 2 * q else 2 * q + 1, if r < TWO_31 then r else r - TWO_31);
    }
  }

  // ---------- The heap ----------

  function Parent(j: nat): (p: nat)
    requires j > 0
    ensures p < j
  {
    (j - 1) / 2
  }

  /** Index i is not after index j. */
  predicate InOrder(base: uint32, s: seq<Request>, i: nat, j: nat)
    requires i < |s| && j < |s|
  {
    Key(base, s[i]) <= Key(base, s[j])
  }

  ghost predicate IsHeap(base: uint32, s: seq<Request>) {
    forall c :: 0 < c < |s| ==> InOrder(base, s, Parent(c), c)
  }

  /** The heap order as the source sees it: no request comes before its parent. */
  ghost predicate HeapOrdered(s: seq<Request>) {
    forall c :: 0 < c < |s| ==> !Less(s[c], s[Parent(c)])
  }

  lemma HeapOrderedIsHeap(base: uint32, s: seq<Request>)
    requires InWindow(base, s)
    ensures HeapOrdered(s) <==> IsHeap(base, s)
  {
    forall c | 0 < c < |s|
      ensures !Less(s[c], s[Parent(c)]) <==> InOrder(base, s, Parent(c), c)
    {
      LessIsKeyOrder(base, s[c], s[Parent(c)]);
    }
  }

  ghost predicate IsLeast(x: Request, s: seq<Request>) {
    x in s && forall i :: 0 <= i < |s| ==> !Less(s[i], x)
  }

  function Swapped(s: seq<Request>, i: nat, j: nat): (t: seq<Request>)
    requires i < |s| && j < |s|
    ensures |t| == |s| && multiset(t) == multiset(s)
  {
    s[i := s[j]][j := s[i]]
  }

  // While a request moves up from index j, only the edge above it may be out of order, and what hangs below it
  // is already in order with its parent.
  ghost predicate RisingAt(base: uint32, s: seq<Request>, j: nat) {
    && j < |s|
    && (forall c :: 0 < c < |s| && c != j ==> InOrder(base, s, Parent(c), c))
    && (forall c :: 0 < c < |s| && j > 0 && Parent(c) == j ==> InOrder(base, s, Parent(j), c))
  }

  // While a request moves down from index i, only the edges below it may be out of order.
  ghost predicate SinkingAt(base: uint32, s: seq<Request>, i: nat) {
    && (forall c :: 0 < c < |s| && Parent(c) != i ==> InOrder(base, s, Parent(c), c))
    && (forall c :: 0 < c < |s| && i > 0 && Parent(c) == i < |s| ==> InOrder(base, s, Parent(i), c))
  }

  lemma RiseStep(base: uint32, s: seq<Request>, j: nat)
    requires RisingAt(base, s, j) && j > 0 && !InOrder(base, s, Parent(j), j)
    ensures RisingAt(base, Swapped(s, Parent(j), j), Parent(j))
  {
    hide Key;
    var i := Parent(j);
    var t := Swapped(s, i, j);
    assert i > 0 ==> InOrder(base, s, Parent(i), i);
    forall c | 0 < c < |s| && c != i
      ensures InOrder(base, t, Parent(c), c) && (Parent(c) == i && i > 0 ==> InOrder(base, t, Parent(i), c))
    {
      assert c != j ==> InOrder(base, s, Parent(c), c);
      assert Parent(c) == j ==> InOrder(base, s, i, c);
    }
  }

  lemma SinkStep(base: uint32, s: seq<Request>, i: nat, j: nat)
    requires SinkingAt(base, s, i) && 0 < j < |s| && Parent(j) == i && !InOrder(base, s, i, j)
    requires forall c :: 0 < c < |s| && Parent(c) == i ==> InOrder(base, s, j, c)
    ensures SinkingAt(base, Swapped(s, i, j), j)
  {
    hide Key;
    var t := Swapped(s, i, j);
    forall c | 0 < c < |s|
      ensures Parent(c) != j ==> InOrder(base, t, Parent(c), c)
      ensures Parent(c) == j ==> InOrder(base, t, Parent(j), c)
    {
      assert Parent(c) != i ==> InOrder(base, s, Parent(c), c);
      assert Parent(c) == i ==> InOrder(base, s, j, c);
      assert Parent(c) == i && i > 0 ==> InOrder(base, s, Parent(i), c);
    }
  }

  /** The child that comes first, as container/heap picks it. */
  function FirstChild(s: seq<Request>, i: nat): (j: nat)
    requires 2 * i + 1 < |s|
    ensures 0 < j < |s| && Parent(j) == i
  {
    var j1 := 2 * i + 1;
    if j1 + 1 < |s| && Less(s[j1 + 1], s[j1]) then j1 + 1 else j1
  }

  lemma FirstChildComesFirst(base: uint32, s: seq<Request>, i: nat)
    requires 2 * i + 1 < |s| && InWindow(base, s)
    ensures forall c :: 0 < c < |s| && Parent(c) == i ==> InOrder(base, s, FirstChild(s, i), c)
  {
    var j1 := 2 * i + 1;
    if j1 + 1 < |s| {
      LessIsKeyOrder(base, s[j1 + 1], s[j1]);
    }
    assert forall c :: 0 < c < |s| && Parent(c) == i ==> c == j1 || c == j1 + 1;
  }

  lemma SinkOnce(base: uint32, s: seq<Request>, i: nat)
    requires SinkingAt(base, s, i) && InWindow(base, s) && 2 * i + 1 < |s| && Less(s[FirstChild(s, i)], s[i])
    ensures SinkingAt(base, Swapped(s, i, FirstChild(s, i)), FirstChild(s, i))
    ensures InWindow(base, Swapped(s, i, FirstChild(s, i)))
  {
    hide Key, Rank, Less;
    var j := FirstChild(s, i);
    LessIsKeyOrder(base, s[j], s[i]);
    FirstChildComesFirst(base, s, i);
    SinkStep(base, s, i, j);
  }

  lemma SinkDone(base: uint32, s: seq<Request>, i: nat)
    requires SinkingAt(base, s, i) && InWindow(base, s)
    requires 2 * i + 1 < |s| ==> !Less(s[FirstChild(s, i)], s[i])
    ensures IsHeap(base, s)
  {
    hide Key, Rank, Less;
    if 2 * i + 1 < |s| {
      LessIsKeyOrder(base, s[FirstChild(s, i)], s[i]);
      FirstChildComesFirst(base, s, i);
    }
    forall c | 0 < c < |s|
      ensures InOrder(base, s, Parent(c), c)
    {
      assert Parent(c) == i ==> InOrder(base, s, FirstChild(s, i), c);
    }
  }

  lemma {:induction false} RootIsLeast(base: uint32, s: seq<Request>, j: nat)
    requires IsHeap(base, s) && j < |s|
    ensures InOrder(base, s, 0, j)
  {
    if j > 0 {
      RootIsLeast(base, s, Parent(j));
    }
  }

  /** The heap's root comes before, or is, every request in it. */
  lemma RootIsLeastOfAll(base: uint32, s: seq<Request>)
    requires s != [] && IsHeap(base, s) && InWindow(base, s)
    ensures IsLeast(s[0], s)
  {
    forall j | 0 <= j < |s|
      ensures !Less(s[j], s[0])
    {
      RootIsLeast(base, s, j);
      LessIsKeyOrder(base, s[j], s[0]);
    }
  }

  lemma SameElements(base: uint32, s: seq<Request>, t: seq<Request>)
    requires multiset(s) == multiset(t)
    ensures |s| == |t| && (InWindow(base, s) ==> InWindow(base, t))
    ensures forall x :: IsLeast(x, s) ==> IsLeast(x, t)
  {
    assert |multiset(s)| == |multiset(t)|;
    assert forall x :: x in t ==> x in multiset(s);
    forall i | 0 <= i < |t|
      ensures t[i] in s
    {
      assert t[i] in multiset(t);
    }
    forall x | x in s
      ensures x in t
    {
      assert x in multiset(s);
    }
  }

  class ShaperHeap {
    var reqs: seq<Request>

    constructor ()
      ensures reqs == []
    {
      reqs := [];
    }

    /** The sift-up of container/heap, from the last index. */
    method Up(ghost base: uint32)
      requires InWindow(base, reqs) && |reqs| > 0 && RisingAt(base, reqs, |reqs| - 1)
      modifies this
      ensures IsHeap(base, reqs) && multiset(reqs) == old(multiset(reqs))
    {
      hide Key, Rank, Less;
      var j: nat := |reqs| - 1;
      while j > 0
        invariant RisingAt(base, reqs, j) && InWindow(base, reqs) && multiset(reqs) == old(multiset(reqs))
      {
        var i := Parent(j);
        LessIsKeyOrder(base, reqs[j], reqs[i]);
        if !Less(reqs[j], reqs[i]) {
          return;
        }
        RiseStep(base, reqs, j);
        reqs := Swapped(reqs, i, j);
        j := i;
      }
    }

    /** The sift-down of container/heap, from the root. */
    method Down(ghost base: uint32)
      requires InWindow(base, reqs) && SinkingAt(base, reqs, 0)
      modifies this
      ensures IsHeap(base, reqs) && multiset(reqs) == old(multiset(reqs))
    {
      hide Key, Rank, Less, SinkingAt, IsHeap, InWindow;
      var i: nat, n := 0, |reqs|;
      while 2 * i + 1 < n
        invariant SinkingAt(base, reqs, i) && InWindow(base, reqs) && |reqs| == n
        invariant multiset(reqs) == old(multiset(reqs))
        decreases n - i
      {
        var j := FirstChild(reqs, i);
        if !Less(reqs[j], reqs[i]) {
          break;
        }
        SinkOnce(base, reqs, i);
        reqs := Swapped(reqs, i, j);
        i := j;
      }
      SinkDone(base, reqs, i);
    }

    /** heap.Push: append, then sift up. */
    method Push(ghost base: uint32, r: Request)
      requires HeapOrdered(reqs) && InWindow(base, reqs + [r])
      modifies this
      ensures HeapOrdered(reqs) && multiset(reqs) == old(multiset(reqs)) + multiset{r}
    {
      ghost var before := reqs;
      assert forall i :: 0 <= i < |before| ==> before[i] == (before + [r])[i];
      HeapOrderedIsHeap(base, before);
      reqs := reqs + [r];
      forall c | 0 < c < |reqs|
        ensures Parent(c) < |reqs| - 1
        ensures c != |reqs| - 1 ==> InOrder(base, reqs, Parent(c), c)
      {
        assert c != |reqs| - 1 ==> InOrder(base, before, Parent(c), c);
      }
      Up(base);
      SameElements(base, before + [r], reqs);
      HeapOrderedIsHeap(base, reqs);
    }

    /** heap.Pop: exchange root and last, sift down what is left, and take the last off. */
    method Pop(ghost base: uint32) returns (x: Request)
      requires reqs != [] && HeapOrdered(reqs) && InWindow(base, reqs)
      modifies this
      ensures HeapOrdered(reqs) && IsLeast(x, old(reqs))
      ensures old(multiset(reqs)) == multiset(reqs) + multiset{x}
    {
      var n := |reqs| - 1;
      ghost var before := reqs;
      HeapOrderedIsHeap(base, reqs);
      RootIsLeastOfAll(base, reqs);
      x := reqs[0];
      reqs := Swapped(reqs, 0, n)[..n];
      assert Swapped(before, 0, n) == reqs + [x];
      ghost var rest := reqs;
      forall c | 0 < c < n && Parent(c) != 0
        ensures InOrder(base, reqs, Parent(c), c)
      {
        assert InOrder(base, before, Parent(c), c);
      }
      Down(base);
      SameElements(base, rest, reqs);
      HeapOrderedIsHeap(base, reqs);
    }

    /** Popping until the heap is empty gives the requests in order, each exactly once. */
    method Drain(ghost base: uint32) returns (out: seq<Request>)
      requires HeapOrdered(reqs) && InWindow(base, reqs)
      modifies this
      ensures reqs == [] && multiset(out) == old(multiset(reqs))
      ensures forall i, j :: 0 <= i < j < |out| ==> !Less(out[j], out[i])
    {
      hide Less, HeapOrdered;
      out := [];
      while reqs != []
        invariant HeapOrdered(reqs) && InWindow(base, reqs)
        invariant multiset(out) + multiset(reqs) == old(multiset(reqs))
        invariant forall i, j :: 0 <= i < j < |out| ==> !Less(out[j], out[i])
        invariant forall i, j :: 0 <= i < |out| && 0 <= j < |reqs| ==> !Less(reqs[j], out[i])
        decreases |reqs|
      {
        ghost var before := reqs;
        var x := Pop(base);
        SameElements(base, before, reqs + [x]);
        PartOf(reqs, x, before);
        assert forall j :: 0 <= j < |reqs| ==> reqs[j] == (reqs + [x])[j];
        out := out + [x];
      }
    }

    /** One turn of shaperLoop, with the branch that select takes: incoming is the request received from the
        shaper channel, or None when the least pending request is handed to sendLoop. Receiving is possible only
        while the channel is taken from, and writing only when there is something to write. */
    method Turn(ghost base: uint32, incoming: Option<Request>) returns (sent: Option<Request>)
      requires HeapOrdered(reqs) && |reqs| <= MAX_SHAPER_SIZE + 1
      requires incoming.Some? ==> Accepting(|reqs|) && InWindow(base, reqs + [incoming.value])
      requires incoming.None? ==> reqs != [] && InWindow(base, reqs)
      modifies this
      ensures HeapOrdered(reqs) && |reqs| <= MAX_SHAPER_SIZE + 1
      ensures incoming.Some? ==> TurnSpec(old(multiset(reqs)), Accepted(incoming.value), multiset(reqs))
      ensures incoming.None? ==> sent.Some? && TurnSpec(old(multiset(reqs)), Sent(sent.value), multiset(reqs))
    {
      hide Less, HeapOrdered, InWindow, IsLeast;
      ghost var before := reqs;
      ghost var all := reqs + if incoming.Some? then [incoming.value] else [];
      assert incoming.None? ==> all == reqs;
      var next: Option<Request> := None;
      if |reqs| > 0 {
        WindowOfPart(base, reqs, all);
        var x := Pop(base);
        next := Some(x);
        LeastOfMultiset(x, before);
        SameElements(base, before, reqs + [x]);
      }
      var chWrite, chShaper := next.Some?, |reqs| < MAX_SHAPER_SIZE;
      assert chWrite || chShaper;  // the panic of the source cannot happen
      match incoming {
        case Some(r) =>
          assert chShaper;
          if next.Some? {
            WindowOfPart(base, reqs + [next.value], all);
            Push(base, next.value);
            SameElements(base, before, reqs);
          }
          ghost var middle := reqs;
          WindowOfPart(base, reqs + [r], all);
          Push(base, r);
          SameElements(base, middle + [r], reqs);
          sent := None;
        case None =>
          sent := next;
      }
    }

    /** shaperLoop in answer to any offers: Some(r) is a producer at the shaper channel, None a sendLoop that is ready
        for a request. A turn that finds the offered channel nil waits for another offer. */
    method Loop(ghost base: uint32, offers: seq<Option<Request>>) returns (outcomes: seq<Option<Event>>)
      requires HeapOrdered(reqs) && |reqs| <= MAX_SHAPER_SIZE + 1 && InWindow(base, reqs + Offered(offers))
      modifies this
      ensures HeapOrdered(reqs) && |reqs| <= MAX_SHAPER_SIZE + 1
      ensures Answers(old(multiset(reqs)), offers, outcomes, multiset(reqs))
    {
      hide Less, HeapOrdered, InWindow, Answers, Answer, Accepting;
      outcomes := [];
      AnswersNone(multiset(reqs));
      for t := 0 to |offers|
        invariant HeapOrdered(reqs) && |reqs| <= MAX_SHAPER_SIZE + 1 && InWindow(base, reqs + Offered(offers[t..]))
        invariant Answers(old(multiset(reqs)), offers[..t], outcomes, multiset(reqs))
      {
        ghost var pending, before := multiset(reqs), reqs;
        OfferedRest(offers[t..]);
        var outcome: Option<Event> := None;
        match offers[t] {
          case Some(r) =>
            if Accepting(|reqs|) {
              WindowOfPart(base, reqs + [r], reqs + Offered(offers[t..]));
              var sent := Turn(base, Some(r));
              outcome := Some(Accepted(r));
            }
          case None =>
            if |reqs| > 0 {
              WindowOfPart(base, reqs, reqs + Offered(offers[t..]));
              var sent := Turn(base, None);
              outcome := Some(Sent(sent.value));
            }
        }
        AnswerIs(pending, offers[t], outcome, multiset(reqs));
        WindowOfPart(base, reqs + Offered(offers[t + 1..]), before + Offered(offers[t..])) by {
          SmallerWindow(before, reqs, offers[t], outcome, Offered(offers[t..]), Offered(offers[t + 1..]));
        }
        AnswersSnoc(old(multiset(reqs)), offers[..t], outcomes, pending, offers[t], outcome, multiset(reqs));
        assert offers[..t + 1] == offers[..t] + [offers[t]] && offers[t..][1..] == offers[t + 1..];
        outcomes := outcomes + [outcome];
      }
      assert offers[..|offers|] == offers;
    }
  }

  lemma WindowOfPart(base: uint32, part: seq<Request>, whole: seq<Request>)
    requires InWindow(base, whole) && multiset(part) <= multiset(whole)
    ensures InWindow(base, part)
  {
    forall i | 0 <= i < |part|
      ensures part[i] in whole
    {
      assert part[i] in multiset(part);
    }
  }

  lemma PartOf(s: seq<Request>, x: Request, t: seq<Request>)
    requires multiset(t) == multiset(s) + multiset{x}
    ensures forall j :: 0 <= j < |s| ==> s[j] in t
  {
    forall j | 0 <= j < |s|
      ensures s[j] in t
    {
      assert s[j] in multiset(t);
    }
  }

  // ---------- shaperLoop over whole runs ----------

  /** A request is taken from the shaper channel while at most maxShaperSize are left after taking out next. */
  predicate Accepting(pending: nat) {
    (if pending > 0 then pending - 1 else 0) < MAX_SHAPER_SIZE
  }

  datatype Event = Accepted(r: Request) | Sent(r: Request)

  ghost predicate LeastOf(x: Request, pending: multiset<Request>) {
    x in pending && forall r :: r in pending ==> !Less(r, x)
  }

  lemma LeastOfMultiset(x: Request, s: seq<Request>)
    requires IsLeast(x, s)
    ensures LeastOf(x, multiset(s))
  {
    forall r | r in multiset(s)
      ensures !Less(r, x)
    {
      var i :| 0 <= i < |s| && s[i] == r;
    }
  }

  /** "Repeatedly send the least pending request", one step of it. */
  ghost predicate TurnSpec(pending: multiset<Request>, e: Event, pending': multiset<Request>) {
    match e
    case Accepted(r) => Accepting(|pending|) && pending' == pending + multiset{r}
    case Sent(r) => LeastOf(r, pending) && pending == pending' + multiset{r}
  }

  function Offered(offers: seq<Option<Request>>): seq<Request> {
    if offers == [] then []
    else (if offers[0].Some? then [offers[0].value] else []) + Offered(offers[1..])
  }

  /** What a turn of the loop makes of an offer: a request is accepted while there is room for it, one is sent while
      there is any; else nothing happens. */
  ghost predicate Answer(pending: multiset<Request>, offer: Option<Request>, outcome: Option<Event>,
                         pending': multiset<Request>) {
    if offer.Some? && Accepting(|pending|) then
      outcome == Some(Accepted(offer.value)) && TurnSpec(pending, outcome.value, pending')
    else if offer.None? && |pending| > 0 then
      outcome.Some? && outcome.value.Sent? && TurnSpec(pending, outcome.value, pending')
    else
      outcome.None? && pending' == pending
  }

  ghost predicate Answers(pending: multiset<Request>, offers: seq<Option<Request>>, outcomes: seq<Option<Event>>,
                          final: multiset<Request>)
    decreases |offers|
  {
    && |outcomes| == |offers|
    && if offers == [] then pending == final
       else exists p :: Answer(pending, offers[0], outcomes[0], p) && Answers(p, offers[1..], outcomes[1..], final)
  }

  /** A request on offer is accepted exactly while no more than 1024 are pending. */
  lemma AcceptedIff(pending: multiset<Request>, r: Request, outcome: Option<Event>, pending': multiset<Request>)
    requires Answer(pending, Some(r), outcome, pending')
    ensures if |pending| <= 1024 then outcome == Some(Accepted(r)) && pending' == pending + multiset{r}
            else outcome == None && pending' == pending
  {}

  /** Without an offer, the least pending request is sent. */
  lemma IdleTurnSends(pending: multiset<Request>, outcome: Option<Event>, pending': multiset<Request>)
    requires Answer(pending, None, outcome, pending')
    ensures if pending == multiset{} then outcome == None && pending' == pending
            else outcome.Some? && outcome.value.Sent? && pending == pending' + multiset{outcome.value.r}
                 && forall r :: r in pending ==> !Less(r, outcome.value.r)
  {
    hide Less;
  }

  /** After as many turns without an offer as there are requests pending, all are sent. */
  lemma {:induction false} AllAreSent(pending: multiset<Request>, offers: seq<Option<Request>>,
                                      outcomes: seq<Option<Event>>, final: multiset<Request>)
    requires Answers(pending, offers, outcomes, final)
    requires |offers| >= |pending| && forall o <- offers :: o == None
    ensures final == multiset{} && SentIn(Events(outcomes)) == pending
    decreases |offers|
  {
    hide Answer;
    if offers != [] {
      assert offers[0] in offers && forall o <- offers[1..] :: o in offers;
      var p :| Answer(pending, offers[0], outcomes[0], p) && Answers(p, offers[1..], outcomes[1..], final);
      IdleTurnSends(pending, outcomes[0], p);
      AllAreSent(p, offers[1..], outcomes[1..], final);
      assert outcomes[0].Some? ==> Events(outcomes)[1..] == Events(outcomes[1..]);
      assert outcomes[0].None? ==> Events(outcomes) == Events(outcomes[1..]);
    }
  }

  lemma AnswersNone(pending: multiset<Request>)
    ensures Answers(pending, [], [], pending)
  {}

  lemma AnswerIs(pending: multiset<Request>, offer: Option<Request>, outcome: Option<Event>,
                 pending': multiset<Request>)
    requires outcome.Some? ==> TurnSpec(pending, outcome.value, pending')
    requires outcome.None? ==> pending' == pending
    requires offer.Some? ==> outcome == if Accepting(|pending|) then Some(Accepted(offer.value)) else None
    requires offer.None? ==> (outcome.Some? <==> |pending| > 0) && (outcome.Some? ==> outcome.value.Sent?)
    ensures Answer(pending, offer, outcome, pending')
  {
    hide TurnSpec, Accepting;
  }

  lemma {:induction false} AnswersSnoc(pending: multiset<Request>, offers: seq<Option<Request>>,
                                       outcomes: seq<Option<Event>>, mid: multiset<Request>, offer: Option<Request>,
                                       outcome: Option<Event>, final: multiset<Request>)
    requires Answers(pending, offers, outcomes, mid) && Answer(mid, offer, outcome, final)
    ensures Answers(pending, offers + [offer], outcomes + [outcome], final)
    decreases |offers|
  {
    hide Answer;
    if offers == [] {
      assert offers + [offer] == [offer] && outcomes + [outcome] == [outcome];
      assert [offer][1..] == [] && [outcome][1..] == [];
      AnswersNone(final);
    } else {
      var p :| Answer(pending, offers[0], outcomes[0], p) && Answers(p, offers[1..], outcomes[1..], mid);
      AnswersSnoc(p, offers[1..], outcomes[1..], mid, offer, outcome, final);
      assert (offers + [offer])[1..] == offers[1..] + [offer];
      assert (outcomes + [outcome])[1..] == outcomes[1..] + [outcome];
    }
  }

  lemma OfferedRest(offers: seq<Option<Request>>)
    requires offers != []
    ensures Offered(offers) == (if offers[0].Some? then [offers[0].value] else []) + Offered(offers[1..])
  {}

  /** What is pending or still on offer was pending or on offer before. */
  lemma SmallerWindow(before: seq<Request>, after: seq<Request>, offer: Option<Request>, outcome: Option<Event>,
                      offered: seq<Request>, rest: seq<Request>)
    requires Answer(multiset(before), offer, outcome, multiset(after))
    requires offered == (if offer.Some? then [offer.value] else []) + rest
    ensures multiset(after + rest) <= multiset(before + offered)
  {
    hide LeastOf, Accepting;
  }

  function Events(outcomes: seq<Option<Event>>): seq<Event> {
    if outcomes == [] then []
    else (if outcomes[0].Some? then [outcomes[0].value] else []) + Events(outcomes[1..])
  }

  /** What shaperLoop does in answer to offers is a run of "repeatedly send the least pending request". */
  lemma {:induction false} AnswersAreRun(pending: multiset<Request>, offers: seq<Option<Request>>,
                                         outcomes: seq<Option<Event>>, final: multiset<Request>)
    requires Answers(pending, offers, outcomes, final)
    ensures IsRun(pending, Events(outcomes), final)
    decreases |offers|
  {
    if offers != [] {
      var p :| Answer(pending, offers[0], outcomes[0], p) && Answers(p, offers[1..], outcomes[1..], final);
      AnswersAreRun(p, offers[1..], outcomes[1..], final);
      var es := Events(outcomes);
      if outcomes[0].Some? {
        assert es[1..] == Events(outcomes[1..]);
        assert TurnSpec(pending, es[0], p);
      } else {
        assert es == Events(outcomes[1..]);
      }
    }
  }

  ghost predicate IsRun(pending: multiset<Request>, es: seq<Event>, final: multiset<Request>)
    decreases |es|
  {
    if es == [] then pending == final
    else exists p :: TurnSpec(pending, es[0], p) && IsRun(p, es[1..], final)
  }

  function AcceptedIn(es: seq<Event>): multiset<Request> {
    if es == [] then multiset{}
    else (if es[0].Accepted? then multiset{es[0].r} else multiset{}) + AcceptedIn(es[1..])
  }

  function SentIn(es: seq<Event>): multiset<Request> {
    if es == [] then multiset{}
    else (if es[0].Sent? then multiset{es[0].r} else multiset{}) + SentIn(es[1..])
  }

  /** Over any run, each accepted request has been sent or is pending, exactly once, and at most
      maxShaperSize + 1 are pending. */
  lemma {:induction false} NothingLostNothingTwice(pending: multiset<Request>, es: seq<Event>, final: multiset<Request>)
    requires IsRun(pending, es, final) && |pending| <= MAX_SHAPER_SIZE + 1
    ensures pending + AcceptedIn(es) == final + SentIn(es)
    ensures |final| <= MAX_SHAPER_SIZE + 1
    decreases |es|
  {
    if es != [] {
      var p :| TurnSpec(pending, es[0], p) && IsRun(p, es[1..], final);
      assert |pending| == |p| + 1 || |p| == |pending| + 1;
      NothingLostNothingTwice(p, es[1..], final);
      var r := multiset{es[0].r};
      if es[0].Accepted? {
        assert pending + (r + AcceptedIn(es[1..])) == p + AcceptedIn(es[1..]);
      } else {
        assert final + (r + SentIn(es[1..])) == p + AcceptedIn(es[1..]) + r;
      }
    }
  }

  lemma StaysOrLeaves(pending: multiset<Request>, e: Event, pending': multiset<Request>, r: Request)
    requires TurnSpec(pending, e, pending') && r in pending
    ensures e == Sent(r) || r in pending'
    ensures e.Sent? ==> !Less(r, e.r)
  {
    hide Less, Accepting;
  }

  lemma NotBeforeItself(r: Request)
    ensures !Less(r, r)
  {}

  /** A pending request that comes before another one leaves before it, whatever else is accepted meanwhile. So
      the frames of one class leave in issue order, and control frames overtake data. */
  lemma {:induction false} LeavesFirst(pending: multiset<Request>, es: seq<Event>, final: multiset<Request>,
                                       r: Request, k: nat)
    requires IsRun(pending, es, final) && r in pending
    requires k < |es| && es[k].Sent? && Less(r, es[k].r)
    ensures exists i :: 0 <= i < k && es[i] == Sent(r)
    decreases |es|
  {
    var p :| TurnSpec(pending, es[0], p) && IsRun(p, es[1..], final);
    StaysOrLeaves(pending, es[0], p, r);
    NotBeforeItself(r);
    hide Less, TurnSpec;
    if es[0] != Sent(r) {
      assert k > 0;
      LeavesFirst(p, es[1..], final, r, k - 1);
      var i :| 0 <= i < k - 1 && es[1..][i] == Sent(r);
      assert es[i + 1] == Sent(r);
    } else {
      assert k > 0;
    }
  }
}
