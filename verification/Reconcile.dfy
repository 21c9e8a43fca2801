/** Range-based set reconciliation of two replicas' served views: what a whole session
    leaves in both stores, for every pair of views and every pair of ingest verdicts.
    A session reads its own frozen view and writes the live store, so the two are apart here. */
module Reconcile {

  /** An entry by its identifier and its value; identifiers are integers in their order. */
  datatype Entry = Entry(key: int, value: int)

  /** `x == y` is everything, `x < y` is [x, y), `x > y` wraps around. */
  datatype Range = Range(x: int, y: int) {
    predicate Contains(t: int) {
      if x == y then true else if x < y then x <= t < y else x <= t || t < y
    }
  }

  type Fingerprint = bv256

  datatype Part =
    | Print(range: Range, fp: Fingerprint)
    | Items(range: Range, values: seq<Entry>, haveLocal: bool)

  predicate Sorted(t: seq<Entry>) {
    forall i, j | 0 <= i < j < |t| :: t[i].key < t[j].key
  }

  /** A view's entries in a range, in the view's order; a wrapping range yields its low half first. */
  function Within(t: seq<Entry>, r: Range): seq<Entry> {
    if t == [] then []
    else if r.Contains(t[0].key) then [t[0]] + Within(t[1..], r)
    else Within(t[1..], r)
  }

  lemma {:induction false} WithinMember(t: seq<Entry>, r: Range, e: Entry)
    ensures e in Within(t, r) <==> e in t && r.Contains(e.key)
  {
    if t != [] { WithinMember(t[1..], r, e); }
  }

  lemma {:induction false} WithinSorted(t: seq<Entry>, r: Range)
    requires Sorted(t)
    ensures Sorted(Within(t, r))
  {
    if t != [] {
      WithinSorted(t[1..], r);
      forall e | e in Within(t[1..], r) ensures t[0].key < e.key { WithinMember(t[1..], r, e); }
    }
  }

  ghost predicate Halves(r: Range, low: Range, high: Range) {
    forall k: int :: (r.Contains(k) <==> low.Contains(k) || high.Contains(k)) && !(low.Contains(k) && high.Contains(k))
  }

  lemma {:induction false} WithinHalves(t: seq<Entry>, r: Range, low: Range, high: Range)
    requires Halves(r, low, high)
    ensures |Within(t, r)| == |Within(t, low)| + |Within(t, high)|
  {
    if t != [] { WithinHalves(t[1..], r, low, high); }
  }

  /** The first index at or past `x`. */
  function StartIndex(list: seq<Entry>, x: int): (i: nat)
    ensures i <= |list|
    ensures forall j | 0 <= j < i :: list[j].key < x
    ensures i < |list| ==> x <= list[i].key
  {
    if list == [] || list[0].key >= x then 0 else 1 + StartIndex(list[1..], x)
  }

  /** Counted from below: how many of a sorted list's entries a range holds. */
  function Span(list: seq<Entry>, r: Range): int {
    var from, to := StartIndex(list, r.x), StartIndex(list, r.y);
    if r.x == r.y then |list| else if r.x < r.y then to - from else |list| - from + to
  }

  lemma {:induction false} WithinSpan(list: seq<Entry>, r: Range)
    requires Sorted(list)
    ensures |Within(list, r)| == Span(list, r)
  {
    if list != [] {
      WithinSpan(list[1..], r);
      StartIndexStep(list, r.x);
      StartIndexStep(list, r.y);
    }
  }

  lemma StartIndexStep(list: seq<Entry>, x: int)
    requires Sorted(list) && list != []
    ensures StartIndex(list, x) == (if list[0].key >= x then 0 else 1 + StartIndex(list[1..], x))
    ensures list[0].key >= x ==> StartIndex(list[1..], x) == 0
  {
    assert |list| > 1 ==> list[1..][0] == list[1];
  }

  lemma StartIndexAt(list: seq<Entry>, i: nat)
    requires Sorted(list) && i < |list|
    ensures StartIndex(list, list[i].key) == i
  {
    assert StartIndex(list, list[i].key) <= i;
  }

  /** A range within another reads the same of a view as of what the other holds of it. */
  lemma {:induction false} WithinWithin(t: seq<Entry>, r: Range, inner: Range)
    requires forall k: int :: inner.Contains(k) ==> r.Contains(k)
    ensures Within(Within(t, r), inner) == Within(t, inner)
  {
    if t != [] {
      WithinWithin(t[1..], r, inner);
      if r.Contains(t[0].key) { assert ([t[0]] + Within(t[1..], r))[1..] == Within(t[1..], r); }
    }
  }

  /** The pivots of a split in two: the middle and the end of the range, walked from its start. */
  function Pivot(list: seq<Entry>, start: nat, i: nat): int
    requires list != [] && i <= 1
  {
    list[(start + |list| * (i + 1) / 2) % |list|].key
  }

  function Split(r: Range, list: seq<Entry>): seq<Range>
    requires |list| >= 2
  {
    var start := StartIndex(list, r.x);
    var p0, p1 := Pivot(list, start, 0), Pivot(list, start, 1);
    if r.x == r.y then
      (if p0 != p1 then [Range(p0, p1)] else []) + (if p1 != p0 then [Range(p1, p0)] else [])
    else
      [Range(r.x, p0), Range(p0, r.y)]
  }

  function Wrapped(a: nat, n: nat): nat {
    if a < n then a else a - n
  }

  lemma Remainder(a: nat, n: nat, q: nat, r: nat)
    requires r < n && a == q * n + r
    ensures a % n == r
  {
    var p := a / n;
    assert a == p * n + a % n;
    assert p < q ==> (p + 1) * n <= q * n;
    assert q < p ==> (q + 1) * n <= p * n;
  }

  lemma PivotsOf(list: seq<Entry>, start: nat)
    requires |list| >= 2 && start <= |list|
    ensures Pivot(list, start, 0) == list[Wrapped(start + |list| / 2, |list|)].key
    ensures Pivot(list, start, 1) == list[Wrapped(start, |list|)].key
  {
    PivotIndices(start, |list|);
  }

  lemma PivotIndices(start: nat, n: nat)
    requires 2 <= n && start <= n
    ensures (start + n * (0 + 1) / 2) % n == Wrapped(start + n / 2, n) < n
    ensures (start + n * (1 + 1) / 2) % n == Wrapped(start, n) < n
  {
    assert n * (0 + 1) / 2 == n / 2 && n * (1 + 1) / 2 == n;
    var middle := start + n / 2;
    Remainder(middle, n, if middle < n then 0 else 1, Wrapped(middle, n));
    Remainder(start + n, n, if start < n then 1 else 2, Wrapped(start, n));
  }

  /** What the split's own comments promise: two ranges, no entry lost or sent twice, one with half of the entries here
      and one with the rest. */
  lemma SplitHalves(t: seq<Entry>, r: Range)
    requires Sorted(t) && |Within(t, r)| >= 2
    ensures var s, n := Split(r, Within(t, r)), |Within(t, r)|;
      && |s| == 2 && Halves(r, s[0], s[1])
      && (|Within(t, s[0])| == n / 2 || |Within(t, s[0])| == n - n / 2)
      && |Within(t, s[0])| + |Within(t, s[1])| == n
  {
    var list := Within(t, r);
    WithinSorted(t, r);
    forall e | e in list ensures r.Contains(e.key) && e in t { WithinMember(t, r, e); }
    SplitMiddle(r, list);
    var s := Split(r, list);
    WithinWithin(t, r, s[0]);
    WithinHalves(t, r, s[0], s[1]);
    WithinSpan(list, s[0]);
  }

  function Middle(list: seq<Entry>, start: nat): int
    requires |list| >= 2 && start <= |list|
  {
    list[Wrapped(start + |list| / 2, |list|)].key
  }

  function Lowest(list: seq<Entry>, start: nat): int
    requires |list| >= 2 && start <= |list|
  {
    list[Wrapped(start, |list|)].key
  }

  lemma SplitAt(r: Range, list: seq<Entry>)
    requires Sorted(list) && |list| >= 2
    ensures var start := StartIndex(list, r.x);
      var at, from := Middle(list, start), Lowest(list, start);
      && at != from
      && Split(r, list) == if r.x == r.y then [Range(at, from), Range(from, at)] else [Range(r.x, at), Range(at, r.y)]
  {
    hide Pivot, StartIndex;
    var start := StartIndex(list, r.x);
    PivotsOf(list, start);
    WrappedApart(start, |list|);
    hide Wrapped;
    var i, j := Wrapped(start + |list| / 2, |list|), Wrapped(start, |list|);
    assert i < j || j < i;
  }

  lemma WrappedApart(start: nat, n: nat)
    requires 2 <= n && start <= n
    ensures Wrapped(start + n / 2, n) != Wrapped(start, n) && Wrapped(start + n / 2, n) < n && Wrapped(start, n) < n
  {
  }

  lemma SplitMiddle(r: Range, list: seq<Entry>)
    requires Sorted(list) && |list| >= 2
    requires forall e | e in list :: r.Contains(e.key)
    ensures var s, n := Split(r, list), |list|;
      |s| == 2 && Halves(r, s[0], s[1]) && (Span(list, s[0]) == n / 2 || Span(list, s[0]) == n - n / 2)
  {
    var start := StartIndex(list, r.x);
    SplitAt(r, list);
    if r.x == r.y {
      HalvesOfAll(r.x, Middle(list, start), Lowest(list, start));
      SpanOfAll(list, start);
      hide *;
    } else {
      PivotPastStart(r, list, start, |list| / 2);
      HalvesAt(r, Middle(list, start));
      SpanPastStart(list, r.x, start);
      hide *;
    }
  }

  lemma SpanOfAll(list: seq<Entry>, start: nat)
    requires Sorted(list) && |list| >= 2 && start <= |list|
    ensures Span(list, Range(Middle(list, start), Lowest(list, start))) == |list| - |list| / 2
  {
    var n := |list|;
    StartIndexAt(list, Wrapped(start + n / 2, n));
    StartIndexAt(list, Wrapped(start, n));
    hide StartIndex;
  }

  lemma SpanPastStart(list: seq<Entry>, x: int, start: nat)
    requires Sorted(list) && |list| >= 2 && start == StartIndex(list, x)
    requires Middle(list, start) != x
    ensures Span(list, Range(x, Middle(list, start))) == |list| / 2
  {
    var a := Wrapped(start + |list| / 2, |list|);
    StartIndexAt(list, a);
    assert a < start ==> list[a].key < x;
    assert start <= a ==> x <= list[start].key <= list[a].key;
    hide StartIndex, Sorted;
  }

  lemma HalvesOfAll(x: int, p: int, q: int)
    requires p != q
    ensures Halves(Range(x, x), Range(p, q), Range(q, p))
  {
  }

  lemma HalvesAt(r: Range, p: int)
    requires r.x != r.y && r.Contains(p) && p != r.x
    ensures Halves(r, Range(r.x, p), Range(p, r.y))
  {
  }

  lemma PivotPastStart(r: Range, list: seq<Entry>, start: nat, half: nat)
    requires Sorted(list) && r.x != r.y && 1 <= half < |list| && start <= |list|
    requires forall e | e in list :: r.Contains(e.key)
    requires (forall j | 0 <= j < start :: list[j].key < r.x) && (start < |list| ==> r.x <= list[start].key)
    ensures var at, from := list[Wrapped(start + half, |list|)].key, list[Wrapped(start, |list|)].key;
      at != r.x && Range(r.x, at).Contains(from)
  {
  }

  /** The entries of ours a peer holding `theirs` still lacks. */
  function Diff(ours: seq<Entry>, theirs: seq<Entry>): seq<Entry> {
    if ours == [] then []
    else if exists t | t in theirs :: t.key == ours[0].key && t.value >= ours[0].value then Diff(ours[1..], theirs)
    else [ours[0]] + Diff(ours[1..], theirs)
  }

  lemma {:induction false} DiffMember(ours: seq<Entry>, theirs: seq<Entry>, e: Entry)
    ensures e in Diff(ours, theirs) <==> e in ours && !exists t | t in theirs :: t.key == e.key && t.value >= e.value
  {
    if ours != [] { DiffMember(ours[1..], theirs, e); }
  }

  function Chunk(maxSet: nat, fp: seq<Entry> -> Fingerprint, mine: seq<Entry>, r: Range): Part {
    var list := Within(mine, r);
    if |list| > maxSet then Print(r, fp(list)) else Items(r, list, false)
  }

  /** What one part of a message is answered with. */
  function ReplyTo(maxSet: nat, fp: seq<Entry> -> Fingerprint, mine: seq<Entry>, part: Part): seq<Part> {
    match part
    case Items(r, values, haveLocal) =>
      var diff := if haveLocal then [] else Diff(Within(mine, r), values);
      if diff == [] then [] else [Items(r, diff, true)]
    case Print(r, theirs) =>
      var list := Within(mine, r);
      if fp(list) == theirs then []
      else if |list| <= 1 || theirs == fp([]) then [Items(r, list, false)]
      else
        var s := Split(r, list);
        seq(|s|, i requires 0 <= i < |s| => Chunk(maxSet, fp, mine, s[i]))
  }

  /** A part sent before the peer has shown what it holds: a fingerprint for more entries than go at once, else all of
      them. */
  ghost predicate Shows(maxSet: nat, fp: seq<Entry> -> Fingerprint, mine: seq<Entry>, q: Part) {
    var list := Within(mine, q.range);
    if |list| > maxSet then q == Print(q.range, fp(list)) else q == Items(q.range, list, false)
  }

  /** What a part asks for: nothing where the two agree; a range's entries where there is at most one or the peer has
      none; else the range in two halves of the entries here. And of entries the peer showed, those it lacks, if any. */
  ghost predicate Answers(maxSet: nat, fp: seq<Entry> -> Fingerprint, mine: seq<Entry>, p: Part, reply: seq<Part>) {
    var list := Within(mine, p.range);
    match p
    case Print(r, theirs) =>
      if fp(list) == theirs then reply == []
      else if |list| <= 1 || theirs == fp([]) then reply == [Items(r, list, false)]
      else
        && |reply| == 2 && Halves(r, reply[0].range, reply[1].range)
        && |Within(mine, reply[0].range)| <= |list| - |list| / 2
          && |Within(mine, reply[1].range)| <= |list| - |list| / 2
        && Shows(maxSet, fp, mine, reply[0]) && Shows(maxSet, fp, mine, reply[1])
    case Items(r, values, haveLocal) =>
      if haveLocal || forall e | e in mine :: !Lacks(values, r, e) then reply == []
      else
        && |reply| == 1 && reply[0].Items? && reply[0].haveLocal && reply[0].range == r
        && forall e :: e in reply[0].values <==> e in mine && Lacks(values, r, e)
  }

  /** Shown these of the range, a peer has not this entry of it, nor a newer one. */
  ghost predicate Lacks(values: seq<Entry>, r: Range, e: Entry) {
    r.Contains(e.key) && !exists t | t in values :: t.key == e.key && t.value >= e.value
  }

  lemma ReplyAnswers(maxSet: nat, fp: seq<Entry> -> Fingerprint, mine: seq<Entry>, p: Part)
    requires Sorted(mine)
    ensures Answers(maxSet, fp, mine, p, ReplyTo(maxSet, fp, mine, p))
  {
    var list := Within(mine, p.range);
    if p.Items? {
      var diff := Diff(list, p.values);
      forall e ensures e in diff <==> e in mine && Lacks(p.values, p.range, e) {
        DiffMember(list, p.values, e);
        WithinMember(mine, p.range, e);
      }
      hide Lacks;
      if diff != [] { assert diff[0] in diff; }
    } else if !(fp(list) == p.fp || |list| <= 1 || p.fp == fp([])) {
      SplitHalves(mine, p.range);
    }
  }

  /** The replies to every part of one kind, in their order. */
  function Replies(maxSet: nat, fp: seq<Entry> -> Fingerprint, mine: seq<Entry>, msg: seq<Part>,
      items: bool): seq<Part> {
    if msg == [] then []
    else
      (if msg[0].Items? == items then ReplyTo(maxSet, fp, mine, msg[0]) else [])
      + Replies(maxSet, fp, mine, msg[1..], items)
  }

  lemma {:induction false} RepliesMember(maxSet: nat, fp: seq<Entry> -> Fingerprint, mine: seq<Entry>, msg: seq<Part>,
      items: bool, q: Part)
    ensures q in Replies(maxSet, fp, mine, msg, items) <==>
            exists p :: p in msg && p.Items? == items && q in ReplyTo(maxSet, fp, mine, p)
  {
    if msg != [] {
      RepliesMember(maxSet, fp, mine, msg[1..], items, q);
      assert forall p :: p in msg <==> p == msg[0] || p in msg[1..];
    }
  }

  function Respond(maxSet: nat, fp: seq<Entry> -> Fingerprint, mine: seq<Entry>, msg: seq<Part>): seq<Part> {
    Replies(maxSet, fp, mine, msg, true) + Replies(maxSet, fp, mine, msg, false)
  }

  lemma RespondMember(maxSet: nat, fp: seq<Entry> -> Fingerprint, mine: seq<Entry>, msg: seq<Part>, q: Part)
    ensures q in Respond(maxSet, fp, mine, msg) <==> exists p :: p in msg && q in ReplyTo(maxSet, fp, mine, p)
  {
    RepliesMember(maxSet, fp, mine, msg, true, q);
    RepliesMember(maxSet, fp, mine, msg, false, q);
  }

  /** Every part is answered, and nothing else is said. */
  ghost predicate Replied(maxSet: nat, fp: seq<Entry> -> Fingerprint, mine: seq<Entry>, msg: seq<Part>,
      reply: seq<Part>) {
    && (forall p | p in msg :: exists parts :: Answers(maxSet, fp, mine, p, parts) && forall q | q in parts ::
      q in reply)
    && forall q | q in reply :: exists p, parts :: p in msg && Answers(maxSet, fp, mine, p, parts) && q in parts
  }

  lemma RespondReplies(maxSet: nat, fp: seq<Entry> -> Fingerprint, mine: seq<Entry>, msg: seq<Part>)
    requires Sorted(mine)
    ensures Replied(maxSet, fp, mine, msg, Respond(maxSet, fp, mine, msg))
  {
    hide Answers, ReplyTo, Respond;
    var reply := Respond(maxSet, fp, mine, msg);
    forall p | p in msg ensures exists parts :: Answers(maxSet, fp, mine, p, parts) && forall q | q in parts ::
      q in reply {
      ReplyAnswers(maxSet, fp, mine, p);
      forall q | q in ReplyTo(maxSet, fp, mine, p) ensures q in reply { RespondMember(maxSet, fp, mine, msg, q); }
    }
    forall q | q in reply ensures exists p, parts :: p in msg && Answers(maxSet, fp, mine, p, parts) && q in parts {
      RespondMember(maxSet, fp, mine, msg, q);
      var p :| p in msg && q in ReplyTo(maxSet, fp, mine, p);
      ReplyAnswers(maxSet, fp, mine, p);
    }
  }

  /** The entries a message's item parts carry, in their order. */
  function Offered(msg: seq<Part>): seq<Entry> {
    if msg == [] then []
    else (if msg[0].Items? then msg[0].values else []) + Offered(msg[1..])
  }

  lemma {:induction false} OfferedMember(msg: seq<Part>, e: Entry)
    ensures e in Offered(msg) <==> exists p :: p in msg && p.Items? && e in p.values
  {
    if msg != [] {
      OfferedMember(msg[1..], e);
      assert forall p :: p in msg <==> p == msg[0] || p in msg[1..];
    }
  }

  /** Insert `e` unless the entry at its key is not older. */
  function Put(live: map<int, int>, e: Entry): map<int, int> {
    if e.key in live && e.value <= live[e.key] then live else live[e.key := e.value]
  }

  function PutAll(live: map<int, int>, es: seq<Entry>, admits: Entry -> bool): map<int, int>
    decreases es
  {
    if es == [] then live
    else PutAll(if admits(es[0]) then Put(live, es[0]) else live, es[1..], admits)
  }

  /** `m` is `live` joined with what `admits` takes of `es`: an upper bound of both, made of nothing else. */
  ghost predicate IsJoin(live: map<int, int>, es: seq<Entry>, admits: Entry -> bool, m: map<int, int>) {
    && (forall k | k in live :: k in m && live[k] <= m[k])
    && (forall e | e in es && admits(e) :: e.key in m && e.value <= m[e.key])
    && (forall k | k in m :: (k in live && m[k] == live[k]) || (Entry(k, m[k]) in es && admits(Entry(k, m[k]))))
  }

  lemma {:induction false} PutAllIsJoin(live: map<int, int>, es: seq<Entry>, admits: Entry -> bool)
    ensures IsJoin(live, es, admits, PutAll(live, es, admits))
    decreases es
  {
    if es != [] {
      var next := if admits(es[0]) then Put(live, es[0]) else live;
      PutAllIsJoin(next, es[1..], admits);
      var m := PutAll(live, es, admits);
      assert forall e :: e in es <==> e == es[0] || e in es[1..];
      forall k | k in live ensures k in m && live[k] <= m[k] { assert k in next; }
    }
  }

  lemma JoinBelow(live: map<int, int>, es: seq<Entry>, fs: seq<Entry>, admits: Entry -> bool, m: map<int, int>,
      n: map<int, int>)
    requires forall e | e in es :: e in fs
    requires IsJoin(live, es, admits, m) && IsJoin(live, fs, admits, n)
    ensures forall k | k in m :: k in n && m[k] <= n[k]
  {
  }

  lemma JoinIsUnique(live: map<int, int>, es: seq<Entry>, fs: seq<Entry>, admits: Entry -> bool, m: map<int, int>,
      n: map<int, int>)
    requires forall e :: e in es <==> e in fs
    requires IsJoin(live, es, admits, m) && IsJoin(live, fs, admits, n)
    ensures m == n
  {
    JoinBelow(live, es, fs, admits, m, n);
    JoinBelow(live, fs, es, admits, n, m);
    assert forall k :: k in m.Keys <==> k in n.Keys;
    assert m.Keys == n.Keys;
    forall k | k in m ensures m[k] == n[k] { assert m[k] <= n[k] && n[k] <= m[k]; }
  }

  /** Whatever order the same entries arrive in, and however often, the store ends the same. */
  lemma PutAllIgnoresOrder(live: map<int, int>, es: seq<Entry>, fs: seq<Entry>, admits: Entry -> bool)
    requires forall e :: e in es <==> e in fs
    ensures PutAll(live, es, admits) == PutAll(live, fs, admits)
  {
    PutAllIsJoin(live, es, admits);
    PutAllIsJoin(live, fs, admits);
    JoinIsUnique(live, es, fs, admits, PutAll(live, es, admits), PutAll(live, fs, admits));
  }

  lemma {:induction false} PutAllAppend(live: map<int, int>, es: seq<Entry>, fs: seq<Entry>, admits: Entry -> bool)
    ensures PutAll(live, es + fs, admits) == PutAll(PutAll(live, es, admits), fs, admits)
    decreases es
  {
    if es == [] {
      assert es + fs == fs;
    } else {
      assert (es + fs)[1..] == es[1..] + fs;
      PutAllAppend(if admits(es[0]) then Put(live, es[0]) else live, es[1..], fs, admits);
    }
  }

  /** One message in: item parts first, the live store taking what is admitted, then fingerprints. */
  method ProcessMessage(maxSet: nat, fp: seq<Entry> -> Fingerprint, mine: seq<Entry>, live: map<int, int>,
      admits: Entry -> bool, msg: seq<Part>)
    returns (reply: seq<Part>, after: map<int, int>)
    ensures reply == Respond(maxSet, fp, mine, msg)
    ensures Sorted(mine) ==> Replied(maxSet, fp, mine, msg, reply)
    ensures after == PutAll(live, Offered(msg), admits)
  {
    if Sorted(mine) { RespondReplies(maxSet, fp, mine, msg); }
    hide Replied;
    after := StoreOffered(live, admits, msg);
    var items := ProcessParts(maxSet, fp, mine, msg, true);
    var prints := ProcessParts(maxSet, fp, mine, msg, false);
    reply := items + prints;
  }

  method StoreOffered(live: map<int, int>, admits: Entry -> bool, msg: seq<Part>) returns (after: map<int, int>)
    ensures after == PutAll(live, Offered(msg), admits)
  {
    after := live;
    for i := 0 to |msg|
      invariant PutAll(after, Offered(msg[i..]), admits) == PutAll(live, Offered(msg), admits)
    {
      OfferedStep(after, msg, i, admits);
      if msg[i].Items? {
        after := Store(after, msg[i].values, admits);
      }
    }
  }

  lemma RepliesStep(maxSet: nat, fp: seq<Entry> -> Fingerprint, mine: seq<Entry>, msg: seq<Part>, i: nat, items: bool)
    requires i < |msg|
    ensures Replies(maxSet, fp, mine, msg[i..], items) ==
            (if msg[i].Items? == items then ReplyTo(maxSet, fp, mine, msg[i]) else [])
              + Replies(maxSet, fp, mine, msg[i + 1..], items)
  {
  }

  lemma Associates(x: seq<Part>, y: seq<Part>, z: seq<Part>)
    ensures x + (y + z) == (x + y) + z
  {
  }

  lemma OfferedStep(live: map<int, int>, msg: seq<Part>, i: nat, admits: Entry -> bool)
    requires i < |msg|
    ensures PutAll(live, Offered(msg[i..]), admits) ==
            PutAll(if msg[i].Items? then PutAll(live, msg[i].values, admits) else live, Offered(msg[i + 1..]), admits)
  {
    assert msg[i..][1..] == msg[i + 1..];
    if msg[i].Items? {
      PutAllAppend(live, msg[i].values, Offered(msg[i + 1..]), admits);
    } else {
      assert Offered(msg[i..]) == Offered(msg[i + 1..]);
    }
  }

  /** The parts of one kind, answered from the frozen view, which no stored entry changes. */
  method ProcessParts(maxSet: nat, fp: seq<Entry> -> Fingerprint, mine: seq<Entry>, msg: seq<Part>, items: bool)
      returns (reply: seq<Part>)
    ensures reply == Replies(maxSet, fp, mine, msg, items)
  {
    reply := [];
    for i := 0 to |msg|
      invariant reply + Replies(maxSet, fp, mine, msg[i..], items) == Replies(maxSet, fp, mine, msg, items)
    {
      RepliesStep(maxSet, fp, mine, msg, i, items);
      var answer := if msg[i].Items? == items then ReplyTo(maxSet, fp, mine, msg[i]) else [];
      Associates(reply, answer, Replies(maxSet, fp, mine, msg[i + 1..], items));
      reply := reply + answer;
    }
  }

  method Store(live: map<int, int>, values: seq<Entry>, admits: Entry -> bool) returns (after: map<int, int>)
    ensures after == PutAll(live, values, admits)
  {
    after := live;
    for i := 0 to |values|
      invariant PutAll(after, values[i..], admits) == PutAll(live, values, admits)
    {
      assert values[i..][1..] == values[i + 1..];
      if admits(values[i]) { after := Put(after, values[i]); }
    }
  }

  /** Equal fingerprints of a range mean equal entries in it: no collision between these two views. */
  ghost predicate Faithful(fp: seq<Entry> -> Fingerprint, a: seq<Entry>, b: seq<Entry>) {
    forall r: Range :: fp(Within(a, r)) == fp(Within(b, r)) ==> Within(a, r) == Within(b, r)
  }

  /** `from`'s entry `e` has to reach `to`. */
  ghost predicate Owed(from: seq<Entry>, to: seq<Entry>, e: Entry) {
    e in from && !exists t | t in to :: t.key == e.key && t.value >= e.value
  }

  /** A part its sender built from its own view. */
  ghost predicate Honest(fp: seq<Entry> -> Fingerprint, sender: seq<Entry>, p: Part) {
    match p
    case Print(r, f) => f == fp(Within(sender, r))
    case Items(r, values, haveLocal) =>
      if haveLocal then forall e | e in values :: e in sender else values == Within(sender, r)
  }

  /** `p` still decides what becomes of an entry the sender owes. */
  ghost predicate Carries(p: Part, e: Entry) {
    if p.Items? && p.haveLocal then e in p.values else p.range.Contains(e.key)
  }

  /** `p` asks its receiver for what the receiver owes at `e`'s key. */
  ghost predicate Asks(p: Part, e: Entry) {
    !(p.Items? && p.haveLocal) && p.range.Contains(e.key)
  }

  /** How often a number is halved, rounding up, until it is at most one. */
  function Halvings(n: nat): nat { if n <= 1 then 0 else 1 + Halvings(n - n / 2) }

  lemma {:induction false} HalvingsGrow(m: nat, n: nat)
    requires m <= n
    ensures Halvings(m) <= Halvings(n)
  {
    if m > 1 { HalvingsGrow(m - m / 2, n - n / 2); }
  }

  function Rank(a: seq<Entry>, b: seq<Entry>, p: Part): nat {
    match p
    case Print(r, _) => 2 + Halvings(|Within(a, r)|) + Halvings(|Within(b, r)|)
    case Items(_, _, haveLocal) => if haveLocal then 0 else 1
  }

  lemma HalvesCommute(r: Range, low: Range, high: Range)
    requires Halves(r, low, high)
    ensures Halves(r, high, low)
  {
  }

  lemma HalfRanksLower(mine: seq<Entry>, theirs: seq<Entry>, p: Part, low: Range, high: Range, f: Fingerprint)
    requires p.Print? && Halves(p.range, low, high) && |Within(mine, p.range)| >= 2
    requires |Within(mine, low)| <= |Within(mine, p.range)| - |Within(mine, p.range)| / 2
    ensures Rank(mine, theirs, Print(low, f)) < Rank(mine, theirs, p)
  {
    WithinHalves(theirs, p.range, low, high);
    hide Within, Halves;
    HalvingsGrow(|Within(mine, low)|, |Within(mine, p.range)| - |Within(mine, p.range)| / 2);
    HalvingsGrow(|Within(theirs, low)|, |Within(theirs, p.range)|);
  }

  lemma ReplyRanksLower(maxSet: nat, fp: seq<Entry> -> Fingerprint, mine: seq<Entry>, theirs: seq<Entry>,
      p: Part, q: Part)
    requires Sorted(mine) && q in ReplyTo(maxSet, fp, mine, p)
    ensures Rank(mine, theirs, q) < Rank(mine, theirs, p) && Honest(fp, mine, q)
  {
    hide ReplyTo, Within, Halvings, Halves, Sorted, Lacks;
    ReplyAnswers(maxSet, fp, mine, p);
    var reply, list := ReplyTo(maxSet, fp, mine, p), Within(mine, p.range);
    if p.Print? && !(|list| <= 1 || p.fp == fp([])) {
      var low, high := reply[0].range, reply[1].range;
      HalvesCommute(p.range, low, high);
      HalfRanksLower(mine, theirs, p, low, high, fp(Within(mine, low)));
      HalfRanksLower(mine, theirs, p, high, low, fp(Within(mine, high)));
    }
  }

  lemma SplitCarries(maxSet: nat, fp: seq<Entry> -> Fingerprint, mine: seq<Entry>, p: Part, e: Entry) returns (q: Part)
    requires Sorted(mine) && p.Print? && p.range.Contains(e.key) && fp(Within(mine, p.range)) != p.fp
    ensures q in ReplyTo(maxSet, fp, mine, p) && Asks(q, e) && Carries(q, e)
  {
    var list := Within(mine, p.range);
    if |list| <= 1 || p.fp == fp([]) {
      q := ReplyTo(maxSet, fp, mine, p)[0];
    } else {
      SplitHalves(mine, p.range);
      var s := Split(p.range, list);
      q := Chunk(maxSet, fp, mine, if s[0].Contains(e.key) then s[0] else s[1]);
      assert q == ReplyTo(maxSet, fp, mine, p)[if s[0].Contains(e.key) then 0 else 1];
    }
  }

  lemma DifferingRangePrintsDiffer(fp: seq<Entry> -> Fingerprint, a: seq<Entry>, b: seq<Entry>, r: Range, e: Entry)
    requires Faithful(fp, a, b) && r.Contains(e.key) && Owed(a, b, e)
    ensures fp(Within(a, r)) != fp(Within(b, r))
  {
    WithinMember(a, r, e);
    WithinMember(b, r, e);
  }

  /** Everything either side owes has been offered already, or a part under way still decides it. */
  ghost predicate Pending(sender: seq<Entry>, receiver: seq<Entry>, offeredToSender: seq<Entry>,
      offeredToReceiver: seq<Entry>, msg: seq<Part>) {
    && (forall e | Owed(sender, receiver, e) :: e in offeredToReceiver || exists p :: p in msg && Carries(p, e))
    && (forall e | Owed(receiver, sender, e) :: e in offeredToSender || exists p :: p in msg && Asks(p, e))
  }

  lemma InitialPending(a: seq<Entry>, b: seq<Entry>, p: Part)
    requires p.Print? && p.range.x == p.range.y
    ensures Pending(a, b, [], [], [p])
  {
    assert p in [p];
    forall e: Entry ensures Carries(p, e) && Asks(p, e) {}
  }

  lemma SenderOwedHandled(maxSet: nat, fp: seq<Entry> -> Fingerprint, sender: seq<Entry>, receiver: seq<Entry>,
      msg: seq<Part>, p: Part, e: Entry)
    requires Sorted(sender) && Sorted(receiver) && Faithful(fp, sender, receiver)
    requires p in msg && Honest(fp, sender, p) && Carries(p, e) && Owed(sender, receiver, e)
    ensures e in Offered(msg) || exists q :: q in Respond(maxSet, fp, receiver, msg) && Asks(q, e)
  {
    if p.Items? {
      OfferedMember(msg, e);
      WithinMember(sender, p.range, e);
    } else {
      DifferingRangePrintsDiffer(fp, sender, receiver, p.range, e);
      var q := SplitCarries(maxSet, fp, receiver, p, e);
      RespondMember(maxSet, fp, receiver, msg, q);
    }
  }

  lemma ReceiverOwedHandled(maxSet: nat, fp: seq<Entry> -> Fingerprint, sender: seq<Entry>, receiver: seq<Entry>,
      msg: seq<Part>, p: Part, e: Entry)
    requires Sorted(sender) && Sorted(receiver) && Faithful(fp, sender, receiver)
    requires p in msg && Honest(fp, sender, p) && Asks(p, e) && Owed(receiver, sender, e)
    ensures exists q :: q in Respond(maxSet, fp, receiver, msg) && Carries(q, e)
  {
    var q: Part;
    if p.Items? {
      var diff := Diff(Within(receiver, p.range), p.values);
      WithinMember(receiver, p.range, e);
      forall t | t in p.values ensures t in sender { WithinMember(sender, p.range, t); }
      DiffMember(Within(receiver, p.range), p.values, e);
      q := Items(p.range, diff, true);
      assert q == ReplyTo(maxSet, fp, receiver, p)[0];
    } else {
      assert fp(Within(receiver, p.range)) != p.fp by {
        WithinMember(receiver, p.range, e);
        WithinMember(sender, p.range, e);
      }
      q := SplitCarries(maxSet, fp, receiver, p, e);
    }
    RespondMember(maxSet, fp, receiver, msg, q);
  }

  lemma RoundKeepsPending(maxSet: nat, fp: seq<Entry> -> Fingerprint, sender: seq<Entry>, receiver: seq<Entry>,
      offS: seq<Entry>, offR: seq<Entry>, msg: seq<Part>)
    requires Sorted(sender) && Sorted(receiver) && Faithful(fp, sender, receiver)
    requires forall p | p in msg :: Honest(fp, sender, p)
    requires Pending(sender, receiver, offS, offR, msg)
    ensures Pending(receiver, sender, offR + Offered(msg), offS, Respond(maxSet, fp, receiver, msg))
  {
    forall e | Owed(sender, receiver, e)
      ensures e in offR + Offered(msg) || exists q :: q in Respond(maxSet, fp, receiver, msg) && Asks(q, e)
    {
      if e !in offR {
        var p :| p in msg && Carries(p, e);
        SenderOwedHandled(maxSet, fp, sender, receiver, msg, p, e);
      }
    }
    forall e | Owed(receiver, sender, e)
      ensures e in offS || exists q :: q in Respond(maxSet, fp, receiver, msg) && Carries(q, e)
    {
      if e !in offS {
        var p :| p in msg && Asks(p, e);
        ReceiverOwedHandled(maxSet, fp, sender, receiver, msg, p, e);
      }
    }
  }

  lemma RoundKeepsHonest(maxSet: nat, fp: seq<Entry> -> Fingerprint, sender: seq<Entry>, receiver: seq<Entry>,
      msg: seq<Part>, bound: nat)
    requires Sorted(sender) && Sorted(receiver)
    requires forall p | p in msg :: Honest(fp, sender, p) && Rank(sender, receiver, p) < bound
    ensures forall q | q in Respond(maxSet, fp, receiver, msg) ::
      Honest(fp, receiver, q) && Rank(receiver, sender, q) < bound - 1
    ensures forall e | e in Offered(msg) :: e in sender
  {
    forall q | q in Respond(maxSet, fp, receiver, msg)
      ensures Honest(fp, receiver, q) && Rank(receiver, sender, q) < bound - 1
    {
      RespondMember(maxSet, fp, receiver, msg, q);
      var p :| p in msg && q in ReplyTo(maxSet, fp, receiver, p);
      ReplyRanksLower(maxSet, fp, receiver, sender, p, q);
    }
    forall e | e in Offered(msg) ensures e in sender {
      OfferedMember(msg, e);
      var p :| p in msg && p.Items? && e in p.values;
      WithinMember(sender, p.range, e);
    }
  }

  /** The live store holds at least what the session serves of it. */
  ghost predicate Covers(live: map<int, int>, view: seq<Entry>) {
    forall e | e in view :: e.key in live && e.value <= live[e.key]
  }

  lemma OwedSuffices(live: map<int, int>, mine: seq<Entry>, theirs: seq<Entry>, offered: seq<Entry>,
      admits: Entry -> bool)
    requires Covers(live, mine)
    requires forall e | e in offered :: e in theirs
    requires forall e | Owed(theirs, mine, e) :: e in offered
    ensures PutAll(live, offered, admits) == PutAll(live, theirs, admits)
  {
    PutAllIsJoin(live, offered, admits);
    PutAllIsJoin(live, theirs, admits);
    JoinIsUnique(live, theirs, theirs, admits, PutAll(live, offered, admits), PutAll(live, theirs, admits)) by {
      var m := PutAll(live, offered, admits);
      forall e | e in theirs && admits(e) ensures e.key in m && e.value <= m[e.key] {
        if !Owed(theirs, mine, e) {
          var t :| t in mine && t.key == e.key && t.value >= e.value;
          assert e.key in live && e.value <= live[e.key];
        }
      }
    }
  }

  /** A part that sends no more than it has to: a fingerprint stands for more entries than go at once, entries go
      unasked only where they are no more than that, or one, or the peer has shown to have none, and in answer only
      those the peer lacks. */
  ghost predicate Sparing(maxSet: nat, fp: seq<Entry> -> Fingerprint, sender: seq<Entry>, receiver: seq<Entry>,
      before: seq<Part>, p: Part) {
    match p
    case Print(r, f) => f == fp(Within(sender, r)) && |Within(sender, r)| > maxSet
    case Items(r, values, haveLocal) =>
      if haveLocal then values != [] && forall e | e in values :: r.Contains(e.key) && Owed(sender, receiver, e)
      else values == Within(sender, r) && (|values| <= maxSet || |values| <= 1 || Print(r, fp([])) in before)
  }

  lemma ReplyIsSparing(maxSet: nat, fp: seq<Entry> -> Fingerprint, sender: seq<Entry>, receiver: seq<Entry>,
      msg: seq<Part>)
    requires Sorted(sender) && forall p | p in msg :: Honest(fp, receiver, p)
    ensures forall q | q in Respond(maxSet, fp, sender, msg) :: Sparing(maxSet, fp, sender, receiver, msg, q)
  {
    hide Respond, ReplyTo;
    forall q | q in Respond(maxSet, fp, sender, msg) ensures Sparing(maxSet, fp, sender, receiver, msg, q) {
      RespondMember(maxSet, fp, sender, msg, q);
      var p :| p in msg && q in ReplyTo(maxSet, fp, sender, p);
      AnswerIsSparing(maxSet, fp, sender, receiver, msg, p, q);
    }
  }

  lemma AnswerIsSparing(maxSet: nat, fp: seq<Entry> -> Fingerprint, sender: seq<Entry>, receiver: seq<Entry>,
      msg: seq<Part>, p: Part, q: Part)
    requires Sorted(sender) && p in msg && Honest(fp, receiver, p) && q in ReplyTo(maxSet, fp, sender, p)
    ensures Sparing(maxSet, fp, sender, receiver, msg, q)
  {
    ReplyAnswers(maxSet, fp, sender, p);
    if p.Items? {
      hide Within;
      forall e | e in q.values ensures Owed(sender, receiver, e) {
        if t :| t in receiver && t.key == e.key && t.value >= e.value { WithinMember(receiver, p.range, t); }
      }
    }
  }

  /** A session, message by message until one side has nothing left to say: as many messages at most as each view can be
      halved, and three; one alone exactly when the two views' fingerprints match; each part of each of them sparing.
      Unless two differing ranges collide, both live stores end as though the peer's whole served view had been put
      entry by entry under the side's own verdict. */
  method Session(maxSet: nat, fp: seq<Entry> -> Fingerprint, a: seq<Entry>, b: seq<Entry>,
                 liveA: map<int, int>, liveB: map<int, int>, admitsA: Entry -> bool, admitsB: Entry -> bool)
    returns (endA: map<int, int>, endB: map<int, int>, log: seq<seq<Part>>)
    requires Sorted(a) && Sorted(b)
    requires Covers(liveA, a) && Covers(liveB, b)
    ensures Faithful(fp, a, b) ==> endA == PutAll(liveA, b, admitsA)
    ensures Faithful(fp, a, b) ==> endB == PutAll(liveB, a, admitsB)
    ensures 1 <= |log| <= Halvings(|a|) + Halvings(|b|) + 3
    ensures exists x :: Logged(maxSet, fp, a, b, Print(Range(x, x), fp(a)), log)
    ensures |log| == 1 <==> fp(a) == fp(b)
    ensures fp(a) == fp(b) ==> endA == liveA && endB == liveB
  {
    hide *;
    var first := if a == [] then 0 else a[0].key;
    var msg := [Print(Range(first, first), fp(a))];
    ghost var opening := msg[0];
    Opens(maxSet, fp, a, b, first);
    var toB := true;
    endA, endB, log := liveA, liveB, [msg];
    ghost var offA: seq<Entry>, offB: seq<Entry>, bound: nat := [], [], Halvings(|a|) + Halvings(|b|) + 3;
    NothingPut(liveA, admitsA);
    NothingPut(liveB, admitsB);
    while msg != []
      invariant |log| + bound == Halvings(|a|) + Halvings(|b|) + 4
      invariant Logged(maxSet, fp, a, b, opening, log)
      invariant |log| >= 1 && log[|log| - 1] == msg && toB == (|log| % 2 == 1) && (|log| == 1 ==> msg == [opening])
      invariant fp(a) == fp(b) ==> |log| <= 2 && (|log| == 2 ==> msg == []) && offA == offB == []
      invariant |log| == 1 || (|log| == 2 && fp(a) != fp(b)) ==> msg != []
      invariant endA == PutAll(liveA, offA, admitsA) && endB == PutAll(liveB, offB, admitsB)
      invariant if toB then Going(fp, a, b, offA, offB, msg, bound) else Going(fp, b, a, offB, offA, msg, bound)
      decreases bound
    {
      GoingIsHonest(fp, if toB then a else b, if toB then b else a, if toB then offA else offB,
        if toB then offB else offA, msg, bound);
      LogStep(maxSet, fp, a, b, opening, log, msg, toB);
      if toB {
        TurnKeeps(maxSet, fp, a, b, offA, offB, msg, bound);
        PutAllAppend(liveB, offB, Offered(msg), admitsB);
        if |log| == 1 { FirstReply(maxSet, fp, b, msg[0]); }
        offB := offB + Offered(msg);
        msg, endB := ProcessMessage(maxSet, fp, b, endB, admitsB, msg);
      } else {
        TurnKeeps(maxSet, fp, b, a, offB, offA, msg, bound);
        PutAllAppend(liveA, offA, Offered(msg), admitsA);
        offA := offA + Offered(msg);
        msg, endA := ProcessMessage(maxSet, fp, a, endA, admitsA, msg);
      }
      log, toB, bound := log + [msg], !toB, bound - 1;
    }
    LogEnds(maxSet, fp, a, b, opening, log);
    log := log[..|log| - 1];
    if Faithful(fp, a, b) {
      FaithfulCommutes(fp, a, b);
      if toB { GoneOut(fp, a, b, offA, offB, bound); } else { GoneOut(fp, b, a, offB, offA, bound); }
      OwedSuffices(liveA, a, b, offA, admitsA);
      OwedSuffices(liveB, b, a, offB, admitsB);
    }
  }

  lemma Opens(maxSet: nat, fp: seq<Entry> -> Fingerprint, a: seq<Entry>, b: seq<Entry>, x: int)
    ensures var opening := Print(Range(x, x), fp(a));
      && Going(fp, a, b, [], [], [opening], Halvings(|a|) + Halvings(|b|) + 3)
      && Logged(maxSet, fp, a, b, opening, [[opening]])
  {
    WithinAll(a, x);
    WithinAll(b, x);
    InitialPending(a, b, Print(Range(x, x), fp(a)));
  }

  lemma NothingPut(live: map<int, int>, admits: Entry -> bool)
    ensures PutAll(live, [], admits) == live
  {
  }

  lemma GoingIsHonest(fp: seq<Entry> -> Fingerprint, sender: seq<Entry>, receiver: seq<Entry>, offS: seq<Entry>,
      offR: seq<Entry>, msg: seq<Part>, bound: nat)
    requires Going(fp, sender, receiver, offS, offR, msg, bound)
    ensures forall p | p in msg :: Honest(fp, sender, p)
  {
    hide Honest, Rank, Faithful, Pending;
  }

  /** The two sides take turns, the dialing one first. */
  function Sender(a: seq<Entry>, b: seq<Entry>, i: nat): seq<Entry> { if i % 2 == 0 then a else b }

  function Receiver(a: seq<Entry>, b: seq<Entry>, i: nat): seq<Entry> { Sender(a, b, i + 1) }

  /** The messages so far and the one under way: the opening one first, and every later one sparing. */
  ghost predicate Logged(maxSet: nat, fp: seq<Entry> -> Fingerprint, a: seq<Entry>, b: seq<Entry>, opening: Part,
      log: seq<seq<Part>>) {
    && log != [] && log[0] == [opening]
    && forall i: nat, p | i + 1 < |log| && p in log[i + 1] ::
      Sparing(maxSet, fp, Receiver(a, b, i), Sender(a, b, i), log[i], p)
  }

  lemma LoggedOn(maxSet: nat, fp: seq<Entry> -> Fingerprint, a: seq<Entry>, b: seq<Entry>, opening: Part,
      log: seq<seq<Part>>, next: seq<Part>, last: nat)
    requires Logged(maxSet, fp, a, b, opening, log) && last + 1 == |log|
    requires forall p | p in next :: Sparing(maxSet, fp, Receiver(a, b, last), Sender(a, b, last), log[last], p)
    ensures Logged(maxSet, fp, a, b, opening, log + [next])
  {
    hide Sparing, Sender, Receiver;
    var longer := log + [next];
    assert longer[0] == log[0];
    forall i: nat, p | i + 1 < |longer| && p in longer[i + 1]
      ensures Sparing(maxSet, fp, Receiver(a, b, i), Sender(a, b, i), longer[i], p)
    {
      if i < last { assert longer[i + 1] == log[i + 1] && longer[i] == log[i]; }
      else { assert longer[i + 1] == next && longer[i] == log[i]; }
    }
  }

  lemma LogStep(maxSet: nat, fp: seq<Entry> -> Fingerprint, a: seq<Entry>, b: seq<Entry>, opening: Part,
      log: seq<seq<Part>>, msg: seq<Part>, toB: bool)
    requires Sorted(a) && Sorted(b) && Logged(maxSet, fp, a, b, opening, log)
    requires |log| >= 1 && log[|log| - 1] == msg && toB == (|log| % 2 == 1)
    requires forall p | p in msg :: Honest(fp, if toB then a else b, p)
    ensures Logged(maxSet, fp, a, b, opening, log + [Respond(maxSet, fp, if toB then b else a, msg)])
  {
    hide Sparing, Respond, Honest, Sorted, Logged;
    var last := |log| - 1;
    assert Receiver(a, b, last) == (if toB then b else a) && Sender(a, b, last) == if toB then a else b;
    ReplyIsSparing(maxSet, fp, Receiver(a, b, last), Sender(a, b, last), msg);
    LoggedOn(maxSet, fp, a, b, opening, log, Respond(maxSet, fp, if toB then b else a, msg), last);
  }

  lemma LogEnds(maxSet: nat, fp: seq<Entry> -> Fingerprint, a: seq<Entry>, b: seq<Entry>, opening: Part,
      log: seq<seq<Part>>)
    requires Logged(maxSet, fp, a, b, opening, log) && |log| >= 2
    ensures Logged(maxSet, fp, a, b, opening, log[..|log| - 1])
  {
    hide Sparing, Sender, Receiver;
    var front := log[..|log| - 1];
    forall i: nat, p | i + 1 < |front| && p in front[i + 1]
      ensures Sparing(maxSet, fp, Receiver(a, b, i), Sender(a, b, i), front[i], p)
    {
      assert front[i + 1] == log[i + 1] && front[i] == log[i];
    }
  }

  /** What stands between two turns, seen from the one whose message is under way. */
  ghost predicate Going(fp: seq<Entry> -> Fingerprint, sender: seq<Entry>, receiver: seq<Entry>, offS: seq<Entry>,
      offR: seq<Entry>, msg: seq<Part>, bound: nat) {
    && (forall e | e in offS :: e in receiver) && (forall e | e in offR :: e in sender)
    && (forall p | p in msg :: Honest(fp, sender, p) && Rank(sender, receiver, p) < bound)
    && (Faithful(fp, sender, receiver) ==> Pending(sender, receiver, offS, offR, msg))
  }

  lemma TurnKeeps(maxSet: nat, fp: seq<Entry> -> Fingerprint, sender: seq<Entry>, receiver: seq<Entry>,
      offS: seq<Entry>, offR: seq<Entry>, msg: seq<Part>, bound: nat)
    requires Sorted(sender) && Sorted(receiver) && msg != [] && Going(fp, sender, receiver, offS, offR, msg, bound)
    ensures bound > 0
    ensures Going(fp, receiver, sender, offR + Offered(msg), offS, Respond(maxSet, fp, receiver, msg), bound - 1)
  {
    assert Rank(sender, receiver, msg[0]) < bound;
    RoundKeepsHonest(maxSet, fp, sender, receiver, msg, bound);
    if Faithful(fp, receiver, sender) {
      FaithfulCommutes(fp, receiver, sender);
      RoundKeepsPending(maxSet, fp, sender, receiver, offS, offR, msg);
    }
    hide Honest, Rank, Faithful, Pending, Respond;
  }

  lemma FaithfulCommutes(fp: seq<Entry> -> Fingerprint, a: seq<Entry>, b: seq<Entry>)
    requires Faithful(fp, a, b)
    ensures Faithful(fp, b, a)
  {
    hide Within;
    forall r: Range | fp(Within(b, r)) == fp(Within(a, r)) ensures Within(b, r) == Within(a, r) {
      assert fp(Within(a, r)) == fp(Within(b, r));
    }
  }

  /** With nothing left to say, each side was offered all it lacks. */
  lemma GoneOut(fp: seq<Entry> -> Fingerprint, a: seq<Entry>, b: seq<Entry>, offA: seq<Entry>, offB: seq<Entry>,
      bound: nat)
    requires Going(fp, a, b, offA, offB, [], bound) && Faithful(fp, a, b)
    ensures (forall e | e in offA :: e in b) && (forall e | e in offB :: e in a)
    ensures (forall e | Owed(b, a, e) :: e in offA) && (forall e | Owed(a, b, e) :: e in offB)
  {
    hide Owed, Faithful;
  }

  lemma {:induction false} WithinAll(t: seq<Entry>, x: int)
    ensures Within(t, Range(x, x)) == t
  {
    if t != [] { WithinAll(t[1..], x); }
  }

  lemma FirstReply(maxSet: nat, fp: seq<Entry> -> Fingerprint, b: seq<Entry>, p: Part)
    requires p.Print? && p.range.x == p.range.y && Sorted(b)
    ensures Respond(maxSet, fp, b, [p]) == [] <==> fp(b) == p.fp
    ensures Offered([p]) == []
  {
    WithinAll(b, p.range.x);
    assert [p][1..] == [];
    assert Replies(maxSet, fp, b, [p], true) == [];
    assert Replies(maxSet, fp, b, [p], false) == ReplyTo(maxSet, fp, b, p);
    if fp(b) != p.fp && |b| > 1 { SplitHalves(b, p.range); }
  }

  function ToMap(t: seq<Entry>): map<int, int> {
    PutAll(map[], t, _ => true)
  }

  /** Two replicas served whole and admitting all hold the same store once their session is over,
      whichever of the two dialed. */
  method SessionConverges(maxSet: nat, fp: seq<Entry> -> Fingerprint, a: seq<Entry>, b: seq<Entry>)
    returns (endA: map<int, int>, endB: map<int, int>)
    requires Sorted(a) && Sorted(b) && Faithful(fp, a, b)
    ensures endA == endB == ToMap(a + b)
  {
    PutAllIsJoin(map[], a, _ => true);
    PutAllIsJoin(map[], b, _ => true);
    var log: seq<seq<Part>>;
    endA, endB, log := Session(maxSet, fp, a, b, ToMap(a), ToMap(b), _ => true, _ => true);
    PutAllAppend(map[], a, b, _ => true);
    PutAllAppend(map[], b, a, _ => true);
    PutAllIgnoresOrder(map[], a + b, b + a, _ => true);
  }
}
