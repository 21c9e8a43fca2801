/** Author heads: the greatest timestamp per author, what one side has that is news to another, and the encoding under a
    size limit, which keeps the newest and one author per timestamp. */
module Heads {
  import opened Options
  import Sets

  type Byte = x: int | 0 <= x < 256

  /** An author's 32 bytes, as the big-endian number whose order is the bytes' own. */
  datatype AuthorId = AuthorId(number: nat)

  datatype Timestamp = Timestamp(micros: nat)

  datatype Item = Item(ts: Timestamp, author: AuthorId)

  type Heads = map<AuthorId, Timestamp>

  // ---------------------------------------------------------------- news

  /** The authors newer here than there, the unknown ones included. */
  ghost function News(ours: Heads, theirs: Heads): set<AuthorId> {
    set a | a in ours && (a !in theirs || theirs[a].micros < ours[a].micros)
  }

  /** Neither side has news for the other exactly when the heads are equal. */
  lemma NoNewsEitherWay(ours: Heads, theirs: Heads)
    ensures News(ours, theirs) == {} && News(theirs, ours) == {} <==> ours == theirs
  {
    if News(ours, theirs) == {} && News(theirs, ours) == {} {
      forall a | a in ours ensures a in theirs && ours[a].micros <= theirs[a].micros {
        assert a !in News(ours, theirs);
      }
      forall a | a in theirs ensures a in ours && theirs[a].micros <= ours[a].micros {
        assert a !in News(theirs, ours);
      }
      assert ours.Keys == theirs.Keys;
      forall a | a in ours ensures ours[a] == theirs[a] { assert ours[a].micros == theirs[a].micros; }
    }
  }

  // ---------------------------------------------------------------- the items encoded

  lemma {:induction false} GreatestAuthor(s: set<AuthorId>) returns (m: AuthorId)
    requires s != {}
    ensures m in s && forall a | a in s :: a.number <= m.number
  {
    m :| m in s;
    if s != {m} {
      var n := GreatestAuthor(s - {m});
      if m.number < n.number { m := n; }
    }
  }

  lemma {:induction false} GreatestTime(s: set<Timestamp>) returns (m: Timestamp)
    requires s != {}
    ensures m in s && forall t | t in s :: t.micros <= m.micros
  {
    m :| m in s;
    if s != {m} {
      var n := GreatestTime(s - {m});
      if m.micros < n.micros { m := n; }
    }
  }

  lemma {:induction false} LeastAuthor(s: set<AuthorId>) returns (m: AuthorId)
    requires s != {}
    ensures m in s && forall a | a in s :: m.number <= a.number
  {
    m :| m in s;
    if s != {m} {
      var n := LeastAuthor(s - {m});
      if n.number < m.number { m := n; }
    }
  }

  /** Each timestamp with the greatest author that has it: a map keyed by timestamp keeps the last one put. */
  ghost predicate LastByTime(heads: Heads, last: map<Timestamp, AuthorId>) {
    && (forall t | t in last ::
      && last[t] in heads && heads[last[t]] == t
      && forall a | a in heads && heads[a] == t :: a.number <= last[t].number)
    && (forall a | a in heads :: heads[a] in last)
  }

  lemma LaterAuthorLasts(heads: Heads, last: map<Timestamp, AuthorId>, a: AuthorId, ts: Timestamp)
    requires LastByTime(heads, last) && forall b | b in heads :: b.number < a.number
    ensures LastByTime(heads[a := ts], last[ts := a])
  {
  }

  /** The heads put already, when those of some authors are still to come. */
  ghost function PutBefore(heads: Heads, rest: set<AuthorId>): Heads { map a | a in heads && a !in rest :: heads[a] }

  ghost predicate Lowest(heads: Heads, rest: set<AuthorId>) {
    rest <= heads.Keys && forall a, b | a in PutBefore(heads, rest) && b in rest :: a.number < b.number
  }

  lemma NextPut(heads: Heads, rest: set<AuthorId>, a: AuthorId, last: map<Timestamp, AuthorId>)
    requires Lowest(heads, rest) && a in rest && (forall b | b in rest :: a.number <= b.number)
      && LastByTime(PutBefore(heads, rest), last)
    ensures Lowest(heads, rest - {a}) && LastByTime(PutBefore(heads, rest - {a}), last[heads[a] := a])
  {
    hide LastByTime;
    assert PutBefore(heads, rest - {a}) == PutBefore(heads, rest)[a := heads[a]];
    LaterAuthorLasts(PutBefore(heads, rest), last, a, heads[a]);
    forall c, b | c in PutBefore(heads, rest - {a}) && b in rest - {a} ensures c.number < b.number {
      assert b != a;
    }
  }

  ghost predicate Descending(items: seq<Item>) {
    forall i, j | 0 <= i < j < |items| :: items[j].ts.micros < items[i].ts.micros
  }

  ghost predicate Lists(items: seq<Item>, t: Timestamp) { exists i | 0 <= i < |items| :: items[i].ts == t }

  /** One item per timestamp, newest first, each with the last of its authors. */
  ghost predicate Listing(heads: Heads, items: seq<Item>) {
    && Descending(items)
    && (forall i | 0 <= i < |items| ::
         && items[i].author in heads && heads[items[i].author] == items[i].ts
         && forall a | a in heads && heads[a] == items[i].ts :: a.number <= items[i].author.number)
    && (forall a | a in heads :: Lists(items, heads[a]))
  }

  /** How many of the items, from the front, fit one after another. */
  function Fitting(items: seq<Item>, limit: Option<nat>, i: nat): (k: nat)
    requires i <= |items|
    ensures i <= k <= |items|
    ensures k < |items| ==> limit.Some? && |Bytes(items[..k + 1])| > limit.value
    ensures limit.Some? && i < k ==> |Bytes(items[..k])| <= limit.value
    decreases |items| - i
  {
    if i < |items| && (limit.None? || |Bytes(items[..i + 1])| <= limit.value) then Fitting(items, limit, i + 1) else i
  }

  // ---------------------------------------------------------------- the wire format

  function Varint(n: nat): (b: seq<Byte>)
    ensures |b| >= 1
  {
    if n < 128 then [n] else [128 + n % 128] + Varint(n / 128)
  }

  /** The numbers `left` bytes can carry, the last of them one bit. */
  function Capacity(left: nat): nat {
    if left == 0 then 0 else if left == 1 then 2 else 128 * Capacity(left - 1)
  }

  const VARINT_MAX: nat := 10

  lemma CapacityIsU64()
    ensures Capacity(VARINT_MAX) == 0x1_0000_0000_0000_0000
  {
  }

  datatype Parsed<T> = Parsed(value: T, rest: seq<Byte>)

  function ReadVarint(b: seq<Byte>, left: nat): Option<Parsed<nat>>
    decreases left
  {
    if left == 0 || b == [] then None
    else if b[0] < 128 then
      if left == 1 && b[0] > 1 then None else Some(Parsed(b[0], b[1..]))
    else
      var high := ReadVarint(b[1..], left - 1);
      if high.None? then None else Some(Parsed(b[0] - 128 + 128 * high.value.value, high.value.rest))
  }

  lemma {:induction false} VarintReadsBack(n: nat, left: nat, rest: seq<Byte>)
    requires n < Capacity(left)
    ensures ReadVarint(Varint(n) + rest, left) == Some(Parsed(n, rest))
    decreases n
  {
    if n < 128 {
      assert (Varint(n) + rest)[1..] == rest;
    } else {
      assert (Varint(n) + rest)[1..] == Varint(n / 128) + rest;
      VarintReadsBack(n / 128, left - 1, rest);
    }
  }

  /** The last `k` bytes of a number, most significant first. */
  function Fixed(n: nat, k: nat): (b: seq<Byte>)
    ensures |b| == k
  {
    if k == 0 then [] else Fixed(n / 256, k - 1) + [n % 256]
  }

  function Number(b: seq<Byte>): nat { if b == [] then 0 else Number(b[..|b| - 1]) * 256 + b[|b| - 1] }

  function Power(k: nat): nat { if k == 0 then 1 else 256 * Power(k - 1) }

  lemma {:induction false} FixedReadsBack(n: nat, k: nat)
    requires n < Power(k)
    ensures Number(Fixed(n, k)) == n
  {
    if k > 0 {
      FixedReadsBack(n / 256, k - 1);
      assert Fixed(n, k)[..k - 1] == Fixed(n / 256, k - 1);
    }
  }

  function ItemBytes(i: Item): seq<Byte> { Varint(i.ts.micros) + Fixed(i.author.number, 32) }

  function ItemsBytes(items: seq<Item>): seq<Byte> {
    if items == [] then [] else ItemBytes(items[0]) + ItemsBytes(items[1..])
  }

  function Bytes(items: seq<Item>): seq<Byte> { Varint(|items|) + ItemsBytes(items) }

  function ReadItem(b: seq<Byte>): Option<Parsed<Item>> {
    var ts := ReadVarint(b, VARINT_MAX);
    if ts.None? || |ts.value.rest| < 32 then None
    else Some(Parsed(Item(Timestamp(ts.value.value), AuthorId(Number(ts.value.rest[..32]))), ts.value.rest[32..]))
  }

  function ReadItems(b: seq<Byte>, n: nat): Option<Parsed<seq<Item>>>
    decreases n
  {
    if n == 0 then Some(Parsed([], b))
    else
      var first := ReadItem(b);
      if first.None? then None
      else
        var others := ReadItems(first.value.rest, n - 1);
        if others.None? then None else Some(Parsed([first.value.value] + others.value.value, others.value.rest))
  }

  /** The items at the front of the bytes; what follows them is left alone. */
  function ReadBytes(b: seq<Byte>): Option<seq<Item>> {
    var n := ReadVarint(b, VARINT_MAX);
    if n.None? then None
    else
      var items := ReadItems(n.value.rest, n.value.value);
      if items.None? then None else Some(items.value.value)
  }

  predicate Sized(i: Item) { i.ts.micros < Capacity(VARINT_MAX) && i.author.number < Power(32) }

  lemma ItemReadsBack(i: Item, rest: seq<Byte>)
    requires Sized(i)
    ensures ReadItem(ItemBytes(i) + rest) == Some(Parsed(i, rest))
  {
    var author := Fixed(i.author.number, 32);
    assert ItemBytes(i) + rest == Varint(i.ts.micros) + (author + rest);
    VarintReadsBack(i.ts.micros, VARINT_MAX, author + rest);
    FixedReadsBack(i.author.number, 32);
    assert (author + rest)[..32] == author && (author + rest)[32..] == rest;
  }

  lemma {:induction false} ItemsReadBack(items: seq<Item>, rest: seq<Byte>)
    requires forall i | 0 <= i < |items| :: Sized(items[i])
    ensures ReadItems(ItemsBytes(items) + rest, |items|) == Some(Parsed(items, rest))
    decreases items
  {
    hide ReadItem, ItemBytes, Sized;
    if items == [] {
      assert ItemsBytes(items) + rest == rest;
    } else {
      ItemReadsBack(items[0], ItemsBytes(items[1..]) + rest);
      assert ItemsBytes(items) + rest == ItemBytes(items[0]) + (ItemsBytes(items[1..]) + rest);
      ItemsReadBack(items[1..], rest);
      assert [items[0]] + items[1..] == items;
    }
  }

  /** What is encoded is read back, whatever bytes follow. */
  lemma BytesReadBack(items: seq<Item>, rest: seq<Byte>)
    requires |items| < Capacity(VARINT_MAX) && forall i | 0 <= i < |items| :: Sized(items[i])
    ensures ReadBytes(Bytes(items) + rest) == Some(items)
  {
    assert Bytes(items) + rest == Varint(|items|) + (ItemsBytes(items) + rest);
    VarintReadsBack(|items|, VARINT_MAX, ItemsBytes(items) + rest);
    ItemsReadBack(items, rest);
  }

  // ---------------------------------------------------------------- encode and decode

  function Inserted(heads: Heads, author: AuthorId, ts: Timestamp): Heads {
    heads[author := if author in heads && ts.micros <= heads[author].micros then heads[author] else ts]
  }

  function Collected(items: seq<Item>): Heads {
    if items == [] then map[]
    else Inserted(Collected(items[..|items| - 1]), items[|items| - 1].author, items[|items| - 1].ts)
  }

  /** Every author of the items at the greatest of its timestamps, and no other author. */
  ghost predicate GreatestOf(items: seq<Item>, heads: Heads) {
    && (forall i | 0 <= i < |items| ::
         items[i].author in heads && items[i].ts.micros <= heads[items[i].author].micros)
    && (forall a | a in heads :: Item(heads[a], a) in items)
  }

  lemma {:induction false} CollectedAreGreatest(items: seq<Item>)
    ensures GreatestOf(items, Collected(items))
  {
    if items != [] {
      var before, last := items[..|items| - 1], items[|items| - 1];
      CollectedAreGreatest(before);
      assert items == before + [last];
      assert forall i | 0 <= i < |before| :: items[i] == before[i];
    }
  }

  /** The items of some timestamps, newest first. */
  ghost predicate Enumerates(last: map<Timestamp, AuthorId>, times: set<Timestamp>, items: seq<Item>) {
    && Descending(items)
    && (forall i | 0 <= i < |items| ::
      items[i].ts in times && items[i].ts in last && items[i].author == last[items[i].ts])
    && (forall t | t in times :: Lists(items, t))
  }

  lemma {:induction false} Enumerate(last: map<Timestamp, AuthorId>, times: set<Timestamp>) returns (items: seq<Item>)
    requires times <= last.Keys
    ensures Enumerates(last, times, items)
    decreases times
  {
    items := [];
    if times != {} {
      var t := GreatestTime(times);
      var older := Enumerate(last, times - {t});
      items := [Item(t, last[t])] + older;
      forall i, j | 0 <= i < j < |items| ensures items[j].ts.micros < items[i].ts.micros {
        assert items[j] == older[j - 1] && older[j - 1].ts in times - {t};
        assert older[j - 1].ts != t;
      }
      forall u | u in times ensures Lists(items, u) {
        if u == t { assert items[0].ts == u; }
        else {
          assert u in times - {t};
          var i :| 0 <= i < |older| && older[i].ts == u;
          assert items[i + 1].ts == u;
        }
      }
    }
  }

  lemma EnumeratedIsListed(heads: Heads, last: map<Timestamp, AuthorId>, all: seq<Item>)
    requires LastByTime(heads, last) && Enumerates(last, last.Keys, all)
    ensures Listing(heads, all)
  {
  }

  ghost function TimesFrom(all: seq<Item>, k: nat): set<Timestamp> { set i | k <= i < |all| :: all[i].ts }

  lemma NoneLeft(all: seq<Item>, k: nat)
    ensures TimesFrom(all, k) == {} <==> k >= |all|
  {
    if k < |all| { assert all[k].ts in TimesFrom(all, k); }
  }

  /** Of the timestamps still to list the greatest is the next item's. */
  lemma NextListed(all: seq<Item>, k: nat, ts: Timestamp)
    requires Descending(all) && k < |all| && ts in TimesFrom(all, k)
    requires forall t | t in TimesFrom(all, k) :: t.micros <= ts.micros
    ensures all[k].ts == ts && TimesFrom(all, k + 1) == TimesFrom(all, k) - {ts}
  {
  }

  lemma {:induction false} AlikeUpTo(heads: Heads, a: seq<Item>, b: seq<Item>, k: nat)
    requires Listing(heads, a) && Listing(heads, b) && k <= |a| && k <= |b|
    ensures a[..k] == b[..k] && TimesFrom(a, k) == TimesFrom(b, k)
  {
    hide Listing, TimesFrom, Descending;
    if k == 0 {
      SameTimes(heads, a, b);
    } else {
      var i := k - 1;
      AlikeUpTo(heads, a, b, i);
      Descend(heads, a);
      Descend(heads, b);
      NoneLeft(a, i);
      var ts := GreatestTime(TimesFrom(a, i));
      NextListed(a, i, ts);
      NextListed(b, i, ts);
      SameAuthor(heads, a, b, i);
      assert a[..k] == a[..i] + [a[i]] && b[..k] == b[..i] + [b[i]];
    }
  }

  /** There is one such list. */
  lemma OneListing(heads: Heads, a: seq<Item>, b: seq<Item>)
    requires Listing(heads, a) && Listing(heads, b)
    ensures a == b
  {
    hide Listing, TimesFrom;
    var k := if |a| < |b| then |a| else |b|;
    AlikeUpTo(heads, a, b, k);
    NoneLeft(a, k);
    NoneLeft(b, k);
    assert a[..k] == a && b[..k] == b;
  }

  lemma Descend(heads: Heads, a: seq<Item>)
    requires Listing(heads, a)
    ensures Descending(a)
  {
  }

  lemma SameAuthor(heads: Heads, a: seq<Item>, b: seq<Item>, k: nat)
    requires Listing(heads, a) && Listing(heads, b) && k < |a| && k < |b| && a[k].ts == b[k].ts
    ensures a[k] == b[k]
  {
    assert a[k].author.number == b[k].author.number;
  }

  lemma SameTimes(heads: Heads, a: seq<Item>, b: seq<Item>)
    requires Listing(heads, a) && Listing(heads, b)
    ensures TimesFrom(a, 0) == TimesFrom(b, 0)
  {
    forall t ensures t in TimesFrom(a, 0) <==> exists x :: x in heads && heads[x] == t { TimeListed(heads, a, t); }
    forall t ensures t in TimesFrom(b, 0) <==> exists x :: x in heads && heads[x] == t { TimeListed(heads, b, t); }
  }

  lemma TimeListed(heads: Heads, a: seq<Item>, t: Timestamp)
    requires Listing(heads, a)
    ensures t in TimesFrom(a, 0) <==> exists x :: x in heads && heads[x] == t
  {
    if x :| x in heads && heads[x] == t { assert Lists(a, heads[x]); }
  }

  class AuthorHeads {
    var heads: Heads

    constructor ()
      ensures heads == map[]
    {
      heads := map[];
    }

    method Insert(author: AuthorId, ts: Timestamp)
      modifies this
      ensures heads == Inserted(old(heads), author, ts)
      ensures author in heads && ts.micros <= heads[author].micros
      ensures heads[author] == ts || (author in old(heads) && heads[author] == old(heads)[author])
      ensures author in old(heads) ==> old(heads)[author].micros <= heads[author].micros
      ensures heads.Keys == old(heads).Keys + {author}
      ensures forall a | a in old(heads) && a != author :: heads[a] == old(heads)[a]
    {
      if author in heads {
        heads := heads[author := if heads[author].micros < ts.micros then ts else heads[author]];
      } else {
        heads := heads[author := ts];
      }
    }

    /** How many authors here are newer than there; nothing when none is. */
    method HasNewsFor(other: AuthorHeads) returns (updates: Option<nat>)
      ensures updates == if News(heads, other.heads) == {} then None else Some(|News(heads, other.heads)|)
    {
      var count, rest := 0, heads.Keys;
      while rest != {}
        invariant rest <= heads.Keys && count == |News(heads, other.heads) - rest|
      {
        var a :| a in rest;
        ghost var seen := News(heads, other.heads) - rest;
        if a !in other.heads || other.heads[a].micros < heads[a].micros {
          count := count + 1;
          assert News(heads, other.heads) - (rest - {a}) == seen + {a};
        } else {
          assert News(heads, other.heads) - (rest - {a}) == seen;
        }
        rest := rest - {a};
      }
      assert News(heads, other.heads) - rest == News(heads, other.heads);
      updates := if count == 0 then None else Some(count);
    }

    /** Put in the authors' order, so that of one timestamp the greatest author stays. */
    method ByTimestamp() returns (last: map<Timestamp, AuthorId>)
      ensures LastByTime(heads, last)
    {
      last := map[];
      var rest := heads.Keys;
      while rest != {}
        invariant Lowest(heads, rest) && LastByTime(PutBefore(heads, rest), last)
      {
        ghost var least := LeastAuthor(rest);
        var a :| a in rest && forall b | b in rest :: a.number <= b.number;
        NextPut(heads, rest, a, last);
        hide LastByTime, PutBefore;
        last := last[heads[a] := a];
        rest := rest - {a};
      }
      assert PutBefore(heads, rest) == heads;
    }

    /** The longest run of the items, newest first, that fits. */
    method Encode(limit: Option<nat>) returns (encoded: seq<Byte>)
      ensures exists all :: Listing(heads, all) && encoded == Bytes(all[..Fitting(all, limit, 0)])
    {
      var last := ByTimestamp();
      ghost var all := Enumerate(last, last.Keys);
      EnumeratedIsListed(heads, last, all);
      assert last.Keys == TimesFrom(all, 0);
      hide *;
      var items := Pack(last, limit, all);
      encoded := Bytes(items);
    }
  }

  lemma FittingStep(all: seq<Item>, limit: Option<nat>, k: nat)
    requires k < |all|
    ensures Fitting(all, limit, k) == if limit.Some? && |Bytes(all[..k + 1])| > limit.value then k
      else Fitting(all, limit, k + 1)
  {
  }

  method Pack(last: map<Timestamp, AuthorId>, limit: Option<nat>, ghost all: seq<Item>) returns (items: seq<Item>)
    requires Enumerates(last, last.Keys, all) && last.Keys == TimesFrom(all, 0)
    ensures items == all[..Fitting(all, limit, 0)]
  {
    hide Bytes, Fitting, TimesFrom;
    items := [];
    var rest := last.Keys;
    while rest != {}
      invariant |items| <= |all| && items == all[..|items|] && rest == TimesFrom(all, |items|)
      invariant Fitting(all, limit, 0) == Fitting(all, limit, |items|)
    {
      ghost var greatest := GreatestTime(rest);
      var ts :| ts in rest && forall t | t in rest :: t.micros <= ts.micros;
      NoneLeft(all, |items|);
      NextListed(all, |items|, ts);
      FittingStep(all, limit, |items|);
      items := items + [Item(ts, last[ts])];
      assert items == all[..|items|];
      if limit.Some? && |Bytes(items)| > limit.value {
        return items[..|items| - 1];
      }
      rest := rest - {ts};
    }
    NoneLeft(all, |items|);
  }

  // ---------------------------------------------------------------- what decoding gives back

  method Decode(bytes: seq<Byte>) returns (heads: Option<AuthorHeads>)
    ensures heads.None? <==> ReadBytes(bytes).None?
    ensures heads.Some? ==> fresh(heads.value) && heads.value.heads == Collected(ReadBytes(bytes).value)
    ensures heads.Some? ==> GreatestOf(ReadBytes(bytes).value, heads.value.heads)
  {
    var read := ReadBytes(bytes);
    if read.None? { return None; }
    var items := read.value;
    var h := new AuthorHeads();
    for i := 0 to |items|
      invariant fresh(h) && h.heads == Collected(items[..i])
    {
      assert items[..i + 1][..i] == items[..i];
      h.Insert(items[i].author, items[i].ts);
    }
    assert items[..|items|] == items;
    CollectedAreGreatest(items);
    heads := Some(h);
  }

  /** The heads cut down to the authors of some items. */
  ghost function Restricted(heads: Heads, items: seq<Item>): Heads {
    map a | a in heads && (exists i | 0 <= i < |items| :: items[i].author == a) :: heads[a]
  }

  lemma {:induction false} CollectedIsRestricted(heads: Heads, items: seq<Item>)
    requires forall i | 0 <= i < |items| :: items[i].author in heads && heads[items[i].author] == items[i].ts
    ensures Collected(items) == Restricted(heads, items)
  {
    if items != [] {
      var last := |items| - 1;
      CollectedIsRestricted(heads, items[..last]);
      forall a ensures a in Restricted(heads, items) <==>
        a in Restricted(heads, items[..last]) || a == items[last].author {
        if exists i | 0 <= i < |items| :: items[i].author == a {
          var i :| 0 <= i < |items| && items[i].author == a;
          if i < last { assert items[..last][i].author == a; }
        }
      }
    }
  }

  ghost predicate Encodable(heads: Heads) {
    && |heads| < Capacity(VARINT_MAX)
    && forall a | a in heads :: heads[a].micros < Capacity(VARINT_MAX) && a.number < Power(32)
  }

  lemma ListingNoLonger(heads: Heads, all: seq<Item>)
    requires Listing(heads, all)
    ensures |all| <= |heads|
  {
    AuthorsCounted(heads, all, |all|);
    Sets.SubsetSize(AuthorsTo(all, |all|), heads.Keys);
  }

  ghost function AuthorsTo(all: seq<Item>, k: nat): set<AuthorId>
    requires k <= |all|
  {
    if k == 0 then {} else AuthorsTo(all, k - 1) + {all[k - 1].author}
  }

  lemma {:induction false} AuthorsCounted(heads: Heads, all: seq<Item>, k: nat)
    requires Listing(heads, all) && k <= |all|
    ensures |AuthorsTo(all, k)| == k && AuthorsTo(all, k) <= heads.Keys
    ensures forall a, j | a in AuthorsTo(all, k) && k <= j < |all| :: all[j].ts.micros < heads[a].micros
  {
    hide Listing;
    if k > 0 {
      AuthorsCounted(heads, all, k - 1);
      ItemsFromHeads(heads, all);
      Descend(heads, all);
      assert all[k - 1].author !in AuthorsTo(all, k - 1);
    }
  }

  /** What a limit at least the empty encoding's one byte lets through is within it, is all that fits, is read back
      exactly, and is no news to the heads it came from. */
  lemma EncodedIsReadBack(heads: Heads, all: seq<Item>, limit: Option<nat>)
    requires Encodable(heads) && Listing(heads, all) && (limit.Some? ==> limit.value >= 1)
    ensures var k := Fitting(all, limit, 0);
      var encoded := Bytes(all[..k]);
      && (limit.Some? ==> |encoded| <= limit.value)
      && (forall j | k < j <= |all| :: limit.Some? && |Bytes(all[..j])| > limit.value)
      && ReadBytes(encoded) == Some(all[..k]) && Collected(all[..k]) == Restricted(heads, all[..k])
      && News(Collected(all[..k]), heads) == {}
  {
    hide Listing, Restricted, Collected, ReadBytes, Bytes, News, Sized;
    var k := Fitting(all, limit, 0);
    ItemsSized(heads, all);
    BytesReadBack(all[..k], []);
    assert Bytes(all[..k]) + [] == Bytes(all[..k]);
    ItemsFromHeads(heads, all);
    CollectedIsRestricted(heads, all[..k]);
    NoNews(heads, all[..k]);
    if k < |all| { BytesGrow(all, k + 1); }
    if k == 0 {
      EmptyBytes();
      assert all[..k] == [];
    }
  }

  lemma EmptyBytes()
    ensures |Bytes([])| == 1
  {
  }

  lemma ItemsFromHeads(heads: Heads, all: seq<Item>)
    requires Listing(heads, all)
    ensures forall i | 0 <= i < |all| :: all[i].author in heads && heads[all[i].author] == all[i].ts
  {
  }

  lemma ItemsSized(heads: Heads, all: seq<Item>)
    requires Encodable(heads) && Listing(heads, all)
    ensures |all| < Capacity(VARINT_MAX) && forall i | 0 <= i < |all| :: Sized(all[i])
  {
    ListingNoLonger(heads, all);
  }

  lemma NoNews(heads: Heads, items: seq<Item>)
    ensures News(Restricted(heads, items), heads) == {}
  {
  }

  ghost predicate Keeps(all: seq<Item>, k: nat, a: AuthorId) {
    exists i | 0 <= i < k && i < |all| :: all[i].author == a
  }

  /** An author left out shares its timestamp with a greater one that was kept, or is older than every one kept. */
  lemma LeftOut(heads: Heads, all: seq<Item>, k: nat, a: AuthorId) returns (i: nat)
    requires Listing(heads, all) && k <= |all| && a in heads && !Keeps(all, k, a)
    ensures i < |all| && all[i].ts == heads[a]
    ensures i < k ==> a.number < all[i].author.number
    ensures i >= k ==> forall j | 0 <= j < k :: heads[a].micros < all[j].ts.micros
  {
    assert Lists(all, heads[a]);
    i :| 0 <= i < |all| && all[i].ts == heads[a];
    if i < k { assert all[i].author != a; }
  }

  /** The timestamp of item `i` is one author's alone. */
  ghost predicate Alone(heads: Heads, all: seq<Item>, i: nat)
    requires i < |all|
  {
    forall a | a in heads && heads[a] == all[i].ts :: a == all[i].author
  }

  /** No author left out is newer than one kept exactly when each timestamp kept but the oldest is one author's
      alone. */
  lemma NewerLeftOut(heads: Heads, all: seq<Item>, k: nat)
    requires Listing(heads, all) && k <= |all|
    ensures (forall a, j | a in heads && !Keeps(all, k, a) && 0 <= j < k :: heads[a].micros <= all[j].ts.micros)
      <==> (forall i | 0 <= i < k - 1 :: Alone(heads, all, i))
  {
    if forall i | 0 <= i < k - 1 :: Alone(heads, all, i) {
      forall a, j | a in heads && !Keeps(all, k, a) && 0 <= j < k ensures heads[a].micros <= all[j].ts.micros {
        var i := LeftOut(heads, all, k, a);
        assert i < k - 1 ==> Alone(heads, all, i);
        if i == k - 1 && j < i { assert all[i].ts.micros < all[j].ts.micros; }
      }
    }
    if forall a, j | a in heads && !Keeps(all, k, a) && 0 <= j < k :: heads[a].micros <= all[j].ts.micros {
      forall i | 0 <= i < k - 1 ensures Alone(heads, all, i) { OnlyIfAlone(heads, all, k, i); }
    }
  }

  lemma OnlyIfAlone(heads: Heads, all: seq<Item>, k: nat, i: nat)
    requires Listing(heads, all) && i < k - 1 && k <= |all|
    requires forall a, j | a in heads && !Keeps(all, k, a) && 0 <= j < k :: heads[a].micros <= all[j].ts.micros
    ensures Alone(heads, all, i)
  {
    assert all[k - 1].ts.micros < all[i].ts.micros;
    forall a | a in heads && heads[a] == all[i].ts ensures a == all[i].author {
      assert Keeps(all, k, a);
      var j :| 0 <= j < k && all[j].author == a;
      OneEach(all, i, j);
    }
  }

  lemma OneEach(all: seq<Item>, i: nat, j: nat)
    requires Descending(all) && i < |all| && j < |all| && all[i].ts == all[j].ts
    ensures i == j
  {
  }

  lemma {:induction false} BytesGrow(all: seq<Item>, k: nat)
    requires k <= |all|
    ensures forall j | k <= j <= |all| :: |Bytes(all[..k])| <= |Bytes(all[..j])|
    decreases |all| - k
  {
    if k < |all| {
      BytesGrow(all, k + 1);
      OneMore(all[..k], all[k]);
      assert all[..k + 1] == all[..k] + [all[k]];
    }
  }

  lemma OneMore(items: seq<Item>, i: Item)
    ensures |Bytes(items)| <= |Bytes(items + [i])|
  {
    VarintGrows(|items|);
    ItemsAppend(items, i);
  }

  lemma {:induction false} VarintGrows(n: nat)
    ensures |Varint(n)| <= |Varint(n + 1)|
  {
    if n >= 128 {
      if (n + 1) / 128 > n / 128 { VarintGrows(n / 128); }
    }
  }

  lemma {:induction false} ItemsAppend(items: seq<Item>, i: Item)
    ensures ItemsBytes(items + [i]) == ItemsBytes(items) + ItemBytes(i)
    decreases items
  {
    if items == [] {
      assert items + [i] == [i];
    } else {
      assert (items + [i])[1..] == items[1..] + [i];
      ItemsAppend(items[1..], i);
    }
  }

  /** With no limit the heads come back whole exactly when no two authors share a timestamp. */
  lemma WholeIffDistinct(heads: Heads, all: seq<Item>)
    requires Listing(heads, all)
    ensures Fitting(all, None, 0) == |all|
    ensures Collected(all) == heads <==> forall i | 0 <= i < |all| :: Alone(heads, all, i)
  {
    CollectedIsRestricted(heads, all);
    WholeIffAllKept(heads, all);
    hide Restricted, Collected, Listing;
    if forall i | 0 <= i < |all| :: Alone(heads, all, i) {
      forall a | a in heads ensures Keeps(all, |all|, a) { ListedAlone(heads, all, a); }
    }
    if forall a | a in heads :: Keeps(all, |all|, a) {
      forall i | 0 <= i < |all| ensures Alone(heads, all, i) { AloneIfAllKept(heads, all, i); }
    }
  }

  lemma WholeIffAllKept(heads: Heads, all: seq<Item>)
    ensures Restricted(heads, all) == heads <==> forall a | a in heads :: Keeps(all, |all|, a)
  {
  }

  lemma ListedAlone(heads: Heads, all: seq<Item>, a: AuthorId)
    requires Listing(heads, all) && a in heads && forall i | 0 <= i < |all| :: Alone(heads, all, i)
    ensures Keeps(all, |all|, a)
  {
    assert Lists(all, heads[a]);
    var i :| 0 <= i < |all| && all[i].ts == heads[a];
    assert Alone(heads, all, i);
  }

  lemma AloneIfAllKept(heads: Heads, all: seq<Item>, i: nat)
    requires Listing(heads, all) && i < |all| && forall a | a in heads :: Keeps(all, |all|, a)
    ensures Alone(heads, all, i)
  {
  }

  /** Three authors, two of one timestamp: the lesser of those is left out though newer than the one kept after it. */
  lemma NewerLeftOutHappens()
    ensures var heads := map[AuthorId(1) := Timestamp(5), AuthorId(2) := Timestamp(5), AuthorId(3) := Timestamp(3)];
      var all := [Item(Timestamp(5), AuthorId(2)), Item(Timestamp(3), AuthorId(3))];
      Listing(heads, all) && !Keeps(all, 2, AuthorId(1)) && heads[AuthorId(1)].micros > all[1].ts.micros
  {
    var all := [Item(Timestamp(5), AuthorId(2)), Item(Timestamp(3), AuthorId(3))];
    assert all[0].ts == Timestamp(5) && all[1].ts == Timestamp(3);
    assert Lists(all, Timestamp(5)) && Lists(all, Timestamp(3));
  }
}
