/** The pods an identity holds, folded from the entries of its private metadata store: keys read back to their pod and
    sequence, and the fold of any entries in any order is the highest sequence, held unless a tombstone sits there. */
module PodRecords {
  import opened Options

  const U64: nat := 0x1_0000_0000_0000_0000
  const PODS_PREFIX := "pods/"

  /** A pod's 16 bytes, as the number their hex digits write. */
  datatype PodId = PodId(number: nat)

  datatype PodSeq = PodSeq(pod: PodId, at: nat)

  // ---------------------------------------------------------------- keys

  function DigitChar(d: nat): char
    requires d < 16
  {
    if d < 10 then (48 + d) as char else (87 + d) as char
  }

  /** Digits of either case. */
  function HexDigit(c: char): Option<nat> {
    if '0' <= c <= '9' then Some(c as int - 48)
    else if 'a' <= c <= 'f' then Some(c as int - 87)
    else if 'A' <= c <= 'F' then Some(c as int - 55)
    else None
  }

  function Lower(c: char): char { if 'A' <= c <= 'F' then (c as int + 32) as char else c }

  function Lowered(s: string): (r: string)
    ensures |r| == |s|
  {
    if s == "" then "" else Lowered(s[..|s| - 1]) + [Lower(s[|s| - 1])]
  }

  function Hex(n: nat, k: nat): (s: string)
    ensures |s| == k
  {
    if k == 0 then "" else Hex(n / 16, k - 1) + [DigitChar(n % 16)]
  }

  function ParseHex(s: string): Option<nat> {
    if s == "" then Some(0)
    else
      var high, low := ParseHex(s[..|s| - 1]), HexDigit(s[|s| - 1]);
      if high.None? || low.None? then None else Some(high.value * 16 + low.value)
  }

  function Power16(k: nat): nat { if k == 0 then 1 else 16 * Power16(k - 1) }

  lemma Snoc(a: string, x: char, b: string, y: char)
    ensures a + [x] == b + [y] <==> a == b && x == y
  {
    if a + [x] == b + [y] {
      assert |a + [x]| == |b + [y]|;
      assert a == (a + [x])[..|a|] && b == (b + [y])[..|b|];
      assert x == (a + [x])[|a|] && y == (b + [y])[|b|];
    }
  }

  lemma Divided(n: nat, base: nat, high: nat, low: nat)
    requires 1 < base && low < base
    ensures high * base + low == n <==> high == n / base && low == n % base
  {
    if high * base + low == n {
      assert n / base == high by {
        assert n == n / base * base + n % base;
        var q := n / base;
        assert high < q ==> (high + 1) * base <= q * base;
        assert high > q ==> (q + 1) * base <= high * base;
      }
    }
  }

  /** Hex of either case reads back to the number whose lower-case hex it is, and nothing else does. */
  lemma {:induction false} HexReadsBack(s: string, n: nat)
    requires n < Power16(|s|)
    ensures ParseHex(s) == Some(n) <==> Lowered(s) == Hex(n, |s|)
  {
    if s != "" {
      var last := |s| - 1;
      HexReadsBack(s[..last], n / 16);
      Snoc(Lowered(s[..last]), Lower(s[last]), Hex(n / 16, last), DigitChar(n % 16));
      DigitReadsBack(s[last], n % 16);
      var high, low := ParseHex(s[..last]), HexDigit(s[last]);
      if high.Some? && low.Some? { Divided(n, 16, high.value, low.value); }
    }
  }

  lemma DigitReadsBack(c: char, d: nat)
    requires d < 16
    ensures HexDigit(c) == Some(d) <==> Lower(c) == DigitChar(d)
    ensures HexDigit(c).Some? ==> HexDigit(c).value < 16
  {
  }

  lemma {:induction false} ParsedHexFits(s: string)
    ensures ParseHex(s).Some? ==> ParseHex(s).value < Power16(|s|)
  {
    if s != "" {
      ParsedHexFits(s[..|s| - 1]);
      DigitReadsBack(s[|s| - 1], 0);
    }
  }

  predicate IsDigit(c: char) { '0' <= c <= '9' }

  function DigitValue(c: char): (d: nat)
    requires IsDigit(c)
    ensures d < 10 && DigitChar(d) == c
  {
    c as int - 48
  }

  function Decimal(n: nat): (s: string)
    ensures s != ""
  {
    if n < 10 then [DigitChar(n)] else Decimal(n / 10) + [DigitChar(n % 10)]
  }

  function ParseDigits(s: string): nat
    requires forall i | 0 <= i < |s| :: IsDigit(s[i])
  {
    if s == "" then 0 else ParseDigits(s[..|s| - 1]) * 10 + DigitValue(s[|s| - 1])
  }

  /** No sign, no leading zero, and within 64 bits. */
  function ParseDecimal(s: string): Option<nat> {
    if !(s == "0" || (s != "" && s[0] != '0')) || !(forall i | 0 <= i < |s| :: IsDigit(s[i])) then None
    else if ParseDigits(s) < U64 then Some(ParseDigits(s)) else None
  }

  lemma {:induction false} DecimalDigits(n: nat)
    ensures forall i | 0 <= i < |Decimal(n)| :: IsDigit(Decimal(n)[i])
    ensures ParseDigits(Decimal(n)) == n
    ensures Decimal(n)[0] == '0' ==> n == 0
  {
    if n >= 10 {
      DecimalDigits(n / 10);
      assert Decimal(n)[..|Decimal(n)| - 1] == Decimal(n / 10);
    }
  }

  lemma {:induction false} DigitsAreDecimal(s: string)
    requires s != "" && (forall i | 0 <= i < |s| :: IsDigit(s[i])) && (s[0] != '0' || |s| == 1)
    ensures Decimal(ParseDigits(s)) == s
    ensures |s| > 1 ==> ParseDigits(s) >= 10
    ensures s[0] != '0' ==> ParseDigits(s) > 0
  {
    var last := |s| - 1;
    assert s == s[..last] + [s[last]];
    if last > 0 {
      DigitsAreDecimal(s[..last]);
      Divided(ParseDigits(s), 10, ParseDigits(s[..last]), DigitValue(s[last]));
    } else {
      assert s[..last] == "" && ParseDigits(s) == DigitValue(s[0]);
    }
  }

  lemma DecimalReadsBack(s: string, n: nat)
    requires n < U64
    ensures ParseDecimal(s) == Some(n) <==> s == Decimal(n)
  {
    DecimalDigits(n);
    if ParseDecimal(s).Some? { DigitsAreDecimal(s); }
    if s == Decimal(n) && n == 0 { assert s == "0"; }
  }

  function FirstSlash(s: string): (i: nat)
    ensures i <= |s| && (i < |s| ==> s[i] == '/') && forall j | 0 <= j < i :: s[j] != '/'
  {
    if s == "" || s[0] == '/' then 0 else 1 + FirstSlash(s[1..])
  }

  function KeyOf(p: PodSeq): string { PODS_PREFIX + (Hex(p.pod.number, 32) + ("/" + Decimal(p.at))) }

  function ParseKey(key: string): Option<PodSeq> {
    if !(PODS_PREFIX <= key) then None
    else
      var rest := key[|PODS_PREFIX|..];
      var i := FirstSlash(rest);
      if i == |rest| then None
      else
        var at := ParseDecimal(rest[i + 1..]);
        var pod := if i == 32 then ParseHex(rest[..i]) else None;
        if at.None? || pod.None? then None else Some(PodSeq(PodId(pod.value), at.value))
  }

  /** The key with its pod's digits in lower case. */
  function Canonical(key: string): string
    requires |key| >= |PODS_PREFIX| + 32
  {
    PODS_PREFIX + (Lowered(key[|PODS_PREFIX|..|PODS_PREFIX| + 32]) + key[|PODS_PREFIX| + 32..])
  }

  predicate Fits(p: PodSeq) { p.pod.number < Power16(32) && p.at < U64 }

  lemma {:induction false} HexHasNoSlash(s: string)
    requires ParseHex(s).Some?
    ensures forall i | 0 <= i < |s| :: s[i] != '/'
  {
    if s != "" { HexHasNoSlash(s[..|s| - 1]); }
  }

  lemma SlashAt(s: string, k: nat)
    requires k < |s| && s[k] == '/' && forall j | 0 <= j < k :: s[j] != '/'
    ensures FirstSlash(s) == k
  {
  }

  lemma {:induction false} HexIsParsed(n: nat, k: nat)
    requires n < Power16(k)
    ensures ParseHex(Hex(n, k)) == Some(n)
  {
    if k > 0 {
      HexIsParsed(n / 16, k - 1);
      assert Hex(n, k)[..k - 1] == Hex(n / 16, k - 1);
      DigitReadsBack(DigitChar(n % 16), n % 16);
    }
  }

  /** A record's key reads back to its pod and sequence. */
  lemma KeyReadsBack(p: PodSeq)
    requires Fits(p)
    ensures ParseKey(KeyOf(p)) == Some(p)
  {
    hide Hex, ParseHex, Decimal, ParseDecimal, Power16;
    var hex, tail := Hex(p.pod.number, 32), "/" + Decimal(p.at);
    var rest := KeyOf(p)[|PODS_PREFIX|..];
    assert rest == hex + tail;
    HexIsParsed(p.pod.number, 32);
    HexHasNoSlash(hex);
    SlashAt(rest, 32);
    assert rest[..32] == hex && rest[33..] == Decimal(p.at);
    DecimalReadsBack(Decimal(p.at), p.at);
  }

  /** And no key reads back to them but that one, up to the case of the pod's digits. */
  lemma ParsedIsKey(key: string, p: PodSeq)
    requires ParseKey(key) == Some(p)
    ensures Fits(p) && |key| >= |PODS_PREFIX| + 32 && Canonical(key) == KeyOf(p)
  {
    var rest := key[|PODS_PREFIX|..];
    ParsedHexFits(rest[..32]);
    HexReadsBack(rest[..32], p.pod.number);
    DecimalReadsBack(rest[33..], p.at);
    assert key[|PODS_PREFIX|..|PODS_PREFIX| + 32] == rest[..32];
    assert key[|PODS_PREFIX| + 32..] == rest[32..] == "/" + rest[33..];
  }

  // ---------------------------------------------------------------- the fold

  datatype Entry = Entry(key: string, len: nat)

  /** The highest sequence recorded, and whether no tombstone sits there. */
  datatype Record = Record(at: nat, held: bool)

  type Records = map<PodId, Record>

  /** Two records of one pod: the higher sequence, a tombstone outweighing at equal ones. */
  function Both(a: Record, b: Record): Record {
    if a.at < b.at then b else if b.at < a.at then a else Record(a.at, a.held && b.held)
  }

  function Noted(highest: Records, e: Entry): Records {
    var p := ParseKey(e.key);
    if p.None? then highest
    else
      var r := Record(p.value.at, e.len != 0);
      highest[p.value.pod := if p.value.pod in highest then Both(highest[p.value.pod], r) else r]
  }

  function Fold(entries: seq<Entry>): Records {
    if entries == [] then map[] else Noted(Fold(entries[..|entries| - 1]), entries[|entries| - 1])
  }

  method PodRecords(entries: seq<Entry>) returns (highest: Records)
    ensures highest == Fold(entries)
  {
    highest := map[];
    for i := 0 to |entries|
      invariant highest == Fold(entries[..i])
    {
      assert entries[..i + 1][..i] == entries[..i];
      var p := ParseKey(entries[i].key);
      if p.Some? {
        var held := entries[i].len != 0;
        var slot := if p.value.pod in highest then highest[p.value.pod] else Record(p.value.at, held);
        if p.value.at > slot.at {
          slot := Record(p.value.at, held);
        } else if p.value.at == slot.at {
          slot := slot.(held := slot.held && held);
        }
        highest := highest[p.value.pod := slot];
      }
    }
    assert entries[..|entries|] == entries;
  }

  predicate Says(e: Entry, pod: PodId, at: nat) { ParseKey(e.key) == Some(PodSeq(pod, at)) }

  /** The highest sequence any entry records of the pod, held exactly when no entry at it is a tombstone. */
  ghost predicate IsRecord(entries: seq<Entry>, pod: PodId, r: Record) {
    && (exists e | e in entries :: Says(e, pod, r.at))
    && (forall e, at: nat | e in entries && Says(e, pod, at) :: at <= r.at)
    && (r.held <==> forall e | e in entries && Says(e, pod, r.at) :: e.len != 0)
  }

  lemma {:induction false} FoldIsHighest(entries: seq<Entry>, pod: PodId)
    ensures pod in Fold(entries) ==> IsRecord(entries, pod, Fold(entries)[pod])
    ensures pod !in Fold(entries) ==> forall e, at: nat | e in entries :: !Says(e, pod, at)
  {
    if entries != [] {
      var last := |entries| - 1;
      FoldIsHighest(entries[..last], pod);
      NotedIsHighest(entries[..last], entries[last], pod, Fold(entries[..last]));
      assert entries == entries[..last] + [entries[last]];
    }
  }

  lemma NotedIsHighest(entries: seq<Entry>, e: Entry, pod: PodId, f: Records)
    requires pod in f ==> IsRecord(entries, pod, f[pod])
    requires pod !in f ==> forall d, at: nat | d in entries :: !Says(d, pod, at)
    ensures pod in Noted(f, e) ==> IsRecord(entries + [e], pod, Noted(f, e)[pod])
    ensures pod !in Noted(f, e) ==> forall d, at: nat | d in entries + [e] :: !Says(d, pod, at)
  {
    hide ParseKey;
    assert e in entries + [e];
    assert forall d :: d in entries + [e] <==> d in entries || d == e;
    if pod in Noted(f, e) {
      var r := Noted(f, e)[pod];
      if pod in f && f[pod].at == r.at {
        var d :| d in entries && Says(d, pod, r.at);
        assert d in entries + [e];
      } else {
        assert Says(e, pod, r.at);
      }
    }
  }

  lemma OneRecord(entries: seq<Entry>, others: seq<Entry>, pod: PodId, a: Record, b: Record)
    requires (forall e :: e in entries <==> e in others) && IsRecord(entries, pod, a) && IsRecord(others, pod, b)
    ensures a == b
  {
    hide ParseKey;
    var e :| e in entries && Says(e, pod, a.at);
    var d :| d in others && Says(d, pod, b.at);
    assert d in entries && e in others;
  }

  /** The fold reads neither the order of the entries nor how often each comes. */
  lemma FoldIgnoresOrder(entries: seq<Entry>, others: seq<Entry>)
    requires forall e :: e in entries <==> e in others
    ensures Fold(entries) == Fold(others)
  {
    var f, g := Fold(entries), Fold(others);
    forall pod ensures pod in f <==> pod in g {
      FoldIsHighest(entries, pod);
      FoldIsHighest(others, pod);
    }
    forall pod | pod in f ensures f[pod] == g[pod] {
      FoldIsHighest(entries, pod);
      FoldIsHighest(others, pod);
      OneRecord(entries, others, pod, f[pod], g[pod]);
    }
  }

  function Merged(a: Records, b: Records): Records {
    map p | p in a.Keys + b.Keys :: if p !in a then b[p] else if p !in b then a[p] else Both(a[p], b[p])
  }

  /** Two replicas' entries together fold to their folds merged, and merging is commutative, associative and
      idempotent. */
  lemma {:induction false} FoldMerges(a: seq<Entry>, b: seq<Entry>)
    ensures Fold(a + b) == Merged(Fold(a), Fold(b))
    decreases |b|
  {
    if b == [] {
      assert a + b == a;
    } else {
      var last := |b| - 1;
      FoldMerges(a, b[..last]);
      assert (a + b)[..|a| + last] == a + b[..last] && (a + b)[|a| + last] == b[last];
      NotedMerges(Fold(a), Fold(b[..last]), b[last]);
    }
  }

  lemma NotedMerges(f: Records, g: Records, e: Entry)
    ensures Noted(Merged(f, g), e) == Merged(f, Noted(g, e))
  {
    hide ParseKey;
  }

  lemma MergedAssociatesAt(a: Records, b: Records, c: Records, p: PodId)
    requires p in a.Keys + b.Keys + c.Keys
    ensures Merged(Merged(a, b), c)[p] == Merged(a, Merged(b, c))[p]
  {
    assert p in Merged(a, b) <==> p in a || p in b;
    assert p in Merged(b, c) <==> p in b || p in c;
  }

  lemma MergeAssociates(a: Records, b: Records, c: Records)
    ensures Merged(Merged(a, b), c) == Merged(a, Merged(b, c))
  {
    hide Both;
    var left, right := Merged(Merged(a, b), c), Merged(a, Merged(b, c));
    assert left.Keys == a.Keys + b.Keys + c.Keys && right.Keys == a.Keys + b.Keys + c.Keys;
    forall p | p in left ensures left[p] == right[p] { MergedAssociatesAt(a, b, c, p); }
    hide Merged;
  }

  lemma MergeIsJoin(a: Records, b: Records, c: Records)
    ensures Merged(a, b) == Merged(b, a) && Merged(a, a) == a
    ensures Merged(Merged(a, b), c) == Merged(a, Merged(b, c))
  {
    MergeAssociates(a, b, c);
  }

  // ---------------------------------------------------------------- one pod's record

  function PrefixOf(pod: PodId): string { PODS_PREFIX + (Hex(pod.number, 32) + "/") }

  /** What the query under one pod's prefix reaches. */
  function Under(entries: seq<Entry>, pod: PodId): seq<Entry> {
    if entries == [] then []
    else
      var last := entries[|entries| - 1];
      Under(entries[..|entries| - 1], pod) + if PrefixOf(pod) <= last.key then [last] else []
  }

  lemma {:induction false} UnderMember(entries: seq<Entry>, pod: PodId, e: Entry)
    ensures e in Under(entries, pod) <==> e in entries && PrefixOf(pod) <= e.key
  {
    if entries != [] {
      UnderMember(entries[..|entries| - 1], pod, e);
      assert entries == entries[..|entries| - 1] + [entries[|entries| - 1]];
    }
  }

  lemma {:induction false} LoweredHex(n: nat, k: nat)
    ensures Lowered(Hex(n, k)) == Hex(n, k)
  {
    if k > 0 {
      LoweredHex(n / 16, k - 1);
      assert Hex(n, k)[..k - 1] == Hex(n / 16, k - 1);
    }
  }

  lemma KeySplits(p: PodSeq)
    ensures KeyOf(p) == PrefixOf(p.pod) + Decimal(p.at)
  {
    hide Hex, Decimal;
  }

  /** Of the entries that record a pod, its prefix reaches exactly those that spell it in lower case. */
  lemma PrefixReaches(key: string, p: PodSeq)
    requires ParseKey(key) == Some(p)
    ensures PrefixOf(p.pod) <= key <==> key == KeyOf(p)
  {
    ParsedIsKey(key, p);
    LoweredHex(p.pod.number, 32);
    KeySplits(p);
    hide Hex, ParseHex, Decimal, ParseDecimal, Power16, ParseKey, KeyOf;
    if PrefixOf(p.pod) <= key {
      assert key[|PODS_PREFIX|..|PODS_PREFIX| + 32] == Hex(p.pod.number, 32);
    }
  }

  lemma UnderSays(entries: seq<Entry>, pod: PodId, e: Entry, at: nat)
    ensures e in Under(entries, pod) && Says(e, pod, at) <==>
      e in entries && at < U64 && pod.number < Power16(32) && e.key == KeyOf(PodSeq(pod, at))
  {
    UnderMember(entries, pod, e);
    if Says(e, pod, at) {
      PrefixReaches(e.key, PodSeq(pod, at));
      ParsedIsKey(e.key, PodSeq(pod, at));
    } else if at < U64 && pod.number < Power16(32) {
      KeyReadsBack(PodSeq(pod, at));
    }
  }

  /** An entry of the pod at a sequence, spelled in lower case. */
  ghost predicate Spelled(entries: seq<Entry>, pod: PodId, at: nat, tombstone: bool) {
    exists e | e in entries :: e.key == KeyOf(PodSeq(pod, at)) && (tombstone ==> e.len == 0)
  }

  /** A pod's own record is found exactly when some entry spells the pod in lower case. */
  lemma OwnRecordFound(entries: seq<Entry>, pod: PodId)
    requires pod.number < Power16(32)
    ensures pod in Fold(Under(entries, pod)) <==> exists at: nat :: at < U64 && Spelled(entries, pod, at, false)
  {
    hide Under, Fold, KeyOf, ParseKey, Power16;
    var own := Under(entries, pod);
    FoldIsHighest(own, pod);
    if pod in Fold(own) {
      var r := Fold(own)[pod];
      var e :| e in own && Says(e, pod, r.at);
      UnderSays(entries, pod, e, r.at);
      assert Spelled(entries, pod, r.at, false);
    } else if at: nat :| at < U64 && Spelled(entries, pod, at, false) {
      var e :| e in entries && e.key == KeyOf(PodSeq(pod, at));
      UnderSays(entries, pod, e, at);
      assert false;
    }
  }

  /** A pod's own record is what the fold of everything says of it exactly when an entry at the highest sequence spells
      the pod in lower case and, where a tombstone sits there, a tombstone does. */
  lemma OwnRecordAgrees(entries: seq<Entry>, pod: PodId)
    requires pod in Fold(entries)
    ensures var own, r := Fold(Under(entries, pod)), Fold(entries)[pod];
      pod in own && own[pod] == r <==>
        Spelled(entries, pod, r.at, false) && (r.held || Spelled(entries, pod, r.at, true))
  {
    hide Under, Fold, KeyOf, ParseKey, Power16;
    var own, r := Under(entries, pod), Fold(entries)[pod];
    FoldIsHighest(entries, pod);
    FoldIsHighest(own, pod);
    var f :| f in entries && Says(f, pod, r.at);
    SaysFits(f, pod, r.at);
    forall e: Entry, at: nat ensures e in own && Says(e, pod, at) ==> e in entries && e.key == KeyOf(PodSeq(pod, at)) {
      UnderSays(entries, pod, e, at);
    }
    forall e | e in entries && e.key == KeyOf(PodSeq(pod, r.at)) ensures e in own && Says(e, pod, r.at) {
      UnderSays(entries, pod, e, r.at);
    }
    forall e: Entry, at: nat | e in own && Says(e, pod, at) ensures at <= r.at { UnderMember(entries, pod, e); }
    OwnAtHighest(entries, own, pod, r);
  }

  lemma SaysFits(e: Entry, pod: PodId, at: nat)
    requires Says(e, pod, at)
    ensures pod.number < Power16(32) && at < U64
  {
    ParsedIsKey(e.key, PodSeq(pod, at));
  }

  lemma OwnAtHighest(entries: seq<Entry>, own: seq<Entry>, pod: PodId, r: Record)
    requires IsRecord(entries, pod, r)
    requires forall e, at: nat | e in own && Says(e, pod, at) :: at <= r.at
    requires forall e :: e in own && Says(e, pod, r.at) <==> e in entries && e.key == KeyOf(PodSeq(pod, r.at))
    requires pod in Fold(own) ==> IsRecord(own, pod, Fold(own)[pod])
    requires pod !in Fold(own) ==> forall e, at: nat | e in own :: !Says(e, pod, at)
    ensures pod in Fold(own) && Fold(own)[pod] == r <==>
      Spelled(entries, pod, r.at, false) && (r.held || Spelled(entries, pod, r.at, true))
  {
    hide Fold, KeyOf, ParseKey;
  }

  function Zeros(k: nat): (z: string)
    ensures |z| == k
  {
    if k == 0 then "" else Zeros(k - 1) + "0"
  }

  lemma ZeroAppended(s: string)
    requires ParseHex(s).Some?
    ensures ParseHex(s + "0") == Some(ParseHex(s).value * 16)
  {
    assert (s + "0")[..|s|] == s;
  }

  lemma Shifted(n: nat, k: nat)
    requires k > 0
    ensures n * Power16(k - 1) * 16 == n * Power16(k)
  {
  }

  lemma {:induction false} ZerosParse(s: string, k: nat)
    requires ParseHex(s).Some?
    ensures ParseHex(s + Zeros(k)) == Some(ParseHex(s).value * Power16(k))
  {
    hide ParseHex;
    if k == 0 {
      assert s + Zeros(k) == s;
    } else {
      ZerosParse(s, k - 1);
      ZeroAppended(s + Zeros(k - 1));
      assert s + Zeros(k) == s + Zeros(k - 1) + "0";
      Shifted(ParseHex(s).value, k);
      hide Power16;
    }
  }

  lemma {:induction false} LoweredFront(s: string)
    requires s != ""
    ensures Lowered(s)[0] == Lower(s[0])
  {
    if |s| > 1 { LoweredFront(s[..|s| - 1]); }
  }

  /** One entry, its pod's first digit an upper-case A: folded with the rest, and missed by the pod's own record. */
  lemma OtherSpellingIsMissed() returns (e: Entry, pod: PodId)
    ensures e == Entry(PODS_PREFIX + (("A" + Zeros(31)) + "/1"), 1) && Says(e, pod, 1)
    ensures pod in Fold([e]) && pod !in Fold(Under([e], pod))
  {
    var hex := "A" + Zeros(31);
    e, pod := Entry(PODS_PREFIX + (hex + "/1"), 1), PodId(10 * Power16(31));
    assert ParseHex("A") == Some(10) by { assert "A"[..0] == ""; }
    ZerosParse("A", 31);
    UpperKeyParses(hex, 10 * Power16(31));
    hide Hex, ParseHex, Power16, ParseKey;
    if e.key == KeyOf(PodSeq(pod, 1)) {
      assert hex == e.key[|PODS_PREFIX|..][..32] == Hex(pod.number, 32);
      LoweredHex(pod.number, 32);
      LoweredFront(hex);
      assert false;
    }
    PrefixReaches(e.key, PodSeq(pod, 1));
    assert [e][..0] == [] && Under([e], pod) == [];
  }

  lemma UpperKeyParses(hex: string, n: nat)
    requires |hex| == 32 && ParseHex(hex) == Some(n)
    ensures ParseKey(PODS_PREFIX + (hex + "/1")) == Some(PodSeq(PodId(n), 1))
  {
    var rest := (PODS_PREFIX + (hex + "/1"))[|PODS_PREFIX|..];
    assert rest == hex + "/1";
    HexHasNoSlash(hex);
    hide ParseHex, Hex;
    SlashAt(rest, 32);
    assert rest[..32] == hex && rest[33..] == "1";
    DecimalReadsBack("1", 1);
  }

  // ---------------------------------------------------------------- held and departed

  function HeldPods(f: Records): set<PodId> { set p | p in f && f[p].held }

  function DepartedPods(f: Records): set<PodId> { set p | p in f && !f[p].held }

  /** The pods recorded are those held and those departed, none both; a pod is held exactly when nothing at the highest
      sequence recorded of it is a tombstone. */
  lemma HeldOrDeparted(entries: seq<Entry>, pod: PodId)
    ensures HeldPods(Fold(entries)) !! DepartedPods(Fold(entries))
    ensures pod in HeldPods(Fold(entries)) + DepartedPods(Fold(entries)) <==>
      exists e, at: nat | e in entries :: Says(e, pod, at)
    ensures pod in HeldPods(Fold(entries)) <==> exists r: Record :: r.held && IsRecord(entries, pod, r)
  {
    FoldIsHighest(entries, pod);
    hide Fold, ParseKey;
    if r: Record :| r.held && IsRecord(entries, pod, r) {
      var e :| e in entries && Says(e, pod, r.at);
      OneRecord(entries, entries, pod, r, Fold(entries)[pod]);
    }
    if pod in Fold(entries) {
      var e :| e in entries && Says(e, pod, Fold(entries)[pod].at);
    }
  }
}
