/** The endpoint's choice of a path: the best one across all connections, whatever order they are read in, kept when
    chosen again, and given up at equal standing only for one faster by a margin. */
module PathSelector {
  import opened Options

  const I128_MAX: int := 0x7FFF_FFFF_FFFF_FFFF_FFFF_FFFF_FFFF_FFFF
  const USIZE_MAX: nat := 0xFFFF_FFFF_FFFF_FFFF
  const RTT_SWITCHING_MIN_NANOS: int := 5_000_000

  datatype Path = Path(address: int)

  datatype Tier = Primary | Backup

  /** One path on one connection. */
  datatype Observed = Observed(path: Path, tier: Tier, rtt: int, received: bool)

  function Added(rtt: int, more: int): int { if rtt + more > I128_MAX then I128_MAX else rtt + more }

  predicate TierLess(a: Tier, b: Tier) { a == Primary && b == Backup }

  predicate KeyLess(a: Observed, b: Observed) { TierLess(a.tier, b.tier) || (a.tier == b.tier && a.rtt < b.rtt) }

  /** A path across the connections that carry it: the entry with its lowest key, and how many connections receive on
      it. */
  datatype Seen = Seen(at: nat, key: Observed, receiving: nat)

  /** Some connection receives on it, then its tier, then more connections receive on it. */
  predicate StandsBetter(a: Seen, b: Seen) {
    || (a.receiving > 0 && b.receiving == 0)
    || ((a.receiving == 0) == (b.receiving == 0) && TierLess(a.key.tier, b.key.tier))
    || ((a.receiving == 0) == (b.receiving == 0) && a.key.tier == b.key.tier && a.receiving > b.receiving)
  }

  predicate StandsAlike(a: Seen, b: Seen) { !StandsBetter(a, b) && !StandsBetter(b, a) }

  predicate Better(a: Seen, b: Seen) {
    StandsBetter(a, b) || (StandsAlike(a, b) && (a.key.rtt < b.key.rtt || (a.key.rtt == b.key.rtt && a.at < b.at)))
  }

  /** How many of the first `n` entries receive on a path, as far as can be counted. */
  function Receiving(paths: seq<Observed>, n: nat, p: Path): nat
    requires n <= |paths|
  {
    if n == 0 then 0
    else
      var before := Receiving(paths, n - 1, p);
      if paths[n - 1].path == p && paths[n - 1].received && before < USIZE_MAX then before + 1 else before
  }

  /** What the first `n` entries say of a path one of them carries. */
  ghost predicate Sums(paths: seq<Observed>, n: nat, p: Path, s: Seen)
    requires n <= |paths|
  {
    && s.at < n && paths[s.at] == s.key && s.key.path == p && s.receiving == Receiving(paths, n, p)
    && forall i | 0 <= i < n && paths[i].path == p ::
      !KeyLess(paths[i], s.key) && (KeyLess(s.key, paths[i]) || s.at <= i)
  }

  /** No path carried stands before it. */
  ghost predicate IsBest(paths: seq<Observed>, best: Seen) {
    && Sums(paths, |paths|, best.key.path, best)
    && forall s: Seen | Sums(paths, |paths|, s.key.path, s) :: !Better(s, best)
  }

  predicate Switches(best: Seen, current: Seen) {
    StandsBetter(best, current) || Added(best.key.rtt, RTT_SWITCHING_MIN_NANOS) <= current.key.rtt
  }

  /** What the best path and the current one, if it is carried, come to. */
  ghost predicate Chosen(paths: seq<Observed>, current: Option<Path>, best: Seen, r: Option<nat>) {
    if current.Some? && Carried(paths, current.value) then
      exists c: Seen ::
        && Sums(paths, |paths|, current.value, c)
        && r == if best.at != c.at && Switches(best, c) then Some(best.at) else None
    else r == Some(best.at)
  }

  predicate Carried(paths: seq<Observed>, p: Path) { exists i | 0 <= i < |paths| :: paths[i].path == p }

  lemma SumsAreUnique(paths: seq<Observed>, n: nat, p: Path, a: Seen, b: Seen)
    requires n <= |paths| && Sums(paths, n, p, a) && Sums(paths, n, p, b)
    ensures a == b
  {
  }

  /** The entry read next, taken into what is seen of its path. */
  function Taken(seen: map<Path, Seen>, at: nat, o: Observed): Seen {
    var s := if o.path in seen then seen[o.path] else Seen(at, o, 0);
    var lowest := if KeyLess(o, s.key) then Seen(at, o, s.receiving) else s;
    if o.received && lowest.receiving < USIZE_MAX then lowest.(receiving := lowest.receiving + 1) else lowest
  }

  ghost predicate Sees(paths: seq<Observed>, n: nat, seen: map<Path, Seen>)
    requires n <= |paths|
  {
    && (forall p | p in seen :: Sums(paths, n, p, seen[p]))
    && (forall i | 0 <= i < n :: paths[i].path in seen)
  }

  lemma {:induction false} UncarriedReceiveNothing(paths: seq<Observed>, n: nat, p: Path)
    requires n <= |paths| && forall i | 0 <= i < n :: paths[i].path != p
    ensures Receiving(paths, n, p) == 0
  {
    if n > 0 { UncarriedReceiveNothing(paths, n - 1, p); }
  }

  lemma TakenSums(paths: seq<Observed>, n: nat, seen: map<Path, Seen>)
    requires n < |paths| && Sees(paths, n, seen)
    ensures Sees(paths, n + 1, seen[paths[n].path := Taken(seen, n, paths[n])])
  {
    var p := paths[n].path;
    if p !in seen { UncarriedReceiveNothing(paths, n, p); }
    assert Sums(paths, n + 1, p, Taken(seen, n, paths[n]));
    forall q | q in seen && q != p ensures Sums(paths, n + 1, q, seen[q]) { assert Sums(paths, n, q, seen[q]); }
  }

  method Choose(current: Option<Path>, paths: seq<Observed>) returns (r: Option<nat>, ghost best: Seen)
    ensures paths == [] ==> r == None
    ensures paths != [] ==> IsBest(paths, best) && Chosen(paths, current, best, r)
    ensures paths != [] ==> Preferred(paths, best.at) && Answers(paths, current, best.at, r)
  {
    var seen: map<Path, Seen> := map[];
    for at := 0 to |paths|
      invariant Sees(paths, at, seen)
    {
      TakenSums(paths, at, seen);
      seen := seen[paths[at].path := Taken(seen, at, paths[at])];
    }
    best := Seen(0, Observed(Path(0), Primary, 0, false), 0);
    if paths == [] { return None, best; }
    var b := Least(paths, seen);
    best := b;
    if current.None? || current.value !in seen {
      r := Some(b.at);
    } else {
      var c := seen[current.value];
      r := if b.at != c.at && Switches(b, c) then Some(b.at) else None;
    }
    assert Chosen(paths, current, best, r);
    ChosenMeans(paths, current, best, r);
  }

  method Least(paths: seq<Observed>, seen: map<Path, Seen>) returns (b: Seen)
    requires paths != [] && Sees(paths, |paths|, seen)
    ensures IsBest(paths, b)
  {
    b := seen[paths[0].path];
    var rest := seen.Keys;
    while rest != {}
      invariant rest <= seen.Keys && b.key.path in seen && seen[b.key.path] == b
      invariant forall p | p in seen && p !in rest :: !Better(seen[p], b)
    {
      var p :| p in rest;
      if Better(seen[p], b) {
        BetterThrough(seen, rest, seen[p], b);
        b := seen[p];
      }
      rest := rest - {p};
    }
    forall s: Seen | Sums(paths, |paths|, s.key.path, s) ensures !Better(s, b) {
      assert paths[s.at].path in seen;
      SumsAreUnique(paths, |paths|, s.key.path, s, seen[s.key.path]);
    }
  }

  lemma BetterThrough(seen: map<Path, Seen>, rest: set<Path>, a: Seen, b: Seen)
    requires Better(a, b) && forall p | p in seen && p !in rest :: !Better(seen[p], b)
    ensures forall p | p in seen && p !in rest :: !Better(seen[p], a)
  {
  }

  // ---------------------------------------------------------------- the choice, said of the entries themselves

  ghost predicate ReceivesOn(paths: seq<Observed>, p: Path) {
    exists i | 0 <= i < |paths| :: paths[i].path == p && paths[i].received
  }

  ghost predicate OnPrimary(paths: seq<Observed>, p: Path) {
    exists i | 0 <= i < |paths| :: paths[i].path == p && paths[i].tier == Primary
  }

  ghost function Receivers(paths: seq<Observed>, n: nat, p: Path): set<nat>
    requires n <= |paths|
  {
    set i: nat | i < n && paths[i].path == p && paths[i].received
  }

  ghost function Capped(n: nat): nat { if n <= USIZE_MAX then n else USIZE_MAX }

  /** The entry a path is judged by: primary if the path is so anywhere, then its shortest round trip, then the first
      read. */
  ghost predicate JudgedBy(paths: seq<Observed>, p: Path, at: nat) {
    && at < |paths| && paths[at].path == p && (OnPrimary(paths, p) <==> paths[at].tier == Primary)
    && forall i | 0 <= i < |paths| && paths[i].path == p && paths[i].tier == paths[at].tier ::
      paths[at].rtt < paths[i].rtt || (paths[at].rtt == paths[i].rtt && at <= i)
  }

  /** Data comes in on it and not on the other; or that is alike and it alone is primary; or both are alike and more
      connections receive on it. */
  ghost predicate Outranks(paths: seq<Observed>, p: Path, q: Path) {
    || (ReceivesOn(paths, p) && !ReceivesOn(paths, q))
    || (ReceivesOn(paths, p) == ReceivesOn(paths, q) && OnPrimary(paths, p) && !OnPrimary(paths, q))
    || (ReceivesOn(paths, p) == ReceivesOn(paths, q) && OnPrimary(paths, p) == OnPrimary(paths, q)
        && Capped(|Receivers(paths, |paths|, p)|) > Capped(|Receivers(paths, |paths|, q)|))
  }

  /** No path outranks it, and of those it does not outrank none is faster, or as fast and read before. */
  ghost predicate Preferred(paths: seq<Observed>, at: nat) {
    && at < |paths| && JudgedBy(paths, paths[at].path, at)
    && forall i: nat | i < |paths| && JudgedBy(paths, paths[i].path, i) ::
      && !Outranks(paths, paths[i].path, paths[at].path)
      && (Outranks(paths, paths[at].path, paths[i].path)
          || paths[at].rtt < paths[i].rtt || (paths[at].rtt == paths[i].rtt && at <= i))
  }

  /** It outranks the current path, or is faster by the margin, the sum held to the longest round trip there is. */
  ghost predicate Overtakes(paths: seq<Observed>, at: nat, current: nat)
    requires at < |paths| && current < |paths|
  {
    && paths[at].path != paths[current].path
    && (Outranks(paths, paths[at].path, paths[current].path)
        || paths[at].rtt + RTT_SWITCHING_MIN_NANOS <= paths[current].rtt || paths[current].rtt >= I128_MAX)
  }

  lemma {:induction false} ReceivingCounts(paths: seq<Observed>, n: nat, p: Path)
    requires n <= |paths|
    ensures Receiving(paths, n, p) == Capped(|Receivers(paths, n, p)|)
  {
    if n > 0 {
      ReceivingCounts(paths, n - 1, p);
      assert Receivers(paths, n, p) == Receivers(paths, n - 1, p) +
        if paths[n - 1].path == p && paths[n - 1].received then {n - 1} else {};
    }
  }

  lemma SomeReceiver(paths: seq<Observed>, p: Path)
    ensures Capped(|Receivers(paths, |paths|, p)|) > 0 <==> ReceivesOn(paths, p)
  {
    var receivers := Receivers(paths, |paths|, p);
    if receivers != {} { var i :| i in receivers; }
    if i :| 0 <= i < |paths| && paths[i].path == p && paths[i].received { assert i in receivers; }
  }

  lemma SumsMeans(paths: seq<Observed>, p: Path, s: Seen)
    ensures Sums(paths, |paths|, p, s) <==>
      JudgedBy(paths, p, s.at) && paths[s.at] == s.key && s.receiving == Capped(|Receivers(paths, |paths|, p)|)
  {
    ReceivingCounts(paths, |paths|, p);
  }

  lemma StandingMeans(paths: seq<Observed>, a: Seen, b: Seen)
    requires Sums(paths, |paths|, a.key.path, a) && Sums(paths, |paths|, b.key.path, b)
    ensures StandsBetter(a, b) <==> Outranks(paths, a.key.path, b.key.path)
  {
    SumsMeans(paths, a.key.path, a);
    SumsMeans(paths, b.key.path, b);
    SomeReceiver(paths, a.key.path);
    SomeReceiver(paths, b.key.path);
    hide Sums, Receivers, ReceivesOn, OnPrimary, Capped;
  }

  ghost function Summed(paths: seq<Observed>, at: nat): Seen
    requires at < |paths|
  {
    Seen(at, paths[at], Capped(|Receivers(paths, |paths|, paths[at].path)|))
  }

  lemma BestIsPreferred(paths: seq<Observed>, best: Seen)
    requires IsBest(paths, best)
    ensures Preferred(paths, best.at)
  {
    SumsMeans(paths, best.key.path, best);
    forall i: nat | i < |paths| && JudgedBy(paths, paths[i].path, i)
      ensures !Outranks(paths, paths[i].path, best.key.path)
      ensures Outranks(paths, best.key.path, paths[i].path)
        || best.key.rtt < paths[i].rtt || (best.key.rtt == paths[i].rtt && best.at <= i)
    {
      var s := Summed(paths, i);
      SumsMeans(paths, s.key.path, s);
      StandingMeans(paths, s, best);
      StandingMeans(paths, best, s);
      assert !Better(s, best);
    }
  }

  /** The preferred path, unless the current one is carried and not overtaken. */
  ghost predicate Answers(paths: seq<Observed>, current: Option<Path>, at: nat, r: Option<nat>) {
    && at < |paths|
    && if current.Some? && Carried(paths, current.value) then
      exists c: nat ::
        JudgedBy(paths, current.value, c) && r == if Overtakes(paths, at, c) then Some(at) else None
    else r == Some(at)
  }

  lemma SwitchMeans(paths: seq<Observed>, best: Seen, c: Seen)
    requires Sums(paths, |paths|, best.key.path, best) && Sums(paths, |paths|, c.key.path, c)
    ensures best.at != c.at && Switches(best, c) <==> Overtakes(paths, best.at, c.at)
  {
    StandingMeans(paths, best, c);
    if best.key.path == c.key.path { SumsAreUnique(paths, |paths|, c.key.path, best, c); }
  }

  lemma ChosenMeans(paths: seq<Observed>, current: Option<Path>, best: Seen, r: Option<nat>)
    requires IsBest(paths, best) && Chosen(paths, current, best, r)
    ensures Preferred(paths, best.at) && Answers(paths, current, best.at, r)
  {
    BestIsPreferred(paths, best);
    if current.Some? && Carried(paths, current.value) {
      var c: Seen :| Sums(paths, |paths|, current.value, c)
        && r == if best.at != c.at && Switches(best, c) then Some(best.at) else None;
      SumsMeans(paths, current.value, c);
      SwitchMeans(paths, best, c);
    }
  }

  /** One answer per current path and set of observations. */
  lemma OneAnswer(paths: seq<Observed>, current: Option<Path>, best: Seen, best': Seen, r: Option<nat>, r': Option<nat>)
    requires IsBest(paths, best) && IsBest(paths, best') && Chosen(paths, current, best, r)
      && Chosen(paths, current, best', r')
    ensures r == r'
  {
  }

  /** The path chosen is the entry's own, stands no worse than the one left, and chosen again is kept. */
  lemma ChosenIsKept(paths: seq<Observed>, current: Option<Path>, best: Seen, at: nat)
    requires IsBest(paths, best) && Chosen(paths, current, best, Some(at))
    ensures at < |paths| && paths[at] == best.key && Chosen(paths, Some(paths[at].path), best, None)
    ensures current.Some? && Carried(paths, current.value) ==>
      forall c: Seen | Sums(paths, |paths|, current.value, c) ::
        c.key.path != paths[at].path && !StandsBetter(c, best) && Switches(best, c)
  {
  }

  /** At equal standing a path is left exactly for one faster by the margin, or, where the sum saturates, for any at all
      once its own round trip is the longest there is. */
  lemma MarginAtEqualStanding(best: Seen, c: Seen)
    requires StandsAlike(best, c) && c.key.rtt <= I128_MAX
    ensures Switches(best, c) <==>
      best.key.rtt + RTT_SWITCHING_MIN_NANOS <= c.key.rtt
        || (c.key.rtt == I128_MAX && best.key.rtt + RTT_SWITCHING_MIN_NANOS > I128_MAX)
  {
  }

  /** Going from one path to another and back, each time at equal standing and short of saturation, takes the difference
      of their round trips twice the margin. */
  lemma SwitchingBackTakesTwice(a: Seen, b: Seen, a': Seen, b': Seen)
    requires StandsAlike(a, b) && StandsAlike(a', b') && Switches(b, a) && Switches(a', b')
    requires a.key.rtt < I128_MAX && b'.key.rtt < I128_MAX
    ensures (a.key.rtt - b.key.rtt) - (a'.key.rtt - b'.key.rtt) >= 2 * RTT_SWITCHING_MIN_NANOS
  {
  }
}
