/** The pod sync test's classifier: what an event stream's gaps leave to trust, what is found of each expected entry,
    and what a verdict says of all of them. */
module Classifier {
  import opened Options

  // ---------------------------------------------------------------- streams

  datatype Event = Event(lagged: bool, sub: int, number: nat)

  predicate IsGap(prev: Option<Event>, e: Event) {
    if e.lagged then true
    else if prev.None? then e.number != 0
    else e.sub != prev.value.sub || e.number != prev.value.number + 1
  }

  function Prev(events: seq<Event>, i: nat): Option<Event>
    requires i <= |events|
  {
    if i == 0 then None else Some(events[i - 1])
  }

  /** Events were lost just before this one. */
  predicate GapAt(events: seq<Event>, i: nat) { i < |events| && IsGap(Prev(events, i), events[i]) }

  method Gaps(events: seq<Event>) returns (gaps: seq<nat>)
    ensures forall k | 0 <= k < |gaps| :: GapAt(events, gaps[k])
    ensures forall i | GapAt(events, i) :: i in gaps
  {
    gaps := [];
    var prev: Option<Event> := None;
    for i := 0 to |events|
      invariant prev == Prev(events, i)
      invariant forall k | 0 <= k < |gaps| :: gaps[k] < i && GapAt(events, gaps[k])
      invariant forall k: nat | k < i && GapAt(events, k) :: k in gaps
    {
      assert GapAt(events, i) == IsGap(prev, events[i]);
      hide GapAt;
      if IsGap(prev, events[i]) { gaps := gaps + [i]; }
      prev := Some(events[i]);
    }
  }

  /** Nothing was lost up to an event exactly when all up to it are one subscription's, numbered from zero on. */
  lemma {:induction false} NothingLostBefore(events: seq<Event>, i: nat)
    requires i < |events|
    ensures (forall k: nat | k <= i :: !GapAt(events, k)) <==>
      forall k: nat | k <= i :: events[k].number == k && events[k].sub == events[0].sub && !events[k].lagged
  {
    if i > 0 { NothingLostBefore(events, i - 1); }
    if forall k: nat | k <= i :: !GapAt(events, k) { assert !GapAt(events, i); }
  }

  // ---------------------------------------------------------------- trusted pairs of sides

  /** One side of a session: its place in its node's stream, and what it reported. */
  datatype Side = Side(at: nat, ok: bool, started: int, received: Option<nat>, sent: Option<nat>)

  /** A session as both its nodes reported it: the reader's side and the peer's. */
  datatype Pair = Pair(peer: int, r: Side, p: Side)

  predicate CountsMatch(x: Pair) { x.r.received.None? || x.p.sent.None? || x.r.received == x.p.sent }

  /** Nothing was lost of either stream up to its side, and what one received, where both say, is what the other
      sent. */
  ghost predicate Sound(x: Pair, rgaps: seq<nat>, pgaps: seq<nat>) {
    && (forall k | 0 <= k < |rgaps| :: x.r.at < rgaps[k]) && (forall k | 0 <= k < |pgaps| :: x.p.at < pgaps[k])
    && (x.r.received.Some? && x.p.sent.Some? ==> x.r.received.value == x.p.sent.value)
  }

  /** The first of the places, up to `n`, that is not before a gap. */
  method Cut(places: seq<nat>, n: nat, gaps: seq<nat>) returns (m: nat)
    requires n <= |places|
    ensures m <= n && forall i, k | 0 <= i < m && 0 <= k < |gaps| :: places[i] < gaps[k]
    ensures m < n ==> exists k | 0 <= k < |gaps| :: gaps[k] <= places[m]
  {
    m := n;
    for k := 0 to |gaps|
      invariant m <= n && forall i, l | 0 <= i < m && 0 <= l < k :: places[i] < gaps[l]
      invariant m < n ==> exists l | 0 <= l < |gaps| :: gaps[l] <= places[m]
    {
      var i := 0;
      while i < m && places[i] < gaps[k]
        invariant i <= m && forall j | 0 <= j < i :: places[j] < gaps[k]
      {
        i := i + 1;
      }
      m := i;
    }
  }

  /** The pairs up to the first lost event of either stream, and the first pair whose counts disagree. */
  method Trusted(pairs: seq<Pair>, rgaps: seq<nat>, pgaps: seq<nat>) returns (n: nat)
    ensures n <= |pairs| && forall i | 0 <= i < n :: Sound(pairs[i], rgaps, pgaps)
    ensures n < |pairs| ==> !Sound(pairs[n], rgaps, pgaps)
  {
    var rs := seq(|pairs|, i requires 0 <= i < |pairs| => pairs[i].r.at);
    var ps := seq(|pairs|, i requires 0 <= i < |pairs| => pairs[i].p.at);
    n := Cut(rs, |pairs|, rgaps);
    n := Cut(ps, n, pgaps);
    assert forall i | 0 <= i < |pairs| :: pairs[i].r.at == rs[i] && pairs[i].p.at == ps[i];
    var i := 0;
    while i < n && CountsMatch(pairs[i])
      invariant i <= n && forall j | 0 <= j < i :: CountsMatch(pairs[j])
    {
      i := i + 1;
    }
    n := i;
  }

  // ---------------------------------------------------------------- an expected entry on one reader

  datatype State = Readable | ContentLost | Corrupt | Uncounted | Lost | UndeterminedAbsent | StalledEntry | Unlisted

  /** What the reader's final listing has of the entry. */
  datatype Listed = NoListing | Absent | Present(state: State)

  predicate Qualifies(x: Pair, held: int -> Option<int>) {
    x.r.ok && x.p.ok && held(x.peer).Some? && x.p.started > held(x.peer).value
  }

  function FirstQualifying(pairs: seq<Pair>, held: int -> Option<int>): (i: nat)
    ensures i <= |pairs| && (i < |pairs| ==> Qualifies(pairs[i], held))
    ensures forall j | 0 <= j < i :: !Qualifies(pairs[j], held)
  {
    if pairs == [] || Qualifies(pairs[0], held) then 0 else 1 + FirstQualifying(pairs[1..], held)
  }

  datatype Finding = Finding(violated: bool, undetermined: bool, state: State)

  function Find(pairs: seq<Pair>, held: int -> Option<int>, arrived: Option<nat>, broken: bool,
      listed: Listed): Finding {
    var q := FirstQualifying(pairs, held);
    var none := q == |pairs|;
    Finding(!none && !(arrived.Some? && arrived.value < pairs[q].r.at),
            none && broken,
            match listed
            case NoListing => Unlisted
            case Present(state) => state
            case Absent => if !none then Lost else if broken then UndeterminedAbsent else StalledEntry)
  }

  ghost predicate InOrder(pairs: seq<Pair>) { forall i, j | 0 <= i < j < |pairs| :: pairs[i].r.at < pairs[j].r.at }

  /** Both sides ended well, and the serving one began after it held the entry. */
  ghost predicate HadToGive(x: Pair, held: int -> Option<int>) {
    x.r.ok && x.p.ok && held(x.peer) != None && held(x.peer).value < x.p.started
  }

  /** A violation is a trusted session that had the entry to give and ended before it arrived; an absent entry is lost
      where there was such a session, and otherwise undetermined or stalled as sessions were distrusted or not. */
  lemma FoundMeans(pairs: seq<Pair>, held: int -> Option<int>, arrived: Option<nat>, broken: bool, listed: Listed)
    requires InOrder(pairs)
    ensures var f, given := Find(pairs, held, arrived, broken, listed), exists x | x in pairs :: HadToGive(x, held);
      && (f.violated <==> exists x | x in pairs :: HadToGive(x, held) && (arrived.Some? ==> x.r.at <= arrived.value))
      && (f.undetermined <==> broken && !given)
      && (listed == Absent && given ==> f.state == Lost)
      && (listed == Absent && !given && broken ==> f.state == UndeterminedAbsent)
      && (listed == Absent && !given && !broken ==> f.state == StalledEntry)
      && (listed.Present? ==> f.state == listed.state) && (listed == NoListing ==> f.state == Unlisted)
  {
    var q := FirstQualifying(pairs, held);
    assert forall x | x in pairs :: HadToGive(x, held) == Qualifies(x, held);
    if q < |pairs| {
      assert pairs[q] in pairs;
    } else {
      forall x | x in pairs ensures !HadToGive(x, held) {
        var i :| 0 <= i < |pairs| && pairs[i] == x;
        assert !Qualifies(pairs[i], held);
      }
    }
  }

  /** Trusting fewer sessions turns nothing into a violation or a loss. */
  lemma LessTrustFindsLess(all: seq<Pair>, some: seq<Pair>, held: int -> Option<int>, arrived: Option<nat>,
      broken: bool, broken': bool, listed: Listed)
    requires InOrder(all) && InOrder(some) && (forall x | x in some :: x in all)
    ensures var f, g := Find(all, held, arrived, broken, listed), Find(some, held, arrived, broken', listed);
      (g.violated ==> f.violated) && (g.state == Lost ==> f.state == Lost)
  {
    FoundMeans(all, held, arrived, broken, listed);
    FoundMeans(some, held, arrived, broken', listed);
  }

  // ---------------------------------------------------------------- counts and verdict

  datatype Counts = Counts(expected: nat, violated: nat, undetermined: nat, states: map<State, nat>)

  const STATES: set<State> := {Readable, ContentLost, Corrupt, Uncounted, Lost, UndeterminedAbsent,
    StalledEntry, Unlisted}

  lemma AllStates(s: State)
    ensures s in STATES
  {
  }

  /** The findings a count is of. */
  ghost function Having(found: seq<Finding>, state: State): nat {
    if found == [] then 0 else Having(found[..|found| - 1], state) + if found[|found| - 1].state == state then 1 else 0
  }

  ghost function Violations(found: seq<Finding>): nat {
    if found == [] then 0 else Violations(found[..|found| - 1]) + if found[|found| - 1].violated then 1 else 0
  }

  ghost function Undetermined(found: seq<Finding>): nat {
    if found == [] then 0 else Undetermined(found[..|found| - 1]) + if found[|found| - 1].undetermined then 1 else 0
  }

  ghost predicate Tallies(found: seq<Finding>, c: Counts) {
    && c.expected == |found| && c.violated == Violations(found) && c.undetermined == Undetermined(found)
    && c.states.Keys == STATES && forall s | s in STATES :: c.states[s] == Having(found, s)
  }

  function Counted(c: Counts, f: Finding): Counts
    requires f.state in c.states
  {
    Counts(c.expected + 1, c.violated + if f.violated then 1 else 0, c.undetermined + if f.undetermined then 1 else 0,
           c.states[f.state := c.states[f.state] + 1])
  }

  lemma CountedTallies(found: seq<Finding>, i: nat, c: Counts)
    requires i < |found| && Tallies(found[..i], c) && found[i].state in STATES
    ensures Tallies(found[..i + 1], Counted(c, found[i]))
  {
    assert found[..i + 1][..i] == found[..i];
  }

  method Tally(found: seq<Finding>) returns (c: Counts)
    ensures Tallies(found, c)
  {
    c := Counts(0, 0, 0, map s | s in STATES :: 0);
    for i := 0 to |found|
      invariant Tallies(found[..i], c)
    {
      AllStates(found[i].state);
      CountedTallies(found, i, c);
      c := Counted(c, found[i]);
    }
    assert found[..|found|] == found;
  }

  /** Every expected entry is in exactly one of the eight states. */
  lemma {:induction false} StatesSumUp(found: seq<Finding>)
    ensures |found| == Having(found, Readable) + Having(found, ContentLost) + Having(found, Corrupt)
      + Having(found, Uncounted)
      + Having(found, Lost) + Having(found, UndeterminedAbsent) + Having(found, StalledEntry) + Having(found, Unlisted)
  {
    if found != [] { StatesSumUp(found[..|found| - 1]); }
  }

  datatype Verdict = PASS | FAIL | INCONCLUSIVE

  /** What is counted beside the entries. */
  datatype Rest = Rest(split: nat, extra: nat, stalledReaders: nat, unstagedSplit: nat, background: bool)

  predicate Defective(c: Counts, rest: Rest)
    requires c.states.Keys == STATES
  {
    c.violated > 0 || c.states[Lost] > 0 || c.states[ContentLost] > 0 || c.states[Uncounted] > 0 || rest.split > 0
      || c.states[Corrupt] > 0 || rest.extra > 0
  }

  function Judge(c: Counts, rest: Rest): Verdict
    requires c.states.Keys == STATES
  {
    if Defective(c, rest) then FAIL
    else if c.states[StalledEntry] > 0 || rest.stalledReaders > 0 || 100 * c.undetermined > c.expected
      || c.states[Unlisted] > 0 || rest.unstagedSplit > 0 || rest.background
    then INCONCLUSIVE
    else PASS
  }

  ghost function UndeterminedAt(found: seq<Finding>): set<nat> {
    set i: nat | i < |found| && found[i].undetermined
  }

  lemma {:induction false} UndeterminedCounted(found: seq<Finding>)
    ensures Undetermined(found) == |UndeterminedAt(found)|
  {
    if found != [] {
      var last := |found| - 1;
      UndeterminedCounted(found[..last]);
      assert UndeterminedAt(found) == UndeterminedAt(found[..last]) + if found[last].undetermined then {last} else {};
    }
  }

  lemma {:induction false} SomeHaving(found: seq<Finding>, state: State)
    ensures Having(found, state) > 0 <==> exists f | f in found :: f.state == state
    ensures Violations(found) > 0 <==> exists f | f in found :: f.violated
  {
    if found != [] {
      SomeHaving(found[..|found| - 1], state);
      assert found == found[..|found| - 1] + [found[|found| - 1]];
    }
  }

  /** A failure is a defect found, whatever else is; with none, what was stalled, unlisted, unstaged or undetermined
      beyond one in a hundred leaves it open; and with none of those it passes. */
  lemma VerdictMeans(found: seq<Finding>, c: Counts, rest: Rest)
    requires Tallies(found, c)
    ensures Judge(c, rest) == FAIL <==>
      (exists f | f in found :: f.violated || f.state in {Lost, ContentLost, Uncounted, Corrupt})
        || rest.split > 0 || rest.extra > 0
    ensures Judge(c, rest) == PASS <==>
      && Judge(c, rest) != FAIL && rest.stalledReaders == 0 && rest.unstagedSplit == 0 && !rest.background
      && (forall f | f in found :: f.state !in {StalledEntry, Unlisted})
      && 100 * |UndeterminedAt(found)| <= |found|
  {
    UndeterminedCounted(found);
    SomeHaving(found, Lost);
    SomeHaving(found, ContentLost);
    SomeHaving(found, Uncounted);
    SomeHaving(found, Corrupt);
    SomeHaving(found, StalledEntry);
    SomeHaving(found, Unlisted);
  }

  lemma {:induction false} AbsencesCounted(found: seq<Finding>)
    requires forall i | 0 <= i < |found| && found[i].state == UndeterminedAbsent :: found[i].undetermined
    ensures Having(found, UndeterminedAbsent) <= Undetermined(found)
  {
    if found != [] { AbsencesCounted(found[..|found| - 1]); }
  }

  /** A pass: every expected entry readable but for undetermined absences, at most one in a hundred. */
  lemma PassMeansReadable(found: seq<Finding>, c: Counts, rest: Rest)
    requires Tallies(found, c)
    requires forall i | 0 <= i < |found| && found[i].state == UndeterminedAbsent :: found[i].undetermined
    requires Judge(c, rest) == PASS
    ensures |found| == Having(found, Readable) + Having(found, UndeterminedAbsent)
      && 100 * Having(found, UndeterminedAbsent) <= |found|
  {
    StatesSumUp(found);
    AbsencesCounted(found);
  }
}
