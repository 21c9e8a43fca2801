/** A departure's past: the entries a former member's departure depends on, found by a worklist, are exactly those some
    chain of dependencies leads to; and a pass over them alone shows the same departure. */
module Past {
  import opened Ids
  import opened Options
  import opened Membership

  type AuthorId = int

  /** An entry by its key, and for a statement the authors its payload lists. */
  datatype Entry =
    | EventEntry(event: Event, author: AuthorId)
    | StatementEntry(member: PdnId, version: nat, lists: set<AuthorId>)
    | OtherEntry

  /** The entries held and which of them the view counted. */
  datatype Store = Store(entries: seq<Entry>, counted: set<nat>) {
    predicate IsEvent(i: nat) { i < |entries| && entries[i].EventEntry? }

    /** Some entry sits at the point, whatever it counts for. */
    predicate Present(p: Point) { exists i: nat | i < |entries| :: IsEvent(i) && entries[i].event.Place() == p }

    predicate Holds(c: PdnId, upto: nat) { forall n | 1 <= n <= upto :: Present(Point(c, n)) }

    function ChainUpto(c: PdnId, upto: nat): set<nat> {
      set i: nat | i < |entries| && IsEvent(i) && entries[i].event.subject == c && 1 <= entries[i].event.at <= upto
    }

    /** A counted statement of the member that lists the author. */
    predicate Listing(i: nat, m: PdnId, a: AuthorId) {
      && i < |entries| && i in counted && entries[i].StatementEntry? && entries[i].member == m && a in entries[i].lists
    }

    /** Those of the lowest version. */
    function Statements(m: PdnId, a: AuthorId): set<nat> {
      set i: nat | i < |entries| && Listing(i, m, a)
        && forall j: nat | j < |entries| && Listing(j, m, a) :: entries[i].version <= entries[j].version
    }

    /** A counted event that carries the member's identity key. */
    predicate Carries(i: nat, m: PdnId) {
      && IsEvent(i) && i in counted && entries[i].event.subject == m && entries[i].event.at >= 1
      && (entries[i].event.kind == Created || entries[i].event.kind == Joined) && Holds(m, entries[i].event.at)
    }

    /** The first of those at the lowest sequence, if there is one. */
    function KeyEvent(m: PdnId): set<nat> {
      set i: nat | i < |entries| && Carries(i, m)
        && forall j: nat | j < |entries| && Carries(j, m) ::
          entries[i].event.at < entries[j].event.at || (entries[i].event.at == entries[j].event.at && i <= j)
    }

    function DependsOn(i: nat): set<nat> {
      if i >= |entries| then {}
      else
        match entries[i]
        case EventEntry(e, author) =>
          ChainUpto(e.subject, if e.at == 0 then 0 else e.at - 1) + ChainUpto(e.actor, e.actorAt)
          + Statements(e.actor, author) + KeyEvent(e.actor)
        case StatementEntry(m, _, _) => KeyEvent(m)
        case OtherEntry => {}
    }

    /** The counted entries of one kind at a point. */
    function Departing(p: Point, kind: Kind): set<nat> {
      set i: nat | i < |entries| && IsEvent(i) && i in counted
        && entries[i].event.Place() == p && entries[i].event.kind == kind
    }
  }

  // ---------------------------------------------------------------- what a past holds

  /** An entry as the view counted it, with what a key event or a listing statement has to be. */
  predicate IsStatement(s: Store, i: nat, m: PdnId, a: AuthorId) {
    i < |s.entries| && i in s.counted && match s.entries[i] {
      case StatementEntry(member, _, lists) => member == m && a in lists
      case _ => false
    }
  }

  predicate IsKey(s: Store, i: nat, m: PdnId) {
    i < |s.entries| && i in s.counted && match s.entries[i] {
      case EventEntry(e, _) =>
        && e.subject == m && e.kind in {Created, Joined} && 1 <= e.at
        && forall n | 1 <= n <= e.at :: Held(s, m, n)
      case _ => false
    }
  }

  /** An event of the chain between two sequences. */
  predicate Lies(s: Store, j: nat, c: PdnId, from: int, to: int) {
    j < |s.entries| && s.entries[j].EventEntry? && s.entries[j].event.subject == c
      && from <= s.entries[j].event.at <= to
  }

  predicate Held(s: Store, c: PdnId, n: int) { exists j: nat | j < |s.entries| :: Lies(s, j, c, n, n) }

  /** Held with the member's key: of its counted creations and joins within what is held of its chain, the lowest, and
      of those the first. */
  ghost predicate HoldsKey(s: Store, past: set<nat>, m: PdnId) {
    forall i: nat | IsKey(s, i, m) :: i in past
      || exists j: nat | IsKey(s, j, m) ::
           s.entries[j].event.at < s.entries[i].event.at || (s.entries[j].event.at == s.entries[i].event.at && j < i)
  }

  /** Held with the statements that first listed an author as the member's. */
  ghost predicate HoldsStatements(s: Store, past: set<nat>, m: PdnId, a: AuthorId) {
    forall i: nat | IsStatement(s, i, m, a) :: i in past
      || exists j: nat | IsStatement(s, j, m, a) :: s.entries[j].version < s.entries[i].version
  }

  /** With an event, all before it on its chain, its actor's as far as it names, the statements that first listed its
      author, and the actor's key; with a statement, its member's key. */
  ghost predicate Complete(s: Store, past: set<nat>) {
    forall i: nat | i in past && i < |s.entries| ::
      match s.entries[i]
      case EventEntry(e, author) =>
        && (forall j: nat | Lies(s, j, e.subject, 1, e.at - 1) :: j in past)
        && (forall j: nat | Lies(s, j, e.actor, 1, e.actorAt) :: j in past)
        && HoldsStatements(s, past, e.actor, author) && HoldsKey(s, past, e.actor)
      case StatementEntry(m, _, _) => HoldsKey(s, past, m)
      case OtherEntry => true
  }

  lemma KeyIsCarried(s: Store, i: nat, m: PdnId)
    ensures s.Carries(i, m) <==> IsKey(s, i, m)
  {
    forall n: nat | n >= 1 ensures s.Present(Point(m, n)) <==> Held(s, m, n) {
      if s.Present(Point(m, n)) {
        var j: nat :| j < |s.entries| && s.IsEvent(j) && s.entries[j].event.Place() == Point(m, n);
        assert Lies(s, j, m, n, n);
      }
      if Held(s, m, n) {
        var j: nat :| j < |s.entries| && Lies(s, j, m, n, n);
        assert s.IsEvent(j) && s.entries[j].event.Place() == Point(m, n);
      }
    }
    hide Store.Present, Held;
  }

  lemma KeyHeld(s: Store, past: set<nat>, m: PdnId)
    ensures s.KeyEvent(m) <= past <==> HoldsKey(s, past, m)
  {
    forall i: nat ensures s.Carries(i, m) <==> IsKey(s, i, m) { KeyIsCarried(s, i, m); }
    forall i: nat | IsKey(s, i, m) ensures i < |s.entries| && s.entries[i].EventEntry? {
    }
    hide Store.Carries, IsKey;
  }

  lemma StatementsHeld(s: Store, past: set<nat>, m: PdnId, a: AuthorId)
    ensures s.Statements(m, a) <= past <==> HoldsStatements(s, past, m, a)
  {
    forall i: nat ensures s.Listing(i, m, a) <==> IsStatement(s, i, m, a) {
    }
  }

  lemma ChainHeld(s: Store, past: set<nat>, c: PdnId, upto: nat)
    ensures s.ChainUpto(c, upto) <= past <==> forall j: nat | Lies(s, j, c, 1, upto) :: j in past
  {
  }

  lemma DependsHeld(s: Store, past: set<nat>)
    ensures (forall i | i in past :: s.DependsOn(i) <= past) <==> Complete(s, past)
  {
    forall i: nat | i in past && i < |s.entries|
      ensures s.DependsOn(i) <= past <==> match s.entries[i] {
        case EventEntry(e, author) =>
          && (forall j: nat | Lies(s, j, e.subject, 1, e.at - 1) :: j in past)
          && (forall j: nat | Lies(s, j, e.actor, 1, e.actorAt) :: j in past)
          && HoldsStatements(s, past, e.actor, author) && HoldsKey(s, past, e.actor)
        case StatementEntry(m, _, _) => HoldsKey(s, past, m)
        case OtherEntry => true
      }
    {
      DependsHeldAt(s, past, i);
    }
    hide HoldsKey, HoldsStatements, Store.ChainUpto, Store.Statements, Store.KeyEvent, Lies;
  }

  lemma DependsHeldAt(s: Store, past: set<nat>, i: nat)
    requires i < |s.entries|
    ensures s.DependsOn(i) <= past <==> match s.entries[i] {
      case EventEntry(e, author) =>
        && (forall j: nat | Lies(s, j, e.subject, 1, e.at - 1) :: j in past)
        && (forall j: nat | Lies(s, j, e.actor, 1, e.actorAt) :: j in past)
        && HoldsStatements(s, past, e.actor, author) && HoldsKey(s, past, e.actor)
      case StatementEntry(m, _, _) => HoldsKey(s, past, m)
      case OtherEntry => true
    }
  {
    match s.entries[i]
    case EventEntry(e, author) =>
      ChainHeld(s, past, e.subject, if e.at == 0 then 0 else e.at - 1);
      ChainHeld(s, past, e.actor, e.actorAt);
      StatementsHeld(s, past, e.actor, author);
      KeyHeld(s, past, e.actor);
      hide HoldsKey, HoldsStatements, Store.ChainUpto, Store.Statements, Store.KeyEvent;
    case StatementEntry(m, _, _) => KeyHeld(s, past, m);
    case OtherEntry =>
  }

  // ---------------------------------------------------------------- the dependency closure

  /** Each entry after the first is one the entry before it depends on. */
  ghost predicate Leads(s: Store, path: seq<nat>) {
    path != [] && forall k | 0 <= k < |path| - 1 :: path[k + 1] in s.DependsOn(path[k])
  }

  ghost predicate LeadsTo(s: Store, from: set<nat>, path: seq<nat>, i: nat) {
    Leads(s, path) && path[0] in from && path[|path| - 1] == i
  }

  ghost predicate Reaches(s: Store, from: set<nat>, i: nat) { exists path :: LeadsTo(s, from, path, i) }

  lemma ReachesOn(s: Store, from: set<nat>, i: nat, j: nat)
    requires Reaches(s, from, i) && j in s.DependsOn(i)
    ensures Reaches(s, from, j)
  {
    var path :| LeadsTo(s, from, path, i);
    hide *;
    LeadsOn(s, from, path, i, j);
  }

  lemma LeadsOn(s: Store, from: set<nat>, path: seq<nat>, i: nat, j: nat)
    requires LeadsTo(s, from, path, i) && j in s.DependsOn(i)
    ensures LeadsTo(s, from, path + [j], j) && Reaches(s, from, j)
  {
    hide Store.DependsOn;
    var on := path + [j];
    forall k | 0 <= k < |on| - 1 ensures on[k + 1] in s.DependsOn(on[k]) {
      if k < |path| - 1 { assert path[k + 1] in s.DependsOn(path[k]); }
    }
    assert LeadsTo(s, from, on, j);
  }

  lemma {:induction false} PathStaysIn(s: Store, from: set<nat>, past: set<nat>, path: seq<nat>)
    requires Leads(s, path) && path[0] in from && from <= past && forall i | i in past :: s.DependsOn(i) <= past
    ensures path[|path| - 1] in past
    decreases |path|
  {
    hide Store.DependsOn;
    if |path| > 1 {
      var front := path[..|path| - 1];
      forall k | 0 <= k < |front| - 1 ensures front[k + 1] in s.DependsOn(front[k]) {
        assert path[k + 1] in s.DependsOn(path[k]);
      }
      PathStaysIn(s, from, past, front);
      assert path[|path| - 2 + 1] in s.DependsOn(path[|path| - 2]);
    }
  }

  lemma DependsInside(s: Store, i: nat)
    ensures forall j | j in s.DependsOn(i) :: j < |s.entries|
  {
    hide Store.Listing, Store.Carries, Store.Holds;
  }

  function Indices(n: nat): set<nat> { if n == 0 then {} else Indices(n - 1) + {n - 1} }

  lemma {:induction false} InIndices(n: nat, i: nat)
    ensures i in Indices(n) <==> i < n
  {
    if n > 0 { InIndices(n - 1, i); }
  }

  /** What was taken up and what is still to be: all of it reached, and all a taken one depends on among it. */
  ghost predicate Worked(s: Store, from: set<nat>, past: set<nat>, work: set<nat>) {
    && past + work <= Indices(|s.entries|) && from <= past + work
    && (forall i | i in past :: s.DependsOn(i) <= past + work)
    && forall i | i in past + work :: Reaches(s, from, i)
  }

  lemma BeginWork(s: Store, from: set<nat>)
    requires forall i | i in from :: i < |s.entries|
    ensures Worked(s, from, {}, from)
  {
    hide Store.DependsOn;
    forall i | i in from ensures i in Indices(|s.entries|) && Reaches(s, from, i) {
      InIndices(|s.entries|, i);
      assert LeadsTo(s, from, [i], i);
    }
  }

  lemma TakeUp(s: Store, from: set<nat>, past: set<nat>, work: set<nat>, i: nat)
    requires Worked(s, from, past, work) && i in work
    ensures i in past ==> Worked(s, from, past, work - {i})
    ensures i !in past ==> Worked(s, from, past + {i}, work - {i} + s.DependsOn(i))
    ensures i !in past ==> |Indices(|s.entries|) - (past + {i})| < |Indices(|s.entries|) - past|
  {
    hide Store.DependsOn, Reaches;
    var all := Indices(|s.entries|);
    hide Indices;
    assert i in past ==> past + (work - {i}) == past + work;
    if i !in past {
      DependsInside(s, i);
      forall j | j in s.DependsOn(i) ensures Reaches(s, from, j) && j in all {
        ReachesOn(s, from, i, j);
        InIndices(|s.entries|, j);
      }
      assert i in all;
      Smaller(all - (past + {i}), all - past);
    }
  }

  /** Works off the entries to be taken up, each once, adding what it depends on. */
  method Close(s: Store, from: set<nat>) returns (past: set<nat>)
    requires forall i | i in from :: i < |s.entries|
    ensures forall i: nat :: i in past <==> Reaches(s, from, i)
    ensures LeastComplete(s, from, past)
  {
    hide Worked, Indices, Reaches, Store.DependsOn, LeastComplete;
    var work := from;
    past := {};
    BeginWork(s, from);
    while work != {}
      invariant Worked(s, from, past, work)
      decreases |Indices(|s.entries|) - past|, |work|
    {
      var i :| i in work;
      TakeUp(s, from, past, work, i);
      if i in past {
        work := work - {i};
      } else {
        past, work := past + {i}, work - {i} + s.DependsOn(i);
      }
    }
    AllTakenUp(s, from, past);
    ReachedIsLeast(s, from, past);
  }

  /** The least complete set that holds these. */
  ghost predicate LeastComplete(s: Store, from: set<nat>, past: set<nat>) {
    && from <= past && Complete(s, past)
    && forall other: set<nat> | from <= other && Complete(s, other) :: past <= other
  }

  lemma ReachedIsLeast(s: Store, from: set<nat>, past: set<nat>)
    requires forall i: nat :: i in past <==> Reaches(s, from, i)
    ensures LeastComplete(s, from, past)
  {
    hide Store.DependsOn, Complete;
    forall i | i in from ensures i in past { assert LeadsTo(s, from, [i], i); }
    forall i | i in past ensures s.DependsOn(i) <= past {
      forall j | j in s.DependsOn(i) ensures j in past { ReachesOn(s, from, i, j); }
    }
    DependsHeld(s, past);
    hide Reaches;
    forall other: set<nat> | from <= other && Complete(s, other) ensures past <= other {
      DependsHeld(s, other);
      forall i | i in past ensures i in other { ReachedIsIn(s, from, other, i); }
    }
  }

  lemma AllTakenUp(s: Store, from: set<nat>, past: set<nat>)
    requires Worked(s, from, past, {})
    ensures forall i: nat :: i in past <==> Reaches(s, from, i)
  {
    hide Store.DependsOn, Reaches, Indices;
    assert past + {} == past;
    forall i: nat | Reaches(s, from, i) ensures i in past { ReachedIsIn(s, from, past, i); }
  }

  lemma Smaller(a: set<nat>, b: set<nat>)
    requires a < b
    ensures |a| < |b|
  {
    assert b == a + (b - a) && a !! (b - a) && b - a != {};
  }

  lemma ReachedIsIn(s: Store, from: set<nat>, past: set<nat>, i: nat)
    requires Reaches(s, from, i) && from <= past && forall i | i in past :: s.DependsOn(i) <= past
    ensures i in past
  {
    var path :| LeadsTo(s, from, path, i);
    PathStaysIn(s, from, past, path);
  }

  /** A counted event of the kind at that sequence of the member's chain. */
  predicate Departs(s: Store, member: PdnId, at: nat, kind: Kind, i: nat) {
    i < |s.entries| && i in s.counted && match s.entries[i] {
      case EventEntry(e, _) => e.subject == member && e.at == at && e.kind == kind
      case _ => false
    }
  }

  ghost predicate AnyDeparts(s: Store, member: PdnId, at: nat, kind: Kind) {
    exists i: nat :: Departs(s, member, at, kind, i)
  }

  /** What the departing entries depend on: removals, or, if there is none, leaves. */
  ghost predicate PastOf(s: Store, member: PdnId, at: nat, from: set<nat>, past: set<nat>) {
    var kind := if AnyDeparts(s, member, at, Removed) then Removed else Left;
    && (forall i: nat :: i in from <==> Departs(s, member, at, kind, i))
    && (forall i: nat :: i in past <==> Reaches(s, from, i)) && LeastComplete(s, from, past)
  }

  /** The past of a departure, where one counted. */
  method DeparturePast(s: Store, member: PdnId, at: nat) returns (past: Option<set<nat>>)
    ensures past.Some? <==> AnyDeparts(s, member, at, Removed) || AnyDeparts(s, member, at, Left)
    ensures past.Some? ==> exists from :: PastOf(s, member, at, from, past.value)
  {
    hide Reaches, LeastComplete, Departs, AnyDeparts, Store.Departing;
    var removed, left := s.Departing(Point(member, at), Removed), s.Departing(Point(member, at), Left);
    DepartingAre(s, member, at, Removed);
    DepartingAre(s, member, at, Left);
    var from := if removed != {} then removed else left;
    if from == {} { return None; }
    var closed := Close(s, from);
    past := Some(closed);
    assert PastOf(s, member, at, from, closed);
  }

  lemma DepartingAre(s: Store, member: PdnId, at: nat, kind: Kind)
    ensures forall i: nat :: i in s.Departing(Point(member, at), kind) <==> Departs(s, member, at, kind, i)
    ensures forall i | i in s.Departing(Point(member, at), kind) :: i < |s.entries|
    ensures s.Departing(Point(member, at), kind) != {} <==> AnyDeparts(s, member, at, kind)
  {
  }

  // ---------------------------------------------------------------- the events of a past

  function EventsOf(s: Store, past: set<nat>): set<Event> { set i | i in past && s.IsEvent(i) :: s.entries[i].event }

  /** With an event, every event before it on its chain and on its actor's as far as it names. */
  ghost predicate Closed(past: set<Event>, all: set<Event>) {
    && past <= all
    && forall e, f | e in past && f in all ::
      (f.subject == e.subject && 1 <= f.at < e.at) || (f.subject == e.actor && 1 <= f.at <= e.actorAt) ==> f in past
  }

  lemma PastIsClosed(s: Store, from: set<nat>, past: set<nat>)
    requires forall i: nat :: i in past <==> Reaches(s, from, i)
    requires forall i | i in past :: i < |s.entries|
    ensures Closed(EventsOf(s, past), EventsOf(s, Indices(|s.entries|)))
  {
    forall i | i in past ensures i in Indices(|s.entries|) { InIndices(|s.entries|, i); }
    hide Reaches, Indices, Store.Statements, Store.KeyEvent;
    var all := Indices(|s.entries|);
    forall e, f | e in EventsOf(s, past) && f in EventsOf(s, all)
      && ((f.subject == e.subject && 1 <= f.at < e.at) || (f.subject == e.actor && 1 <= f.at <= e.actorAt))
      ensures f in EventsOf(s, past)
    {
      var i :| i in past && s.IsEvent(i) && s.entries[i].event == e;
      var j :| j in all && s.IsEvent(j) && s.entries[j].event == f;
      assert j in s.DependsOn(i);
      ReachesOn(s, from, i, j);
    }
  }

  // ---------------------------------------------------------------- a pass over a past alone

  ghost predicate Sits(events: set<Event>, p: Point) { exists e | e in events :: e.Place() == p }

  /** How far each chain is held without a gap. */
  ghost predicate IsRuns(events: set<Event>, runs: map<PdnId, nat>) {
    && (forall e | e in events :: e.subject in runs)
    && forall c | c in runs ::
      (forall n | 1 <= n <= runs[c] :: Sits(events, Point(c, n))) && !Sits(events, Point(c, runs[c] + 1))
  }

  /** A store's events as one pass reads them, and those of a past within it. */
  datatype Cut = Cut(all: set<Event>, inp: Input, past: set<Event>, runs: map<PdnId, nat>) {
    ghost predicate Valid() {
      && inp.Valid() && inp.candidates <= all && IsRuns(all, inp.runs) && IsRuns(past, runs) && Closed(past, all)
    }

    function Alone(): Input { Input(inp.candidates * past, runs, inp.aside) }

    /** Read by an event of the past: every event there is of the past too. */
    ghost predicate Whole(q: Point) {
      inp.OnRun(q) && exists f | f in past ::
        (f.subject == q.chain && q.at < f.at) || (f.actor == q.chain && q.at <= f.actorAt)
    }
  }

  lemma HeldUpTo(events: set<Event>, runs: map<PdnId, nat>, c: PdnId, upto: nat)
    requires IsRuns(events, runs) && c in runs && forall n | 1 <= n <= upto :: Sits(events, Point(c, n))
    ensures upto <= runs[c]
  {
  }

  /** As far as the past names a chain, what the store holds of it the past holds. */
  lemma SitsInPast(x: Cut, c: PdnId, n: nat, f: Event)
    requires x.Valid() && f in x.past && x.inp.OnRun(Point(c, n))
    requires (f.subject == c && n < f.at) || (f.actor == c && n <= f.actorAt)
    ensures Sits(x.past, Point(c, n)) && c in x.runs
  {
    assert Sits(x.all, Point(c, n));
    var e :| e in x.all && e.Place() == Point(c, n);
    assert e in x.past;
  }

  lemma WholeHere(x: Cut, q: Point)
    requires x.Valid() && x.Whole(q)
    ensures x.Alone().Here(q) == x.inp.Here(q) && x.Alone().OnRun(q)
  {
    var f :| f in x.past && ((f.subject == q.chain && q.at < f.at) || (f.actor == q.chain && q.at <= f.actorAt));
    forall e | e in x.inp.Here(q) ensures e in x.past { assert e in x.all; }
    hide Closed;
    forall n | 1 <= n <= q.at ensures Sits(x.past, Point(q.chain, n)) && q.chain in x.runs {
      SitsInPast(x, q.chain, n, f);
    }
    hide Sits;
    assert 1 <= q.at && q.chain in x.runs;
    HeldUpTo(x.past, x.runs, q.chain, q.at);
  }

  lemma RunWithin(x: Cut, q: Point)
    requires x.Valid() && x.Alone().OnRun(q)
    ensures x.inp.OnRun(q) && (q.at > 1 ==> x.Whole(Pred(q)))
  {
    forall n | 1 <= n <= q.at ensures Sits(x.all, Point(q.chain, n)) {
      assert Sits(x.past, Point(q.chain, n));
      var g :| g in x.past && g.Place() == Point(q.chain, n);
    }
    assert Sits(x.past, Point(q.chain, q.at));
    var e :| e in x.past && e.Place() == q;
    hide Sits;
    HeldUpTo(x.all, x.inp.runs, q.chain, q.at);
  }

  lemma EventWithin(x: Cut, e: Event)
    requires x.Valid() && e in x.Alone().candidates
    ensures x.Alone().OnRun(e.Place()) && (Direct(e) || x.Whole(e.Rests()))
  {
    assert x.inp.OnRun(e.Place());
    forall n | 1 <= n <= e.at ensures Sits(x.past, Point(e.subject, n)) {
      if n < e.at { SitsInPast(x, e.subject, n, e); } else { assert e.Place() == Point(e.subject, n); }
    }
    hide Sits, Closed;
    HeldUpTo(x.past, x.runs, e.subject, e.at);
  }

  /** The standings a past shows: the store's where the past reads them, and what its own events make elsewhere. */
  ghost function Shown(x: Cut, st: States): States {
    map q | q in st && x.Alone().OnRun(q) :: if x.Whole(q) then st[q] else Outcome(x.Alone(), st, {}, q)
  }

  ghost predicate AllHeld(x: Cut, st: States) { forall q | x.inp.OnRun(q) :: q in st }

  lemma ShownWhole(x: Cut, st: States, q: Point)
    requires x.Valid() && AllHeld(x, st) && x.Whole(q)
    ensures q in st && q in Shown(x, st) && Shown(x, st)[q] == st[q]
  {
    WholeHere(x, q);
  }

  /** An event of the past is judged as in the store, by the store's standings and by the past's. */
  lemma JudgedAlike(x: Cut, st: States, e: Event)
    requires x.Valid() && AllHeld(x, st) && e in x.Alone().candidates
    ensures VerdictOf(x.Alone(), Shown(x, st), {}, e) == VerdictOf(x.inp, st, {}, e)
    ensures VerdictOf(x.Alone(), st, {}, e) == VerdictOf(x.inp, st, {}, e)
    ensures Allowed(Shown(x, st), e) <==> Allowed(st, e)
    ensures Direct(e) || e.Rests() in Shown(x, st)
  {
    hide Shown, Cut.Whole, Cut.Valid, AllHeld;
    EventWithin(x, e);
    RunWithin(x, e.Place());
    if e.at > 1 { ShownWhole(x, st, Pred(e.Place())); }
    if !Direct(e) { ShownWhole(x, st, e.Rests()); }
    assert e.at >= 1 by { assert x.Alone().OnRun(e.Place()); }
  }

  lemma OutcomeShown(x: Cut, st: States, q: Point)
    requires x.Valid() && AllHeld(x, st) && x.Alone().OnRun(q)
    ensures Outcome(x.Alone(), Shown(x, st), {}, q) == Outcome(x.Alone(), st, {}, q)
    ensures x.Whole(q) ==> Outcome(x.Alone(), st, {}, q) == Outcome(x.inp, st, {}, q)
  {
    hide Shown, Cut.Whole, VerdictOf, Cut.Valid, AllHeld, After;
    forall e | e in x.Alone().Here(q)
      ensures VerdictOf(x.Alone(), Shown(x, st), {}, e) == VerdictOf(x.Alone(), st, {},
        e) == VerdictOf(x.inp, st, {}, e)
    {
      JudgedAlike(x, st, e);
    }
    RunWithin(x, q);
    if q.at > 1 { ShownWhole(x, st, Pred(q)); }
    if x.Whole(q) {
      WholeHere(x, q);
      assert CountedAt(x.Alone(), st, {}, q) == CountedAt(x.inp, st, {}, q);
    }
    assert CountedAt(x.Alone(), Shown(x, st), {}, q) == CountedAt(x.Alone(), st, {}, q);
    assert StateAt(Shown(x, st), Pred(q)) == StateAt(st, Pred(q));
  }

  ghost function ShownOrder(x: Cut, st: States, order: map<Point, nat>): map<Point, nat>
    requires order.Keys == st.Keys
  {
    map q | q in Shown(x, st) :: order[q]
  }

  lemma ShownGroundedAt(x: Cut, st: States, order: map<Point, nat>, q: Point)
    requires x.Valid() && AllHeld(x, st) && Grounded(x.inp, st, {}, order) && q in Shown(x, st)
    ensures ShownOrder(x, st, order).Keys == Shown(x, st).Keys
    ensures GroundedAt(x.Alone(), Shown(x, st), {}, ShownOrder(x, st, order), q)
  {
    hide Outcome, Cut.Whole, Cut.Valid, AllHeld, VerdictOf;
    var st', order' := Shown(x, st), ShownOrder(x, st, order);
    assert GroundedAt(x.inp, st, {}, order, q);
    RunWithin(x, q);
    OutcomeShown(x, st, q);
    if q.at > 1 { ShownWhole(x, st, Pred(q)); }
    assert st'[q] == Outcome(x.Alone(), st', {}, q);
    hide Shown, Allowed;
    forall e | e in x.Alone().Here(q) ensures RestsEarlier(st', {}, order', q, e) {
      JudgedAlike(x, st, e);
      assert RestsEarlier(st, {}, order, q, e);
    }
  }

  /** The standings shown are what a pass over the past alone settles to. */
  lemma PastAlone(x: Cut, st: States)
    requires x.Valid() && History(x.inp, [Phase({}, st)])
    ensures History(x.Alone(), [Phase({}, Shown(x, st))])
  {
    hide Cut.Valid, Cut.Whole, History;
    var order := SettledWhole(x, st);
    forall q | q in Shown(x, st)
      ensures ShownOrder(x, st, order).Keys == Shown(x, st).Keys
      ensures GroundedAt(x.Alone(), Shown(x, st), {}, ShownOrder(x, st, order), q)
    {
      ShownGroundedAt(x, st, order, q);
    }
    hide GroundedAt;
    assert Grounded(x.Alone(), Shown(x, st), {}, ShownOrder(x, st, order));
    forall q | x.Alone().OnRun(q) ensures q in Shown(x, st) { RunWithin(x, q); }
    forall e | e in x.Alone().candidates ensures x.Alone().OnRun(e.Place()) { EventWithin(x, e); }
    hide Grounded, Shown;
    AllSettled(x.Alone(), Shown(x, st), ShownOrder(x, st, order));
  }

  lemma NoneWaits(inp: Input, st: States, p: Point)
    requires Stuck(inp, st, {}) && inp.OnRun(p) && Reached(st, p)
    ensures Waiting(inp, st, {}) != {}
  {
    var e :| e in inp.Here(p) && !Resolved(st, {}, e);
    assert e in Waiting(inp, st, {});
  }

  /** Where nothing waits every sequence held has settled. */
  lemma AllReached(inp: Input, st: States)
    requires Stuck(inp, st, {}) && Waiting(inp, st, {}) == {}
    ensures forall q | inp.OnRun(q) :: q in st
  {
    forall q | inp.OnRun(q) ensures q in st {
      if q !in st {
        var p := FirstUnsettled(inp, st, q);
        NoneWaits(inp, st, p);
      }
    }
  }

  // ---------------------------------------------------------------- the departure it shows

  /** The member's latest membership ended at the sequence: it stood before it, and not since. */
  predicate Departed(st: States, run: nat, member: PdnId, at: nat) {
    && 1 <= at <= run && StateAt(st, Point(member, at - 1)).member
    && forall n | at <= n <= run :: !StateAt(st, Point(member, n)).member
  }

  /** Past the departure nothing of the past brings the member back. */
  lemma StaysOut(x: Cut, st: States, order: map<Point, nat>, q: Point)
    requires x.Valid() && AllHeld(x, st) && Grounded(x.inp, st, {}, order) && x.Alone().OnRun(q) && q.at > 1
    requires !StateAt(st, Pred(q)).member && !StateAt(st, q).member
    ensures !StateAt(Shown(x, st), q).member
  {
    hide VerdictOf, Cut.Whole, Cut.Valid, AllHeld, GroundedAt, Outcome;
    RunWithin(x, q);
    if x.Whole(q) {
      ShownWhole(x, st, q);
    } else {
      StandsByOutcome(x, st, order, q);
      if StateAt(st, Pred(q)).owner { OwnerIsMember(x.inp, st, {}, order, Pred(q)); }
      NoneCounted(x.inp, st, q);
      forall e | e in x.Alone().Here(q) ensures VerdictOf(x.Alone(), st, {}, e) != Counted {
        JudgedAlike(x, st, e);
        assert e in x.inp.Here(q);
        assert VerdictOf(x.inp, st, {}, e) == Counted ==> e in CountedAt(x.inp, st, {}, q);
      }
      assert CountedAt(x.Alone(), st, {}, q) == {};
      NothingCounts(x.Alone(), st, q);
      assert StateAt(Shown(x, st), q) == Outcome(x.Alone(), st, {}, q);
    }
  }

  lemma StandsByOutcome(x: Cut, st: States, order: map<Point, nat>, q: Point)
    requires AllHeld(x, st) && Grounded(x.inp, st, {}, order) && x.inp.OnRun(q)
    ensures q in st && st[q] == Outcome(x.inp, st, {}, q)
  {
    hide Outcome, RestsEarlier;
    assert GroundedAt(x.inp, st, {}, order, q);
  }

  lemma NothingCounts(inp: Input, st: States, q: Point)
    requires CountedAt(inp, st, {}, q) == {}
    ensures Outcome(inp, st, {}, q) == StateAt(st, Pred(q))
  {
    hide CountedAt;
  }

  lemma NoneCounted(inp: Input, st: States, q: Point)
    requires StateAt(st, Pred(q)) == NOBODY && !Outcome(inp, st, {}, q).member
    ensures CountedAt(inp, st, {}, q) == {}
  {
    forall e | e in CountedAt(inp, st, {}, q) ensures e.kind == Created || e.kind == Joined {
      assert Pred(e.Place()) == Pred(q);
    }
    hide CountedAt;
  }

  /** The past of a departure shows it: whatever the store held besides, a pass over the past alone ends with the member
      departed at the same sequence. */
  lemma PastShowsDeparture(x: Cut, st: States, member: PdnId, d: Event)
    requires x.Valid() && History(x.inp, [Phase({}, st)]) && member in x.inp.runs
    requires d in x.Alone().candidates && d.subject == member && (d.kind == Removed || d.kind == Left)
    requires VerdictOf(x.inp, st, {}, d) == Counted && Departed(st, x.inp.runs[member], member, d.at)
    ensures History(x.Alone(), [Phase({}, Shown(x, st))])
    ensures member in x.runs && Departed(Shown(x, st), x.runs[member], member, d.at)
  {
    hide History, Grounded, VerdictOf, Cut.Valid, Cut.Whole, Shown, AllHeld;
    PastAlone(x, st);
    var order := SettledWhole(x, st);
    EventWithin(x, d);
    RunWithin(x, d.Place());
    assert d.at > 1 && Pred(d.Place()) == Point(member, d.at - 1);
    ShownWhole(x, st, Pred(d.Place()));
    forall n | d.at <= n <= x.runs[member] ensures !StateAt(Shown(x, st), Point(member, n)).member {
      RunWithin(x, Point(member, n));
      if n == d.at { DepartsHere(x, st, d); } else { StaysOut(x, st, order, Point(member, n)); }
    }
  }

  lemma SettledWhole(x: Cut, st: States) returns (order: map<Point, nat>)
    requires History(x.inp, [Phase({}, st)])
    ensures Grounded(x.inp, st, {}, order) && AllHeld(x, st)
  {
    hide Grounded;
    var ph := [Phase({}, st)][0];
    assert Quiescent(x.inp, ph) && Waiting(x.inp, ph.states, ph.dead) == {};
    order :| Grounded(x.inp, st, {}, order) && Stuck(x.inp, st, {});
    AllReached(x.inp, st);
  }

  lemma DepartsHere(x: Cut, st: States, d: Event)
    requires x.Valid() && AllHeld(x, st) && d in x.Alone().candidates && (d.kind == Removed || d.kind == Left)
    requires VerdictOf(x.inp, st, {}, d) == Counted && !StateAt(st, d.Place()).member
    ensures !StateAt(Shown(x, st), d.Place()).member
  {
    hide VerdictOf, Cut.Whole, Cut.Valid, Outcome;
    EventWithin(x, d);
    RunWithin(x, d.Place());
    if x.Whole(d.Place()) {
      ShownWhole(x, st, d.Place());
    } else {
      JudgedAlike(x, st, d);
      LeavesNobody(x.Alone(), st, d);
      assert StateAt(Shown(x, st), d.Place()) == Outcome(x.Alone(), st, {}, d.Place());
    }
  }

  lemma LeavesNobody(inp: Input, st: States, d: Event)
    requires d in inp.candidates && VerdictOf(inp, st, {}, d) == Counted && (d.kind == Removed || d.kind == Left)
    ensures Outcome(inp, st, {}, d.Place()) == NOBODY
  {
    hide VerdictOf;
    assert d in CountedAt(inp, st, {}, d.Place());
  }

  /** Where nothing of the past names the remover beyond where it removed, the remover owns the pod in it. */
  lemma RemoverOwns(x: Cut, st: States, d: Event)
    requires x.Valid() && AllHeld(x, st) && d in x.Alone().candidates && d.kind == Removed
    requires VerdictOf(x.inp, st, {}, d) == Counted && d.actor in x.runs && x.runs[d.actor] == d.actorAt
    ensures StateAt(Shown(x, st), Point(d.actor, x.runs[d.actor])).owner
  {
    JudgedAlike(x, st, d);
    hide Shown, Cut.Valid, AllHeld;
    assert Suffices(StateAt(Shown(x, st), d.Rests()), d.kind);
  }

  lemma OwnedSatisfies(candidates: set<Event>, runs: map<PdnId, nat>, st: States, c: PdnId, gs: seq<Guarded>)
    requires GuardRun(candidates, runs, gs, true) && History(Input(candidates, runs, {}), [Phase({}, st)])
    requires c in runs && StateAt(st, Point(c, runs[c])).owner
    ensures |gs| == 1 && ResultOf(candidates, runs, gs[0]).states == st
  {
    hide History;
    assert GuardPass(candidates, runs, gs[0]) && gs[0].aside == {};
    PassIsDeterministic(Input(candidates, runs, {}), gs[0].history, [Phase({}, st)]);
    hide CountedOf;
    assert ResultOf(candidates, runs, gs[0]).Final(c).owner;
  }

  /** And so does the whole view of the past: of a removal by such an owner, where the store's own view set nothing
      aside, the guard over the past alone is satisfied at once and the member departed at the same sequence. */
  lemma PastViewShowsRemoval(x: Cut, st: States, d: Event, gs: seq<Guarded>)
    requires x.Valid() && x.inp.aside == {} && History(x.inp, [Phase({}, st)])
    requires d in x.Alone().candidates && d.kind == Removed && VerdictOf(x.inp, st, {}, d) == Counted
    requires d.subject in x.inp.runs && Departed(st, x.inp.runs[d.subject], d.subject, d.at)
    requires d.actor in x.runs && x.runs[d.actor] == d.actorAt
    requires GuardRun(x.Alone().candidates, x.runs, gs, true)
    ensures |gs| == 1 && d.subject in x.runs
    ensures Departed(ResultOf(x.Alone().candidates, x.runs, gs[0]).states, x.runs[d.subject], d.subject, d.at)
  {
    hide GuardRun, History, Cut.Valid, AllHeld, Shown, VerdictOf, ResultOf, Grounded;
    PastShowsDeparture(x, st, d.subject, d);
    var order := SettledWhole(x, st);
    RemoverOwns(x, st, d);
    OwnedSatisfies(x.Alone().candidates, x.runs, Shown(x, st), d.actor, gs);
  }
}
