/** How many passes the last-owner guard takes: two where the demotions are concurrent, one more for every further round
    of them, and four at most, which owners that keep demoting each other use up. */
module LastOwner {
  import opened Ids
  import opened Membership
  import Sets

  /** A pass of the guard calls for nothing new exactly when it leaves an owner, or no member whose ownership a demotion
      ended. */
  lemma SatisfiedMeans(candidates: set<Event>, runs: map<PdnId, nat>, g: Guarded)
    requires GuardPass(candidates, runs, g)
    ensures var r := ResultOf(candidates, runs, g); g.more <= g.aside <==> r.Owned() || r.Demoted() == {}
  {
    var r := ResultOf(candidates, runs, g);
    assert forall e | e in r.counted :: e !in g.aside;
    if !r.Owned() && r.Demoted() != {} {
      var c :| TakenLast(r, c) && g.more == r.Demotions(c);
      var e :| e in r.Demotions(c);
    }
  }

  // ---------------------------------------------------------------- few demotions

  function DemotionsOf(es: set<Event>): set<Event> { set e | e in es && e.kind == Demoted }

  /** A pass that calls for more calls for demotions no pass before it did. */
  lemma CallsForNew(candidates: set<Event>, runs: map<PdnId, nat>, g: Guarded)
    requires GuardPass(candidates, runs, g)
    ensures g.more <= DemotionsOf(candidates)
  {
  }

  lemma {:induction false} AsideGrows(candidates: set<Event>, runs: map<PdnId, nat>, gs: seq<Guarded>, i: nat)
    requires GuardRun(candidates, runs, gs, true) && i < |gs|
    ensures |gs[i].aside| >= i && gs[i].aside <= DemotionsOf(candidates)
  {
    hide GuardPass, DemotionsOf;
    if i > 0 {
      var before := gs[i - 1];
      AsideGrows(candidates, runs, gs, i - 1);
      CallsForNew(candidates, runs, before);
      assert !(before.more <= before.aside) && gs[i - 1 + 1].aside == before.aside + before.more;
      hide GuardRun;
      Sets.SubsetSmaller(before.aside, gs[i].aside);
    }
  }

  /** With at most three demotions among the events the guard is always satisfied within its four passes. */
  lemma FewDemotionsSettle(candidates: set<Event>, runs: map<PdnId, nat>, gs: seq<Guarded>)
    requires GuardRun(candidates, runs, gs, true) && |DemotionsOf(candidates)| < GUARD_PASSES
    ensures gs[|gs| - 1].more <= gs[|gs| - 1].aside
  {
    var last := gs[|gs| - 1];
    AsideGrows(candidates, runs, gs, |gs| - 1);
    CallsForNew(candidates, runs, last);
    hide GuardPass, DemotionsOf;
    if |gs| == GUARD_PASSES { NoRoom(last.aside, last.more, DemotionsOf(candidates)); }
  }

  lemma NoRoom(aside: set<Event>, more: set<Event>, all: set<Event>)
    requires aside <= all && more <= all && |all| <= |aside|
    ensures more <= aside
  {
    if aside != all { Sets.SubsetSmaller(aside, all); }
  }

  /** And then an owner stands, or no member whose ownership a demotion ended. */
  lemma FewDemotionsKeepOwner(candidates: set<Event>, runs: map<PdnId, nat>, gs: seq<Guarded>)
    requires GuardRun(candidates, runs, gs, true) && |DemotionsOf(candidates)| < GUARD_PASSES
    ensures var r := ResultOf(candidates, runs, gs[|gs| - 1]); r.Owned() || r.Demoted() == {}
  {
    FewDemotionsSettle(candidates, runs, gs);
    SatisfiedMeans(candidates, runs, gs[|gs| - 1]);
  }

  // ---------------------------------------------------------------- concurrent demotions

  /** No event follows a demotion on its chain or names the point it makes: whoever wrote the others had seen none. */
  ghost predicate Concurrent(candidates: set<Event>, runs: map<PdnId, nat>) {
    forall e, f | e in candidates && e.kind == Demoted && f in candidates ::
      e.subject in runs && e.at == runs[e.subject] && (Direct(f) || f.Rests() != e.Place())
  }

  /** Nothing reads the standing at the point: it ends its chain, and no event names it. */
  ghost predicate Unread(inp: Input, p: Point) {
    && p.chain in inp.runs && p.at == inp.runs[p.chain]
    && forall f | f in inp.candidates :: Direct(f) || f.Rests() != p
  }

  function Without(inp: Input, aside: set<Event>): Input { inp.(aside := aside) }

  /** A phase's standings with the one at `p` worked out anew. */
  function Reworked(inp: Input, ph: Phase, p: Point): States {
    if p in ph.states then ph.states[p := Outcome(inp, ph.states, ph.dead, p)] else ph.states
  }

  /** Setting aside demotions at an unread point changes no verdict but theirs. */
  lemma SameVerdict(inp: Input, aside: set<Event>, st: States, st': States, dead: set<Event>, p: Point, e: Event)
    requires inp.Valid() && inp.aside == {} && Unread(inp, p) && e in inp.candidates
    requires st.Keys == st'.Keys && forall q | q in st && q != p :: st[q] == st'[q]
    ensures Resolved(st, dead, e) <==> Resolved(st', dead, e)
    ensures VerdictOf(Without(inp, aside), st', dead, e)
      == if VerdictOf(inp, st, dead, e) == Counted && e in aside then LastOwnerKept else VerdictOf(inp, st, dead, e)
  {
    assert Pred(e.Place()) != p;
  }

  lemma SameOutcome(inp: Input, aside: set<Event>, st: States, st': States, dead: set<Event>, p: Point, q: Point)
    requires inp.Valid() && inp.aside == {} && Unread(inp, p) && (forall e | e in aside :: e.Place() == p)
    requires st.Keys == st'.Keys && forall q | q in st && q != p :: st[q] == st'[q]
    requires inp.OnRun(q)
    ensures q != p ==> Outcome(Without(inp, aside), st', dead, q) == Outcome(inp, st, dead, q)
    ensures Outcome(Without(inp, aside), st', dead, q) == Outcome(Without(inp, aside), st, dead, q)
  {
    assert Pred(q) != p;
    var with := Without(inp, aside);
    forall e | e in inp.Here(q)
      ensures q != p ==> VerdictOf(with, st', dead, e) == VerdictOf(inp, st, dead, e)
      ensures VerdictOf(with, st', dead, e) == VerdictOf(with, st, dead, e)
    {
      SameVerdict(inp, aside, st, st', dead, p, e);
      SameVerdict(inp, aside, st, st, dead, p, e);
    }
    hide VerdictOf;
    assert with.Here(q) == inp.Here(q);
    assert CountedAt(with, st', dead, q) == CountedAt(with, st, dead, q);
    if q != p { assert CountedAt(with, st', dead, q) == CountedAt(inp, st, dead, q); }
  }

  lemma ReworkedGrounded(inp: Input, aside: set<Event>, ph: Phase, p: Point, order: map<Point, nat>)
    requires inp.Valid() && inp.aside == {} && Unread(inp, p) && (forall e | e in aside :: e.Place() == p)
    requires Grounded(inp, ph.states, ph.dead, order)
    ensures Grounded(Without(inp, aside), Reworked(Without(inp, aside), ph, p), ph.dead, order)
  {
    var with := Without(inp, aside);
    var st, st' := ph.states, Reworked(with, ph, p);
    hide Outcome;
    forall q | q in st' ensures GroundedAt(with, st', ph.dead, order, q) {
      assert GroundedAt(inp, st, ph.dead, order, q);
      SameOutcome(inp, aside, st, st', ph.dead, p, q);
      assert with.Here(q) == inp.Here(q) && Pred(q) != p;
      forall e | e in inp.Here(q) ensures RestsEarlier(st', ph.dead, order, q, e) {
        assert RestsEarlier(st, ph.dead, order, q, e);
        assert Pred(e.Place()) == Pred(q);
      }
    }
  }

  lemma StuckAlike(inp: Input, with: Input, st: States, st': States, dead: set<Event>)
    requires with.candidates == inp.candidates && with.runs == inp.runs && st.Keys == st'.Keys && Stuck(inp, st, dead)
    requires forall e | e in inp.candidates :: Resolved(st, dead, e) <==> Resolved(st', dead, e)
    ensures Stuck(with, st', dead) && Waiting(with, st', dead) == Waiting(inp, st, dead)
  {
    hide Resolved;
    forall q | with.OnRun(q) && Reached(st', q) ensures exists e :: e in with.Here(q) && !Resolved(st', dead, e) {
      assert inp.OnRun(q) && Reached(st, q);
      var e :| e in inp.Here(q) && !Resolved(st, dead, e);
      assert e in with.Here(q);
    }
  }

  /** The same sequences settle and the same events wait. */
  lemma ReworkedQuiescent(inp: Input, aside: set<Event>, ph: Phase, p: Point)
    requires inp.Valid() && inp.aside == {} && Unread(inp, p) && (forall e | e in aside :: e.Place() == p)
    requires Quiescent(inp, ph)
    ensures var next := Phase(ph.dead, Reworked(Without(inp, aside), ph, p));
      && Quiescent(Without(inp, aside), next)
      && Waiting(Without(inp, aside), next.states, next.dead) == Waiting(inp, ph.states, ph.dead)
  {
    var with := Without(inp, aside);
    var st, st' := ph.states, Reworked(with, ph, p);
    var order :| Grounded(inp, st, ph.dead, order) && Stuck(inp, st, ph.dead);
    ReworkedGrounded(inp, aside, ph, p, order);
    hide Grounded, Outcome, Stuck, Waiting;
    forall e | e in inp.candidates ensures Resolved(st, ph.dead, e) <==> Resolved(st', ph.dead, e) {
      SameVerdict(inp, aside, st, st', ph.dead, p, e);
    }
    StuckAlike(inp, with, st, st', ph.dead);
  }

  ghost function ReworkedAll(inp: Input, h: seq<Phase>, p: Point): seq<Phase> {
    seq(|h|, i requires 0 <= i < |h| => Phase(h[i].dead, Reworked(inp, h[i], p)))
  }

  lemma ReworkedHistory(inp: Input, aside: set<Event>, h: seq<Phase>, p: Point)
    requires inp.Valid() && inp.aside == {} && Unread(inp, p) && (forall e | e in aside :: e.Place() == p)
    requires History(inp, h)
    ensures History(Without(inp, aside), ReworkedAll(Without(inp, aside), h, p))
  {
    var with := Without(inp, aside);
    var g := ReworkedAll(with, h, p);
    hide Quiescent, Waiting, Reworked;
    forall i | 0 <= i < |h|
      ensures Quiescent(with, g[i]) && Waiting(with, g[i].states, g[i].dead) == Waiting(inp, h[i].states, h[i].dead)
      ensures Killed(with, g[i], i) == Killed(inp, h[i], i)
    {
      ReworkedQuiescent(inp, aside, h[i], p);
    }
    hide Killed;
  }

  /** Its ending demotions set aside, the member owns the pod again. */
  lemma OwnsAgain(inp: Input, ph: Phase, p: Point, aside: set<Event>)
    requires inp.aside == {} && Quiescent(inp, ph) && p in ph.states
    requires var here := CountedAt(inp, ph.states, ph.dead, p);
      && aside == (set e | e in here && e.kind == Demoted) && aside != {}
      && forall e | e in here :: e.kind != Removed && e.kind != Left
    ensures Outcome(Without(inp, aside), ph.states, ph.dead, p).owner
  {
    var st, dead := ph.states, ph.dead;
    var order :| Grounded(inp, st, dead, order) && Stuck(inp, st, dead);
    hide Grounded, Stuck, After, Outcome;
    var d :| d in aside;
    assert Allowed(st, d) && Pred(d.Place()) == Pred(p);
    OwnerIsMember(inp, st, dead, order, Pred(p));
    StillOwns(inp, st, dead, p, aside);
  }

  lemma StillOwns(inp: Input, st: States, dead: set<Event>, p: Point, aside: set<Event>)
    requires inp.aside == {} && StateAt(st, Pred(p)) == Standing(true, true)
    requires var here := CountedAt(inp, st, dead, p);
      aside == (set e | e in here && e.kind == Demoted) && forall e | e in here :: e.kind != Removed && e.kind != Left
    ensures Outcome(Without(inp, aside), st, dead, p).owner
  {
    var with := Without(inp, aside);
    forall e | e in CountedAt(with, st, dead, p)
      ensures e in CountedAt(inp, st, dead, p) && e.kind != Demoted && e.kind != Joined
    {
      assert Pred(e.Place()) == Pred(p);
    }
    hide CountedAt;
    var here := CountedAt(with, st, dead, p);
    assert here != {} ==> exists e | e in here :: e.kind == Promoted || e.kind == Created;
  }

  /** The demotions counted at an unread point that nothing outranks. */
  ghost predicate EndsRole(inp: Input, ph: Phase, p: Point, aside: set<Event>) {
    var here := CountedAt(inp, ph.states, ph.dead, p);
    && Unread(inp, p) && p in ph.states && aside != {}
    && aside == (set e | e in here && e.kind == Demoted) && forall e | e in here :: e.kind != Removed && e.kind != Left
  }

  lemma EndingHere(counted: set<Event>, c: PdnId, run: nat, e: Event)
    requires e in EndingDemotions(counted, c, run) && e.at == run
    ensures var here := CountedIn(counted, Point(c, run));
      EndingDemotions(counted, c, run) == (set f | f in here && f.kind == Demoted)
      && forall f | f in here :: f.kind != Removed && f.kind != Left
  {
    assert e.Place() == Point(c, LastWon(counted, c, run));
    hide LastWon, CountedIn;
  }

  lemma CountedHere(inp: Input, ph: Phase, p: Point)
    ensures CountedIn(CountedOf(inp, ph), p) == CountedAt(inp, ph.states, ph.dead, p)
  {
    hide VerdictOf;
  }

  lemma InEnding(counted: set<Event>, c: PdnId, run: nat, e: Event)
    requires e in EndingDemotions(counted, c, run)
    ensures e in counted && e.kind == Demoted && e.subject == c
  {
    hide LastWon;
  }

  lemma IsUnread(candidates: set<Event>, runs: map<PdnId, nat>, e: Event)
    requires Concurrent(candidates, runs) && e in candidates && e.kind == Demoted
    ensures e.subject in runs && e.at == runs[e.subject] && Unread(Input(candidates, runs, {}), e.Place())
  {
  }

  /** What a pass calls for are the ending demotions of some member. */
  lemma WhoseEnding(candidates: set<Event>, runs: map<PdnId, nat>, g: Guarded) returns (c: PdnId)
    requires GuardPass(candidates, runs, g) && g.more != {}
    ensures var last := g.history[|g.history| - 1];
      && c in runs && Point(c, runs[c]) in last.states
      && g.more == EndingDemotions(CountedOf(Input(candidates, runs, g.aside), last), c, runs[c])
  {
    hide History, EndingDemotions, CountedOf, TakenBefore;
    var r := ResultOf(candidates, runs, g);
    c :| TakenLast(r, c) && g.more == r.Demotions(c);
  }

  /** What a first pass calls for ends a member's role at the end of its chain. */
  lemma CalledFor(candidates: set<Event>, runs: map<PdnId, nat>, g: Guarded) returns (p: Point)
    requires Concurrent(candidates, runs) && GuardPass(candidates, runs, g) && g.aside == {} && g.more != {}
    ensures EndsRole(Input(candidates, runs, {}), g.history[|g.history| - 1], p, g.more)
  {
    hide GuardPass, History, Quiescent, Concurrent, EndingDemotions, CountedOf, CountedIn, CountedAt, Unread;
    PassHistory(candidates, runs, g);
    var inp, last := Input(candidates, runs, {}), g.history[|g.history| - 1];
    var c := WhoseEnding(candidates, runs, g);
    var counted := CountedOf(inp, last);
    p := Point(c, runs[c]);
    var e :| e in g.more;
    InEnding(counted, c, runs[c], e);
    assert e in candidates by { CountedIsCandidate(inp, last, e); }
    IsUnread(candidates, runs, e);
    EndingHere(counted, c, runs[c], e);
    CountedHere(inp, last, p);
  }

  lemma CountedIsCandidate(inp: Input, ph: Phase, e: Event)
    requires e in CountedOf(inp, ph)
    ensures e in inp.candidates
  {
  }

  lemma ReworkedOwns(inp: Input, ph: Phase, p: Point, aside: set<Event>)
    requires inp.aside == {} && Quiescent(inp, ph) && EndsRole(inp, ph, p, aside) && p.at > 0
    ensures StateAt(Reworked(Without(inp, aside), ph, p), p).owner
  {
    hide Outcome, CountedAt, Quiescent, Unread;
    OwnsAgain(inp, ph, p, aside);
  }

  lemma PassHistory(candidates: set<Event>, runs: map<PdnId, nat>, g: Guarded)
    requires GuardPass(candidates, runs, g)
    ensures History(Input(candidates, runs, g.aside), g.history) && g.history != []
    ensures Quiescent(Input(candidates, runs, g.aside), g.history[|g.history| - 1])
  {
    hide SetAside, ResultOf, Quiescent, Waiting, Killed;
  }

  lemma EndsThere(inp: Input, ph: Phase, p: Point, aside: set<Event>)
    requires inp.Valid() && EndsRole(inp, ph, p, aside)
    ensures Unread(inp, p) && p.chain in inp.runs && p.at == inp.runs[p.chain] && p.at > 0
    ensures forall e | e in aside :: e.Place() == p
  {
    hide VerdictOf;
    var e :| e in aside;
    assert e in inp.candidates && e.Place() == p;
  }

  lemma OwnedBy(candidates: set<Event>, runs: map<PdnId, nat>, h: Guarded, c: PdnId)
    requires h.history != [] && c in runs && StateAt(h.history[|h.history| - 1].states, Point(c, runs[c])).owner
    ensures ResultOf(candidates, runs, h).Owned()
  {
    hide CountedOf;
    assert ResultOf(candidates, runs, h).Final(c).owner;
  }

  /** The pass with those set aside leaves that member an owner. */
  lemma SecondPassOwns(candidates: set<Event>, runs: map<PdnId, nat>, g: Guarded, h: Guarded)
    requires Input(candidates, runs, {}).Valid() && Concurrent(candidates, runs)
    requires GuardPass(candidates, runs, g) && g.aside == {} && g.more != {}
    requires GuardPass(candidates, runs, h) && h.aside == g.more
    ensures ResultOf(candidates, runs, h).Owned()
  {
    hide GuardPass, History, Quiescent, Concurrent, EndsRole, Reworked, ResultOf, Unread, Input.Valid;
    PassHistory(candidates, runs, g);
    PassHistory(candidates, runs, h);
    var inp := Input(candidates, runs, {});
    var with, last := Without(inp, g.more), g.history[|g.history| - 1];
    var p := CalledFor(candidates, runs, g);
    EndsThere(inp, last, p, g.more);
    ReworkedOwns(inp, last, p, g.more);
    ReworkedHistory(inp, g.more, g.history, p);
    PassIsDeterministic(with, h.history, ReworkedAll(with, g.history, p));
    assert h.history[|h.history| - 1].states == Reworked(with, last, p);
    OwnedBy(candidates, runs, h, p.chain);
  }

  /** Demotions none of whose writers had seen another settle in two passes, an owner standing or no member whose
      ownership a demotion ended. */
  lemma ConcurrentDemotionsSettle(candidates: set<Event>, runs: map<PdnId, nat>, gs: seq<Guarded>)
    requires Input(candidates, runs, {}).Valid() && Concurrent(candidates, runs) && GuardRun(candidates, runs, gs, true)
    ensures |gs| <= 2
    ensures var r := ResultOf(candidates, runs, gs[|gs| - 1]); r.Owned() || r.Demoted() == {}
  {
    hide GuardPass, Concurrent, ResultOf;
    if |gs| == 1 {
      SatisfiedMeans(candidates, runs, gs[0]);
    } else {
      assert !(gs[0].more <= gs[0].aside) && gs[0 + 1].aside == gs[0].aside + gs[0].more;
      SecondPassOwns(candidates, runs, gs[0], gs[1]);
      SatisfiedMeans(candidates, runs, gs[1]);
    }
  }

  // ---------------------------------------------------------------- rounds of them
  //
  // Two owners, demoting each other at once again and again: the guard keeps the first, which promotes the second anew,
  // and the next round begins. Every sequence of either chain holds one event.

  const FIRST: PdnId := 0
  const SECOND: PdnId := 1

  /** The event at a point: the first's chain its creation and its demotions, each by the second where that was last
      promoted; the second's its join, and then in turn its promotions and demotions, by the first. */
  function EventAt(p: Point): Event {
    var i := p.at / 2;
    if p.chain == FIRST then
      if p.at <= 1 then Event(2 * p.at, FIRST, p.at, Created, FIRST, 0)
      else Event(2 * p.at, FIRST, p.at, Demoted, SECOND, 2 * p.at - 2)
    else if p.at <= 1 then Event(2 * p.at + 1, SECOND, p.at, Joined, FIRST, 1)
    else Event(2 * p.at + 1, SECOND, p.at, if p.at % 2 == 0 then Promoted else Demoted, FIRST, i)
  }

  function RoundRuns(a: nat, b: nat): map<PdnId, nat> { map[FIRST := a, SECOND := b] }

  function RoundPoints(a: nat, b: nat): set<Point> {
    (set i | 1 <= i < a + 1 :: Point(FIRST, i)) + (set i | 1 <= i < b + 1 :: Point(SECOND, i))
  }

  function Rounds(a: nat, b: nat): set<Event> { set p | p in RoundPoints(a, b) :: EventAt(p) }

  /** After each round the second was promoted again, but for the last round perhaps. */
  predicate InStep(a: nat, b: nat) { 1 <= a && 2 * a - 1 <= b <= 2 * a }

  /** The first's demotions in the first `j` rounds. */
  function Undone(j: nat): set<Event> { set i | 2 <= i < j + 2 :: EventAt(Point(FIRST, i)) }

  /** The standings with those set aside: each an owner up to the next round. */
  function RoundStates(a: nat, b: nat, j: nat): States {
    map p | p in RoundPoints(a, b) ::
      Standing(true, if p.chain == FIRST then p.at <= j + 1 else p.at % 2 == 0 && p.at <= 2 * j + 2)
  }

  function RoundInput(a: nat, b: nat, j: nat): Input { Input(Rounds(a, b), RoundRuns(a, b), Undone(j)) }

  function RoundRank(p: Point): nat {
    if p.chain == FIRST then 10 * p.at else if p.at == 1 then 12 else 10 * (p.at / 2) + 5 + p.at % 2
  }

  function RoundOrder(a: nat, b: nat): map<Point, nat> { map p | p in RoundPoints(a, b) :: RoundRank(p) }

  lemma OnRounds(a: nat, b: nat, j: nat, p: Point)
    ensures p in RoundPoints(a, b) <==> RoundInput(a, b, j).OnRun(p)
    ensures p in RoundPoints(a, b) <==> p.chain in {FIRST, SECOND} && 1 <= p.at <= if p.chain == FIRST then a else b
    ensures EventAt(p).Place() == Point(EventAt(p).subject, p.at)
      && (p.chain in {FIRST, SECOND} ==> EventAt(p).Place() == p)
  {
    assert p == Point(p.chain, p.at);
  }

  lemma RoundHere(a: nat, b: nat, j: nat, p: Point)
    requires p in RoundPoints(a, b)
    ensures RoundInput(a, b, j).Here(p) == {EventAt(p)}
  {
    forall q | q in RoundPoints(a, b) ensures EventAt(q).Place() == q { OnRounds(a, b, j, q); }
    hide RoundPoints, EventAt;
    assert EventAt(p) in Rounds(a, b);
  }

  lemma IsUndone(j: nat, p: Point)
    requires p.chain in {FIRST, SECOND}
    ensures EventAt(p) in Undone(j) <==> p.chain == FIRST && 2 <= p.at < j + 2
  {
    OnRounds(0, 0, 0, p);
    if p.chain == FIRST && 2 <= p.at < j + 2 { assert EventAt(Point(FIRST, p.at)) in Undone(j); }
    if EventAt(p) in Undone(j) {
      var i :| 2 <= i < j + 2 && EventAt(p) == EventAt(Point(FIRST, i));
      assert EventAt(p).Place() == Point(FIRST, i);
    }
  }

  lemma StandsAt(a: nat, b: nat, j: nat, p: Point)
    requires InStep(a, b) && j < a && p in RoundPoints(a, b)
    ensures RoundStates(a, b, j)[p]
      == Standing(true, if p.chain == FIRST then p.at <= j + 1 else p.at % 2 == 0 && p.at <= 2 * j + 2)
  {
  }

  /** What comes of each event with the first `j` demotions set aside. */
  function RoundVerdict(j: nat, p: Point): Verdict {
    if p.chain == FIRST then
      if p.at == 1 then Counted
      else if p.at < j + 2 then LastOwnerKept
      else if p.at == j + 2 then Counted
      else TransitionNotAllowed
    else if p.at <= 2 * j + 3 then Counted
    else if p.at % 2 == 0 then ActorLacksState
    else TransitionNotAllowed
  }

  lemma RoundJudged(a: nat, b: nat, j: nat, p: Point)
    requires InStep(a, b) && j < a && p in RoundPoints(a, b)
    ensures VerdictOf(RoundInput(a, b, j), RoundStates(a, b, j), {}, EventAt(p)) == RoundVerdict(j, p)
  {
    OnRounds(a, b, j, p);
    IsUndone(j, p);
    var e := EventAt(p);
    hide Undone;
    if p.at > 1 {
      OnRounds(a, b, j, Pred(p));
      OnRounds(a, b, j, e.Rests());
      StandsAt(a, b, j, Pred(p));
      StandsAt(a, b, j, e.Rests());
    }
    hide RoundStates, RoundPoints;
  }

  lemma RoundCountedAt(a: nat, b: nat, j: nat, p: Point)
    requires InStep(a, b) && j < a && p in RoundPoints(a, b)
    ensures CountedAt(RoundInput(a, b, j), RoundStates(a, b, j), {}, p)
      == if RoundVerdict(j, p) == Counted then {EventAt(p)} else {}
  {
    RoundHere(a, b, j, p);
    RoundJudged(a, b, j, p);
    hide VerdictOf, RoundStates, RoundVerdict, RoundInput;
  }

  lemma AfterOne(before: Standing, e: Event)
    ensures After(before, {e}) == Apply(e.kind) && After(before, {}) == before
  {
    assert e in {e};
  }

  lemma RoundOutcome(a: nat, b: nat, j: nat, p: Point)
    requires InStep(a, b) && j < a && p in RoundPoints(a, b)
    ensures Settled(RoundStates(a, b, j), Pred(p))
    ensures RoundStates(a, b, j)[p] == Outcome(RoundInput(a, b, j), RoundStates(a, b, j), {}, p)
  {
    hide CountedAt, RoundInput, After;
    OnRounds(a, b, j, p);
    OnRounds(a, b, j, Pred(p));
    RoundCountedAt(a, b, j, p);
    AfterOne(StateAt(RoundStates(a, b, j), Pred(p)), EventAt(p));
    StandsAt(a, b, j, p);
    if p.at > 1 { StandsAt(a, b, j, Pred(p)); }
    hide RoundPoints, RoundStates;
  }

  lemma RanksLower(p: Point)
    requires p.chain in {FIRST, SECOND} && p.at >= 1
    ensures p.at > 1 ==> RoundRank(Pred(p)) < RoundRank(p)
    ensures !Direct(EventAt(p)) ==> RoundRank(EventAt(p).Rests()) < RoundRank(p)
  {
  }

  lemma RestsInRounds(a: nat, b: nat, p: Point)
    requires InStep(a, b) && p in RoundPoints(a, b)
    ensures Direct(EventAt(p)) || EventAt(p).Rests() in RoundPoints(a, b)
    ensures p.at > 1 ==> Pred(p) in RoundPoints(a, b)
  {
    OnRounds(a, b, 0, p);
    OnRounds(a, b, 0, Pred(p));
    OnRounds(a, b, 0, EventAt(p).Rests());
    hide RoundPoints;
  }

  lemma RoundRests(a: nat, b: nat, j: nat, p: Point)
    requires InStep(a, b) && j < a && p in RoundPoints(a, b)
    ensures RoundOrder(a, b).Keys == RoundStates(a, b, j).Keys
    ensures RestsEarlier(RoundStates(a, b, j), {}, RoundOrder(a, b), p, EventAt(p))
    ensures p.at > 1 ==> Pred(p) in RoundOrder(a, b) && RoundOrder(a, b)[Pred(p)] < RoundOrder(a, b)[p]
  {
    OnRounds(a, b, j, p);
    RanksLower(p);
    RestsInRounds(a, b, p);
    hide RoundPoints, EventAt, RoundRank, Direct;
  }

  lemma RoundGrounded(a: nat, b: nat, j: nat)
    requires InStep(a, b) && j < a
    ensures Grounded(RoundInput(a, b, j), RoundStates(a, b, j), {}, RoundOrder(a, b))
  {
    hide RoundInput, RestsEarlier, Outcome, EventAt, RoundPoints;
    forall p | p in RoundStates(a, b, j)
      ensures RoundOrder(a, b).Keys == RoundStates(a, b, j).Keys
      ensures GroundedAt(RoundInput(a, b, j), RoundStates(a, b, j), {}, RoundOrder(a, b), p)
    {
      RoundHere(a, b, j, p);
      OnRounds(a, b, j, p);
      RoundOutcome(a, b, j, p);
      RoundRests(a, b, j, p);
    }
    hide GroundedAt;
    assert RoundOrder(a, b).Keys == RoundStates(a, b, j).Keys;
  }

  lemma RoundPhase(a: nat, b: nat, j: nat)
    requires InStep(a, b) && j < a
    ensures History(RoundInput(a, b, j), [Phase({}, RoundStates(a, b, j))])
  {
    forall p ensures RoundInput(a, b, j).OnRun(p) <==> p in RoundStates(a, b, j) { OnRounds(a, b, j, p); }
    forall e | e in RoundInput(a, b, j).candidates ensures RoundInput(a, b, j).OnRun(e.Place()) {
      var p :| p in RoundPoints(a, b) && e == EventAt(p);
      OnRounds(a, b, j, p);
    }
    hide Grounded, History, RoundInput, RoundStates;
    RoundGrounded(a, b, j);
    AllSettled(RoundInput(a, b, j), RoundStates(a, b, j), RoundOrder(a, b));
  }

  // ---------------------------------------------------------------- what the guard makes of them

  function RoundCounted(a: nat, b: nat, j: nat): set<Event> {
    set p | p in RoundPoints(a, b) && RoundVerdict(j, p) == Counted :: EventAt(p)
  }

  lemma CountedInRounds(a: nat, b: nat, j: nat)
    requires InStep(a, b) && j < a
    ensures CountedOf(RoundInput(a, b, j), Phase({}, RoundStates(a, b, j))) == RoundCounted(a, b, j)
  {
    forall p | p in RoundPoints(a, b)
      ensures VerdictOf(RoundInput(a, b, j), RoundStates(a, b, j), {}, EventAt(p)) == RoundVerdict(j, p)
    {
      RoundJudged(a, b, j, p);
    }
    hide VerdictOf, RoundStates, RoundPoints, EventAt, RoundVerdict;
  }

  lemma RoundCountedIn(a: nat, b: nat, j: nat, p: Point)
    requires InStep(a, b) && j < a && p in RoundPoints(a, b)
    ensures CountedIn(RoundCounted(a, b, j), p) == if RoundVerdict(j, p) == Counted then {EventAt(p)} else {}
  {
    forall q | q in RoundPoints(a, b) ensures EventAt(q).Place() == q { OnRounds(a, b, j, q); }
    hide RoundPoints, EventAt, RoundVerdict;
    if RoundVerdict(j, p) == Counted { assert EventAt(p) in RoundCounted(a, b, j); }
  }

  /** The last sequence at which an event counted is the round's demotion. */
  lemma {:induction false} RoundLastWon(a: nat, b: nat, j: nat, c: PdnId, q: nat)
    requires InStep(a, b) && j + 1 < a && c in {FIRST, SECOND}
    requires (if c == FIRST then j + 2 else 2 * j + 3) <= q <= if c == FIRST then a else b
    ensures LastWon(RoundCounted(a, b, j), c, q) == if c == FIRST then j + 2 else 2 * j + 3
  {
    OnRounds(a, b, j, Point(c, q));
    RoundCountedIn(a, b, j, Point(c, q));
    hide RoundCounted, CountedIn, RoundPoints;
    if q > (if c == FIRST then j + 2 else 2 * j + 3) { RoundLastWon(a, b, j, c, q - 1); }
  }

  lemma RoundEnding(a: nat, b: nat, j: nat, c: PdnId)
    requires InStep(a, b) && j + 1 < a && c in {FIRST, SECOND}
    ensures EndingDemotions(RoundCounted(a, b, j), c, RoundRuns(a, b)[c])
      == {EventAt(Point(c, if c == FIRST then j + 2 else 2 * j + 3))}
  {
    var p := Point(c, if c == FIRST then j + 2 else 2 * j + 3);
    RoundLastWon(a, b, j, c, RoundRuns(a, b)[c]);
    OnRounds(a, b, j, p);
    RoundCountedIn(a, b, j, p);
    hide RoundCounted, CountedIn, RoundPoints, LastWon;
  }

  /** The guard's pass with the first `j` demotions set aside: it calls for the next. */
  function RoundPass(a: nat, b: nat, j: nat): Guarded {
    Guarded(Undone(j), [Phase({}, RoundStates(a, b, j))], if j + 1 < a then {EventAt(Point(FIRST, j + 2))} else {})
  }

  lemma RoundFinal(a: nat, b: nat, j: nat, r: Result)
    requires InStep(a, b) && j < a && r.runs == RoundRuns(a, b) && r.states == RoundStates(a, b, j)
    ensures r.Final(FIRST) == Standing(true, j + 1 == a)
    ensures r.Final(SECOND) == Standing(true, b == 2 * a && j + 1 == a)
    ensures r.Owned() <==> j + 1 == a
  {
    OnRounds(a, b, j, Point(FIRST, a));
    OnRounds(a, b, j, Point(SECOND, b));
    StandsAt(a, b, j, Point(FIRST, a));
    StandsAt(a, b, j, Point(SECOND, b));
    hide RoundStates, RoundPoints;
  }

  /** Of the two demoted, the first's demotion is by the greater actor, and so taken last. */
  lemma RoundTakenLast(a: nat, b: nat, j: nat, r: Result)
    requires InStep(a, b) && j + 1 < a
    requires r == Result(RoundRuns(a, b), RoundStates(a, b, j), RoundCounted(a, b, j))
    ensures r.Demoted() != {} && TakenLast(r, FIRST) && r.Demotions(FIRST) == {EventAt(Point(FIRST, j + 2))}
  {
    RoundFinal(a, b, j, r);
    RoundEnding(a, b, j, FIRST);
    RoundEnding(a, b, j, SECOND);
    hide RoundStates, RoundCounted, EndingDemotions;
    assert r.Demoted() == {FIRST, SECOND};
    assert IsLeast(r.Demotions(FIRST), LeastActor(r.Demotions(FIRST)));
    assert IsLeast(r.Demotions(SECOND), LeastActor(r.Demotions(SECOND)));
    assert TakenBefore(r, SECOND, FIRST);
  }

  lemma RoundResult(a: nat, b: nat, j: nat)
    requires InStep(a, b) && j < a
    ensures ResultOf(Rounds(a, b), RoundRuns(a, b), RoundPass(a, b, j))
      == Result(RoundRuns(a, b), RoundStates(a, b, j), RoundCounted(a, b, j))
  {
    CountedInRounds(a, b, j);
    hide CountedOf, RoundStates, RoundCounted;
  }

  lemma RoundIsPass(a: nat, b: nat, j: nat)
    requires InStep(a, b) && j < a
    ensures GuardPass(Rounds(a, b), RoundRuns(a, b), RoundPass(a, b, j))
  {
    RoundPhase(a, b, j);
    RoundResult(a, b, j);
    hide History, ResultOf, RoundStates, RoundCounted, Result.Owned, Result.Demoted, Result.Demotions, TakenLast;
    var r := Result(RoundRuns(a, b), RoundStates(a, b, j), RoundCounted(a, b, j));
    RoundFinal(a, b, j, r);
    if j + 1 < a { RoundTakenLast(a, b, j, r); }
  }

  lemma RoundCallsOn(a: nat, b: nat, j: nat)
    requires j + 1 < a
    ensures !(RoundPass(a, b, j).more <= RoundPass(a, b, j).aside)
    ensures RoundPass(a, b, j + 1).aside == RoundPass(a, b, j).aside + RoundPass(a, b, j).more
  {
    IsUndone(j, Point(FIRST, j + 2));
    assert Undone(j + 1) == Undone(j) + {EventAt(Point(FIRST, j + 2))};
  }

  ghost function RoundPasses(a: nat, b: nat, n: nat): seq<Guarded> { seq(n, j requires 0 <= j => RoundPass(a, b, j)) }

  lemma NoPassYet(candidates: set<Event>, runs: map<PdnId, nat>)
    ensures GuardRun(candidates, runs, [], false)
  {
  }

  lemma FirstRound(a: nat, b: nat)
    requires a >= 1
    ensures RoundPass(a, b, 0).aside == {} && RoundPass(a, b, a - 1).more == {}
  {
  }

  lemma {:induction false} RoundRun(a: nat, b: nat, n: nat)
    requires InStep(a, b) && n <= a && n <= GUARD_PASSES
    ensures GuardRun(Rounds(a, b), RoundRuns(a, b), RoundPasses(a, b, n), n == GUARD_PASSES || n == a)
  {
    hide GuardPass, GuardRun, Rounds, RoundRuns, RoundPass;
    FirstRound(a, b);
    if n == 0 {
      NoPassYet(Rounds(a, b), RoundRuns(a, b));
      assert RoundPasses(a, b, n) == [];
    } else {
      var gs, g := RoundPasses(a, b, n - 1), RoundPass(a, b, n - 1);
      RoundRun(a, b, n - 1);
      RoundIsPass(a, b, n - 1);
      if n > 1 { RoundCallsOn(a, b, n - 2); }
      if n < a { RoundCallsOn(a, b, n - 1); }
      GuardExtends(Rounds(a, b), RoundRuns(a, b), gs, g);
      assert gs + [g] == RoundPasses(a, b, n);
    }
  }

  /** With `a - 1` rounds of two owners demoting each other the guard takes `a` passes, four at most: the first still
      owns the pod, and the second if it was promoted again, exactly with three rounds or fewer; with more nobody
      does. */
  lemma RoundsRunOut(a: nat, b: nat, gs: seq<Guarded>)
    requires InStep(a, b) && GuardRun(Rounds(a, b), RoundRuns(a, b), gs, true)
    ensures |gs| == if a <= GUARD_PASSES then a else GUARD_PASSES
    ensures var r := ResultOf(Rounds(a, b), RoundRuns(a, b), gs[|gs| - 1]);
      && r.runs == RoundRuns(a, b) && (r.Owned() <==> a <= GUARD_PASSES)
      && r.Final(FIRST) == Standing(true, a <= GUARD_PASSES)
      && r.Final(SECOND) == Standing(true, b == 2 * a && a <= GUARD_PASSES)
      && (r.Owned() || r.Demoted() == {} <==> a <= GUARD_PASSES)
  {
    var n := if a <= GUARD_PASSES then a else GUARD_PASSES;
    hide GuardRun, GuardPass, RoundPass, ResultOf, Rounds, RoundStates, RoundCounted, Result.Owned, Result.Demoted;
    RoundRun(a, b, n);
    ViewIsDeterministic(Rounds(a, b), RoundRuns(a, b), gs, RoundPasses(a, b, n));
    assert gs[|gs| - 1] == RoundPass(a, b, n - 1);
    RoundResult(a, b, n - 1);
    var r := Result(RoundRuns(a, b), RoundStates(a, b, n - 1), RoundCounted(a, b, n - 1));
    RoundFinal(a, b, n - 1, r);
    if a > GUARD_PASSES { RoundTakenLast(a, b, n - 1, r); }
  }

  /** How far the writer of the event at a point held each chain. */
  function HeldFirst(p: Point): nat { if p.chain == FIRST && p.at > 0 then p.at - 1 else p.at / 2 }

  function HeldSecond(p: Point): nat {
    if p.at == 0 then 0 else if p.chain == FIRST then 2 * p.at - 2 else p.at - 1
  }

  /** What a device writes of an owner's act on a member: refused but by an owner on another, current, and for a
      demotion owning member, and placed next on the subject's chain, naming the end of the actor's own. */
  predicate WrittenOn(e: Event, r: Result) {
    && e.actor in r.runs && r.Final(e.actor).owner && e.actorAt == r.runs[e.actor]
    && e.subject in r.runs && r.Final(e.subject).member && e.at == r.runs[e.subject] + 1
    && e.subject != e.actor && (e.kind == Demoted ==> r.Final(e.subject).owner)
  }

  lemma HeldInStep(p: Point)
    requires p.chain in {FIRST, SECOND} && 2 <= p.at
    ensures InStep(HeldFirst(p), HeldSecond(p)) && EventAt(p).kind in {Promoted, Demoted}
    ensures EventAt(p).actorAt == if p.chain == FIRST then HeldSecond(p) else HeldFirst(p)
    ensures EventAt(p).at == 1 + if p.chain == FIRST then HeldFirst(p) else HeldSecond(p)
    ensures EventAt(p).actor == (if p.chain == FIRST then SECOND else FIRST) && EventAt(p).subject == p.chain
    ensures p.chain == FIRST ==> EventAt(p).kind == Demoted
    ensures HeldSecond(p) == 2 * HeldFirst(p) <==> EventAt(p).kind == Demoted
    ensures HeldFirst(p) == if p.chain == FIRST then p.at - 1 else p.at / 2
  {
  }

  /** And only honest devices are needed for four: each promotion and demotion was written on what the view of the
      events before it showed, by the guard's own reckoning. */
  lemma RoundsAreHonest(p: Point, gs: seq<Guarded>)
    requires p.chain in {FIRST, SECOND} && 2 <= p.at <= if p.chain == FIRST then GUARD_PASSES + 1
      else 2 * GUARD_PASSES + 1
    requires GuardRun(Rounds(HeldFirst(p), HeldSecond(p)), RoundRuns(HeldFirst(p), HeldSecond(p)), gs, true)
    ensures var a, b := HeldFirst(p), HeldSecond(p);
      WrittenOn(EventAt(p), ResultOf(Rounds(a, b), RoundRuns(a, b), gs[|gs| - 1]))
  {
    hide GuardRun, ResultOf, Rounds, EventAt, HeldFirst, HeldSecond, Result.Owned, Result.Demoted, Result.Final;
    HeldInStep(p);
    RoundsRunOut(HeldFirst(p), HeldSecond(p), gs);
  }

  // ---------------------------------------------------------------- an owner that leaves

  const CREATION: Event := EventAt(Point(FIRST, 1))
  const LEAVING: Event := Event(4, FIRST, 2, Left, FIRST, 1)

  const LEFT_STATES: States := map[Point(FIRST, 1) := Standing(true, true), Point(FIRST, 2) := NOBODY]

  lemma LeavingSettles()
    ensures History(Input({CREATION, LEAVING}, map[FIRST := 2], {}), [Phase({}, LEFT_STATES)])
  {
    var inp := Input({CREATION, LEAVING}, map[FIRST := 2], {});
    var order := map[Point(FIRST, 1) := 0, Point(FIRST, 2) := 1];
    assert inp.Here(Point(FIRST, 1)) == {CREATION} && inp.Here(Point(FIRST, 2)) == {LEAVING};
    assert CountedAt(inp, LEFT_STATES, {}, Point(FIRST, 1)) == {CREATION};
    assert CountedAt(inp, LEFT_STATES, {}, Point(FIRST, 2)) == {LEAVING};
    AfterOne(NOBODY, CREATION);
    AfterOne(Standing(true, true), LEAVING);
    hide After, CountedAt;
    AllSettled(inp, LEFT_STATES, order);
  }

  lemma NoDemotion()
    ensures DemotionsOf({CREATION, LEAVING}) == {}
  {
  }

  lemma NoneToSetAside(candidates: set<Event>, runs: map<PdnId, nat>, gs: seq<Guarded>)
    requires GuardRun(candidates, runs, gs, true) && DemotionsOf(candidates) == {}
    ensures |gs| == 1 && GuardPass(candidates, runs, gs[0]) && gs[0].aside == {}
  {
    hide GuardPass;
    CallsForNew(candidates, runs, gs[0]);
  }

  /** Without a demotion the guard has nothing to give back: a sole owner that leaves leaves none. */
  lemma SoleOwnerLeaves(gs: seq<Guarded>)
    requires GuardRun({CREATION, LEAVING}, map[FIRST := 2], gs, true)
    ensures DemotionsOf({CREATION, LEAVING}) == {}
    ensures !ResultOf({CREATION, LEAVING}, map[FIRST := 2], gs[|gs| - 1]).Owned()
  {
    var candidates, runs := {CREATION, LEAVING}, map[FIRST := 2];
    hide *;
    NoDemotion();
    NoneToSetAside(candidates, runs, gs);
    PassHistory(candidates, runs, gs[0]);
    LeavingSettles();
    PassIsDeterministic(Input(candidates, runs, {}), gs[0].history, [Phase({}, LEFT_STATES)]);
    NotOwned(candidates, runs, gs[0]);
  }

  lemma NotOwned(candidates: set<Event>, runs: map<PdnId, nat>, g: Guarded)
    requires g.history == [Phase({}, LEFT_STATES)] && runs == map[FIRST := 2]
    ensures !ResultOf(candidates, runs, g).Owned()
  {
    hide CountedOf;
  }
}
