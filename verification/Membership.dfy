/** The membership view's state-reading checks: one pass over the events that passed every check
    on their own, settling each chain's sequences as the states they rest on become known,
    breaking loops of waits, and the guard that keeps a pod's last owner. */
module Membership {
  import opened Ids

  datatype Kind = Created | Joined | Left | Removed | Promoted | Demoted

  datatype Standing = Standing(member: bool, owner: bool)

  const NOBODY := Standing(false, false)

  datatype Event = Event(entry: int, subject: PdnId, at: nat, kind: Kind, actor: PdnId, actorAt: nat) {
    function Place(): Point { Point(subject, at) }
    function Rests(): Point { Point(actor, actorAt) }
  }

  /** A sequence of one chain. */
  datatype Point = Point(chain: PdnId, at: nat)

  datatype Verdict = Counted | TransitionNotAllowed | ActorLacksState | LastOwnerKept | Cyclic

  const LOOP_ROUNDS: nat := 4
  const GUARD_PASSES: nat := 4

  predicate Allows(before: Standing, kind: Kind) {
    match kind
    case Created | Joined => !before.member
    case Left | Removed | Promoted => before.member
    case Demoted => before.owner
  }

  function Precedence(kind: Kind): nat {
    match kind
    case Removed => 6
    case Left => 5
    case Demoted => 4
    case Promoted => 3
    case Created => 2
    case Joined => 1
  }

  function Apply(kind: Kind): Standing {
    match kind
    case Created | Promoted => Standing(true, true)
    case Joined | Demoted => Standing(true, false)
    case Left | Removed => NOBODY
  }

  predicate Suffices(actor: Standing, kind: Kind) {
    match kind
    case Joined => actor.member
    case Promoted | Removed | Demoted => actor.owner
    case Created | Left => true
  }

  /** The counted events of the highest precedence at one sequence. */
  datatype Winner = NoWinner | Winner(kind: Kind, events: set<Event>)

  function RecordWinner(w: Winner, e: Event): Winner {
    if w.Winner? && Precedence(w.kind) > Precedence(e.kind) then w
    else if w.Winner? && w.kind == e.kind then Winner(w.kind, w.events + {e})
    else Winner(e.kind, {e})
  }

  function RecordAll(es: seq<Event>): Winner {
    if es == [] then NoWinner else RecordWinner(RecordAll(es[..|es| - 1]), es[|es| - 1])
  }

  function Elements(es: seq<Event>): set<Event> { set e | e in es }

  ghost predicate IsWinner(events: set<Event>, w: Winner) {
    if w.NoWinner? then events == {}
    else
      && w.events == (set e | e in events && e.kind == w.kind) && w.events != {}
      && forall e | e in events :: Precedence(e.kind) <= Precedence(w.kind)
  }

  /** Recording the counted events in any order leaves the same winner. */
  lemma {:induction false} RecordAllIsWinner(es: seq<Event>)
    ensures IsWinner(Elements(es), RecordAll(es))
  {
    if es != [] {
      var rest, last := es[..|es| - 1], es[|es| - 1];
      RecordAllIsWinner(rest);
      assert Elements(es) == Elements(rest) + {last};
      assert forall k: Kind, l: Kind :: Precedence(k) == Precedence(l) ==> k == l;
    }
  }

  lemma WinnerIsUnique(events: set<Event>, v: Winner, w: Winner)
    requires IsWinner(events, v) && IsWinner(events, w)
    ensures v == w
  {
  }

  /** Of the events at one sequence a removal wins over a leave, that over a demotion, then a promotion, the creation
      and a join. */
  lemma WinnerRanks(events: set<Event>, w: Winner)
    requires IsWinner(events, w) && w.Winner?
    ensures w.kind ==
      if OfKind(events, Removed) then Removed
      else if OfKind(events, Left) then Left
      else if OfKind(events, Demoted) then Demoted
      else if OfKind(events, Promoted) then Promoted
      else if OfKind(events, Created) then Created
      else Joined
  {
    var e :| e in w.events;
  }

  /** The standing a sequence leaves: its winner's transition, or the one before it. */
  function After(before: Standing, counted: set<Event>): Standing {
    if exists e | e in counted :: e.kind == Removed || e.kind == Left then NOBODY
    else if exists e | e in counted :: e.kind == Demoted then Standing(true, false)
    else if exists e | e in counted :: e.kind == Promoted || e.kind == Created then Standing(true, true)
    else if counted != {} then Standing(true, false)
    else before
  }

  lemma AfterFollowsWinner(before: Standing, counted: set<Event>, w: Winner)
    requires IsWinner(counted, w)
    ensures After(before, counted) == if w.NoWinner? then before else Apply(w.kind)
  {
  }

  type States = map<Point, Standing>

  /** What one pass judges: the candidates, how far each chain is held, and the demotions set aside. */
  datatype Input = Input(candidates: set<Event>, runs: map<PdnId, nat>, aside: set<Event>) {
    predicate Valid() {
      && (forall e | e in candidates :: 1 <= e.at && OnRun(e.Place()))
      && (forall e | e in candidates :: e.actorAt == 0 || OnRun(e.Rests()))
      && (forall e, f | e in candidates && f in candidates && e.entry == f.entry :: e == f)
    }

    predicate OnRun(p: Point) { 1 <= p.at && p.chain in runs && p.at <= runs[p.chain] }

    function Here(p: Point): set<Event> { set e | e in candidates && e.Place() == p }
  }

  function Pred(p: Point): Point { if p.at == 0 then p else Point(p.chain, p.at - 1) }

  predicate Settled(st: States, p: Point) { p.at == 0 || p in st }

  function StateAt(st: States, p: Point): Standing { if p.at != 0 && p in st then st[p] else NOBODY }

  /** Judged on no other chain's state. */
  predicate Direct(e: Event) { e.kind == Created || e.kind == Left || e.actorAt == 0 }

  predicate Allowed(st: States, e: Event) { Allows(StateAt(st, Pred(e.Place())), e.kind) }

  predicate Resolved(st: States, dead: set<Event>, e: Event) {
    !Allowed(st, e) || e in dead || Direct(e) || e.Rests() in st
  }

  /** An event's verdict once resolved, `dead` being the events counted for nothing as part of a loop. */
  function VerdictOf(inp: Input, st: States, dead: set<Event>, e: Event): Verdict {
    if !Allowed(st, e) then TransitionNotAllowed
    else if e in dead then Cyclic
    else if !Suffices(StateAt(st, e.Rests()), e.kind) then ActorLacksState
    else if e in inp.aside then LastOwnerKept
    else Counted
  }

  function CountedAt(inp: Input, st: States, dead: set<Event>, p: Point): set<Event> {
    set e | e in inp.Here(p) && VerdictOf(inp, st, dead, e) == Counted
  }

  function Outcome(inp: Input, st: States, dead: set<Event>, p: Point): Standing {
    After(StateAt(st, Pred(p)), CountedAt(inp, st, dead, p))
  }

  /** The first unsettled sequence of its chain. */
  predicate Reached(st: States, p: Point) { 1 <= p.at && Settled(st, Pred(p)) && p !in st }

  function Waiting(inp: Input, st: States, dead: set<Event>): set<Event> {
    set e | e in inp.candidates && Reached(st, e.Place()) && !Resolved(st, dead, e)
  }

  /** Every settled standing follows from ones settled earlier. */
  ghost predicate Grounded(inp: Input, st: States, dead: set<Event>, order: map<Point, nat>) {
    && order.Keys == st.Keys
    && forall p | p in st :: GroundedAt(inp, st, dead, order, p)
  }

  ghost predicate GroundedAt(inp: Input, st: States, dead: set<Event>, order: map<Point, nat>, p: Point)
    requires p in st && order.Keys == st.Keys
  {
    && inp.OnRun(p) && Settled(st, Pred(p)) && (p.at > 1 ==> order[Pred(p)] < order[p])
    && st[p] == Outcome(inp, st, dead, p)
    && forall e | e in inp.Here(p) :: RestsEarlier(st, dead, order, p, e)
  }

  ghost predicate RestsEarlier(st: States, dead: set<Event>, order: map<Point, nat>, p: Point, e: Event)
    requires p in st && order.Keys == st.Keys
  {
    !Allowed(st, e) || e in dead || Direct(e) || (e.Rests() in st && order[e.Rests()] < order[p])
  }

  /** Nothing more settles: each chain's next sequence holds an event still waiting. */
  ghost predicate Stuck(inp: Input, st: States, dead: set<Event>) {
    forall p | inp.OnRun(p) && Reached(st, p) :: exists e :: e in inp.Here(p) && !Resolved(st, dead, e)
  }

  /** A verdict reads no state but the one before its sequence and the one its key names. */
  lemma VerdictAlike(inp: Input, dead: set<Event>, s: States, t: States, e: Event)
    requires StateAt(s, Pred(e.Place())) == StateAt(t, Pred(e.Place()))
    requires !Allowed(s, e) || e in dead || Direct(e)
      || (e.Rests() in s && e.Rests() in t && s[e.Rests()] == t[e.Rests()])
    ensures Resolved(t, dead, e) && VerdictOf(inp, t, dead, e) == VerdictOf(inp, s, dead, e)
  {
  }

  lemma OutcomeAlike(inp: Input, dead: set<Event>, s: States, t: States, p: Point)
    requires StateAt(s, Pred(p)) == StateAt(t, Pred(p))
    requires forall e | e in inp.Here(p) :: VerdictOf(inp, t, dead, e) == VerdictOf(inp, s, dead, e)
    ensures Outcome(inp, t, dead, p) == Outcome(inp, s, dead, p)
  {
  }

  lemma {:induction false} SettledAlike(inp: Input, dead: set<Event>, s: States, order: map<Point, nat>, t: States,
      torder: map<Point, nat>, p: Point)
    requires Grounded(inp, s, dead, order) && Grounded(inp, t, dead, torder) && Stuck(inp, t, dead)
    requires p in s
    ensures p in t && t[p] == s[p]
    decreases order[p]
  {
    assert GroundedAt(inp, s, dead, order, p);
    if p.at > 1 { SettledAlike(inp, dead, s, order, t, torder, Pred(p)); }
    forall e | e in inp.Here(p)
      ensures Resolved(t, dead, e) && VerdictOf(inp, t, dead, e) == VerdictOf(inp, s, dead, e)
    {
      assert RestsEarlier(s, dead, order, p, e);
      if Allowed(s, e) && e !in dead && !Direct(e) { SettledAlike(inp, dead, s, order, t, torder, e.Rests()); }
      VerdictAlike(inp, dead, s, t, e);
    }
    OutcomeAlike(inp, dead, s, t, p);
    if p in t { assert GroundedAt(inp, t, dead, torder, p); } else { assert Reached(t, p); }
  }

  /** However the work was ordered, the same sequences settle to the same standings. */
  lemma StuckStatesAgree(inp: Input, dead: set<Event>, s: States, sorder: map<Point, nat>, t: States,
      torder: map<Point, nat>)
    requires Grounded(inp, s, dead, sorder) && Stuck(inp, s, dead)
    requires Grounded(inp, t, dead, torder) && Stuck(inp, t, dead)
    ensures s == t
  {
    forall p | p in s ensures p in t && s[p] == t[p] { SettledAlike(inp, dead, s, sorder, t, torder, p); }
    forall p | p in t ensures p in s { SettledAlike(inp, dead, t, torder, s, sorder, p); }
    assert s.Keys == t.Keys;
  }

  /** The loop rounds of one pass: what was dead and what had settled each time nothing more moved. */
  datatype Phase = Phase(dead: set<Event>, states: States)

  ghost predicate Quiescent(inp: Input, ph: Phase) {
    exists order :: Grounded(inp, ph.states, ph.dead, order) && Stuck(inp, ph.states, ph.dead)
  }

  /** A walk along waits: each event waits on the ones still waiting in its actor's chain. */
  ghost predicate Walk(waiting: set<Event>, path: seq<Event>) {
    && |path| >= 2
    && (forall e | e in path :: e in waiting)
    && forall i | 0 <= i < |path| - 1 :: path[i + 1].subject == path[i].actor
  }

  ghost predicate WalksTo(waiting: set<Event>, e: Event, f: Event) {
    exists path :: Walk(waiting, path) && path[0] == e && path[|path| - 1] == f
  }

  ghost function Killed(inp: Input, ph: Phase, round: nat): set<Event> {
    var w := Waiting(inp, ph.states, ph.dead);
    if round < LOOP_ROUNDS then set e | e in w && WalksTo(w, e, e) else w
  }

  /** A pass from its start to the point where nothing waits. */
  ghost predicate History(inp: Input, h: seq<Phase>) {
    && |h| >= 1 && h[0].dead == {}
    && (forall i | 0 <= i < |h| :: Quiescent(inp, h[i]))
    && (forall i | 0 <= i < |h| :: Waiting(inp, h[i].states, h[i].dead) == {} <==> i == |h| - 1)
    && forall i | 0 <= i < |h| - 1 :: h[i + 1].dead == h[i].dead + Killed(inp, h[i], i)
  }

  lemma {:induction false} PhasesAgree(inp: Input, g: seq<Phase>, h: seq<Phase>, i: nat)
    requires History(inp, g) && History(inp, h) && i < |g|
    ensures i < |h| && g[i] == h[i]
  {
    if i > 0 {
      PhasesAgree(inp, g, h, i - 1);
      assert Waiting(inp, h[i - 1].states, h[i - 1].dead) != {};
    }
    var so :| Grounded(inp, g[i].states, g[i].dead, so) && Stuck(inp, g[i].states, g[i].dead);
    assert Quiescent(inp, h[i]);
    var to :| Grounded(inp, h[i].states, h[i].dead, to) && Stuck(inp, h[i].states, h[i].dead);
    StuckStatesAgree(inp, g[i].dead, g[i].states, so, h[i].states, to);
  }

  /** One pass over the same entries has one outcome, whatever order its work was taken in. */
  lemma PassIsDeterministic(inp: Input, g: seq<Phase>, h: seq<Phase>)
    requires History(inp, g) && History(inp, h)
    ensures g == h
  {
    PhasesAgree(inp, g, h, |g| - 1);
    PhasesAgree(inp, h, g, |h| - 1);
    forall i | 0 <= i < |g| ensures g[i] == h[i] { PhasesAgree(inp, g, h, i); }
  }

  /** What a pass tracks while sequences settle. */
  datatype Work = Work(states: States, dead: set<Event>, waiting: set<Event>, open: set<Point>, close: set<Point>,
      verdicts: map<Event, Verdict>)

  predicate Opened(w: Work, p: Point) { p in w.states || (Reached(w.states, p) && p !in w.open) }

  ghost predicate Consistent(inp: Input, w: Work, order: map<Point, nat>, clock: nat) {
    && Grounded(inp, w.states, w.dead, order) && (forall p | p in order :: order[p] < clock)
    && Fronts(inp, w) && Waits(inp, w) && Covered(inp, w) && Seen(inp, w)
    && (forall e | e in w.verdicts :: Judged(inp, w, e))
  }

  ghost predicate Fronts(inp: Input, w: Work) {
    && w.open !! w.close
    && forall p | p in w.open || p in w.close :: inp.OnRun(p) && Reached(w.states, p)
  }

  ghost predicate Waits(inp: Input, w: Work) {
    forall e | e in w.waiting ::
      && e in inp.candidates && Reached(w.states, e.Place()) && !Resolved(w.states, w.dead, e)
      && e.Place() !in w.open && e.Place() !in w.close
  }

  ghost predicate Covered(inp: Input, w: Work) {
    forall p | inp.OnRun(p) && Reached(w.states, p) ::
      p in w.open || p in w.close || exists e :: e in w.waiting && e.Place() == p
  }

  ghost predicate Seen(inp: Input, w: Work) {
    forall e | e in inp.candidates && Opened(w, e.Place()) :: e in w.waiting || e in w.verdicts
  }

  ghost predicate Judged(inp: Input, w: Work, e: Event)
    requires e in w.verdicts
  {
    && e in inp.candidates && Opened(w, e.Place()) && e !in w.waiting
    && Resolved(w.states, w.dead, e) && w.verdicts[e] == VerdictOf(inp, w.states, w.dead, e)
  }

  function Open(inp: Input, w: Work, p: Point): Work {
    var here := inp.Here(p);
    var waits := set e | e in here && !Resolved(w.states, w.dead, e);
    w.(open := w.open - {p},
       waiting := w.waiting + waits,
       close := if waits == {} then w.close + {p} else w.close,
       verdicts := w.verdicts + map e | e in here - waits :: VerdictOf(inp, w.states, w.dead, e))
  }

  /** The points of `events` no event of `waiting` is left at. */
  function Freed(events: set<Event>, waiting: set<Event>): set<Point> {
    set e | e in events && (forall f | f in waiting :: f.Place() != e.Place()) :: e.Place()
  }

  function Close(inp: Input, w: Work, p: Point): Work {
    var st := w.states[p := Outcome(inp, w.states, w.dead, p)];
    var released := set e | e in w.waiting && e.Rests() == p;
    var next := Point(p.chain, p.at + 1);
    w.(states := st,
       waiting := w.waiting - released,
       close := w.close - {p} + Freed(released, w.waiting - released),
       open := if inp.OnRun(next) then w.open + {next} else w.open,
       verdicts := w.verdicts + map e | e in released :: VerdictOf(inp, st, w.dead, e))
  }

  /** The events of a loop, or at last every waiting one, count for nothing. */
  function Kill(w: Work, killed: set<Event>): Work {
    w.(dead := w.dead + killed,
       waiting := w.waiting - killed,
       close := w.close + Freed(killed, w.waiting - killed),
       verdicts := w.verdicts + map e | e in killed :: Cyclic)
  }

  lemma OpenKeeps(inp: Input, w: Work, order: map<Point, nat>, clock: nat, p: Point)
    requires inp.Valid() && Consistent(inp, w, order, clock) && p in w.open
    ensures Consistent(inp, Open(inp, w, p), order, clock)
  {
    var v := Open(inp, w, p);
    forall q | inp.OnRun(q) && Reached(v.states, q)
      ensures q in v.open || q in v.close || exists e :: e in v.waiting && e.Place() == q
    {
      if q != p && q !in w.open && q !in w.close {
        var e :| e in w.waiting && e.Place() == q;
        assert e in v.waiting;
      }
    }
    forall e | e in v.verdicts ensures Judged(inp, v, e) {
      if e in w.verdicts { assert Judged(inp, w, e); }
    }
  }

  lemma ResolvedStays(inp: Input, dead: set<Event>, st: States, p: Point, x: Standing, e: Event)
    requires Reached(st, p) && Settled(st, Pred(e.Place())) && 1 <= e.at && Resolved(st, dead, e)
    ensures var s := st[p := x];
      Resolved(s, dead, e) && VerdictOf(inp, s, dead, e) == VerdictOf(inp, st, dead, e)
  {
  }

  lemma UnresolvedStays(dead: set<Event>, st: States, p: Point, x: Standing, e: Event)
    requires Reached(st, p) && Reached(st, e.Place()) && !Resolved(st, dead, e) && e.Rests() != p
    ensures !Resolved(st[p := x], dead, e)
  {
  }

  lemma SettlingKeepsEarlier(inp: Input, dead: set<Event>, st: States, order: map<Point, nat>, clock: nat, p: Point,
      x: Standing, q: Point)
    requires inp.Valid() && Grounded(inp, st, dead, order) && Reached(st, p) && q in st
    ensures GroundedAt(inp, st[p := x], dead, order[p := clock], q)
  {
    var s := st[p := x];
    assert GroundedAt(inp, st, dead, order, q);
    forall e | e in inp.Here(q)
      ensures RestsEarlier(s, dead, order[p := clock], q, e)
        && VerdictOf(inp, s, dead, e) == VerdictOf(inp, st, dead, e)
    {
      assert RestsEarlier(st, dead, order, q, e);
      ResolvedStays(inp, dead, st, p, x, e);
    }
    OutcomeAlike(inp, dead, st, s, q);
  }

  lemma SettlingGrounds(inp: Input, dead: set<Event>, st: States, order: map<Point, nat>, clock: nat, p: Point)
    requires inp.Valid() && Grounded(inp, st, dead, order) && (forall q | q in order :: order[q] < clock)
    requires inp.OnRun(p) && Reached(st, p) && forall e | e in inp.Here(p) :: Resolved(st, dead, e)
    ensures Grounded(inp, st[p := Outcome(inp, st, dead, p)], dead, order[p := clock])
  {
    var x := Outcome(inp, st, dead, p);
    var s := st[p := x];
    forall e | e in inp.Here(p)
      ensures RestsEarlier(s, dead, order[p := clock], p, e)
        && VerdictOf(inp, s, dead, e) == VerdictOf(inp, st, dead, e)
    {
      ResolvedStays(inp, dead, st, p, x, e);
    }
    OutcomeAlike(inp, dead, st, s, p);
    assert GroundedAt(inp, s, dead, order[p := clock], p);
    forall q | q in s && q != p ensures GroundedAt(inp, s, dead, order[p := clock], q) {
      SettlingKeepsEarlier(inp, dead, st, order, clock, p, x, q);
    }
  }

  lemma ClosingIsResolved(inp: Input, w: Work, order: map<Point, nat>, clock: nat, p: Point, e: Event)
    requires Consistent(inp, w, order, clock) && p in w.close && e in inp.Here(p)
    ensures Resolved(w.states, w.dead, e)
  {
  }

  lemma NextUnseen(inp: Input, w: Work, p: Point)
    requires Fronts(inp, w) && Waits(inp, w) && p in w.close
    ensures var next := Point(p.chain, p.at + 1);
      next !in w.open && next !in w.close && forall e | e in w.waiting :: e.Place() != next && e.Place() !in w.open
  {
    hide Resolved;
    var next := Point(p.chain, p.at + 1);
    assert Pred(next) == p && !Settled(w.states, p);
  }

  lemma FreedAmong(events: set<Event>, waiting: set<Event>, q: Point)
    requires q in Freed(events, waiting)
    ensures exists e :: e in events && e.Place() == q
  {
  }

  lemma CloseKeepsApart(inp: Input, w: Work, p: Point)
    requires Fronts(inp, w) && Waits(inp, w) && p in w.close
    ensures Close(inp, w, p).open !! Close(inp, w, p).close
  {
    hide Outcome, VerdictOf, Waits, Freed;
    NextUnseen(inp, w, p);
    var v := Close(inp, w, p);
    forall q | q in v.close ensures q !in v.open {
      if q !in w.close {
        var released := set e | e in w.waiting && e.Rests() == p;
        FreedAmong(released, w.waiting - released, q);
      }
    }
  }

  lemma CloseReaches(inp: Input, w: Work, p: Point, q: Point)
    requires inp.Valid() && Fronts(inp, w) && Waits(inp, w) && p in w.close
    requires forall q | q in w.states :: Settled(w.states, Pred(q))
    requires q in Close(inp, w, p).open || q in Close(inp, w, p).close
    ensures inp.OnRun(q) && Reached(Close(inp, w, p).states, q)
  {
    hide Resolved, Outcome, VerdictOf;
    var v := Close(inp, w, p);
    assert Pred(Point(p.chain, p.at + 1)) == p && Point(p.chain, p.at + 1) !in w.states;
    if q in Freed(w.waiting - v.waiting, v.waiting) { assert q !in w.close; }
  }

  lemma CloseKeepsFronts(inp: Input, w: Work, p: Point)
    requires inp.Valid() && Fronts(inp, w) && Waits(inp, w) && p in w.close
    requires forall q | q in w.states :: Settled(w.states, Pred(q))
    ensures Fronts(inp, Close(inp, w, p))
  {
    CloseKeepsApart(inp, w, p);
    forall q | q in Close(inp, w, p).open || q in Close(inp, w, p).close
      ensures inp.OnRun(q) && Reached(Close(inp, w, p).states, q)
    {
      CloseReaches(inp, w, p, q);
    }
    hide Close, Waits, Reached, Settled;
  }

  lemma CloseKeepsWaits(inp: Input, w: Work, p: Point)
    requires Fronts(inp, w) && Waits(inp, w) && p in w.close
    requires forall q | q in w.states :: Settled(w.states, Pred(q))
    ensures Waits(inp, Close(inp, w, p))
  {
    hide Outcome, VerdictOf, Resolved;
    var next := Point(p.chain, p.at + 1);
    assert Pred(next) == p && next !in w.states;
    var v := Close(inp, w, p);
    forall e | e in v.waiting
      ensures Reached(v.states, e.Place()) && !Resolved(v.states, v.dead, e) && e.Place() !in v.open
        && e.Place() !in v.close
    {
      UnresolvedStays(w.dead, w.states, p, v.states[p], e);
    }
  }

  lemma CloseKeepsCovered(inp: Input, w: Work, p: Point)
    requires Fronts(inp, w) && Covered(inp, w) && p in w.close
    ensures Covered(inp, Close(inp, w, p))
  {
    var v := Close(inp, w, p);
    forall q | inp.OnRun(q) && Reached(v.states, q)
      ensures q in v.open || q in v.close || exists e :: e in v.waiting && e.Place() == q
    {
      if q != Point(p.chain, p.at + 1) {
        assert Reached(w.states, q);
        if q !in w.open && q !in w.close {
          var e :| e in w.waiting && e.Place() == q;
          if e !in v.waiting && forall f | f in v.waiting :: f.Place() != q { assert q in v.close; }
        }
      }
    }
  }

  lemma CloseKeepsSeen(inp: Input, w: Work, p: Point)
    requires inp.Valid() && Fronts(inp, w) && Seen(inp, w) && p in w.close
    requires forall q | q in w.states :: Settled(w.states, Pred(q))
    ensures Seen(inp, Close(inp, w, p))
  {
    hide Resolved, Outcome, VerdictOf;
    var v := Close(inp, w, p);
    forall e | e in inp.candidates && Opened(v, e.Place()) ensures e in v.waiting || e in v.verdicts {
      var q, next := e.Place(), Point(p.chain, p.at + 1);
      assert Pred(next) == p && next !in v.states;
      assert q == next ==> inp.OnRun(q) && q in v.open;
      assert Opened(w, q);
    }
  }

  lemma CloseRejudges(inp: Input, w: Work, p: Point, e: Event)
    requires inp.Valid() && Fronts(inp, w) && p in w.close
    requires forall q | q in w.states :: Settled(w.states, Pred(q))
    requires e in w.verdicts && Judged(inp, w, e)
    ensures Judged(inp, Close(inp, w, p), e)
  {
    hide Outcome, VerdictOf, Resolved, Freed;
    var v := Close(inp, w, p);
    var next := Point(p.chain, p.at + 1);
    assert Pred(next) == p && next !in w.states;
    assert v.verdicts[e] == w.verdicts[e];
    ResolvedStays(inp, w.dead, w.states, p, v.states[p], e);
  }

  lemma CloseReleases(inp: Input, w: Work, p: Point, e: Event)
    requires inp.Valid() && Fronts(inp, w) && Waits(inp, w) && p in w.close
    requires e in w.waiting && e.Rests() == p
    ensures Judged(inp, Close(inp, w, p), e)
  {
    hide Outcome, VerdictOf, Freed;
    var next := Point(p.chain, p.at + 1);
    assert Pred(next) == p;
  }

  lemma CloseKeeps(inp: Input, w: Work, order: map<Point, nat>, clock: nat, p: Point)
    requires inp.Valid() && Consistent(inp, w, order, clock) && p in w.close
    ensures Consistent(inp, Close(inp, w, p), order[p := clock], clock + 1)
  {
    forall e | e in inp.Here(p) ensures Resolved(w.states, w.dead, e) { ClosingIsResolved(inp, w, order, clock, p, e); }
    SettlingGrounds(inp, w.dead, w.states, order, clock, p);
    forall q | q in w.states ensures Settled(w.states, Pred(q)) { assert GroundedAt(inp, w.states, w.dead, order, q); }
    CloseKeepsFronts(inp, w, p);
    CloseKeepsWaits(inp, w, p);
    CloseKeepsCovered(inp, w, p);
    CloseKeepsSeen(inp, w, p);
    forall e | e in Close(inp, w, p).verdicts ensures Judged(inp, Close(inp, w, p), e) {
      if e in w.verdicts { CloseRejudges(inp, w, p, e); } else { CloseReleases(inp, w, p, e); }
    }
  }

  lemma KillKeepsGrounded(inp: Input, st: States, dead: set<Event>, order: map<Point, nat>, killed: set<Event>)
    requires Grounded(inp, st, dead, order)
    requires forall e | e in killed :: e.Place() !in st
    ensures Grounded(inp, st, dead + killed, order)
  {
    forall q | q in st ensures GroundedAt(inp, st, dead + killed, order, q) {
      assert GroundedAt(inp, st, dead, order, q);
      forall e | e in inp.Here(q) ensures RestsEarlier(st, dead + killed, order, q, e) {
        assert RestsEarlier(st, dead, order, q, e);
      }
      assert CountedAt(inp, st, dead, q) == CountedAt(inp, st, dead + killed, q);
    }
  }

  lemma KillKeepsFronts(inp: Input, w: Work, killed: set<Event>)
    requires inp.Valid() && Fronts(inp, w) && Waits(inp, w) && killed <= w.waiting
    ensures Fronts(inp, Kill(w, killed)) && Waits(inp, Kill(w, killed))
  {
  }

  lemma KillKeepsCovered(inp: Input, w: Work, killed: set<Event>)
    requires Covered(inp, w) && killed <= w.waiting
    ensures Covered(inp, Kill(w, killed))
  {
  }

  lemma KillJudges(inp: Input, w: Work, killed: set<Event>, e: Event)
    requires Waits(inp, w) && Fronts(inp, w) && killed <= w.waiting
    requires e in Kill(w, killed).verdicts && (e in w.verdicts ==> Judged(inp, w, e))
    ensures Judged(inp, Kill(w, killed), e)
  {
  }

  lemma KillKeeps(inp: Input, w: Work, order: map<Point, nat>, clock: nat, killed: set<Event>)
    requires inp.Valid() && Consistent(inp, w, order, clock) && killed <= w.waiting
    ensures Consistent(inp, Kill(w, killed), order, clock)
  {
    KillKeepsGrounded(inp, w.states, w.dead, order, killed);
    KillKeepsFronts(inp, w, killed);
    KillKeepsCovered(inp, w, killed);
    forall e | e in Kill(w, killed).verdicts ensures Judged(inp, Kill(w, killed), e) { KillJudges(inp, w, killed, e); }
  }

  lemma WaitingIsAll(inp: Input, w: Work, order: map<Point, nat>, clock: nat)
    requires inp.Valid() && Consistent(inp, w, order, clock) && w.open == {} && w.close == {}
    ensures w.waiting == Waiting(inp, w.states, w.dead)
    ensures Quiescent(inp, Phase(w.dead, w.states))
  {
  }

  function Points(inp: Input): set<Point> {
    set c, q | c in inp.runs && 1 <= q <= inp.runs[c] :: Point(c, q)
  }

  lemma {:induction false} NothingWaitsAllSettled(inp: Input, ph: Phase, p: Point)
    requires Quiescent(inp, ph) && Waiting(inp, ph.states, ph.dead) == {} && inp.OnRun(p)
    ensures p in ph.states
    decreases p.at
  {
    if p.at > 1 { NothingWaitsAllSettled(inp, ph, Pred(p)); }
    assert !Reached(ph.states, p) by {
      forall e | e in inp.Here(p) && Reached(ph.states, p) ensures Resolved(ph.states, ph.dead, e) {
        assert e !in Waiting(inp, ph.states, ph.dead);
      }
    }
  }

  lemma WalkExtends(waiting: set<Event>, e: Event, f: Event, g: Event)
    requires WalksTo(waiting, e, f) && g in waiting && g.subject == f.actor
    ensures WalksTo(waiting, e, g)
  {
    var path: seq<Event> :| Walk(waiting, path) && path[0] == e && path[|path| - 1] == f;
    assert Walk(waiting, path + [g]) && (path + [g])[|path|] == g;
  }

  lemma {:induction false} ClosedHoldsWalks(waiting: set<Event>, r: set<Event>, path: seq<Event>)
    requires Walk(waiting, path) && path[1] in r
    requires forall f, g | f in r && g in waiting && g.subject == f.actor :: g in r
    ensures path[|path| - 1] in r
  {
    if |path| > 2 {
      assert path[2] in waiting && path[2].subject == path[1].actor;
      assert Walk(waiting, path[1..]);
      ClosedHoldsWalks(waiting, r, path[1..]);
    }
  }

  method ReachedFrom(waiting: set<Event>, e: Event) returns (r: set<Event>)
    requires e in waiting
    ensures forall f :: f in r <==> WalksTo(waiting, e, f)
  {
    r := set f | f in waiting && f.subject == e.actor;
    forall f | f in r ensures WalksTo(waiting, e, f) { assert Walk(waiting, [e, f]) && [e, f][1] == f; }
    while exists f, g | f in r && g in waiting - r :: g.subject == f.actor
      invariant r <= waiting && forall f | f in r :: WalksTo(waiting, e, f)
      invariant forall f | f in waiting && f.subject == e.actor :: f in r
      decreases waiting - r
    {
      var f, g :| f in r && g in waiting - r && g.subject == f.actor;
      WalkExtends(waiting, e, f, g);
      r := r + {g};
    }
    forall f | WalksTo(waiting, e, f) ensures f in r {
      var path: seq<Event> :| Walk(waiting, path) && path[0] == e && path[|path| - 1] == f;
      assert path[1] in waiting && path[1].subject == path[0].actor;
      ClosedHoldsWalks(waiting, r, path);
    }
  }

  /** The waiting events on a loop of waits. */
  method Looped(waiting: set<Event>) returns (looped: set<Event>)
    ensures looped == set e | e in waiting && WalksTo(waiting, e, e)
  {
    looped := {};
    var rest := waiting;
    while rest != {}
      invariant rest <= waiting
      invariant looped == set e | e in waiting - rest && WalksTo(waiting, e, e)
    {
      var e :| e in rest;
      var r := ReachedFrom(waiting, e);
      if e in r { looped := looped + {e}; }
      rest := rest - {e};
    }
  }

  lemma FrontIsNew(inp: Input, w: Work, order: map<Point, nat>, clock: nat, p: Point)
    requires Consistent(inp, w, order, clock) && (p in w.open || p in w.close)
    ensures p in Points(inp) && p !in w.states
  {
  }

  /** Open and close sequences, any one first, until none is left to. */
  method Settle(inp: Input, begun: Work, ghost order: map<Point, nat>, ghost clock: nat)
    returns (w: Work, ghost order': map<Point, nat>, ghost clock': nat)
    requires inp.Valid() && Consistent(inp, begun, order, clock) && begun.states.Keys <= Points(inp)
    ensures Consistent(inp, w, order', clock') && w.states.Keys <= Points(inp)
    ensures w.open == {} && w.close == {} && w.dead == begun.dead
    ensures
      if begun.open == {} && begun.close == {} then w == begun
      else begun.close != {} ==> begun.states.Keys < w.states.Keys
  {
    hide Consistent, Points;
    w, order', clock' := begun, order, clock;
    while w.open != {} || w.close != {}
      invariant Consistent(inp, w, order', clock') && w.states.Keys <= Points(inp) && w.dead == begun.dead
      invariant begun.states.Keys <= w.states.Keys
      invariant begun.open == {} && begun.close == {} ==> w == begun
      invariant begun.close != {} ==> w.close != {} || begun.states.Keys < w.states.Keys
      decreases Points(inp) - w.states.Keys, w.open
    {
      if w.close != {} {
        var p :| p in w.close;
        FrontIsNew(inp, w, order', clock', p);
        CloseKeeps(inp, w, order', clock', p);
        order', clock' := order'[p := clock'], clock' + 1;
        assert Close(inp, w, p).states.Keys == w.states.Keys + {p};
        assert p in Points(inp) - w.states.Keys && p !in Points(inp) - (w.states.Keys + {p});
        w := Close(inp, w, p);
      } else {
        var p :| p in w.open;
        OpenKeeps(inp, w, order', clock', p);
        w := Open(inp, w, p);
      }
    }
  }

  ghost predicate Unfinished(inp: Input, h: seq<Phase>, dead: set<Event>) {
    && (if h == [] then dead == {} else dead == h[|h| - 1].dead + Killed(inp, h[|h| - 1], |h| - 1))
    && (|h| >= 1 ==> h[0].dead == {})
    && (forall i | 0 <= i < |h| :: Quiescent(inp, h[i]) && Waiting(inp, h[i].states, h[i].dead) != {})
    && forall i | 0 <= i < |h| - 1 :: h[i + 1].dead == h[i].dead + Killed(inp, h[i], i)
  }

  method Begin(inp: Input) returns (w: Work)
    requires inp.Valid()
    ensures Consistent(inp, w, map[], 0) && w.states.Keys <= Points(inp) && Unfinished(inp, [], w.dead)
  {
    w := Work(map[], {}, {}, set c | c in inp.runs && inp.runs[c] >= 1 :: Point(c, 1), {}, map[]);
    forall p | inp.OnRun(p) && Reached(w.states, p) ensures p in w.open { assert p == Point(p.chain, 1); }
  }

  lemma KillShrinks(w: Work, killed: set<Event>)
    ensures var v := Kill(w, killed);
      && v.states == w.states && v.open == w.open && v.dead == w.dead + killed && v.waiting == w.waiting - killed
      && v.verdicts.Keys == w.verdicts.Keys + killed
  {
  }

  lemma KilledIs(inp: Input, ph: Phase, round: nat, killed: set<Event>)
    requires var w := Waiting(inp, ph.states, ph.dead);
      killed == if round < LOOP_ROUNDS then set e | e in w && WalksTo(w, e, e) else w
    ensures killed == Killed(inp, ph, round)
  {
  }

  lemma PhaseExtends(inp: Input, h: seq<Phase>, ph: Phase, killed: set<Event>)
    requires Unfinished(inp, h, ph.dead) && Quiescent(inp, ph) && Waiting(inp, ph.states, ph.dead) != {}
    requires killed == Killed(inp, ph, |h|)
    ensures Unfinished(inp, h + [ph], ph.dead + killed)
  {
    hide Quiescent, Waiting, Killed;
  }

  lemma PhaseEnds(inp: Input, h: seq<Phase>, ph: Phase)
    requires Unfinished(inp, h, ph.dead) && Quiescent(inp, ph) && Waiting(inp, ph.states, ph.dead) == {}
    ensures History(inp, h + [ph])
  {
    hide Quiescent, Waiting, Killed;
  }

  lemma AllOpened(inp: Input, w: Work, e: Event)
    requires inp.Valid() && Points(inp) <= w.states.Keys && e in inp.candidates
    ensures Opened(w, e.Place())
  {
  }

  lemma NothingWaitsAllJudged(inp: Input, w: Work, order: map<Point, nat>, clock: nat)
    requires inp.Valid() && Consistent(inp, w, order, clock) && w.open == {} && w.close == {} && w.waiting == {}
    ensures w.verdicts.Keys == inp.candidates && Points(inp) <= w.states.Keys
    ensures forall e | e in w.verdicts :: w.verdicts[e] == VerdictOf(inp, w.states, w.dead, e)
  {
    WaitingIsAll(inp, w, order, clock);
    forall p | p in Points(inp) ensures p in w.states { NothingWaitsAllSettled(inp, Phase(w.dead, w.states), p); }
    hide Grounded, Fronts, Waits, Covered, Quiescent, Waiting, Points, Opened, VerdictOf;
    forall e | e in inp.candidates ensures e in w.verdicts { AllOpened(inp, w, e); }
    forall e | e in w.verdicts ensures e in inp.candidates && w.verdicts[e] == VerdictOf(inp, w.states, w.dead, e) {
      assert Judged(inp, w, e);
    }
  }

  /** Nothing moves and events wait: count the ones on a loop for nothing, past the last round all of them. */
  method BreakLoops(inp: Input, begun: Work, rounds: nat, ghost order: map<Point, nat>, ghost clock: nat,
      ghost history: seq<Phase>)
    returns (w: Work, ghost order': map<Point, nat>, ghost clock': nat)
    requires inp.Valid() && Consistent(inp, begun, order, clock) && begun.states.Keys <= Points(inp)
    requires begun.open == {} && begun.close == {} && begun.waiting != {}
    requires rounds == |history| && Unfinished(inp, history, begun.dead)
    ensures Consistent(inp, w, order', clock') && w.states.Keys <= Points(inp) && w.open == {} && w.close == {}
    ensures Unfinished(inp, history + [Phase(begun.dead, begun.states)], w.dead)
    ensures begun.states.Keys < w.states.Keys ||
            (begun.states.Keys == w.states.Keys
              && (w.waiting < begun.waiting || (w.waiting == begun.waiting && rounds < LOOP_ROUNDS)))
  {
    hide *;
    WaitingIsAll(inp, begun, order, clock);
    var killed := begun.waiting;
    if rounds < LOOP_ROUNDS { killed := Looped(begun.waiting); }
    KilledIs(inp, Phase(begun.dead, begun.states), rounds, killed);
    KillKeeps(inp, begun, order, clock, killed);
    KillShrinks(begun, killed);
    PhaseExtends(inp, history, Phase(begun.dead, begun.states), killed);
    w, order', clock' := Settle(inp, Kill(begun, killed), order, clock);
  }

  /** What a verdict says: of the standing before the event, which a creation or a join begins, a demotion takes the
      ownership of and any other needs; of a loop of waits; of the actor's standing, a member's for a join, an owner's
      for a promotion, a removal or a demotion; and of the guard. */
  ghost predicate Says(inp: Input, st: States, dead: set<Event>, e: Event, v: Verdict) {
    var before, actor := StateAt(st, Pred(e.Place())), StateAt(st, e.Rests());
    var fits := if e.kind == Created || e.kind == Joined then !before.member
                else if e.kind == Demoted then before.owner else before.member;
    var may := (e.kind == Joined ==> actor.member) && (e.kind in {Promoted, Removed, Demoted} ==> actor.owner);
    match v
    case TransitionNotAllowed => !fits
    case Cyclic => fits && e in dead
    case ActorLacksState => fits && e !in dead && !may
    case LastOwnerKept => fits && e !in dead && may && e in inp.aside
    case Counted => fits && e !in dead && may && e !in inp.aside
  }

  /** What a sequence leaves, by the verdicts at it: nobody after a removal or a leave, else a member and no owner after
      a demotion, else an owner after a promotion or the creation, else a member after a join, else what was before. */
  ghost predicate Leaves(st: States, verdicts: map<Event, Verdict>, p: Point)
    requires p in st
  {
    if Counts(verdicts, p, Removed) || Counts(verdicts, p, Left) then st[p] == NOBODY
    else if Counts(verdicts, p, Demoted) then st[p] == Standing(true, false)
    else if Counts(verdicts, p, Promoted) || Counts(verdicts, p, Created) then st[p] == Standing(true, true)
    else if Counts(verdicts, p, Joined) then st[p] == Standing(true, false)
    else st[p] == StateAt(st, Pred(p))
  }

  ghost predicate Counts(verdicts: map<Event, Verdict>, p: Point, kind: Kind) {
    exists e | e in verdicts :: verdicts[e] == Counted && e.Place() == p && e.kind == kind
  }

  lemma VerdictSays(inp: Input, st: States, dead: set<Event>, e: Event)
    ensures Says(inp, st, dead, e, VerdictOf(inp, st, dead, e))
  {
  }

  lemma OutcomeLeaves(inp: Input, st: States, dead: set<Event>, verdicts: map<Event, Verdict>, p: Point)
    requires p in st && st[p] == Outcome(inp, st, dead, p) && verdicts.Keys == inp.candidates
    requires forall e | e in verdicts :: verdicts[e] == VerdictOf(inp, st, dead, e)
    ensures Leaves(st, verdicts, p)
  {
    var counted := CountedAt(inp, st, dead, p);
    forall k ensures Counts(verdicts, p, k) <==> OfKind(counted, k) {
      CountsIn(inp, st, dead, verdicts, p, k);
    }
    AfterKinds(StateAt(st, Pred(p)), counted);
    hide CountedAt, Counts, After, OfKind;
  }

  lemma CountsIn(inp: Input, st: States, dead: set<Event>, verdicts: map<Event, Verdict>, p: Point, k: Kind)
    requires verdicts.Keys == inp.candidates && forall e | e in verdicts :: verdicts[e] == VerdictOf(inp, st, dead, e)
    ensures Counts(verdicts, p, k) <==> OfKind(CountedAt(inp, st, dead, p), k)
  {
    hide VerdictOf;
    if Counts(verdicts, p, k) {
      var e :| e in verdicts && verdicts[e] == Counted && e.Place() == p && e.kind == k;
      assert e in CountedAt(inp, st, dead, p);
    }
  }

  lemma AfterKinds(before: Standing, counted: set<Event>)
    ensures After(before, counted) ==
      if OfKind(counted, Removed) || OfKind(counted, Left) then NOBODY
      else if OfKind(counted, Demoted) then Standing(true, false)
      else if OfKind(counted, Promoted) || OfKind(counted, Created) then Standing(true, true)
      else if OfKind(counted, Joined) then Standing(true, false) else before
  {
    if counted != {} {
      var e :| e in counted;
      assert OfKind(counted, e.kind);
    }
  }

  ghost predicate OfKind(events: set<Event>, kind: Kind) { exists e | e in events :: e.kind == kind }

  /** The event's sequence is the first of its chain not settled; its transition is allowed; and what it needs of its
      actor, a join, a promotion, a removal or a demotion naming a point, is not settled. */
  ghost predicate HangsOn(inp: Input, st: States, dead: set<Event>, e: Event) {
    && e in inp.candidates && e !in dead && 1 <= e.at && Point(e.subject, e.at) !in st
    && (1 < e.at ==> Point(e.subject, e.at - 1) in st)
    && (var before := if 1 < e.at then st[Point(e.subject, e.at - 1)] else NOBODY;
        if e.kind == Joined then !before.member else if e.kind == Demoted then before.owner else before.member)
    && e.kind != Created && e.kind != Left && e.actorAt != 0 && Point(e.actor, e.actorAt) !in st
  }

  lemma WaitingMeans(inp: Input, st: States, dead: set<Event>, e: Event)
    ensures e in Waiting(inp, st, dead) <==> HangsOn(inp, st, dead, e)
  {
  }

  /** The events counted for nothing as looped: in some round they waited on themselves through others still waiting, or
      the rounds were up. */
  lemma {:induction false} DeadAreLooped(inp: Input, h: seq<Phase>, i: nat, e: Event)
    requires History(inp, h) && i < |h|
    ensures e in h[i].dead <==> exists k: nat | k < i ::
      && HangsOn(inp, h[k].states, h[k].dead, e)
      && (k < LOOP_ROUNDS ==> WalksTo(Waiting(inp, h[k].states, h[k].dead), e, e))
  {
    hide Quiescent, Waiting, WalksTo, HangsOn;
    if i > 0 {
      DeadAreLooped(inp, h, i - 1, e);
      WaitingMeans(inp, h[i - 1].states, h[i - 1].dead, e);
      assert h[i - 1 + 1].dead == h[i - 1].dead + Killed(inp, h[i - 1], i - 1);
    }
  }

  /** What one pass comes to. */
  ghost predicate Explained(inp: Input, st: States, dead: set<Event>, verdicts: map<Event, Verdict>) {
    && verdicts.Keys == inp.candidates && (forall e | e in verdicts :: Says(inp, st, dead, e, verdicts[e]))
    && forall p | p in st :: Leaves(st, verdicts, p)
  }

  lemma PassExplained(inp: Input, h: seq<Phase>, verdicts: map<Event, Verdict>)
    requires History(inp, h) && verdicts.Keys == inp.candidates
    requires forall e | e in verdicts :: verdicts[e] == VerdictOf(inp, h[|h| - 1].states, h[|h| - 1].dead, e)
    ensures Explained(inp, h[|h| - 1].states, h[|h| - 1].dead, verdicts)
  {
    var last := h[|h| - 1];
    assert Quiescent(inp, last);
    var order :| Grounded(inp, last.states, last.dead, order) && Stuck(inp, last.states, last.dead);
    hide History, Says, Leaves, Stuck, VerdictOf;
    forall e | e in verdicts ensures Says(inp, last.states, last.dead, e, verdicts[e]) {
      VerdictSays(inp, last.states, last.dead, e);
    }
    forall p | p in last.states ensures Leaves(last.states, verdicts, p) {
      assert GroundedAt(inp, last.states, last.dead, order, p);
      OutcomeLeaves(inp, last.states, last.dead, verdicts, p);
    }
  }

  /** One pass, its work taken in any order: the states of every sequence held and each candidate's verdict. */
  method Evaluate(inp: Input) returns (states: States, verdicts: map<Event, Verdict>, ghost history: seq<Phase>)
    requires inp.Valid()
    ensures History(inp, history) && states == history[|history| - 1].states
    ensures verdicts.Keys == inp.candidates && states.Keys == Points(inp)
    ensures forall e | e in verdicts :: verdicts[e] == VerdictOf(inp, states, history[|history| - 1].dead, e)
    ensures Explained(inp, states, history[|history| - 1].dead, verdicts)
  {
    hide *;
    var w := Begin(inp);
    history := [];
    ghost var order: map<Point, nat>, clock: nat;
    w, order, clock := Settle(inp, w, map[], 0);
    var rounds := 0;
    while w.waiting != {}
      invariant Consistent(inp, w, order, clock) && w.states.Keys <= Points(inp) && w.open == {} && w.close == {}
      invariant rounds == |history| && Unfinished(inp, history, w.dead)
      decreases Points(inp) - w.states.Keys, w.waiting, LOOP_ROUNDS - rounds
    {
      ghost var before := Phase(w.dead, w.states);
      w, order, clock := BreakLoops(inp, w, rounds, order, clock, history);
      history, rounds := history + [before], rounds + 1;
    }
    WaitingIsAll(inp, w, order, clock);
    NothingWaitsAllJudged(inp, w, order, clock);
    PhaseEnds(inp, history, Phase(w.dead, w.states));
    history := history + [Phase(w.dead, w.states)];
    states, verdicts := w.states, w.verdicts;
    PassExplained(inp, history, verdicts);
  }

  /** Counted events leading from a point back to a creation: the first on the point's chain no later than it, each next
      on the chain of the actor before it no later than that actor stood, all but the creation of one kind. */
  ghost predicate Roots(inp: Input, st: States, dead: set<Event>, p: Point, kind: Kind, path: seq<Event>) {
    && path != [] && path[0].subject == p.chain && path[0].at <= p.at
    && (forall i | 0 <= i < |path| :: path[i] in inp.candidates && VerdictOf(inp, st, dead, path[i]) == Counted)
    && (forall i | 0 <= i < |path| - 1 ::
         path[i].kind == kind && path[i + 1].subject == path[i].actor && path[i + 1].at <= path[i].actorAt)
    && path[|path| - 1].kind == Created
  }

  lemma RootsOn(inp: Input, st: States, dead: set<Event>, e: Event, p: Point, kind: Kind, rest: seq<Event>)
    requires e in inp.candidates && VerdictOf(inp, st, dead, e) == Counted && e.subject == p.chain && e.at <= p.at
      && e.kind == kind
    requires Roots(inp, st, dead, e.Rests(), kind, rest)
    ensures Roots(inp, st, dead, p, kind, [e] + rest)
  {
    var path := [e] + rest;
    forall i | 0 <= i < |path| - 1
      ensures path[i].kind == kind && path[i + 1].subject == path[i].actor && path[i + 1].at <= path[i].actorAt
    {
      if i > 0 { assert path[i] == rest[i - 1] && path[i + 1] == rest[i - 1 + 1]; }
    }
  }

  /** Nobody stands in the pod but through counted joins, each by an actor standing where its key names, back to a
      creation. */
  lemma {:induction false} StandingIsRooted(inp: Input, st: States, dead: set<Event>, order: map<Point, nat>, p: Point)
    returns (path: seq<Event>)
    requires Grounded(inp, st, dead, order) && p in st && st[p] != NOBODY
    ensures Roots(inp, st, dead, p, Joined, path)
    decreases order[p]
  {
    assert GroundedAt(inp, st, dead, order, p);
    if StateAt(st, Pred(p)) != NOBODY {
      path := StandingIsRooted(inp, st, dead, order, Pred(p));
    } else {
      var e :| e in CountedAt(inp, st, dead, p);
      assert RestsEarlier(st, dead, order, p, e);
      if e.kind == Created {
        path := [e];
      } else {
        var rest := StandingIsRooted(inp, st, dead, order, e.Rests());
        RootsOn(inp, st, dead, e, p, Joined, rest);
        path := [e] + rest;
      }
    }
  }

  /** An owner owns by an event counted here, or owned before. */
  lemma OwnedFrom(inp: Input, st: States, dead: set<Event>, order: map<Point, nat>, p: Point)
      returns (e: Event, here: bool)
    requires Grounded(inp, st, dead, order) && p in st && st[p].owner
    ensures here ==>
      && e in inp.candidates && e.Place() == p && VerdictOf(inp, st, dead, e) == Counted
      && (e.kind == Created || (e.kind == Promoted && e.Rests() in st && st[e.Rests()].owner
        && order[e.Rests()] < order[p]))
    ensures !here ==> Pred(p) in st && st[Pred(p)].owner && order[Pred(p)] < order[p] && Pred(p).at <= p.at
  {
    assert GroundedAt(inp, st, dead, order, p);
    hide VerdictOf, RestsEarlier;
    var counted := CountedAt(inp, st, dead, p);
    here := exists f | f in counted :: f.kind == Created || f.kind == Promoted;
    e := Event(0, p.chain, p.at, Created, p.chain, 0);
    if here {
      e :| e in counted && (e.kind == Created || e.kind == Promoted);
      if e.kind == Promoted { PromoterOwned(inp, st, dead, order, p, e); }
    }
  }

  lemma PromoterOwned(inp: Input, st: States, dead: set<Event>, order: map<Point, nat>, p: Point, e: Event)
    requires p in st && order.Keys == st.Keys && RestsEarlier(st, dead, order, p, e)
    requires VerdictOf(inp, st, dead, e) == Counted && e.kind == Promoted
    ensures e.Rests() in st && st[e.Rests()].owner && order[e.Rests()] < order[p]
  {
  }

  /** Nobody owns the pod but through counted promotions, each by an actor owning it where its key names, back to a
      creation. */
  lemma {:induction false} OwnershipIsRooted(inp: Input, st: States, dead: set<Event>, order: map<Point, nat>, p: Point)
    returns (path: seq<Event>)
    requires Grounded(inp, st, dead, order) && p in st && st[p].owner
    ensures Roots(inp, st, dead, p, Promoted, path)
    decreases order[p]
  {
    hide GroundedAt, VerdictOf;
    var e, here := OwnedFrom(inp, st, dead, order, p);
    if !here {
      path := OwnershipIsRooted(inp, st, dead, order, Pred(p));
    } else if e.kind == Created {
      path := [e];
    } else {
      var rest := OwnershipIsRooted(inp, st, dead, order, e.Rests());
      RootsOn(inp, st, dead, e, p, Promoted, rest);
      path := [e] + rest;
    }
  }

  /** Over a whole pass: a member's standing and an owner's each lead back to a counted creation. */
  lemma AuthorityIsRooted(inp: Input, h: seq<Phase>, p: Point) returns (joins: seq<Event>, promotions: seq<Event>)
    requires History(inp, h)
    requires var last := h[|h| - 1]; p in last.states && last.states[p] != NOBODY
    ensures var last := h[|h| - 1];
      && Roots(inp, last.states, last.dead, p, Joined, joins)
      && (last.states[p].owner ==> Roots(inp, last.states, last.dead, p, Promoted, promotions))
  {
    var last := h[|h| - 1];
    assert Quiescent(inp, last);
    var order :| Grounded(inp, last.states, last.dead, order) && Stuck(inp, last.states, last.dead);
    hide Roots, Grounded, Stuck;
    joins := StandingIsRooted(inp, last.states, last.dead, order, p);
    promotions := [];
    if last.states[p].owner { promotions := OwnershipIsRooted(inp, last.states, last.dead, order, p); }
  }

  lemma {:induction false} FirstUnsettled(inp: Input, st: States, p: Point) returns (q: Point)
    requires inp.OnRun(p) && p !in st
    ensures q.chain == p.chain && inp.OnRun(q) && Reached(st, q)
    decreases p.at
  {
    if Settled(st, Pred(p)) { q := p; } else { q := FirstUnsettled(inp, st, Pred(p)); }
  }

  /** A waiting event waits on others still waiting in its actor's chain. */
  lemma WaitsOnSomeone(inp: Input, ph: Phase, e: Event) returns (f: Event)
    requires inp.Valid() && Quiescent(inp, ph) && e in Waiting(inp, ph.states, ph.dead)
    ensures f in Waiting(inp, ph.states, ph.dead) && f.subject == e.actor
  {
    assert inp.OnRun(e.Rests());
    var q := FirstUnsettled(inp, ph.states, e.Rests());
    f :| f in inp.Here(q) && !Resolved(ph.states, ph.dead, f);
  }

  lemma {:induction false} LongWalk(inp: Input, ph: Phase, e: Event, n: nat) returns (path: seq<Event>)
    requires inp.Valid() && Quiescent(inp, ph) && e in Waiting(inp, ph.states, ph.dead) && n >= 2
    ensures Walk(Waiting(inp, ph.states, ph.dead), path) && |path| == n && path[0] == e
    decreases n
  {
    var f := WaitsOnSomeone(inp, ph, e);
    if n == 2 {
      path := [e, f];
    } else {
      var rest := LongWalk(inp, ph, f, n - 1);
      path := [e] + rest;
    }
  }

  lemma {:induction false} Repeats(es: seq<Event>, s: set<Event>) returns (i: nat, j: nat)
    requires (forall e | e in es :: e in s) && |es| > |s|
    ensures i < j < |es| && es[i] == es[j]
    decreases |es|
  {
    var last := |es| - 1;
    if k :| 0 <= k < last && es[k] == es[last] {
      i, j := k, last;
    } else {
      i, j := Repeats(es[..last], s - {es[last]});
    }
  }

  /** A stuck pass always holds a loop, so every round of loop-breaking decides some event. */
  lemma StuckHoldsLoop(inp: Input, ph: Phase, round: nat)
    requires inp.Valid() && Quiescent(inp, ph) && Waiting(inp, ph.states, ph.dead) != {}
    ensures Killed(inp, ph, round) != {}
  {
    var w := Waiting(inp, ph.states, ph.dead);
    hide Waiting, Quiescent;
    var e :| e in w;
    var path := LongWalk(inp, ph, e, |w| + 2);
    var i, j := Repeats(path, w);
    var loop := path[i..j + 1];
    assert Walk(w, loop) && loop[0] == path[i] && loop[|loop| - 1] == path[i];
    assert WalksTo(w, path[i], path[i]);
    assert path[i] in Killed(inp, ph, round);
  }

  /** Whoever owns is a member. */
  lemma {:induction false} OwnerIsMember(inp: Input, st: States, dead: set<Event>, order: map<Point, nat>, p: Point)
    requires Grounded(inp, st, dead, order) && p in st && st[p].owner
    ensures st[p].member
    decreases p.at
  {
    assert GroundedAt(inp, st, dead, order, p);
    hide Grounded, GroundedAt, CountedAt;
    if StateAt(st, Pred(p)).owner { OwnerIsMember(inp, st, dead, order, Pred(p)); }
  }

  /** A pass in which everything settles is over at once. */
  lemma AllSettled(inp: Input, st: States, order: map<Point, nat>)
    requires Grounded(inp, st, {}, order) && forall p | inp.OnRun(p) :: p in st
    requires forall e | e in inp.candidates :: inp.OnRun(e.Place())
    ensures History(inp, [Phase({}, st)])
  {
    hide Grounded, Resolved;
    var ph := Phase({}, st);
    assert Quiescent(inp, ph) by { assert Grounded(inp, ph.states, ph.dead, order) && Stuck(inp, ph.states, ph.dead); }
    assert Waiting(inp, ph.states, ph.dead) == {};
    hide Quiescent, Waiting;
    assert [ph][0] == ph;
  }

  function CountedIn(counted: set<Event>, p: Point): set<Event> { set e | e in counted && e.Place() == p }

  /** The last sequence up to `q` of a chain at which an event counted; 0 for none. */
  function LastWon(counted: set<Event>, c: PdnId, q: nat): nat {
    if q == 0 || CountedIn(counted, Point(c, q)) != {} then q else LastWon(counted, c, q - 1)
  }

  /** The demotions that last took a member's ownership; none if anything counted since, or outranked them. */
  function EndingDemotions(counted: set<Event>, c: PdnId, run: nat): set<Event> {
    var here := CountedIn(counted, Point(c, LastWon(counted, c, run)));
    if exists e | e in here :: e.kind == Removed || e.kind == Left then {} else set e | e in here && e.kind == Demoted
  }

  /** The demotion ended the member's ownership: counted, nothing counted after it on the chain, and no removal or leave
      beside it. */
  ghost predicate EndsOwnership(counted: set<Event>, c: PdnId, run: nat, e: Event) {
    && e in counted && e.kind == Demoted && e.subject == c && e.at <= run
    && forall f | f in counted && f.subject == c && f.at <= run ::
      f.at < e.at || (f.at == e.at && f.kind != Removed && f.kind != Left)
  }

  lemma {:induction false} LastWonMeans(counted: set<Event>, c: PdnId, q: nat)
    ensures LastWon(counted, c, q) <= q
    ensures forall f | f in counted && f.subject == c && f.at <= q :: f.at <= LastWon(counted, c, q)
    ensures LastWon(counted, c, q) > 0 ==> CountedIn(counted, Point(c, LastWon(counted, c, q))) != {}
  {
    if q > 0 && CountedIn(counted, Point(c, q)) == {} {
      LastWonMeans(counted, c, q - 1);
      forall f | f in counted && f.subject == c && f.at <= q ensures f.at <= q - 1 {
        assert f.at == q ==> f in CountedIn(counted, Point(c, q));
      }
    }
  }

  lemma EndingMeans(counted: set<Event>, c: PdnId, run: nat, e: Event)
    ensures e in EndingDemotions(counted, c, run) <==> EndsOwnership(counted, c, run, e)
  {
    LastWonMeans(counted, c, run);
    var last := LastWon(counted, c, run);
    var here := CountedIn(counted, Point(c, last));
    if EndsOwnership(counted, c, run, e) {
      if here != {} {
        var f :| f in here;
        assert f.at < e.at || f.at == e.at;
      }
      assert e in here;
    }
    if e in EndingDemotions(counted, c, run) {
      forall f | f in counted && f.subject == c && f.at <= run
        ensures f.at < e.at || (f.at == e.at && f.kind != Removed && f.kind != Left)
      {
        assert f.at == last ==> f in here;
      }
    }
  }

  /** What a pass leaves the guard to weigh. */
  datatype Result = Result(runs: map<PdnId, nat>, states: States, counted: set<Event>) {
    function Final(c: PdnId): Standing requires c in runs { StateAt(states, Point(c, runs[c])) }

    predicate Owned() { exists c | c in runs :: Final(c).owner }

    /** The members whose ownership a demotion ended. */
    function Demoted(): set<PdnId> {
      set c | c in runs && Final(c).member && EndingDemotions(counted, c, runs[c]) != {}
    }

    function Demotions(c: PdnId): set<Event> requires c in runs { EndingDemotions(counted, c, runs[c]) }
  }

  function Actors(es: set<Event>): set<PdnId> { set e | e in es :: e.actor }

  predicate IsLeast(es: set<Event>, a: PdnId) { a in Actors(es) && forall e | e in es :: a <= e.actor }

  function LeastActor(es: set<Event>): (a: PdnId)
    requires es != {}
    ensures IsLeast(es, a)
  {
    LeastExists(es);
    var a :| a in Actors(es) && IsLeast(es, a);
    a
  }

  lemma {:induction false} LeastExists(es: set<Event>)
    requires es != {}
    ensures exists a :: a in Actors(es) && IsLeast(es, a)
  {
    var x :| x in es;
    if es == {x} {
      assert IsLeast(es, x.actor);
    } else {
      LeastExists(es - {x});
      var a :| a in Actors(es - {x}) && IsLeast(es - {x}, a);
      assert IsLeast(es, if x.actor < a then x.actor else a);
    }
  }

  /** The order the ended roles are taken in: by lowest actor, then by member. */
  predicate TakenBefore(r: Result, c: PdnId, d: PdnId)
    requires c in r.runs && d in r.runs && r.Demotions(c) != {} && r.Demotions(d) != {}
  {
    var a, b := LeastActor(r.Demotions(c)), LeastActor(r.Demotions(d));
    a < b || (a == b && c < d)
  }

  /** The member whose demotion the guard would take last. */
  ghost predicate TakenLast(r: Result, c: PdnId) {
    && c in r.Demoted()
    && forall d | d in r.Demoted() && d != c :: TakenBefore(r, d, c)
  }

  ghost predicate NoOwner(r: Result) { forall c | c in r.runs :: !StateAt(r.states, Point(c, r.runs[c])).owner }

  /** A member still, its ownership ended by a demotion. */
  ghost predicate Ended(r: Result, c: PdnId) {
    && c in r.runs && StateAt(r.states, Point(c, r.runs[c])).member
    && exists e :: EndsOwnership(r.counted, c, r.runs[c], e)
  }

  /** A demotion of the one was by an actor below every one of the other's, or by its lowest and of a lower member. */
  ghost predicate EndedBefore(r: Result, d: PdnId, c: PdnId)
    requires c in r.runs && d in r.runs
  {
    exists f | EndsOwnership(r.counted, d, r.runs[d], f) ::
      forall e | EndsOwnership(r.counted, c, r.runs[c], e) :: f.actor < e.actor || (f.actor == e.actor && d < c)
  }

  ghost predicate EndedLast(r: Result, c: PdnId) {
    Ended(r, c) && forall d | Ended(r, d) && d != c :: EndedBefore(r, d, c)
  }

  lemma DemotedMeans(r: Result, c: PdnId)
    ensures c in r.Demoted() <==> Ended(r, c)
  {
    if c in r.runs {
      forall e ensures e in r.Demotions(c) <==> EndsOwnership(r.counted, c, r.runs[c], e) {
        EndingMeans(r.counted, c, r.runs[c], e);
      }
      if r.Demotions(c) != {} { var e :| e in r.Demotions(c); }
    }
  }

  lemma BeforeMeans(r: Result, d: PdnId, c: PdnId)
    requires c in r.runs && d in r.runs && r.Demotions(c) != {} && r.Demotions(d) != {}
    ensures TakenBefore(r, d, c) <==> EndedBefore(r, d, c)
  {
    forall e ensures e in r.Demotions(c) <==> EndsOwnership(r.counted, c, r.runs[c], e) {
      EndingMeans(r.counted, c, r.runs[c], e);
    }
    forall e ensures e in r.Demotions(d) <==> EndsOwnership(r.counted, d, r.runs[d], e) {
      EndingMeans(r.counted, d, r.runs[d], e);
    }
    hide EndsOwnership, EndingDemotions;
    var a, b := LeastActor(r.Demotions(d)), LeastActor(r.Demotions(c));
    var x :| x in r.Demotions(d) && x.actor == a;
    var y :| y in r.Demotions(c) && y.actor == b;
  }

  lemma LastMeans(r: Result, c: PdnId)
    ensures TakenLast(r, c) <==> EndedLast(r, c)
  {
    forall d ensures d in r.Demoted() <==> Ended(r, d) { DemotedMeans(r, d); }
    hide Ended, TakenBefore, EndedBefore;
    if c in r.Demoted() {
      forall d | d in r.Demoted() && d != c ensures TakenBefore(r, d, c) <==> EndedBefore(r, d, c) {
        BeforeMeans(r, d, c);
      }
    }
  }

  lemma {:induction false} FirstExists(r: Result, s: set<PdnId>) returns (c: PdnId)
    requires s != {} && s <= r.Demoted()
    ensures c in s && forall d | d in s && d != c :: TakenBefore(r, c, d)
  {
    var x :| x in s;
    c := x;
    if s != {x} {
      assert s - {x} != {};
      var d := FirstExists(r, s - {x});
      if TakenBefore(r, d, x) { c := d; }
      forall e | e in s && e != c ensures TakenBefore(r, c, e) {
        if e != x && e != d { assert TakenBefore(r, d, e); }
      }
    }
  }

  /** Where an owner stands nothing is set aside; else the demotions that ended the role the order takes last. */
  ghost predicate AsideAre(r: Result, aside: set<Event>) {
    if NoOwner(r) then
      forall e :: e in aside <==> exists c :: EndedLast(r, c) && EndsOwnership(r.counted, c, r.runs[c], e)
    else aside == {}
  }

  lemma NothingAside(r: Result)
    requires r.Owned()
    ensures AsideAre(r, {})
  {
  }

  lemma LastIsOne(r: Result, c: PdnId)
    requires TakenLast(r, c)
    ensures forall d | TakenLast(r, d) :: d == c
  {
  }

  lemma AsideMeans(r: Result, aside: set<Event>)
    requires SetAside(r, aside)
    ensures AsideAre(r, aside)
  {
    assert r.Owned() <==> !NoOwner(r);
    forall c ensures TakenLast(r, c) <==> EndedLast(r, c) { LastMeans(r, c); }
    forall c, e | c in r.runs ensures e in r.Demotions(c) <==> EndsOwnership(r.counted, c, r.runs[c], e) {
      EndingMeans(r.counted, c, r.runs[c], e);
    }
    hide EndedLast, EndsOwnership, EndingDemotions, Result.Demotions, TakenBefore;
    if r.Demoted() != {} && NoOwner(r) {
      var c :| TakenLast(r, c) && aside == r.Demotions(c);
      assert forall d | TakenLast(r, d) :: d == c by { LastIsOne(r, c); }
    }
  }

  /** With no owner left, the ended roles are taken in order, and the demotions of the last one set aside. */
  method DemotionsToSetAside(r: Result) returns (aside: set<Event>)
    ensures r.Owned() || r.Demoted() == {} ==> aside == {}
    ensures !r.Owned() && r.Demoted() != {} ==> exists c :: TakenLast(r, c) && aside == r.Demotions(c)
    ensures AsideAre(r, aside)
  {
    aside := {};
    if r.Owned() {
      NothingAside(r);
      return;
    }
    var rest, remaining := r.Demoted(), r.Demoted();
    while rest != {}
      invariant rest <= r.Demoted() && (rest != {} ==> remaining == rest && aside == {})
      invariant forall c, d | c in r.Demoted() && c !in rest && d in rest :: TakenBefore(r, c, d)
      invariant rest == {} ==> if r.Demoted() == {} then aside == {} else exists c ::
        TakenLast(r, c) && aside == r.Demotions(c)
    {
      ghost var first := FirstExists(r, rest);
      var c :| c in rest && forall d | d in rest && d != c :: TakenBefore(r, c, d);
      rest := rest - {c};
      if remaining == {c} {
        aside := aside + r.Demotions(c);
        assert TakenLast(r, c);
      } else {
        remaining := remaining - {c};
      }
    }
    AsideMeans(r, aside);
  }

  /** One pass of the guard: the demotions set aside before it, the pass, and those it called for. */
  datatype Guarded = Guarded(aside: set<Event>, history: seq<Phase>, more: set<Event>)

  function CountedOf(inp: Input, ph: Phase): set<Event> {
    set e | e in inp.candidates && VerdictOf(inp, ph.states, ph.dead, e) == Counted
  }

  ghost function ResultOf(candidates: set<Event>, runs: map<PdnId, nat>, g: Guarded): Result {
    var last := if g.history == [] then Phase({}, map[]) else g.history[|g.history| - 1];
    Result(runs, last.states, CountedOf(Input(candidates, runs, g.aside), last))
  }

  ghost predicate SetAside(r: Result, aside: set<Event>) {
    if r.Owned() || r.Demoted() == {} then aside == {} else exists c :: TakenLast(r, c) && aside == r.Demotions(c)
  }

  lemma SetAsideIsUnique(r: Result, x: set<Event>, y: set<Event>)
    requires SetAside(r, x) && SetAside(r, y)
    ensures x == y
  {
  }

  ghost predicate GuardPass(candidates: set<Event>, runs: map<PdnId, nat>, g: Guarded) {
    History(Input(candidates, runs, g.aside), g.history) && SetAside(ResultOf(candidates, runs, g), g.more)
  }

  /** The guard's passes, each setting aside what the ones before called for, over once one calls for nothing new. */
  ghost predicate GuardRun(candidates: set<Event>, runs: map<PdnId, nat>, gs: seq<Guarded>, over: bool) {
    && |gs| <= GUARD_PASSES
    && (forall i | 0 <= i < |gs| :: GuardPass(candidates, runs, gs[i]))
    && (|gs| >= 1 ==> gs[0].aside == {})
    && (forall i | 0 <= i < |gs| - 1 :: !(gs[i].more <= gs[i].aside) && gs[i + 1].aside == gs[i].aside + gs[i].more)
    && (over <==> |gs| >= 1 && (|gs| == GUARD_PASSES || gs[|gs| - 1].more <= gs[|gs| - 1].aside))
  }

  lemma GuardPassIsDeterministic(candidates: set<Event>, runs: map<PdnId, nat>, g: Guarded, h: Guarded)
    requires GuardPass(candidates, runs, g) && GuardPass(candidates, runs, h) && g.aside == h.aside
    ensures g == h
  {
    PassIsDeterministic(Input(candidates, runs, g.aside), g.history, h.history);
    SetAsideIsUnique(ResultOf(candidates, runs, g), g.more, h.more);
  }

  lemma {:induction false} GuardPassesAgree(candidates: set<Event>, runs: map<PdnId, nat>, g: seq<Guarded>,
      h: seq<Guarded>, i: nat)
    requires GuardRun(candidates, runs, g, true) && GuardRun(candidates, runs, h, true) && i < |g|
    ensures i < |h| && g[i] == h[i]
  {
    hide GuardPass;
    if i > 0 {
      GuardPassesAgree(candidates, runs, g, h, i - 1);
      assert !(g[i - 1].more <= g[i - 1].aside);
    }
    GuardPassIsDeterministic(candidates, runs, g[i], h[i]);
  }

  /** The view of the same entries is one view, whatever order they arrived in and the work was taken in. */
  lemma ViewIsDeterministic(candidates: set<Event>, runs: map<PdnId, nat>, g: seq<Guarded>, h: seq<Guarded>)
    requires GuardRun(candidates, runs, g, true) && GuardRun(candidates, runs, h, true)
    ensures g == h
  {
    hide GuardPass;
    GuardPassesAgree(candidates, runs, g, h, |g| - 1);
    GuardPassesAgree(candidates, runs, h, g, |h| - 1);
    forall i | 0 <= i < |g| ensures g[i] == h[i] { GuardPassesAgree(candidates, runs, g, h, i); }
  }

  lemma GuardExtends(candidates: set<Event>, runs: map<PdnId, nat>, gs: seq<Guarded>, g: Guarded)
    requires GuardRun(candidates, runs, gs, false) && |gs| < GUARD_PASSES && GuardPass(candidates, runs, g)
    requires g.aside == if gs == [] then {} else gs[|gs| - 1].aside + gs[|gs| - 1].more
    ensures GuardRun(candidates, runs, gs + [g], |gs| + 1 == GUARD_PASSES || g.more <= g.aside)
  {
    hide GuardPass;
  }

  lemma CountedMatches(inp: Input, ph: Phase, verdicts: map<Event, Verdict>)
    requires verdicts.Keys == inp.candidates
    requires forall e | e in verdicts :: verdicts[e] == VerdictOf(inp, ph.states, ph.dead, e)
    ensures (set e | e in inp.candidates && verdicts[e] == Counted) == CountedOf(inp, ph)
    ensures forall e | e in CountedOf(inp, ph) :: e !in inp.aside
  {
  }

  /** A pass calling for nothing new leaves an owner, or no member whose ownership a demotion ended. */
  lemma GuardKeepsOwner(r: Result, aside: set<Event>, more: set<Event>)
    requires SetAside(r, more) && more <= aside && forall e | e in r.counted :: e !in aside
    ensures r.Owned() || r.Demoted() == {}
    ensures !NoOwner(r) || forall c :: !Ended(r, c)
  {
    forall c ensures c in r.Demoted() <==> Ended(r, c) { DemotedMeans(r, c); }
  }

  /** The standings and verdicts a pass of the guard comes to, by what it had set aside. */
  ghost predicate PassHeld(candidates: set<Event>, runs: map<PdnId, nat>, pass: Guarded, st: States,
      verdicts: map<Event, Verdict>) {
    pass.history != [] && Explained(Input(candidates, runs, pass.aside), st,
      pass.history[|pass.history| - 1].dead, verdicts)
  }

  method OnePass(candidates: set<Event>, runs: map<PdnId, nat>, aside: set<Event>)
    returns (result: Result, verdicts: map<Event, Verdict>, more: set<Event>, ghost pass: Guarded)
    requires Input(candidates, runs, {}).Valid()
    ensures GuardPass(candidates, runs, pass) && pass.aside == aside && pass.more == more
    ensures result == ResultOf(candidates, runs, pass)
    ensures verdicts.Keys == candidates && result.counted == set e | e in candidates && verdicts[e] == Counted
    ensures more <= aside ==> result.Owned() || result.Demoted() == {}
    ensures more <= aside ==> !NoOwner(result) || forall c :: !Ended(result, c)
    ensures AsideAre(result, more)
    ensures PassHeld(candidates, runs, pass, result.states, verdicts)
  {
    var inp := Input(candidates, runs, aside);
    assert inp.Valid();
    hide Explained, VerdictOf, History, CountedOf, Points, Result.Owned, Result.Demoted, Result.Demotions, NoOwner,
      Ended, AsideAre;
    var states: States;
    ghost var history: seq<Phase>;
    states, verdicts, history := Evaluate(inp);
    CountedMatches(inp, history[|history| - 1], verdicts);
    result := Result(runs, states, set e | e in candidates && verdicts[e] == Counted);
    more := DemotionsToSetAside(result);
    if more <= aside { GuardKeepsOwner(result, aside, more); }
    pass := Guarded(aside, history, more);
  }

  /** The whole view: passes until none calls for more to be set aside, at most four. */
  method View(candidates: set<Event>, runs: map<PdnId, nat>)
    returns (result: Result, verdicts: map<Event, Verdict>, settled: bool, ghost passes: seq<Guarded>)
    requires Input(candidates, runs, {}).Valid()
    ensures GuardRun(candidates, runs, passes, true)
    ensures result == ResultOf(candidates, runs, passes[|passes| - 1])
    ensures verdicts.Keys == candidates && result.counted == set e | e in candidates && verdicts[e] == Counted
    ensures settled ==> result.Owned() || result.Demoted() == {}
    ensures settled ==> !NoOwner(result) || forall c :: !Ended(result, c)
    ensures !settled ==> |passes| == GUARD_PASSES
    ensures PassHeld(candidates, runs, passes[|passes| - 1], result.states, verdicts)
  {
    hide PassHeld, GuardPass, ResultOf, Result.Owned, Result.Demoted, NoOwner, Ended, AsideAre;
    var aside: set<Event>, taken := {}, 0;
    passes := [];
    while true
      invariant taken == |passes| < GUARD_PASSES && GuardRun(candidates, runs, passes, false)
      invariant aside == if passes == [] then {} else passes[|passes| - 1].aside + passes[|passes| - 1].more
      decreases GUARD_PASSES - taken
    {
      var more: set<Event>;
      ghost var pass: Guarded;
      result, verdicts, more, pass := OnePass(candidates, runs, aside);
      GuardExtends(candidates, runs, passes, pass);
      passes, taken := passes + [pass], taken + 1;
      settled := more <= aside;
      if settled || taken == GUARD_PASSES { return; }
      aside := aside + more;
    }
  }
}
