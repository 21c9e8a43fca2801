/** What a replica whose identity departed takes from a member: the chains its own rests on, found by a worklist over
    the events it holds, exactly as far as a path of actors leads from its own chain. */
module Rests {
  import opened Ids

  const U64_MAX: nat := 0xFFFF_FFFF_FFFF_FFFF

  type U64 = n: nat | n <= U64_MAX

  /** An event as its key tells it: at which point of which chain, by which actor at which point of the actor's own. */
  datatype Event = Event(subject: PdnId, at: U64, actor: PdnId, actorAt: U64)

  datatype Key = EventKey(event: Event) | DevicesKey(member: PdnId) | Other

  datatype Point = Point(chain: PdnId, upto: U64)

  datatype Rests = Rests(upto: map<PdnId, U64>, statementsOf: set<PdnId>)

  function UptoOf(r: map<PdnId, U64>, chain: PdnId): U64 { if chain in r then r[chain] else 0 }

  predicate Admits(r: Rests, key: Key) {
    match key
    case EventKey(e) => e.subject in r.upto && e.at <= r.upto[e.subject]
    case DevicesKey(member) => member in r.statementsOf
    case Other => false
  }

  // ---------------------------------------------------------------- what the chains rest on

  /** Events leading from the member's chain, each on the chain of the actor before it and no later than that actor
      stood. */
  ghost predicate Path(events: set<Event>, member: PdnId, p: seq<Event>) {
    && p != [] && p[0].subject == member && (forall i | 0 <= i < |p| :: p[i] in events && 1 <= p[i].at)
    && forall i | 0 <= i < |p| - 1 :: p[i + 1].subject == p[i].actor && p[i + 1].at <= p[i].actorAt
  }

  ghost predicate LeadsTo(events: set<Event>, member: PdnId, p: seq<Event>, x: Point) {
    Path(events, member, p) && p[|p| - 1].actor == x.chain && x.upto <= p[|p| - 1].actorAt
  }

  ghost predicate RestsOn(events: set<Event>, member: PdnId, x: Point) {
    x.chain == member || exists p :: LeadsTo(events, member, p, x)
  }

  ghost predicate ActsFor(events: set<Event>, member: PdnId, actor: PdnId) {
    actor == member || exists p: seq<Event> :: Path(events, member, p) && p[|p| - 1].actor == actor
  }

  lemma PathOn(events: set<Event>, member: PdnId, e: Event)
    requires e in events && 1 <= e.at && RestsOn(events, member, Point(e.subject, e.at))
    ensures RestsOn(events, member, Point(e.actor, e.actorAt)) && ActsFor(events, member, e.actor)
  {
    if e.subject == member {
      assert LeadsTo(events, member, [e], Point(e.actor, e.actorAt));
      assert Path(events, member, [e]);
    } else {
      var p :| LeadsTo(events, member, p, Point(e.subject, e.at));
      assert LeadsTo(events, member, p + [e], Point(e.actor, e.actorAt));
      assert Path(events, member, p + [e]);
    }
  }

  lemma RestsBelow(events: set<Event>, member: PdnId, x: Point, n: U64)
    requires RestsOn(events, member, x) && n <= x.upto
    ensures RestsOn(events, member, Point(x.chain, n))
  {
    if x.chain != member {
      var p :| LeadsTo(events, member, p, x);
      assert LeadsTo(events, member, p, Point(x.chain, n));
    }
  }

  lemma PathsGrow(events: set<Event>, more: set<Event>, member: PdnId, x: Point)
    requires events <= more
    ensures RestsOn(events, member, x) ==> RestsOn(more, member, x)
    ensures ActsFor(events, member, x.chain) ==> ActsFor(more, member, x.chain)
  {
    forall p | Path(events, member, p) ensures Path(more, member, p) {
    }
    if p :| LeadsTo(events, member, p, x) { assert LeadsTo(more, member, p, x); }
  }

  // ---------------------------------------------------------------- the worklist

  /** The events of a chain past one point and up to another. */
  function Between(events: set<Event>, chain: PdnId, from: nat, upto: nat): set<Event> {
    set e | e in events && e.subject == chain && from < e.at <= upto
  }

  /** The events the worklist has yet to come to. */
  ghost function Ahead(events: set<Event>, upto: map<PdnId, U64>): set<Event> {
    set e | e in events && e.at > UptoOf(upto, e.subject)
  }

  /** Everything found rests on something, and everything an event come to names is found or on the list. */
  ghost predicate Sound(events: set<Event>, member: PdnId, r: Rests, work: seq<Point>) {
    && (forall c | c in r.upto :: r.upto[c] >= 1 && RestsOn(events, member, Point(c, r.upto[c])))
    && (forall c | c in r.statementsOf :: ActsFor(events, member, c))
    && (forall i | 0 <= i < |work| :: RestsOn(events, member, work[i]))
  }

  ghost predicate Found(upto: map<PdnId, U64>, work: seq<Point>, x: Point) {
    x.upto <= UptoOf(upto, x.chain) || exists i | 0 <= i < |work| :: work[i].chain == x.chain && x.upto <= work[i].upto
  }

  ghost predicate Complete(events: set<Event>, member: PdnId, r: Rests, work: seq<Point>) {
    && member in r.statementsOf && Found(r.upto, work, Point(member, U64_MAX))
    && forall e | e in events && 1 <= e.at <= UptoOf(r.upto, e.subject) ::
      e.actor in r.statementsOf && Found(r.upto, work, Point(e.actor, e.actorAt))
  }

  method Of(events: set<Event>, member: PdnId) returns (r: Rests)
    ensures Sound(events, member, r, []) && Complete(events, member, r, [])
  {
    r := Rests(map[], {member});
    var work := [Point(member, U64_MAX)];
    assert work[0] == Point(member, U64_MAX);
    while work != []
      invariant Sound(events, member, r, work) && Complete(events, member, r, work)
      decreases 2 * |Ahead(events, r.upto)| + |work|
    {
      var x := work[|work| - 1];
      ghost var before, was := r, work;
      work := work[..|work| - 1];
      if x.upto > UptoOf(r.upto, x.chain) {
        var named := Between(events, x.chain, UptoOf(r.upto, x.chain), x.upto);
        var points, actors := Named(named);
        r := Rests(r.upto[x.chain := x.upto], r.statementsOf + actors);
        work := work + points;
        ExtendsSound(events, member, before, was, x, named, points, actors);
        Extends(events, member, before, was, x, named, points, actors);
        Used(events, before.upto, x, named);
      } else {
        Dropped(events, member, r, was, x);
      }
    }
  }

  /** The points and the actors some events name. */
  method Named(named: set<Event>) returns (points: seq<Point>, actors: set<PdnId>)
    ensures |points| == |named|
    ensures forall i | 0 <= i < |points| :: exists e | e in named :: points[i] == Point(e.actor, e.actorAt)
    ensures forall e | e in named :: Point(e.actor, e.actorAt) in points && e.actor in actors
    ensures forall a | a in actors :: exists e | e in named :: e.actor == a
  {
    points, actors := [], {};
    var rest := named;
    while rest != {}
      invariant rest <= named && |points| + |rest| == |named|
      invariant forall i | 0 <= i < |points| :: exists e | e in named :: points[i] == Point(e.actor, e.actorAt)
      invariant forall e | e in named && e !in rest :: Point(e.actor, e.actorAt) in points && e.actor in actors
      invariant forall a | a in actors :: exists e | e in named :: e.actor == a
    {
      var e :| e in rest;
      points, actors, rest := points + [Point(e.actor, e.actorAt)], actors + {e.actor}, rest - {e};
    }
  }

  /** A point no further than one already found is found without it. */
  lemma Dropped(events: set<Event>, member: PdnId, r: Rests, was: seq<Point>, x: Point)
    requires was != [] && x == was[|was| - 1] && Sound(events, member, r, was) && Complete(events, member, r, was)
      && x.upto <= UptoOf(r.upto, x.chain)
    ensures Sound(events, member, r, was[..|was| - 1]) && Complete(events, member, r, was[..|was| - 1])
  {
    var work := was[..|was| - 1];
    forall y | Found(r.upto, was, y) ensures Found(r.upto, work, y) {
      if y.upto > UptoOf(r.upto, y.chain) {
        var i :| 0 <= i < |was| && was[i].chain == y.chain && y.upto <= was[i].upto;
        assert work[i] == was[i];
      }
    }
  }

  lemma StillFound(r: Rests, was: seq<Point>, x: Point, points: seq<Point>, y: Point)
    requires was != [] && x == was[|was| - 1] && x.upto > UptoOf(r.upto, x.chain) && Found(r.upto, was, y)
    ensures Found(r.upto[x.chain := x.upto], was[..|was| - 1] + points, y)
  {
    var work := was[..|was| - 1] + points;
    if y.upto > UptoOf(r.upto, y.chain) {
      var i :| 0 <= i < |was| && was[i].chain == y.chain && y.upto <= was[i].upto;
      if i < |was| - 1 { assert work[i] == was[i]; }
    }
  }

  lemma Extends(events: set<Event>, member: PdnId, r: Rests, was: seq<Point>, x: Point, named: set<Event>,
      points: seq<Point>, actors: set<PdnId>)
    requires was != [] && x == was[|was| - 1] && Complete(events, member, r, was) && x.upto > UptoOf(r.upto, x.chain)
    requires named == Between(events, x.chain, UptoOf(r.upto, x.chain), x.upto)
    requires forall e | e in named :: Point(e.actor, e.actorAt) in points && e.actor in actors
    ensures Complete(events, member, Rests(r.upto[x.chain := x.upto], r.statementsOf + actors),
      was[..|was| - 1] + points)
  {
    hide Found;
    var s, work := Rests(r.upto[x.chain := x.upto], r.statementsOf + actors), was[..|was| - 1] + points;
    StillFound(r, was, x, points, Point(member, U64_MAX));
    forall e | e in events && 1 <= e.at <= UptoOf(s.upto, e.subject)
      ensures e.actor in s.statementsOf && Found(s.upto, work, Point(e.actor, e.actorAt))
    {
      if e in named {
        Listed(s.upto, work, Point(e.actor, e.actorAt));
      } else {
        assert e.at <= UptoOf(r.upto, e.subject);
        StillFound(r, was, x, points, Point(e.actor, e.actorAt));
      }
    }
  }

  lemma Listed(upto: map<PdnId, U64>, work: seq<Point>, y: Point)
    requires y in work
    ensures Found(upto, work, y)
  {
  }

  lemma ExtendsSound(events: set<Event>, member: PdnId, r: Rests, was: seq<Point>, x: Point, named: set<Event>,
      points: seq<Point>, actors: set<PdnId>)
    requires was != [] && x == was[|was| - 1] && Sound(events, member, r, was) && x.upto > UptoOf(r.upto, x.chain)
    requires named == Between(events, x.chain, UptoOf(r.upto, x.chain), x.upto)
    requires forall i | 0 <= i < |points| :: exists e | e in named :: points[i] == Point(e.actor, e.actorAt)
    requires forall a | a in actors :: exists e | e in named :: e.actor == a
    ensures Sound(events, member, Rests(r.upto[x.chain := x.upto], r.statementsOf + actors), was[..|was| - 1] + points)
  {
    assert RestsOn(events, member, x);
    var work := was[..|was| - 1] + points;
    forall e | e in named
      ensures RestsOn(events, member, Point(e.actor, e.actorAt)) && ActsFor(events, member, e.actor)
    {
      RestsBelow(events, member, x, e.at);
      PathOn(events, member, e);
    }
    forall i | 0 <= i < |work| ensures RestsOn(events, member, work[i]) {
      if i >= |was| - 1 { assert work[i] == points[i - (|was| - 1)]; }
    }
  }

  lemma Used(events: set<Event>, upto: map<PdnId, U64>, x: Point, named: set<Event>)
    requires x.upto > UptoOf(upto, x.chain) && named == Between(events, x.chain, UptoOf(upto, x.chain), x.upto)
    ensures |Ahead(events, upto[x.chain := x.upto])| + |named| == |Ahead(events, upto)|
  {
    assert Ahead(events, upto) == Ahead(events, upto[x.chain := x.upto]) + named;
  }

  // ---------------------------------------------------------------- what is admitted

  lemma {:induction false} PathIsFound(events: set<Event>, member: PdnId, r: Rests, p: seq<Event>)
    requires Complete(events, member, r, []) && Path(events, member, p)
    ensures p[|p| - 1].actorAt <= UptoOf(r.upto, p[|p| - 1].actor) && p[|p| - 1].actor in r.statementsOf
  {
    var e := p[|p| - 1];
    if |p| > 1 {
      var front := p[..|p| - 1];
      assert Path(events, member, front);
      PathIsFound(events, member, r, front);
      assert p[|p| - 2 + 1].subject == p[|p| - 2].actor;
    } else {
      assert Found(r.upto, [], Point(member, U64_MAX));
    }
    assert Found(r.upto, [], Point(e.actor, e.actorAt));
  }

  /** What the worklist admits is what the member's chain rests on: its chain whole, another's as far as a path of
      actors leads, and the device statements of the actors on such paths; nothing else. */
  lemma AdmitsWhatItRestsOn(events: set<Event>, member: PdnId, r: Rests, key: Key)
    requires Sound(events, member, r, []) && Complete(events, member, r, [])
    ensures Admits(r, key) <==>
      match key
      case EventKey(e) =>
        if e.at >= 1 then RestsOn(events, member, Point(e.subject, e.at))
        else exists n: U64 :: n >= 1 && RestsOn(events, member, Point(e.subject, n))
      case DevicesKey(d) => ActsFor(events, member, d)
      case Other => false
  {
    match key
    case Other =>
    case EventKey(e) => AdmitsEvent(events, member, r, e);
    case DevicesKey(d) =>
      if d != member && ActsFor(events, member, d) {
        var p: seq<Event> :| Path(events, member, p) && p[|p| - 1].actor == d;
        PathIsFound(events, member, r, p);
      }
  }

  lemma RestsFound(events: set<Event>, member: PdnId, r: Rests, x: Point)
    requires Complete(events, member, r, []) && RestsOn(events, member, x)
    ensures x.upto <= UptoOf(r.upto, x.chain)
  {
    if x.chain == member {
      assert Found(r.upto, [], Point(member, U64_MAX));
    } else {
      var p :| LeadsTo(events, member, p, x);
      PathIsFound(events, member, r, p);
    }
  }

  lemma AdmitsEvent(events: set<Event>, member: PdnId, r: Rests, e: Event)
    requires Sound(events, member, r, []) && Complete(events, member, r, [])
    ensures e.at >= 1 ==> (Admits(r, EventKey(e)) <==> RestsOn(events, member, Point(e.subject, e.at)))
    ensures e.at == 0 ==>
      (Admits(r, EventKey(e)) <==> exists n: U64 :: n >= 1 && RestsOn(events, member, Point(e.subject, n)))
  {
    if Admits(r, EventKey(e)) {
      RestsBelow(events, member, Point(e.subject, r.upto[e.subject]), e.at);
    }
    if n: U64 :| n >= 1 && RestsOn(events, member, Point(e.subject, n)) {
      RestsFound(events, member, r, Point(e.subject, n));
    }
    if RestsOn(events, member, Point(e.subject, e.at)) { RestsFound(events, member, r, Point(e.subject, e.at)); }
  }

  /** Holding more, a replica takes no less: whatever one worklist's result admits, that over more events admits. */
  lemma RestsGrow(events: set<Event>, r: Rests, more: set<Event>, s: Rests, member: PdnId, key: Key)
    requires events <= more && Admits(r, key)
    requires Sound(events, member, r, []) && Complete(events, member, r, [])
    requires Sound(more, member, s, []) && Complete(more, member, s, [])
    ensures Admits(s, key)
  {
    AdmitsWhatItRestsOn(events, member, r, key);
    AdmitsWhatItRestsOn(more, member, s, key);
    hide Admits, Sound, Complete, RestsOn, ActsFor;
    match key
    case EventKey(e) => forall n: U64 { PathsGrow(events, more, member, Point(e.subject, n)); }
    case DevicesKey(d) => PathsGrow(events, more, member, Point(d, 0));
  }
}
