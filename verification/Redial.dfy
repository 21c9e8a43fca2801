/** A departed replica's watcher dials a peer again when a session with it brought something: over any events it does so
    at most once per entry that arrived from that peer, so it stops when the entries do. */
module Redial {

  datatype Peer = Peer(id: int)

  datatype Met = Met(peer: Peer, counterpart: int)

  datatype Event =
    | SyncFinished(met: Met, ok: bool)
    | InsertRemote(from: Peer)
    | ContentReady | Lagged | Failed      // may list a device
    | Quiet                               // a local insert, pending content, a neighbour up or down

  datatype State = State(met: seq<Met>, broughtBy: set<Peer>)

  function Noted(s: State, e: Event): State {
    match e
    case SyncFinished(met, ok) => if ok then s.(met := s.met + [met]) else s
    case InsertRemote(from) => s.(broughtBy := s.broughtBy + {from})
    case _ => s
  }

  function NotedAll(s: State, events: seq<Event>): State {
    if events == [] then s else Noted(NotedAll(s, events[..|events| - 1]), events[|events| - 1])
  }

  /** Each peer once, at its first session, if an entry arrived from it since its mark was last cleared. */
  function Brought(met: seq<Met>, marks: set<Peer>): seq<Met> {
    if met == [] then []
    else if met[0].peer in marks then [met[0]] + Brought(met[1..], marks - {met[0].peer})
    else Brought(met[1..], marks)
  }

  function Cleared(met: seq<Met>, marks: set<Peer>): set<Peer> {
    if met == [] then marks else Cleared(met[1..], marks - {met[0].peer})
  }

  class Seen {
    var met: seq<Met>
    var broughtBy: set<Peer>

    function Now(): State
      reads this
    {
      State(met, broughtBy)
    }

    constructor ()
      ensures Now() == State([], {})
    {
      met, broughtBy := [], {};
    }

    method Note(e: Event) returns (listing: bool)
      modifies this
      ensures Now() == Noted(old(Now()), e)
      ensures listing <==> e.InsertRemote? || e.ContentReady? || e.Lagged? || e.Failed?
    {
      match e
      case SyncFinished(m, ok) =>
        if ok { met := met + [m]; }
        listing := false;
      case InsertRemote(from) =>
        broughtBy := broughtBy + {from};
        listing := true;
      case ContentReady => listing := true;
      case Lagged => listing := true;
      case Failed => listing := true;
      case Quiet => listing := false;
    }

    method TakeBrought() returns (brought: seq<Met>)
      modifies this`broughtBy
      ensures brought == Brought(met, old(broughtBy)) && broughtBy == Cleared(met, old(broughtBy))
    {
      brought := [];
      for i := 0 to |met|
        invariant Brought(met, old(broughtBy)) == brought + Brought(met[i..], broughtBy)
        invariant Cleared(met, old(broughtBy)) == Cleared(met[i..], broughtBy)
      {
        assert met[i..][0] == met[i] && met[i..][1..] == met[i + 1..];
        if met[i].peer in broughtBy {
          broughtBy := broughtBy - {met[i].peer};
          brought := brought + [met[i]];
        } else {
          assert broughtBy - {met[i].peer} == broughtBy;
        }
      }
    }
  }

  // ---------------------------------------------------------------- every run of the watcher

  /** One derivation: the events it took in, whether the registry still had the pod, and whether it found the
      departure. */
  datatype Round = Round(events: seq<Event>, held: bool, departed: bool)

  /** `dialed` is every peer dialed again so far. */
  datatype Watch = Watch(marks: set<Peer>, dialed: seq<Peer>)

  function PeersOf(met: seq<Met>): seq<Peer> {
    if met == [] then [] else PeersOf(met[..|met| - 1]) + [met[|met| - 1].peer]
  }

  function After(w: Watch, r: Round): Watch {
    var s := NotedAll(State([], w.marks), r.events);
    if !r.held then Watch(s.broughtBy, w.dialed)
    else
      Watch(Cleared(s.met, s.broughtBy),
            if r.departed then w.dialed + PeersOf(Brought(s.met, s.broughtBy)) else w.dialed)
  }

  function Run(rounds: seq<Round>): Watch {
    if rounds == [] then Watch({}, []) else After(Run(rounds[..|rounds| - 1]), rounds[|rounds| - 1])
  }

  function InsertsOf(events: seq<Event>, p: Peer): nat {
    if events == [] then 0
    else InsertsOf(events[..|events| - 1], p) + if events[|events| - 1] == InsertRemote(p) then 1 else 0
  }

  function Inserts(rounds: seq<Round>, p: Peer): nat {
    if rounds == [] then 0 else Inserts(rounds[..|rounds| - 1], p) + InsertsOf(rounds[|rounds| - 1].events, p)
  }

  function Times(peers: seq<Peer>, p: Peer): nat { multiset(peers)[p] }

  function Mark(marks: set<Peer>, p: Peer): nat { if p in marks then 1 else 0 }

  lemma {:induction false} MarksPerInsert(s: State, events: seq<Event>, p: Peer)
    ensures Mark(NotedAll(s, events).broughtBy, p) <= Mark(s.broughtBy, p) + InsertsOf(events, p)
  {
    if events != [] { MarksPerInsert(s, events[..|events| - 1], p); }
  }

  lemma {:induction false} PeersOfFront(m: Met, met: seq<Met>)
    ensures multiset(PeersOf([m] + met)) == multiset{m.peer} + multiset(PeersOf(met))
    decreases |met|
  {
    if met == [] {
      assert [m] + met == [m];
      assert PeersOf([m]) == [] + [m.peer] by { assert [m][..0] == []; }
    } else {
      var all, front := [m] + met, met[..|met| - 1];
      assert all[..|all| - 1] == [m] + front && all[|all| - 1] == met[|met| - 1];
      assert PeersOf(all) == PeersOf([m] + front) + [met[|met| - 1].peer];
      PeersOfFront(m, front);
    }
  }

  /** A mark is used up by the one dial it gives. */
  lemma {:induction false} DialsPerMark(met: seq<Met>, marks: set<Peer>, p: Peer)
    ensures Times(PeersOf(Brought(met, marks)), p) + Mark(Cleared(met, marks), p) == Mark(marks, p)
    decreases |met|
  {
    if met != [] {
      DialsPerMark(met[1..], marks - {met[0].peer}, p);
      if met[0].peer in marks {
        PeersOfFront(met[0], Brought(met[1..], marks - {met[0].peer}));
      } else {
        assert marks - {met[0].peer} == marks;
      }
    }
  }

  /** Over any rounds a peer is dialed again at most as often as an entry arrived from it, less one while its mark
      stands. */
  lemma {:induction false} DialsPerInsert(rounds: seq<Round>, p: Peer)
    ensures Times(Run(rounds).dialed, p) + Mark(Run(rounds).marks, p) <= Inserts(rounds, p)
  {
    if rounds != [] {
      var before, r := Run(rounds[..|rounds| - 1]), rounds[|rounds| - 1];
      DialsPerInsert(rounds[..|rounds| - 1], p);
      MarksPerInsert(State([], before.marks), r.events, p);
      var s := NotedAll(State([], before.marks), r.events);
      DialsPerMark(s.met, s.broughtBy, p);
    }
  }

  /** A round that brings nothing more, after the marks are used up, dials nobody: without entries the redialing
      stops. */
  lemma QuietRoundsDialNobody(w: Watch, r: Round)
    requires w.marks == {} && forall p :: InsertsOf(r.events, p) == 0
    ensures After(w, r) == Watch({}, w.dialed)
  {
    var s := NotedAll(State([], w.marks), r.events);
    forall p ensures p !in s.broughtBy { MarksPerInsert(State([], w.marks), r.events, p); }
    assert s.broughtBy == {};
    NobodyMarked(s.met);
  }

  lemma {:induction false} NobodyMarked(met: seq<Met>)
    ensures Brought(met, {}) == [] && Cleared(met, {}) == {}
  {
    if met != [] {
      NobodyMarked(met[1..]);
      assert {} - {met[0].peer} == {};
    }
  }

  // ---------------------------------------------------------------- who is dialed again, and when

  /** The events that went through to a session with the peer, and those that brought an entry of its. */
  predicate MetIn(events: seq<Event>, p: Peer) { exists e | e in events :: e.SyncFinished? && e.ok && e.met.peer == p }

  predicate BroughtIn(events: seq<Event>, p: Peer) { InsertRemote(p) in events }

  lemma {:induction false} NotedMeans(s: State, events: seq<Event>, p: Peer)
    ensures p in NotedAll(s, events).broughtBy <==> p in s.broughtBy || BroughtIn(events, p)
    ensures (exists m | m in NotedAll(s, events).met :: m.peer == p) <==>
      (exists m | m in s.met :: m.peer == p) || MetIn(events, p)
  {
    if events != [] {
      var front, last := events[..|events| - 1], events[|events| - 1];
      NotedMeans(s, front, p);
      assert forall e :: e in events <==> e in front || e == last;
      var before, after := NotedAll(s, front), NotedAll(s, events);
      assert after == Noted(before, last);
      if last.SyncFinished? && last.ok { assert after.met[|before.met|] == last.met; }
    }
  }

  /** A session is dialed again that is its peer's first since the last derivation, the peer being marked. */
  lemma {:induction false} BroughtMeans(met: seq<Met>, marks: set<Peer>, m: Met)
    ensures m in Brought(met, marks) <==>
      m.peer in marks && exists i | 0 <= i < |met| :: met[i] == m && forall j | 0 <= j < i :: met[j].peer != m.peer
    decreases |met|
  {
    if met != [] {
      var rest, left := met[1..], if met[0].peer in marks then marks - {met[0].peer} else marks;
      BroughtMeans(rest, left, m);
      if m.peer in marks && m.peer != met[0].peer {
        if i :| 0 <= i < |rest| && rest[i] == m && forall j | 0 <= j < i :: rest[j].peer != m.peer {
          forall j | 0 <= j < i + 1 ensures met[j].peer != m.peer { if j > 0 { assert rest[j - 1] == met[j]; } }
          assert met[i + 1] == m;
        }
        if i :| 0 <= i < |met| && met[i] == m && forall j | 0 <= j < i :: met[j].peer != m.peer {
          assert rest[i - 1] == m && forall j | 0 <= j < i - 1 :: rest[j] == met[j + 1];
        }
      }
    }
  }

  lemma {:induction false} ClearedMeans(met: seq<Met>, marks: set<Peer>, p: Peer)
    ensures p in Cleared(met, marks) <==> p in marks && forall m | m in met :: m.peer != p
    decreases |met|
  {
    if met != [] {
      ClearedMeans(met[1..], marks - {met[0].peer}, p);
      assert forall m :: m in met <==> m == met[0] || m in met[1..];
    }
  }

  /** One derivation: it dials a peer again, once, exactly when it has the pod, finds the departure, met the peer, and
      an entry of the peer's arrived that no derivation has used up; and meeting it uses them up. */
  lemma DialsAgain(w: Watch, r: Round, p: Peer)
    ensures var owed := p in w.marks || BroughtIn(r.events, p);
      && Times(After(w, r).dialed, p)
        == Times(w.dialed, p) + (if r.held && r.departed && MetIn(r.events, p) && owed then 1 else 0)
      && (p in After(w, r).marks <==> owed && !(r.held && MetIn(r.events, p)))
  {
    var s := NotedAll(State([], w.marks), r.events);
    NotedMeans(State([], w.marks), r.events, p);
    ClearedMeans(s.met, s.broughtBy, p);
    DialsPerMark(s.met, s.broughtBy, p);
    var again := PeersOf(Brought(s.met, s.broughtBy));
    assert multiset(w.dialed + again) == multiset(w.dialed) + multiset(again);
  }

  /** Over every run a peer's mark stands exactly when an entry of its arrived in some round and no round since, that
      one included, had the pod and met the peer. */
  lemma {:induction false} MarkMeans(rounds: seq<Round>, p: Peer)
    ensures p in Run(rounds).marks <==>
      exists k | 0 <= k < |rounds| ::
        && BroughtIn(rounds[k].events, p)
        && forall j | k <= j < |rounds| :: !(rounds[j].held && MetIn(rounds[j].events, p))
  {
    if rounds != [] {
      var front, last := rounds[..|rounds| - 1], |rounds| - 1;
      MarkMeans(front, p);
      DialsAgain(Run(front), rounds[last], p);
      hide MetIn, BroughtIn;
      assert forall k | 0 <= k < |front| :: front[k] == rounds[k];
    }
  }
}
