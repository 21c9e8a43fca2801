/** The views an access book keeps by write count, and the recheck of an accepted session: over every
    interleaving of looks, writes and arriving payloads, a kept view is what a rebuild would have read, and
    what a session's frozen snapshot reveals was decided from stores no older than the snapshot. */
module Freshness {
  import opened Ids
  import opened Options
  import opened Registry
  import opened Access

  /** What the view reads of an entry's payload, by its key and length. */
  datatype Wanted = Bytes | NoBytes | OverLong

  datatype Stored = Stored(key: Key, author: AuthorId, hash: Hash, wanted: Wanted)

  datatype Replica = Replica(writes: nat, entries: seq<Stored>)

  /** The node's replicas and the payloads it holds, at one instant. */
  datatype Moment = Moment(stores: map<NamespaceId, Replica>, blobs: set<Hash>)

  type History = seq<Moment>

  /** A write moves its replica's count; payloads arrive and stay. */
  ghost predicate Moves(m: Moment, n: Moment) {
    && m.blobs <= n.blobs
    && forall ns | ns in m.stores ::
      ns in n.stores && (n.stores[ns] == m.stores[ns] || m.stores[ns].writes < n.stores[ns].writes)
  }

  ghost predicate Proceeds(tl: History) {
    forall i | 0 <= i < |tl| - 1 :: Moves(tl[i], tl[i + 1])
  }

  lemma {:induction false} Later(tl: History, ns: NamespaceId, i: nat, j: nat)
    requires Proceeds(tl) && i <= j < |tl| && ns in tl[i].stores
    ensures tl[i].blobs <= tl[j].blobs && ns in tl[j].stores
    ensures tl[i].stores[ns] == tl[j].stores[ns] || tl[i].stores[ns].writes < tl[j].stores[ns].writes
  {
    if i < j {
      Later(tl, ns, i, j - 1);
      assert Moves(tl[j - 1], tl[j - 1 + 1]);
    }
  }

  function Hold(e: Stored, blobs: set<Hash>): HeldEntry {
    HeldEntry(e.key, e.author,
              match e.wanted
              case NoBytes => Unread
              case OverLong => OutOfBounds
              case Bytes => if e.hash in blobs then Read(e.hash) else Awaited)
  }

  /** Entries read at one moment, each payload looked for at a moment of its own. */
  ghost function HeldOver(tl: History, entries: seq<Stored>, ts: seq<nat>): seq<HeldEntry>
    requires |ts| == |entries| && forall i | 0 <= i < |ts| :: ts[i] < |tl|
  {
    seq(|ts|, i requires 0 <= i < |ts| => Hold(entries[i], tl[ts[i]].blobs))
  }

  ghost predicate ReadAt(tl: History, ns: NamespaceId, lo: nat, hi: nat, b: nat, ts: seq<nat>, read: seq<HeldEntry>) {
    && lo <= b <= hi < |tl| && ns in tl[b].stores && |ts| == |tl[b].stores[ns].entries|
    && (forall i | 0 <= i < |ts| :: b <= ts[i] <= hi)
    && read == HeldOver(tl, tl[b].stores[ns].entries, ts)
  }

  /** A read of the store made from its entries and payloads between two moments. */
  ghost predicate ReadWithin(tl: History, ns: NamespaceId, lo: nat, hi: nat, read: seq<HeldEntry>) {
    exists b, ts :: ReadAt(tl, ns, lo, hi, b, ts, read)
  }

  ghost function Fresh(tl: History, ns: NamespaceId, t: nat): seq<HeldEntry>
    requires t < |tl| && ns in tl[t].stores
  {
    var entries := tl[t].stores[ns].entries;
    seq(|entries|, i requires 0 <= i < |entries| => Hold(entries[i], tl[t].blobs))
  }

  lemma FreshIsRead(tl: History, ns: NamespaceId, lo: nat, t: nat, hi: nat)
    requires lo <= t <= hi < |tl| && ns in tl[t].stores
    ensures ReadWithin(tl, ns, lo, hi, Fresh(tl, ns, t))
  {
    var ts := seq(|tl[t].stores[ns].entries|, i => t);
    assert ReadAt(tl, ns, lo, hi, t, ts, Fresh(tl, ns, t));
  }

  /** A read awaiting nothing is what a rebuild reads at any later moment at which the count it began under stands. */
  lemma CountTellsFreshness(tl: History, ns: NamespaceId, lo: nat, hi: nat, read: seq<HeldEntry>, t: nat)
    requires Proceeds(tl) && ReadWithin(tl, ns, lo, hi, read) && !Unarrived(read)
    requires hi <= t < |tl| && ns in tl[lo].stores && ns in tl[t].stores
      && tl[t].stores[ns].writes == tl[lo].stores[ns].writes
    ensures read == Fresh(tl, ns, t)
  {
    var b, ts :| ReadAt(tl, ns, lo, hi, b, ts, read);
    PayloadsStay(tl, ns, lo, hi, b, ts, read, t);
  }

  lemma PayloadsStay(tl: History, ns: NamespaceId, lo: nat, hi: nat, b: nat, ts: seq<nat>, read: seq<HeldEntry>, t: nat)
    requires Proceeds(tl) && ReadAt(tl, ns, lo, hi, b, ts, read) && !Unarrived(read)
    requires b <= t < |tl| && (forall i | 0 <= i < |ts| :: ts[i] <= t)
    requires ns in tl[lo].stores && ns in tl[t].stores && tl[t].stores[ns].writes == tl[lo].stores[ns].writes
    ensures read == Fresh(tl, ns, t)
  {
    Later(tl, ns, lo, b);
    Later(tl, ns, b, t);
    var anew := Fresh(tl, ns, t);
    forall i | 0 <= i < |read| ensures read[i] == anew[i] {
      Later(tl, ns, b, ts[i]);
      Later(tl, ns, ts[i], t);
      assert read[i] in read;
    }
  }

  // ---------------------------------------------------------------- the kept views

  const KEPT_VIEWS: nat := 256

  /** A view kept: the store and count it was read under and the entries it was built from. */
  datatype KeptView = KeptView(store: NamespaceId, writes: nat, read: seq<HeldEntry>)

  type Kept = map<PodId, KeptView>

  function Keep(kept: Kept, pod: PodId, view: KeptView): (r: Kept)
    ensures pod in r && r[pod] == view && forall p | p in r && p != pod :: p in kept && r[p] == kept[p]
    ensures |kept| <= KEPT_VIEWS ==> |r| <= KEPT_VIEWS
    ensures |kept| < KEPT_VIEWS || pod in kept ==> kept.Keys <= r.Keys
  {
    assert kept[pod := view].Keys == kept.Keys + {pod};
    if |kept| >= KEPT_VIEWS && pod !in kept then map[pod := view] else kept[pod := view]
  }

  function Lookup(kept: Kept, pod: PodId, store: NamespaceId, writes: nat): Option<seq<HeldEntry>> {
    if pod in kept && kept[pod].store == store && kept[pod].writes == writes then Some(kept[pod].read) else None
  }

  class Views {
    var kept: Kept

    constructor ()
      ensures kept == map[]
    {
      kept := map[];
    }

    method KeepView(pod: PodId, store: NamespaceId, writes: nat, read: seq<HeldEntry>)
      modifies this
      ensures kept == Keep(old(kept), pod, KeptView(store, writes, read))
      ensures Lookup(kept, pod, store, writes) == Some(read)
      ensures old(|kept|) <= KEPT_VIEWS ==> |kept| <= KEPT_VIEWS
    {
      if |kept| >= KEPT_VIEWS && pod !in kept {
        kept := map[];
      }
      kept := kept[pod := KeptView(store, writes, read)];
    }

    method KeptViewOf(pod: PodId, store: NamespaceId, writes: nat) returns (read: Option<seq<HeldEntry>>)
      ensures read == Lookup(kept, pod, store, writes)
    {
      if pod !in kept { return None; }
      var view := kept[pod];
      read := if view.store == store && view.writes == writes then Some(view.read) else None;
    }
  }

  // ---------------------------------------------------------------- concurrent looks

  datatype Phase =
    | Counted(writes: Option<nat>)
    | Missed(writes: Option<nat>)
    | Reading(writes: Option<nat>, b: nat, ts: seq<nat>)
    | Done(read: seq<HeldEntry>, ended: nat)

  datatype Look = Look(pod: PodId, store: NamespaceId, started: nat, phase: Phase)

  datatype Book = Book(now: nat, kept: Kept, looks: seq<Look>)

  datatype Step =
    | Tick
    | Begin(pod: PodId, store: NamespaceId, reached: bool)
    | Find(i: nat)
    | Entries(i: nat)
    | PayloadOf(i: nat)
    | Finish(i: nat)

  ghost predicate Enabled(tl: History, s: Book, step: Step) {
    match step
    case Tick => s.now + 1 < |tl|
    case Begin(_, store, _) => s.now < |tl| && store in tl[s.now].stores
    case Find(i) => i < |s.looks| && s.looks[i].phase.Counted?
    case Entries(i) => i < |s.looks| && s.looks[i].phase.Missed? && s.now < |tl| && s.looks[i].store in tl[s.now].stores
    case PayloadOf(i) =>
      && i < |s.looks| && Underway(tl, s.looks[i])
      && |s.looks[i].phase.ts| < |tl[s.looks[i].phase.b].stores[s.looks[i].store].entries|
    case Finish(i) =>
      && i < |s.looks| && Underway(tl, s.looks[i])
      && |s.looks[i].phase.ts| == |tl[s.looks[i].phase.b].stores[s.looks[i].store].entries|
  }

  ghost predicate Underway(tl: History, l: Look) {
    && l.phase.Reading? && l.phase.b < |tl| && l.store in tl[l.phase.b].stores
    && forall i | 0 <= i < |l.phase.ts| :: l.phase.ts[i] < |tl|
  }

  ghost function Take(tl: History, s: Book, step: Step): Book
    requires Enabled(tl, s, step)
  {
    match step
    case Tick => s.(now := s.now + 1)
    case Begin(pod, store, reached) =>
      s.(looks := s.looks + [Look(pod, store, s.now, Counted(if reached then Some(tl[s.now].stores[store].writes)
        else None))])
    case Find(i) =>
      var l := s.looks[i];
      var hit := if l.phase.writes.Some? then Lookup(s.kept, l.pod, l.store, l.phase.writes.value) else None;
      s.(looks := s.looks[i := l.(phase := if hit.Some? then Done(hit.value, s.now) else Missed(l.phase.writes))])
    case Entries(i) =>
      var l := s.looks[i];
      s.(looks := s.looks[i := l.(phase := Reading(l.phase.writes, s.now, []))])
    case PayloadOf(i) =>
      var l := s.looks[i];
      s.(looks := s.looks[i := l.(phase := Reading(l.phase.writes, l.phase.b, l.phase.ts + [s.now]))])
    case Finish(i) =>
      var l := s.looks[i];
      var read := HeldOver(tl, tl[l.phase.b].stores[l.store].entries, l.phase.ts);
      Book(s.now,
           if l.phase.writes.Some? && !Unarrived(read) then
             Keep(s.kept, l.pod, KeptView(l.store, l.phase.writes.value, read))
           else s.kept,
           s.looks[i := l.(phase := Done(read, s.now))])
  }

  /** A kept view was read, awaiting nothing, no earlier than its count. */
  ghost predicate GenuineSince(tl: History, k: KeptView, upto: nat, a: nat) {
    a <= upto < |tl| && k.store in tl[a].stores && tl[a].stores[k.store].writes == k.writes
      && ReadWithin(tl, k.store, a, upto, k.read)
  }

  ghost predicate Genuine(tl: History, k: KeptView, upto: nat) {
    !Unarrived(k.read) && exists a :: GenuineSince(tl, k, upto, a)
  }

  ghost predicate Sound(tl: History, l: Look, now: nat) {
    && l.started <= now < |tl| && l.store in tl[l.started].stores
    && (!l.phase.Done? && l.phase.writes.Some? ==> l.phase.writes.value == tl[l.started].stores[l.store].writes)
    && (l.phase.Reading? ==>
          && l.started <= l.phase.b <= now && l.store in tl[l.phase.b].stores
          && |l.phase.ts| <= |tl[l.phase.b].stores[l.store].entries|
          && forall i | 0 <= i < |l.phase.ts| :: l.phase.b <= l.phase.ts[i] <= now)
    && (l.phase.Done? ==>
      l.started <= l.phase.ended <= now && ReadWithin(tl, l.store, l.started, l.phase.ended, l.phase.read))
  }

  ghost predicate BookInv(tl: History, s: Book) {
    && s.now < |tl| && |s.kept| <= KEPT_VIEWS
    && (forall p | p in s.kept :: Genuine(tl, s.kept[p], s.now))
    && forall i | 0 <= i < |s.looks| :: Sound(tl, s.looks[i], s.now)
  }

  lemma WithinWidens(tl: History, ns: NamespaceId, lo: nat, hi: nat, hi': nat, read: seq<HeldEntry>)
    requires ReadWithin(tl, ns, lo, hi, read) && hi <= hi' < |tl|
    ensures ReadWithin(tl, ns, lo, hi', read)
  {
    var b, ts :| ReadAt(tl, ns, lo, hi, b, ts, read);
    assert ReadAt(tl, ns, lo, hi', b, ts, read);
  }

  lemma GenuineWidens(tl: History, k: KeptView, upto: nat, upto': nat)
    requires Genuine(tl, k, upto) && upto <= upto' < |tl|
    ensures Genuine(tl, k, upto')
  {
    var a :| GenuineSince(tl, k, upto, a);
    WithinWidens(tl, k.store, a, upto, upto', k.read);
    assert GenuineSince(tl, k, upto', a);
  }

  /** A hit, whatever was kept before or after the count was read, is a rebuild made within the look. */
  lemma HitIsRebuild(tl: History, k: KeptView, l: Look, now: nat)
    requires Proceeds(tl) && Genuine(tl, k, now) && Sound(tl, l, now)
    requires l.phase == Counted(Some(k.writes)) && k.store == l.store
    ensures ReadWithin(tl, l.store, l.started, now, k.read)
  {
    var a :| GenuineSince(tl, k, now, a);
    var b, ts :| ReadAt(tl, k.store, a, now, b, ts, k.read);
    if l.started <= b {
      assert ReadAt(tl, k.store, l.started, now, b, ts, k.read);
    } else {
      Later(tl, l.store, l.started, now);
      Later(tl, l.store, b, l.started);
      Later(tl, l.store, a, b);
      var entries := tl[l.started].stores[l.store].entries;
      var ends := seq(|entries|, i => now);
      var held := HeldOver(tl, entries, ends);
      forall i | 0 <= i < |entries| ensures held[i] == k.read[i] {
        Later(tl, k.store, b, ts[i]);
        Later(tl, k.store, ts[i], now);
        assert k.read[i] in k.read;
      }
      assert ReadAt(tl, k.store, l.started, now, l.started, ends, k.read);
    }
  }

  /** A look that read every payload answers with a rebuild, and what it keeps is one. */
  lemma FinishReads(tl: History, l: Look, now: nat)
    requires Sound(tl, l, now) && l.phase.Reading? && |l.phase.ts| == |tl[l.phase.b].stores[l.store].entries|
    ensures var read := HeldOver(tl, tl[l.phase.b].stores[l.store].entries, l.phase.ts);
      && Sound(tl, l.(phase := Done(read, now)), now)
      && (l.phase.writes.Some? && !Unarrived(read) ==> Genuine(tl, KeptView(l.store, l.phase.writes.value, read), now))
  {
    var read := HeldOver(tl, tl[l.phase.b].stores[l.store].entries, l.phase.ts);
    assert ReadAt(tl, l.store, l.started, now, l.phase.b, l.phase.ts, read);
    if l.phase.writes.Some? && !Unarrived(read) {
      assert GenuineSince(tl, KeptView(l.store, l.phase.writes.value, read), now, l.started);
    }
  }

  lemma FinishKeeps(tl: History, s: Book, i: nat)
    requires BookInv(tl, s) && Enabled(tl, s, Finish(i))
    ensures BookInv(tl, Take(tl, s, Finish(i)))
  {
    assert Sound(tl, s.looks[i], s.now);
    FinishReads(tl, s.looks[i], s.now);
    hide Genuine, Sound;
  }

  lemma TickKeeps(tl: History, s: Book)
    requires BookInv(tl, s) && Enabled(tl, s, Tick)
    ensures BookInv(tl, Take(tl, s, Tick))
  {
    hide Genuine, Sound;
    forall p | p in s.kept ensures Genuine(tl, s.kept[p], s.now + 1) {
      GenuineWidens(tl, s.kept[p], s.now, s.now + 1);
    }
    forall i | 0 <= i < |s.looks| ensures Sound(tl, s.looks[i], s.now + 1) {
      SoundLater(tl, s.looks[i], s.now);
    }
  }

  lemma SoundLater(tl: History, l: Look, now: nat)
    requires Sound(tl, l, now) && now + 1 < |tl|
    ensures Sound(tl, l, now + 1)
  {
  }

  /** A step that moves one look on, or adds one. */
  lemma LookKeeps(tl: History, s: Book, step: Step, i: nat)
    requires Proceeds(tl) && BookInv(tl, s) && Enabled(tl, s, step) && step in {Find(i), Entries(i), PayloadOf(i)}
    ensures Sound(tl, Take(tl, s, step).looks[i], s.now)
  {
    var l := s.looks[i];
    assert Sound(tl, l, s.now);
    if step == Find(i) && l.phase.writes.Some? && Lookup(s.kept, l.pod, l.store, l.phase.writes.value).Some? {
      HitIsRebuild(tl, s.kept[l.pod], l, s.now);
    }
  }

  lemma BeginKeeps(tl: History, s: Book, step: Step)
    requires BookInv(tl, s) && Enabled(tl, s, step) && step.Begin?
    ensures BookInv(tl, Take(tl, s, step))
  {
    hide Genuine;
    assert Sound(tl, Take(tl, s, step).looks[|s.looks|], s.now);
  }

  lemma OtherLooksKept(tl: History, s: Book, step: Step, i: nat)
    requires Proceeds(tl) && BookInv(tl, s) && Enabled(tl, s, step) && step in {Find(i), Entries(i), PayloadOf(i)}
    ensures BookInv(tl, Take(tl, s, step))
  {
    LookKeeps(tl, s, step, i);
    hide Genuine, Sound;
  }

  lemma StepKeeps(tl: History, s: Book, step: Step)
    requires Proceeds(tl) && BookInv(tl, s) && Enabled(tl, s, step)
    ensures BookInv(tl, Take(tl, s, step))
  {
    hide BookInv, Take, Enabled;
    match step
    case Tick => TickKeeps(tl, s);
    case Finish(i) => FinishKeeps(tl, s, i);
    case Begin(pod, store, reached) => BeginKeeps(tl, s, step);
    case Find(i) => OtherLooksKept(tl, s, step, i);
    case Entries(i) => OtherLooksKept(tl, s, step, i);
    case PayloadOf(i) => OtherLooksKept(tl, s, step, i);
  }

  ghost function Run(tl: History, s: Book, steps: seq<Step>): Option<Book>
    decreases |steps|
  {
    if steps == [] then Some(s)
    else
      var before := Run(tl, s, steps[..|steps| - 1]);
      if before.Some? && Enabled(tl, before.value, steps[|steps| - 1]) then
        Some(Take(tl, before.value, steps[|steps| - 1]))
      else None
  }

  lemma {:induction false} RunKeeps(tl: History, steps: seq<Step>)
    requires Proceeds(tl) && tl != []
    ensures var end := Run(tl, Book(0, map[], []), steps); end.Some? ==> BookInv(tl, end.value)
    decreases |steps|
  {
    if steps != [] && Run(tl, Book(0, map[], []), steps).Some? {
      RunKeeps(tl, steps[..|steps| - 1]);
      StepKeeps(tl, Run(tl, Book(0, map[], []), steps[..|steps| - 1]).value, steps[|steps| - 1]);
    }
  }

  /** Over every run, every look that has ended answers what a rebuild between its start and its end would have read. */
  lemma KeptViewsRefineRebuilding(tl: History, steps: seq<Step>, l: Look)
    requires Proceeds(tl) && tl != []
    requires var end := Run(tl, Book(0, map[], []), steps); end.Some? && l in end.value.looks && l.phase.Done?
    ensures ReadWithin(tl, l.store, l.started, l.phase.ended, l.phase.read)
    ensures |Run(tl, Book(0, map[], []), steps).value.kept| <= KEPT_VIEWS
    ensures l.store in tl[l.started].stores
    ensures !Unarrived(l.phase.read) && l.store in tl[l.phase.ended].stores
      && tl[l.phase.ended].stores[l.store].writes == tl[l.started].stores[l.store].writes
      ==> l.phase.read == Fresh(tl, l.store, l.phase.ended)
  {
    RunKeeps(tl, steps);
    var s := Run(tl, Book(0, map[], []), steps).value;
    var i :| 0 <= i < |s.looks| && s.looks[i] == l;
    assert Sound(tl, s.looks[i], s.now);
    if !Unarrived(l.phase.read) && l.store in tl[l.phase.ended].stores
      && tl[l.phase.ended].stores[l.store].writes == tl[l.started].stores[l.store].writes {
      CountTellsFreshness(tl, l.store, l.started, l.phase.ended, l.phase.read, l.phase.ended);
    }
  }

  /** What a look under a count has read, awaiting nothing, answers the next one under that count without a read. */
  lemma LookAgainHits(tl: History, s: Book, i: nat, later: Book)
    requires Enabled(tl, s, Finish(i)) && s.looks[i].phase.writes.Some?
    requires var l := s.looks[i];
      && (forall e | e in Take(tl, s, Finish(i)).looks[i].phase.read :: e.payload != Awaited)
      && l.pod in later.kept && later.kept[l.pod] == Take(tl, s, Finish(i)).kept[l.pod]
      && later.now < |tl| && l.store in tl[later.now].stores
      && tl[later.now].stores[l.store].writes == l.phase.writes.value
    ensures var l, k := s.looks[i], |later.looks|;
      var begun := Take(tl, later, Begin(l.pod, l.store, true));
      Enabled(tl, begun, Find(k))
        && Take(tl, begun, Find(k)).looks[k].phase == Done(Take(tl, s, Finish(i)).looks[i].phase.read, later.now)
  {
  }

  lemma RunOn(tl: History, s: Book, steps: seq<Step>, step: Step)
    requires Run(tl, s, steps).Some? && Enabled(tl, Run(tl, s, steps).value, step)
    ensures Run(tl, s, steps + [step]) == Some(Take(tl, Run(tl, s, steps).value, step))
  {
    assert (steps + [step])[..|steps|] == steps;
  }

  /** What a look does next, while it has not ended. */
  ghost function Onward(tl: History, l: Look, i: nat): Step
    requires l.phase.Reading? ==> Underway(tl, l)
  {
    match l.phase
    case Counted(_) => Find(i)
    case Missed(_) => Entries(i)
    case Reading(_, b, ts) => if |ts| < |tl[b].stores[l.store].entries| then PayloadOf(i) else Finish(i)
    case Done(_, _) => Tick
  }

  ghost function StageOf(l: Look): nat {
    match l.phase
    case Counted(_) => 3
    case Missed(_) => 2
    case Reading(_, _, _) => 1
    case Done(_, _) => 0
  }

  ghost function ToRead(tl: History, l: Look): int {
    if Underway(tl, l) then |tl[l.phase.b].stores[l.store].entries| - |l.phase.ts| else 0
  }

  lemma LookMoves(tl: History, s: Book, i: nat)
    requires Proceeds(tl) && BookInv(tl, s) && i < |s.looks| && !s.looks[i].phase.Done?
    ensures s.looks[i].phase.Reading? ==> Underway(tl, s.looks[i])
    ensures var l, step := s.looks[i], Onward(tl, s.looks[i], i);
      && Enabled(tl, s, step) && Take(tl, s, step).now == s.now && i < |Take(tl, s, step).looks|
      && var m := Take(tl, s, step).looks[i];
      && (StageOf(m) < StageOf(l) || (StageOf(m) == StageOf(l) && 0 <= ToRead(tl, m) < ToRead(tl, l)))
      && (m.phase.Done? ==> m.phase.ended == s.now)
  {
    var l := s.looks[i];
    assert Sound(tl, l, s.now);
    Later(tl, l.store, l.started, s.now);
  }

  /** No look waits on another: one that has not ended can end at any moment from then on. */
  lemma LookEnds(tl: History, s: Book, i: nat, t: nat) returns (steps: seq<Step>)
    requires Proceeds(tl) && BookInv(tl, s) && i < |s.looks| && !s.looks[i].phase.Done? && s.now <= t < |tl|
    ensures var end := Run(tl, s, steps);
      end.Some? && end.value.now == t && i < |end.value.looks| && end.value.looks[i].phase.Done?
        && end.value.looks[i].phase.ended == t
  {
    hide BookInv, Enabled, Take;
    steps := [];
    var cur := s;
    while cur.now < t
      invariant Run(tl, s, steps) == Some(cur) && BookInv(tl, cur) && cur.looks == s.looks && cur.now <= t
      decreases t - cur.now
    {
      TimePasses(tl, cur);
      StepKeeps(tl, cur, Tick);
      RunOn(tl, s, steps, Tick);
      steps, cur := steps + [Tick], Take(tl, cur, Tick);
    }
    while !cur.looks[i].phase.Done?
      invariant Run(tl, s, steps) == Some(cur) && BookInv(tl, cur) && i < |cur.looks| && cur.now == t
      invariant cur.looks[i].phase.Done? ==> cur.looks[i].phase.ended == t
      decreases StageOf(cur.looks[i]), ToRead(tl, cur.looks[i])
    {
      LookMoves(tl, cur, i);
      var step := Onward(tl, cur.looks[i], i);
      StepKeeps(tl, cur, step);
      RunOn(tl, s, steps, step);
      steps, cur := steps + [step], Take(tl, cur, step);
    }
  }

  lemma TimePasses(tl: History, s: Book)
    requires s.now + 1 < |tl|
    ensures Enabled(tl, s, Tick) && Take(tl, s, Tick).now == s.now + 1 && Take(tl, s, Tick).looks == s.looks
  {
  }

  // ---------------------------------------------------------------- the recheck of an accepted session

  /** The replicas a decision on a pod reads, and how the device records answer for a peer. */
  datatype Site = Site(pms: Option<NamespaceId>, membership: NamespaceId, lists: seq<Stored> -> bool)

  ghost predicate Reached(tl: History, site: Site, t: nat) {
    t < |tl| && site.membership in tl[t].stores && (site.pms.Some? ==> site.pms.value in tl[t].stores)
  }

  ghost function OwnDevice(tl: History, site: Site, t: nat): bool
    requires Reached(tl, site, t)
  {
    site.pms.Some? && site.lists(tl[t].stores[site.pms.value].entries)
  }

  /** When each write count was read, one after the other. */
  datatype When = When(pms: nat, membership: nat)

  ghost predicate CountedBefore(tl: History, site: Site, c: When, lo: nat) {
    c.pms <= c.membership <= lo && Reached(tl, site, c.pms) && Reached(tl, site, c.membership) && Reached(tl, site, lo)
  }

  ghost function Counts(tl: History, site: Site, c: When): seq<(NamespaceId, nat)>
    requires Reached(tl, site, c.pms) && Reached(tl, site, c.membership)
  {
    (if site.pms.Some? then [(site.pms.value, tl[c.pms].stores[site.pms.value].writes)] else [])
    + [(site.membership, tl[c.membership].stores[site.membership].writes)]
  }

  predicate Unwritten(m: Moment, counts: seq<(NamespaceId, nat)>) {
    forall i | 0 <= i < |counts| :: counts[i].0 in m.stores && m.stores[counts[i].0].writes == counts[i].1
  }

  /** Counts that stand now stood when the reads began. */
  lemma StoodSince(tl: History, site: Site, c: When, lo: nat, t: nat)
    requires Proceeds(tl) && CountedBefore(tl, site, c, lo) && lo <= t && Reached(tl, site, t)
      && Unwritten(tl[t], Counts(tl, site, c))
    ensures tl[t].stores[site.membership].writes == tl[lo].stores[site.membership].writes
    ensures site.pms.Some? ==> tl[t].stores[site.pms.value].writes == tl[lo].stores[site.pms.value].writes
  {
    var counts := Counts(tl, site, c);
    assert counts[|counts| - 1].0 == site.membership;
    Later(tl, site.membership, c.membership, lo);
    Later(tl, site.membership, lo, t);
    if site.pms.Some? {
      assert counts[0].0 == site.pms.value;
      Later(tl, site.pms.value, c.pms, lo);
      Later(tl, site.pms.value, lo, t);
    }
  }

  /** The decision's reads, all made between two moments. */
  ghost predicate DecidedWithin(tl: History, site: Site, lo: nat, hi: nat, read: Reads) {
    && lo <= hi && Reached(tl, site, lo) && Reached(tl, site, hi)
    && (exists p | lo <= p <= hi && Reached(tl, site, p) :: read.ownDevice == OwnDevice(tl, site, p))
    && ReadWithin(tl, site.membership, lo, hi, read.first)
    && (read.again.Some? ==> ReadWithin(tl, site.membership, lo, hi, read.again.value))
  }

  ghost function FreshReads(tl: History, site: Site, t: nat, again: bool): Reads
    requires Reached(tl, site, t)
  {
    Reads(OwnDevice(tl, site, t), Fresh(tl, site.membership, t),
          if again then Some(Fresh(tl, site.membership, t)) else None)
  }

  ghost function Decision(tl: History, rules: Rules, ask: Ask, site: Site, c: When, read: Reads): SessionAccess
    requires Reached(tl, site, c.pms) && Reached(tl, site, c.membership)
  {
    RestingOn(ClassifyPod(rules, ask, read), Writes(Counts(tl, site, c)))
  }

  predicate Alike(a: SessionAccess, b: SessionAccess) {
    a.Allow? == b.Allow? && (a.Allow? ==> a.egress == b.egress && a.ingest == b.ingest)
  }

  /** The one accept decision that rests on write counts though the read it was taken from may await a payload. */
  predicate TakesStatements(rules: Rules, ask: Ask, read: Reads) {
    ask.held && ask.caller != ask.me
      && ServePod(rules, ask.me, ask.store, ask.caller, ask.peer, Deciding(rules, ask, read)).None?
  }

  lemma SameDevice(tl: History, site: Site, lo: nat, hi: nat, read: Reads, t: nat)
    requires Proceeds(tl) && DecidedWithin(tl, site, lo, hi, read) && hi <= t && Reached(tl, site, t)
    requires site.pms.Some? ==> tl[t].stores[site.pms.value].writes == tl[lo].stores[site.pms.value].writes
    ensures read.ownDevice == OwnDevice(tl, site, t)
  {
    var p :| lo <= p <= hi && Reached(tl, site, p) && read.ownDevice == OwnDevice(tl, site, p);
    if site.pms.Some? {
      Later(tl, site.pms.value, lo, p);
      Later(tl, site.pms.value, p, t);
    }
  }

  /** An accept that rests on write counts is, while they stand, the decision the stores give now,
      unless it takes a member's statements from a read that awaits a payload. */
  lemma DecisionStands(tl: History, rules: Rules, ask: Ask, site: Site, c: When, lo: nat, hi: nat, read: Reads, t: nat,
      again: bool)
    requires Proceeds(tl) && CountedBefore(tl, site, c, lo) && DecidedWithin(tl, site, lo, hi, read) && hi <= t
      && Reached(tl, site, t)
    requires ask.role == Accept && Unwritten(tl[t], Counts(tl, site, c))
    requires var access := Decision(tl, rules, ask, site, c, read); access.Allow? && access.restsOn.Writes?
    requires !(TakesStatements(rules, ask, read) && Unarrived(Deciding(rules, ask, read)))
    ensures Alike(ClassifyPod(rules, ask, FreshReads(tl, site, t, again)), Decision(tl, rules, ask, site, c, read))
  {
    StoodSince(tl, site, c, lo, t);
    SameDevice(tl, site, lo, hi, read, t);
    if ask.held && ask.caller != ask.me {
      var deciding := Deciding(rules, ask, read);
      assert !Unarrived(deciding);
      CountTellsFreshness(tl, site.membership, lo, hi, deciding, t);
    }
  }

  /** And that one stands exactly while the view now still has the named member current, this identity not departed, and
      serves the caller's device nothing. */
  lemma TakenStatementsStandIff(tl: History, rules: Rules, ask: Ask, site: Site, c: When, lo: nat, hi: nat, read: Reads,
      t: nat, again: bool)
    requires CountedBefore(tl, site, c, lo) && DecidedWithin(tl, site, lo, hi, read) && Reached(tl, site, t)
    requires ask.role == Accept && TakesStatements(rules, ask, read) && Decision(tl, rules, ask, site, c, read).Allow?
    ensures Alike(ClassifyPod(rules, ask, FreshReads(tl, site, t, again)), Decision(tl, rules, ask, site, c, read)) <==>
      var view := rules.view(Fresh(tl, site.membership, t));
      !Served(ask, view) && StandingOf(view, ask.caller) == Active && StandingOf(view, ask.me) != Former
  {
    ServedMeans(rules, ask, Fresh(tl, site.membership, t));
  }

  /** An accepted session: decided between `lo` and `hi`, its snapshot frozen at `froze`, and asked again between
      `lo2` and `hi2` unless what the first decision rested on stands at the freeze. */
  datatype Accepted = Accepted(counted: bool, counts: When, lo: nat, hi: nat, read: Reads, froze: nat, lo2: nat,
      hi2: nat, read2: Reads)

  ghost predicate AcceptRun(tl: History, site: Site, r: Accepted) {
    && CountedBefore(tl, site, r.counts, r.lo) && DecidedWithin(tl, site, r.lo, r.hi, r.read) && r.hi <= r.froze
      && Reached(tl, site, r.froze)
    && DecidedWithin(tl, site, r.lo2, r.hi2, r.read2) && r.froze <= r.lo2
  }

  ghost function FirstDecision(tl: History, rules: Rules, ask: Ask, site: Site, r: Accepted): SessionAccess
    requires AcceptRun(tl, site, r)
  {
    RestingOn(ClassifyPod(rules, ask, r.read), if r.counted then Writes(Counts(tl, site, r.counts)) else Unknown)
  }

  ghost function InForce(tl: History, rules: Rules, ask: Ask, site: Site, r: Accepted): SessionAccess
    requires AcceptRun(tl, site, r)
  {
    var first := FirstDecision(tl, rules, ask, site, r);
    if first.Deny? then Deny
    else
      var holds := match first.restsOn
        case Nothing => true
        case Writes(counts) => Unwritten(tl[r.froze], counts)
        case Unknown => false;
      if holds then first else ClassifyPod(rules, ask, r.read2)
  }

  lemma FreshIsDecided(tl: History, site: Site, t: nat, hi: nat)
    requires Reached(tl, site, t) && t <= hi && Reached(tl, site, hi)
    ensures DecidedWithin(tl, site, t, hi, FreshReads(tl, site, t, false))
  {
    FreshIsRead(tl, site.membership, t, t, hi);
  }

  /** What a session's snapshot is served by is the decision of reads no older than the snapshot, but for a member's
      statements taken from a read that awaited a payload, which is served nothing. */
  lemma SnapshotIsJudgedAsOfItself(tl: History, rules: Rules, ask: Ask, site: Site, r: Accepted) returns (read: Reads)
    requires Proceeds(tl) && AcceptRun(tl, site, r) && ask.role == Accept
    ensures DecidedWithin(tl, site, r.froze, r.hi2, read)
    ensures var access := InForce(tl, rules, ask, site, r); access.Allow? ==>
      || Alike(ClassifyPod(rules, ask, read), access)
      || (access.egress == Closed && TakesStatements(rules, ask, r.read) && Unarrived(Deciding(rules, ask, r.read)))
  {
    var first := FirstDecision(tl, rules, ask, site, r);
    if first.Allow? && first.restsOn.Writes? && Unwritten(tl[r.froze], first.restsOn.counts) {
      read := FreshReads(tl, site, r.froze, false);
      FreshIsDecided(tl, site, r.froze, r.hi2);
      if !(TakesStatements(rules, ask, r.read) && Unarrived(Deciding(rules, ask, r.read))) {
        DecisionStands(tl, rules, ask, site, r.counts, r.lo, r.hi, r.read, r.froze, false);
      }
    } else {
      read := r.read2;
      SecondReads(tl, site, r);
    }
  }

  lemma SecondReads(tl: History, site: Site, r: Accepted)
    requires AcceptRun(tl, site, r)
    ensures DecidedWithin(tl, site, r.froze, r.hi2, r.read2)
  {
    WithinFrom(tl, site.membership, r.froze, r.lo2, r.hi2, r.read2.first);
    if r.read2.again.Some? { WithinFrom(tl, site.membership, r.froze, r.lo2, r.hi2, r.read2.again.value); }
    var p :| r.lo2 <= p <= r.hi2 && Reached(tl, site, p) && r.read2.ownDevice == OwnDevice(tl, site, p);
    assert r.froze <= p <= r.hi2;
  }

  lemma WithinFrom(tl: History, ns: NamespaceId, lo: nat, lo': nat, hi: nat, read: seq<HeldEntry>)
    requires ReadWithin(tl, ns, lo', hi, read) && lo <= lo'
    ensures ReadWithin(tl, ns, lo, hi, read)
  {
    var b, ts :| ReadAt(tl, ns, lo', hi, b, ts, read);
    assert ReadAt(tl, ns, lo, hi, b, ts, read);
  }

  /** An entry a frozen snapshot reveals to a caller is revealed to one the stores, read no earlier than the freeze,
      entitle to the whole store or to a departure's past holding that entry. */
  lemma SnapshotReveals(tl: History, rules: Rules, ask: Ask, site: Site, r: Accepted, e: SignedEntry)
      returns (read: Reads)
    requires Proceeds(tl) && AcceptRun(tl, site, r) && ask.role == Accept
    requires var access := InForce(tl, rules, ask, site, r); access.Allow? && Reveals(ask.me, access.egress, e)
    ensures DecidedWithin(tl, site, r.froze, r.hi2, read)
    ensures
      || Entitled(rules, ask, read)
      || var entries := Basis(rules, ask, read);
         (ask.store == Membership && HasDevice(rules.view(entries), ask.caller, ask.peer)
          && exists id | id == ask.me || id == ask.caller ::
            StandingOf(rules.view(entries), id) == Former && e in rules.past(entries, id))
  {
    read := SnapshotIsJudgedAsOfItself(tl, rules, ask, site, r);
    EgressIsConfined(rules, ask, read);
    var access := InForce(tl, rules, ask, site, r);
    assert access.egress != Closed;
    hide *;
    assert Alike(ClassifyPod(rules, ask, read), access);
  }

  /** A held statement of the caller whose payload was read. */
  predicate StatementRead(entries: seq<HeldEntry>, caller: PdnId) {
    exists h | h in entries :: h.key.Devices? && h.key.member == caller && h.payload.Read?
  }

  /** A view in which the caller is a current member whose device is known by its own statement alone. */
  function ByStatement(caller: PdnId, peer: NodeId): Rules {
    Rules(entries =>
            map[caller := Member(true, None, if StatementRead(entries, caller) then {Device(peer, 0)} else {})],
          (entries, id) => {},
          (entries, id) => {})
  }

  /** That exception is real: a store holds the named member's device statement and awaits its payload, at both reads;
      the payload arrives, no count moves, the statements-only accept stands, and a decision taken now would serve the
      store whole. */
  lemma TakenStatementsGoStale(replica: Replica, blobs: set<Hash>, me: PdnId, caller: PdnId, peer: NodeId, e: Stored)
      returns (tl: History)
    requires me != caller && e in replica.entries && e.key.Devices? && e.key.member == caller
      && Hold(e, blobs).payload == Awaited
    requires forall f | f in replica.entries && f.key.Devices? && f.key.member == caller ::
      !Hold(f, blobs).payload.Read?
    ensures tl == [Moment(map[0 := replica], blobs), Moment(map[0 := replica], blobs + {e.hash})] && Proceeds(tl)
    ensures var site, c := Site(None, 0, _ => false), When(0, 0);
      var rules := ByStatement(caller, peer);
      var ask := Ask(me, Accept, Membership, true, caller, peer);
      var read := Reads(false, Fresh(tl, 0, 0), Some(Fresh(tl, 0, 0)));
      && CountedBefore(tl, site, c, 0) && DecidedWithin(tl, site, 0, 0, read) && Unwritten(tl[1], Counts(tl, site, c))
      && Decision(tl, rules, ask, site, c, read) == Allow(Closed, TakeSigned({}, Some(caller)),
        Writes(Counts(tl, site, c)))
      && ClassifyPod(rules, ask, FreshReads(tl, site, 1, true)).egress == Whole
  {
    tl := [Moment(map[0 := replica], blobs), Moment(map[0 := replica], blobs + {e.hash})];
    FreshIsRead(tl, 0, 0, 0, 0);
    StatementArrives(tl, replica, blobs, caller, e);
    var site, rules, ask := Site(None, 0, _ => false), ByStatement(caller, peer),
      Ask(me, Accept, Membership, true, caller, peer);
    assert OwnDevice(tl, site, 0) == false;
    var view := rules.view;
    assert view(Fresh(tl, 0, 1))[caller].devices == {Device(peer, 0)};
    assert Device(peer, 0) in view(Fresh(tl, 0, 1))[caller].devices;
    assert Listed(view(Fresh(tl, 0, 1)), caller, peer);
  }

  lemma StatementArrives(tl: History, replica: Replica, blobs: set<Hash>, caller: PdnId, e: Stored)
    requires tl == [Moment(map[0 := replica], blobs), Moment(map[0 := replica], blobs + {e.hash})]
    requires e in replica.entries && e.key.Devices? && e.key.member == caller && Hold(e, blobs).payload == Awaited
    requires forall f | f in replica.entries && f.key.Devices? && f.key.member == caller ::
      !Hold(f, blobs).payload.Read?
    ensures !StatementRead(Fresh(tl, 0, 0), caller) && StatementRead(Fresh(tl, 0, 1), caller)
  {
    var i :| 0 <= i < |replica.entries| && replica.entries[i] == e;
    assert Fresh(tl, 0, 1)[i] in Fresh(tl, 0, 1);
    forall h | h in Fresh(tl, 0, 0) && h.key.Devices? && h.key.member == caller ensures !h.payload.Read? {
      var j :| 0 <= j < |replica.entries| && Fresh(tl, 0, 0)[j] == h;
      assert replica.entries[j] in replica.entries;
    }
  }
}
