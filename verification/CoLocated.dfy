/** The pass over pairs of identities hosted on one node: it leaves a pair alone only where its last session left
    nothing to carry, and over entries that stop coming it stops opening sessions. */
module CoLocated {
  import opened Ids
  import opened Reconcile
  import opened Options
  import Sets

  /** One identity's replica of one namespace. */
  datatype Slot = Slot(identity: PdnId, ns: NamespaceId)

  /** What a replica holds, and how many writes brought it there. */
  datatype Replica = Replica(writes: nat, content: map<int, int>)

  function Learn(r: Replica, e: Entry): Replica {
    if Put(r.content, e) == r.content then r else Replica(r.writes + 1, Put(r.content, e))
  }

  predicate Covered(e: Entry, content: map<int, int>) { e.key in content && e.value <= content[e.key] }

  predicate Below(a: map<int, int>, b: map<int, int>) { forall k | k in a :: Covered(Entry(k, a[k]), b) }

  function Entries(content: map<int, int>): set<Entry> { set k | k in content :: Entry(k, content[k]) }

  /** A replica as it was: the count tells whether it is still so. */
  predicate Past(was: Replica, cur: Replica) {
    was.writes <= cur.writes && (was.writes == cur.writes ==> was == cur) && Below(was.content, cur.content)
  }

  /** Two identities in the order of their ids, and a namespace both hold. */
  datatype Pair = Pair(first: PdnId, second: PdnId, ns: NamespaceId)

  /** The pair's key whichever side the pass walked from. */
  function Ordered(source: PdnId, target: PdnId, ns: NamespaceId): (p: Pair)
    ensures p.first <= p.second && {p.first, p.second} == {source, target}
  {
    if source <= target then Pair(source, target, ns) else Pair(target, source, ns)
  }

  /** A pod's record store beside its membership store. */
  type Records = map<NamespaceId, NamespaceId>

  function Stores(records: Records, pair: Pair): set<NamespaceId> {
    {pair.ns} + if pair.ns in records then {records[pair.ns]} else {}
  }

  function Slots(records: Records, pair: Pair): set<Slot> {
    (set s | s in Stores(records, pair) :: Slot(pair.first, s))
    + (set s | s in Stores(records, pair) :: Slot(pair.second, s))
  }

  type Reading = map<Slot, Replica>

  predicate SameCounts(a: Reading, b: Reading) {
    a.Keys == b.Keys && forall s | s in a :: a[s].writes == b[s].writes
  }

  /** Entries on their way into a replica's store. */
  datatype Delivery = Delivery(to: Slot, rest: set<Entry>)

  /** A session over one store: both sides as frozen, and what of each the one side serves and the other admits. */
  datatype Snap = Snap(dialer: Replica, acceptor: Replica, brings: set<Entry>, sends: set<Entry>, toDialer: nat,
      toAcceptor: nat)

  /** The pass at one pair: counts read, then, when they moved, a session per store. */
  datatype Visit = Visit(pair: Pair, dialer: PdnId, got: Reading, open: bool, frozen: map<NamespaceId, Replica>,
      snaps: map<NamespaceId, Snap>)

  /** What a pair's last successful sessions were begun from. */
  datatype Memo = Memo(reading: Reading, dialer: PdnId, snaps: map<NamespaceId, Snap>)

  /** The sessions opened for a pair, and how many of them went through or failed. */
  datatype Tally = Tally(begun: nat, succeeded: nat, failed: nat)

  datatype Node = Node(replicas: map<Slot, Replica>, deliveries: seq<Delivery>, memo: map<Pair, Memo>,
      visit: Option<Visit>, tally: map<Pair, Tally>)

  function TallyOf(n: Node, pair: Pair): Tally { if pair in n.tally then n.tally[pair] else Tally(0, 0, 0) }

  function Other(pair: Pair, dialer: PdnId): PdnId { if dialer == pair.first then pair.second else pair.first }

  datatype Step =
    | Write(slot: Slot, e: Entry)
    | Deliver(j: nat, e: Entry)
    | Begin(source: PdnId, target: PdnId, ns: NamespaceId)
    | Count(slot: Slot)
    | Skip
    | Open
    | Freeze(s: NamespaceId)
    | Answer(s: NamespaceId, brings: set<Entry>, sends: set<Entry>)
    | Fail
    | Succeed

  predicate Complete(records: Records, v: Visit) { v.got.Keys == Slots(records, v.pair) }

  predicate Enabled(records: Records, n: Node, step: Step) {
    match step
    case Write(slot, _) => slot in n.replicas
    case Deliver(j, e) => j < |n.deliveries| && e in n.deliveries[j].rest && n.deliveries[j].to in n.replicas
    case Begin(source, target, ns) =>
      n.visit.None? && source != target && Slots(records, Ordered(source, target, ns)) <= n.replicas.Keys
    case Count(slot) =>
      n.visit.Some? && !n.visit.value.open && slot in Slots(records, n.visit.value.pair) - n.visit.value.got.Keys
      && slot in n.replicas
    case Skip => Counted(records, n) && Unmoved(n)
    case Open => Counted(records, n) && !Unmoved(n)
    case Freeze(s) =>
      InSession(records, n, s) && s !in n.visit.value.frozen && Slot(n.visit.value.dialer, s) in n.replicas
    case Answer(s, brings, sends) =>
      && InSession(records, n, s) && s in n.visit.value.frozen && s !in n.visit.value.snaps
      && sends <= Entries(n.visit.value.frozen[s].content)
      && var there := Slot(Other(n.visit.value.pair, n.visit.value.dialer), s);
         there in n.replicas && brings <= Entries(n.replicas[there].content)
    case Fail => n.visit.Some?
    case Succeed =>
      && n.visit.Some? && n.visit.value.open && n.visit.value.snaps.Keys == Stores(records, n.visit.value.pair)
      && forall s | s in n.visit.value.snaps ::
        var j := n.visit.value.snaps[s].toDialer;
        j < |n.deliveries| && n.deliveries[j].rest == {}
  }

  predicate Counted(records: Records, n: Node) {
    n.visit.Some? && !n.visit.value.open && Complete(records, n.visit.value)
  }

  predicate Unmoved(n: Node)
    requires n.visit.Some?
  {
    n.visit.value.pair in n.memo && SameCounts(n.memo[n.visit.value.pair].reading, n.visit.value.got)
  }

  predicate InSession(records: Records, n: Node, s: NamespaceId) {
    n.visit.Some? && n.visit.value.open && s in Stores(records, n.visit.value.pair)
  }

  function Next(records: Records, n: Node, step: Step): Node
    requires Enabled(records, n, step)
  {
    match step
    case Write(slot, e) => n.(replicas := n.replicas[slot := Learn(n.replicas[slot], e)])
    case Deliver(j, e) =>
      var d := n.deliveries[j];
      n.(replicas := n.replicas[d.to := Learn(n.replicas[d.to], e)],
        deliveries := n.deliveries[j := Delivery(d.to, d.rest - {e})])
    case Begin(source, target, ns) =>
      n.(visit := Some(Visit(Ordered(source, target, ns), source, map[], false, map[], map[])))
    case Count(slot) => n.(visit := Some(n.visit.value.(got := n.visit.value.got[slot := n.replicas[slot]])))
    case Skip => n.(visit := None)
    case Open =>
      var v := n.visit.value;
      var t := TallyOf(n, v.pair);
      n.(visit := Some(v.(open := true)), tally := n.tally[v.pair := t.(begun := t.begun + 1)])
    case Freeze(s) =>
      var v := n.visit.value;
      n.(visit := Some(v.(frozen := v.frozen[s := n.replicas[Slot(v.dialer, s)]])))
    case Answer(s, brings, sends) =>
      var v := n.visit.value;
      var there := Slot(Other(v.pair, v.dialer), s);
      var snap := Snap(v.frozen[s], n.replicas[there], brings, sends, |n.deliveries|, |n.deliveries| + 1);
      n.(visit := Some(v.(snaps := v.snaps[s := snap])),
         deliveries := n.deliveries + [Delivery(Slot(v.dialer, s), brings), Delivery(there, sends)])
    case Fail =>
      var v := n.visit.value;
      var t := TallyOf(n, v.pair);
      n.(visit := None, tally := if v.open then n.tally[v.pair := t.(failed := t.failed + 1)] else n.tally)
    case Succeed =>
      var v := n.visit.value;
      var t := TallyOf(n, v.pair);
      n.(visit := None, memo := n.memo[v.pair := Memo(v.got, v.dialer, v.snaps)],
         tally := n.tally[v.pair := t.(succeeded := t.succeeded + 1)])
  }

  // ---------------------------------------------------------------- what every step keeps

  /** Each of the entries is in the replica or on its way there. */
  ghost predicate Arriving(n: Node, j: nat, to: Slot, es: set<Entry>) {
    && j < |n.deliveries| && n.deliveries[j].to == to && to in n.replicas
    && forall e | e in es :: Covered(e, n.replicas[to].content) || e in n.deliveries[j].rest
  }

  predicate AllCovered(es: set<Entry>, content: map<int, int>) { forall e | e in es :: Covered(e, content) }

  /** A session's frozen sides: no older than the reading, no newer than now, and each on its way to the other. */
  ghost predicate SnapSound(n: Node, pair: Pair, dialer: PdnId, reading: Reading, s: NamespaceId, snap: Snap) {
    var here, there := Slot(dialer, s), Slot(Other(pair, dialer), s);
    && here in reading && there in reading && here in n.replicas && there in n.replicas
    && Past(reading[here], snap.dialer) && Past(snap.dialer, n.replicas[here])
    && Past(reading[there], snap.acceptor) && Past(snap.acceptor, n.replicas[there])
    && Arriving(n, snap.toDialer, here, snap.brings) && Arriving(n, snap.toAcceptor, there, snap.sends)
    && snap.brings <= Entries(snap.acceptor.content) && snap.sends <= Entries(snap.dialer.content)
  }

  ghost predicate ReadSound(n: Node, reading: Reading) {
    forall s | s in reading :: s in n.replicas && Past(reading[s], n.replicas[s])
  }

  ghost predicate MemoSound(records: Records, n: Node, pair: Pair, m: Memo) {
    && (m.dialer == pair.first || m.dialer == pair.second) && pair.first != pair.second
    && m.reading.Keys == Slots(records, pair) && ReadSound(n, m.reading) && m.snaps.Keys == Stores(records, pair)
    && forall s | s in m.snaps ::
         SnapSound(n, pair, m.dialer, m.reading, s, m.snaps[s])
           && AllCovered(m.snaps[s].brings, n.replicas[Slot(m.dialer, s)].content)
  }

  /** What a visit reads of a pair the memo knows, it reads after that pair's sessions. */
  ghost predicate SinceMemo(m: Memo, pair: Pair, got: Reading) {
    forall s | s in m.snaps ::
      var here, there := Slot(m.dialer, s), Slot(Other(pair, m.dialer), s);
      && (here in got ==> Past(m.snaps[s].dialer, got[here]) && AllCovered(m.snaps[s].brings, got[here].content))
      && (there in got ==> Past(m.snaps[s].acceptor, got[there]))
  }

  ghost predicate CountsSound(records: Records, n: Node, v: Visit) {
    && (v.dialer == v.pair.first || v.dialer == v.pair.second) && v.pair.first != v.pair.second
    && v.got.Keys <= Slots(records, v.pair) <= n.replicas.Keys && ReadSound(n, v.got)
    && (v.pair in n.memo ==> SinceMemo(n.memo[v.pair], v.pair, v.got))
    && (if v.open then Complete(records, v) && (v.pair in n.memo ==> !SameCounts(n.memo[v.pair].reading, v.got))
        else v.frozen == map[] && v.snaps == map[])
  }

  ghost predicate FrozenSound(records: Records, n: Node, v: Visit, s: NamespaceId, r: Replica) {
    && s in Stores(records, v.pair) && Slot(v.dialer, s) in v.got && Slot(v.dialer, s) in n.replicas
    && Past(v.got[Slot(v.dialer, s)], r) && Past(r, n.replicas[Slot(v.dialer, s)])
  }

  ghost predicate VisitSound(records: Records, n: Node, v: Visit) {
    && CountsSound(records, n, v)
    && (forall s | s in v.frozen :: FrozenSound(records, n, v, s, v.frozen[s]))
    && (forall s | s in v.snaps ::
      s in v.frozen && v.snaps[s].dialer == v.frozen[s] && SnapSound(n, v.pair, v.dialer, v.got, s, v.snaps[s]))
  }

  ghost predicate Inv(records: Records, n: Node) {
    && (forall p | p in n.memo :: MemoSound(records, n, p, n.memo[p]))
    && (n.visit.Some? ==> VisitSound(records, n, n.visit.value))
  }

  lemma LearnPast(r: Replica, e: Entry)
    ensures Past(r, Learn(r, e)) && Covered(e, Learn(r, e).content)
  {
  }

  /** Replicas learn, and deliveries lose only what their replica has learned. */
  ghost predicate Grows(n: Node, m: Node) {
    && n.replicas.Keys <= m.replicas.Keys && (forall s | s in n.replicas :: Past(n.replicas[s], m.replicas[s]))
    && |n.deliveries| <= |m.deliveries|
    && (forall j | 0 <= j < |n.deliveries| ::
         && m.deliveries[j].to == n.deliveries[j].to && m.deliveries[j].rest <= n.deliveries[j].rest
         && forall e | e in n.deliveries[j].rest - m.deliveries[j].rest ::
           m.deliveries[j].to in m.replicas && Covered(e, m.replicas[m.deliveries[j].to].content))
  }

  lemma SnapGrows(n: Node, m: Node, pair: Pair, dialer: PdnId, reading: Reading, s: NamespaceId, snap: Snap)
    requires Grows(n, m) && SnapSound(n, pair, dialer, reading, s, snap)
    ensures SnapSound(m, pair, dialer, reading, s, snap)
  {
  }

  lemma ReadGrows(n: Node, m: Node, reading: Reading)
    requires Grows(n, m) && ReadSound(n, reading)
    ensures ReadSound(m, reading)
  {
  }

  lemma MemoGrows(records: Records, n: Node, m: Node, pair: Pair, memo: Memo)
    requires Grows(n, m) && MemoSound(records, n, pair, memo)
    ensures MemoSound(records, m, pair, memo)
  {
    hide SnapSound, Past;
    ReadGrows(n, m, memo.reading);
    forall s | s in memo.snaps
      ensures SnapSound(m, pair, memo.dialer, memo.reading, s, memo.snaps[s])
        && AllCovered(memo.snaps[s].brings, m.replicas[Slot(memo.dialer, s)].content)
    {
      assert SnapSound(n, pair, memo.dialer, memo.reading, s, memo.snaps[s]);
      SnapGrows(n, m, pair, memo.dialer, memo.reading, s, memo.snaps[s]);
      MemoBelow(n, m, pair, memo, s);
    }
  }

  lemma MemoBelow(n: Node, m: Node, pair: Pair, memo: Memo, s: NamespaceId)
    requires Grows(n, m) && s in memo.snaps && SnapSound(n, pair, memo.dialer, memo.reading, s, memo.snaps[s])
    requires AllCovered(memo.snaps[s].brings, n.replicas[Slot(memo.dialer, s)].content)
    ensures Slot(memo.dialer, s) in m.replicas
      && AllCovered(memo.snaps[s].brings, m.replicas[Slot(memo.dialer, s)].content)
  {
  }

  lemma VisitGrows(records: Records, n: Node, m: Node, v: Visit)
    requires Grows(n, m) && VisitSound(records, n, v) && m.memo == n.memo
    ensures VisitSound(records, m, v)
  {
    hide SnapSound, FrozenSound, Past, SinceMemo, SameCounts;
    ReadGrows(n, m, v.got);
    forall s | s in v.frozen ensures FrozenSound(records, m, v, s, v.frozen[s]) {
      FrozenGrows(records, n, m, v, s, v.frozen[s]);
    }
    forall s | s in v.snaps ensures SnapSound(m, v.pair, v.dialer, v.got, s, v.snaps[s]) {
      SnapGrows(n, m, v.pair, v.dialer, v.got, s, v.snaps[s]);
    }
  }

  lemma FrozenGrows(records: Records, n: Node, m: Node, v: Visit, s: NamespaceId, r: Replica)
    requires Grows(n, m) && FrozenSound(records, n, v, s, r)
    ensures FrozenSound(records, m, v, s, r)
  {
  }

  lemma MemosKept(records: Records, n: Node, m: Node)
    requires Inv(records, n) && Grows(n, m)
    ensures forall p | p in n.memo :: MemoSound(records, m, p, n.memo[p])
  {
    hide MemoSound, VisitSound, Grows;
    forall p | p in n.memo ensures MemoSound(records, m, p, n.memo[p]) {
      MemoGrows(records, n, m, p, n.memo[p]);
    }
  }

  lemma StillGrows(n: Node, m: Node)
    requires m.replicas == n.replicas && n.deliveries <= m.deliveries
    ensures Grows(n, m)
  {
  }

  lemma LearningGrows(records: Records, n: Node, step: Step)
    requires Enabled(records, n, step) && (step.Write? || step.Deliver?)
    ensures Grows(n, Next(records, n, step))
  {
  }

  lemma CountSinceMemo(records: Records, n: Node, pair: Pair, memo: Memo, got: Reading, slot: Slot)
    requires MemoSound(records, n, pair, memo) && SinceMemo(memo, pair, got) && slot in n.replicas
    ensures SinceMemo(memo, pair, got[slot := n.replicas[slot]])
  {
  }

  /** A visit moving on leaves the memo's pairs as they are. */
  lemma Revisited(records: Records, n: Node, m: Node)
    requires Inv(records, n) && m.replicas == n.replicas && m.deliveries == n.deliveries && m.memo == n.memo
    requires m.visit.Some? ==> VisitSound(records, n, m.visit.value)
    ensures Inv(records, m)
  {
    hide MemoSound, VisitSound, Grows;
    StillGrows(n, m);
    MemosKept(records, n, m);
    if m.visit.Some? { VisitGrows(records, n, m, m.visit.value); }
  }

  lemma CountKeeps(records: Records, n: Node, v: Visit, slot: Slot)
    requires Inv(records, n) && VisitSound(records, n, v) && !v.open && slot in Slots(records, v.pair)
      && slot in n.replicas
    ensures VisitSound(records, n, v.(got := v.got[slot := n.replicas[slot]]))
  {
    hide MemoSound, SinceMemo, FrozenSound, SnapSound, SameCounts, Slots;
    assert Past(n.replicas[slot], n.replicas[slot]);
    if v.pair in n.memo { CountSinceMemo(records, n, v.pair, n.memo[v.pair], v.got, slot); }
  }

  lemma SameFrozen(records: Records, m: Node, v: Visit, w: Visit)
    requires w.pair == v.pair && w.dialer == v.dialer && w.got == v.got
    ensures forall t, r: Replica | FrozenSound(records, m, v, t, r) :: FrozenSound(records, m, w, t, r)
  {
  }

  lemma FreezeKeeps(records: Records, n: Node, v: Visit, s: NamespaceId)
    requires VisitSound(records, n, v) && v.open && s in Stores(records, v.pair) && s !in v.frozen
      && Slot(v.dialer, s) in n.replicas
    ensures VisitSound(records, n, v.(frozen := v.frozen[s := n.replicas[Slot(v.dialer, s)]]))
  {
  }

  lemma NewSnap(n: Node, m: Node, v: Visit, s: NamespaceId, there: Slot, snap: Snap)
    requires there == Slot(Other(v.pair, v.dialer), s) && there in v.got && there in n.replicas && s in v.frozen
      && Slot(v.dialer, s) in v.got && Slot(v.dialer, s) in n.replicas
    requires Past(v.got[there], n.replicas[there]) && Past(v.got[Slot(v.dialer, s)], v.frozen[s])
      && Past(v.frozen[s], n.replicas[Slot(v.dialer, s)])
    requires snap == Snap(v.frozen[s], n.replicas[there], snap.brings, snap.sends, |n.deliveries|, |n.deliveries| + 1)
      && m.replicas == n.replicas
    requires snap.brings <= Entries(snap.acceptor.content) && snap.sends <= Entries(snap.dialer.content)
    requires m.deliveries == n.deliveries + [Delivery(Slot(v.dialer, s), snap.brings), Delivery(there, snap.sends)]
    ensures SnapSound(m, v.pair, v.dialer, v.got, s, snap)
  {
  }

  lemma AnswerKeeps(records: Records, n: Node, m: Node, v: Visit, s: NamespaceId, there: Slot, snap: Snap)
    requires VisitSound(records, n, v) && v.open && s in v.frozen && there == Slot(Other(v.pair, v.dialer), s)
      && there in n.replicas
    requires snap == Snap(v.frozen[s], n.replicas[there], snap.brings, snap.sends, |n.deliveries|, |n.deliveries| + 1)
      && m.replicas == n.replicas && m.memo == n.memo
    requires snap.brings <= Entries(snap.acceptor.content) && snap.sends <= Entries(snap.dialer.content)
    requires m.deliveries == n.deliveries + [Delivery(Slot(v.dialer, s), snap.brings), Delivery(there, snap.sends)]
    ensures VisitSound(records, m, v.(snaps := v.snaps[s := snap]))
  {
    assert FrozenSound(records, n, v, s, v.frozen[s]);
    assert there in v.got;
    NewSnap(n, m, v, s, there, snap);
    StillGrows(n, m);
    VisitGrows(records, n, m, v);
    var w := v.(snaps := v.snaps[s := snap]);
    SameFrozen(records, m, v, w);
    hide Grows, FrozenSound, SnapSound, SinceMemo, SameCounts, Slots, Stores, Past, Entries;
  }

  lemma VisitBecomesMemo(records: Records, n: Node, v: Visit)
    requires VisitSound(records, n, v) && v.open && v.snaps.Keys == Stores(records, v.pair)
    requires forall s | s in v.snaps :: var j := v.snaps[s].toDialer; j < |n.deliveries| && n.deliveries[j].rest == {}
    ensures MemoSound(records, n, v.pair, Memo(v.got, v.dialer, v.snaps))
  {
  }

  lemma SucceedKeeps(records: Records, n: Node)
    requires Inv(records, n) && Enabled(records, n, Succeed)
    ensures Inv(records, Next(records, n, Succeed))
  {
    hide MemoSound, VisitSound, Grows, Stores, Slots;
    var v, m := n.visit.value, Next(records, n, Succeed);
    StillGrows(n, m);
    MemosKept(records, n, m);
    VisitBecomesMemo(records, n, v);
    MemoGrows(records, n, m, v.pair, m.memo[v.pair]);
  }

  lemma BeginKeeps(records: Records, n: Node, source: PdnId, target: PdnId, ns: NamespaceId)
    requires source != target && Slots(records, Ordered(source, target, ns)) <= n.replicas.Keys
    ensures VisitSound(records, n, Visit(Ordered(source, target, ns), source, map[], false, map[], map[]))
  {
  }

  lemma OpenKeeps(records: Records, n: Node, v: Visit)
    requires VisitSound(records, n, v) && !v.open && Complete(records, v)
    requires v.pair in n.memo ==> !SameCounts(n.memo[v.pair].reading, v.got)
    ensures VisitSound(records, n, v.(open := true))
  {
  }

  lemma StepKeeps(records: Records, n: Node, step: Step)
    requires Inv(records, n) && Enabled(records, n, step)
    ensures Inv(records, Next(records, n, step))
  {
    hide MemoSound, VisitSound, Grows, Slots, Stores, SameCounts;
    match step
    case Write(_, _) => LearningGrows(records, n, step); LearningKeeps(records, n, step);
    case Deliver(_, _) => LearningGrows(records, n, step); LearningKeeps(records, n, step);
    case Begin(source, target, ns) =>
      BeginKeeps(records, n, source, target, ns);
      Revisited(records, n, Next(records, n, step));
    case Count(slot) => CountKeeps(records, n, n.visit.value, slot); Revisited(records, n, Next(records, n, step));
    case Skip => Revisited(records, n, Next(records, n, step));
    case Fail => Revisited(records, n, Next(records, n, step));
    case Open => OpenKeeps(records, n, n.visit.value); Revisited(records, n, Next(records, n, step));
    case Freeze(s) => FreezeKeeps(records, n, n.visit.value, s); Revisited(records, n, Next(records, n, step));
    case Answer(s, _, _) => AnswerInv(records, n, step, s);
    case Succeed => SucceedKeeps(records, n);
  }

  lemma AnswerInv(records: Records, n: Node, step: Step, s: NamespaceId)
    requires Inv(records, n) && Enabled(records, n, step) && step.Answer? && step.s == s
    ensures Inv(records, Next(records, n, step))
  {
    hide MemoSound, VisitSound, Grows, Slots, Stores, Entries;
    var v, m := n.visit.value, Next(records, n, step);
    AnswerKeeps(records, n, m, v, s, Slot(Other(v.pair, v.dialer), s), m.visit.value.snaps[s]);
    StillGrows(n, m);
    MemosKept(records, n, m);
  }

  lemma LearningKeeps(records: Records, n: Node, step: Step)
    requires Inv(records, n) && Enabled(records, n, step) && (step.Write? || step.Deliver?)
      && Grows(n, Next(records, n, step))
    ensures Inv(records, Next(records, n, step))
  {
    var m := Next(records, n, step);
    hide MemoSound, VisitSound, Grows;
    MemosKept(records, n, m);
    if n.visit.Some? { VisitGrows(records, n, m, n.visit.value); }
  }

  // ---------------------------------------------------------------- over every run

  function Start(replicas: map<Slot, Replica>): Node { Node(replicas, [], map[], None, map[]) }

  function Run(records: Records, n: Node, steps: seq<Step>): Option<Node>
    decreases |steps|
  {
    if steps == [] then Some(n)
    else
      var before := Run(records, n, steps[..|steps| - 1]);
      var last := steps[|steps| - 1];
      if before.Some? && Enabled(records, before.value, last) then Some(Next(records, before.value, last)) else None
  }

  lemma {:induction false} RunKeeps(records: Records, n: Node, steps: seq<Step>)
    requires Inv(records, n) && Tallied(records, n)
    ensures Run(records, n, steps).Some? ==>
      Inv(records, Run(records, n, steps).value) && Tallied(records, Run(records, n, steps).value)
    decreases |steps|
  {
    hide Inv, Tallied;
    if steps != [] && Run(records, n, steps).Some? {
      RunKeeps(records, n, steps[..|steps| - 1]);
      var before := Run(records, n, steps[..|steps| - 1]).value;
      StepKeeps(records, before, steps[|steps| - 1]);
      TallyKept(records, before, steps[|steps| - 1]);
    }
  }

  lemma StartSound(records: Records, replicas: map<Slot, Replica>)
    ensures Inv(records, Start(replicas)) && Tallied(records, Start(replicas))
  {
  }

  lemma Unwritten(a: Replica, b: Replica, c: Replica)
    requires Past(a, b) && Past(b, c) && a.writes == c.writes
    ensures a == b == c
  {
  }

  lemma BelowBothWays(a: map<int, int>, b: map<int, int>)
    requires Below(a, b) && Below(b, a)
    ensures a == b
  {
    forall k | k in a ensures k in b && a[k] <= b[k] { assert Covered(Entry(k, a[k]), b); }
    forall k | k in b ensures k in a && b[k] <= a[k] { assert Covered(Entry(k, b[k]), a); }
    assert a.Keys == b.Keys;
  }

  /** In store `s` everything the accepting side of the pair's last session, as it is read now, served and the dialing
      side admitted is on the dialing side, and everything the other way is on the accepting side or on its way there;
      where both serve and admit everything, with nothing on the way and no write since the read, the two hold the
      same. */
  ghost predicate Agrees(n: Node, pair: Pair, got: Reading, m: Memo, s: NamespaceId)
    requires s in m.snaps
  {
    var here, there := Slot(m.dialer, s), Slot(Other(pair, m.dialer), s);
    var snap := m.snaps[s];
    && {here, there} == {Slot(pair.first, s), Slot(pair.second, s)} && here in got && there in got
    && snap.brings <= Entries(got[there].content) && AllCovered(snap.brings, got[here].content)
    && snap.sends <= Entries(got[here].content) && Arriving(n, snap.toAcceptor, there, snap.sends)
    && (snap.brings == Entries(got[there].content) && snap.sends == Entries(got[here].content)
        && n.deliveries[snap.toAcceptor].rest == {} && n.replicas[there].writes == got[there].writes
        ==> n.replicas[there].content == got[here].content)
  }

  lemma SnapAgrees(n: Node, pair: Pair, got: Reading, m: Memo, s: NamespaceId)
    requires s in m.snaps && SnapSound(n, pair, m.dialer, m.reading, s, m.snaps[s])
    requires m.dialer == pair.first || m.dialer == pair.second
    requires SinceMemo(m, pair, got) && SameCounts(m.reading, got) && ReadSound(n, got)
    ensures Agrees(n, pair, got, m, s)
  {
    var here, there, snap := Slot(m.dialer, s), Slot(Other(pair, m.dialer), s), m.snaps[s];
    Unwritten(m.reading[here], snap.dialer, got[here]);
    Unwritten(m.reading[there], snap.acceptor, got[there]);
    if snap.brings == Entries(got[there].content) && snap.sends == Entries(got[here].content)
       && n.deliveries[snap.toAcceptor].rest == {} && n.replicas[there].writes == got[there].writes {
      EntriesCovered(got[there].content, got[here].content);
      EntriesCovered(got[here].content, n.replicas[there].content);
      BelowBothWays(got[here].content, got[there].content);
    }
  }

  lemma EntriesCovered(a: map<int, int>, b: map<int, int>)
    requires AllCovered(Entries(a), b)
    ensures Below(a, b)
  {
    forall k | k in a ensures Covered(Entry(k, a[k]), b) { assert Entry(k, a[k]) in Entries(a); }
  }

  /** Over every run, a pair the pass skips agrees in each of its stores. */
  lemma SkippedPairAgrees(records: Records, replicas: map<Slot, Replica>, steps: seq<Step>, s: NamespaceId)
    requires Run(records, Start(replicas), steps).Some? && var n := Run(records, Start(replicas), steps).value;
      Enabled(records, n, Skip) && s in Stores(records, n.visit.value.pair)
    ensures var n := Run(records, Start(replicas), steps).value;
      var v := n.visit.value;
      v.pair in n.memo && s in n.memo[v.pair].snaps && Agrees(n, v.pair, v.got, n.memo[v.pair], s)
  {
    StartSound(records, replicas);
    RunKeeps(records, Start(replicas), steps);
    var n := Run(records, Start(replicas), steps).value;
    var v := n.visit.value;
    hide Run, SnapSound, SameCounts, SinceMemo, ReadSound, Agrees, Slots, FrozenSound;
    assert MemoSound(records, n, v.pair, n.memo[v.pair]) && CountsSound(records, n, v);
    SnapAgrees(n, v.pair, v.got, n.memo[v.pair], s);
  }

  // ---------------------------------------------------------------- sessions do not pile up

  function Weight(records: Records, pair: Pair, reading: Reading): nat
    requires Slots(records, pair) <= reading.Keys
  {
    InSlots(records, pair);
    reading[Slot(pair.first, pair.ns)].writes + reading[Slot(pair.second, pair.ns)].writes
    + if pair.ns in records then
        reading[Slot(pair.first, records[pair.ns])].writes + reading[Slot(pair.second, records[pair.ns])].writes
      else 0
  }

  lemma InSlots(records: Records, pair: Pair)
    ensures forall s | s in Stores(records, pair) ::
      Slot(pair.first, s) in Slots(records, pair) && Slot(pair.second, s) in Slots(records, pair)
    ensures pair.ns in Stores(records, pair) && (pair.ns in records ==> records[pair.ns] in Stores(records, pair))
    ensures forall slot | slot in Slots(records, pair) ::
      slot.ns in Stores(records, pair) && (slot.identity == pair.first || slot.identity == pair.second)
  {
  }

  /** Each success had a larger reading than the one before it. */
  ghost predicate Tallied(records: Records, n: Node) {
    forall p | p in n.tally && n.tally[p].succeeded > 0 ::
      p in n.memo && n.memo[p].reading.Keys == Slots(records, p) && n.tally[p].succeeded <= 1
        + Weight(records, p, n.memo[p].reading)
  }

  lemma ReadingRises(records: Records, n: Node, v: Visit, m: Memo, slot: Slot)
    requires MemoSound(records, n, v.pair, m) && SinceMemo(m, v.pair, v.got) && v.got.Keys == Slots(records, v.pair)
      && slot in Slots(records, v.pair)
    ensures slot in m.reading && m.reading[slot].writes <= v.got[slot].writes
  {
  }

  lemma WeightStrict(records: Records, pair: Pair, a: Reading, b: Reading, moved: Slot)
    requires a.Keys == Slots(records, pair) == b.Keys && moved in a && a[moved].writes < b[moved].writes
    requires forall slot | slot in a :: a[slot].writes <= b[slot].writes
    ensures Weight(records, pair, a) < Weight(records, pair, b)
  {
  }

  lemma WeightRises(records: Records, n: Node, v: Visit, m: Memo)
    requires MemoSound(records, n, v.pair, m) && SinceMemo(m, v.pair, v.got) && v.got.Keys == Slots(records, v.pair)
      && !SameCounts(m.reading, v.got)
    ensures m.reading.Keys == Slots(records, v.pair)
      && Weight(records, v.pair, m.reading) < Weight(records, v.pair, v.got)
  {
    hide SinceMemo, Slots, Weight, SnapSound, ReadSound;
    var moved :| moved in m.reading && m.reading[moved].writes != v.got[moved].writes;
    hide MemoSound, SameCounts;
    forall slot | slot in v.got ensures slot in m.reading && m.reading[slot].writes <= v.got[slot].writes {
      ReadingRises(records, n, v, m, slot);
    }
    WeightStrict(records, v.pair, m.reading, v.got, moved);
  }

  lemma SuccessTallied(records: Records, n: Node, v: Visit)
    requires Inv(records, n) && Tallied(records, n) && VisitSound(records, n, v) && v.open
    ensures v.got.Keys == Slots(records, v.pair)
    ensures TallyOf(n, v.pair).succeeded <= Weight(records, v.pair, v.got)
  {
    hide SinceMemo, SameCounts, Slots, Weight, MemoSound, FrozenSound, SnapSound, ReadSound;
    assert CountsSound(records, n, v);
    if v.pair in n.memo { WeightRises(records, n, v, n.memo[v.pair]); }
  }

  lemma TallyKept(records: Records, n: Node, step: Step)
    requires Inv(records, n) && Tallied(records, n) && Enabled(records, n, step)
    ensures Tallied(records, Next(records, n, step))
  {
    hide MemoSound, VisitSound, SameCounts, Slots, Weight, Stores;
    if step.Succeed? { SuccessTallied(records, n, n.visit.value); }
  }

  // ---------------------------------------------------------------- and come to an end

  /** The entries of `u` a replica has yet to learn. */
  function Lacking(u: set<Entry>, r: Replica): set<Entry> { set e | e in u && !Covered(e, r.content) }

  lemma LearningUsesUp(u: set<Entry>, r: Replica, e: Entry)
    requires e in u
    ensures Learn(r, e).writes + |Lacking(u, Learn(r, e))| <= r.writes + |Lacking(u, r)|
  {
    var m := Learn(r, e);
    LearnPast(r, e);
    assert Lacking(u, m) <= Lacking(u, r);
    if m != r {
      assert e in Lacking(u, r) - Lacking(u, m);
      Sets.SubsetSmaller(Lacking(u, m), Lacking(u, r));
    }
  }

  ghost predicate Known(u: set<Entry>, content: map<int, int>) { forall k | k in content :: Entry(k, content[k]) in u }

  /** Every entry there is, held, frozen or on its way, is one of `u`. */
  ghost predicate Closed(u: set<Entry>, n: Node) {
    && (forall s | s in n.replicas :: Known(u, n.replicas[s].content))
    && (forall j | 0 <= j < |n.deliveries| :: n.deliveries[j].rest <= u)
    && (n.visit.Some? ==> forall s | s in n.visit.value.frozen :: Known(u, n.visit.value.frozen[s].content))
  }

  lemma EntriesKnown(u: set<Entry>, content: map<int, int>)
    requires Known(u, content)
    ensures Entries(content) <= u
  {
  }

  /** Without a write from outside, a write count rises only by entries the replica lacked. */
  lemma QuietStep(records: Records, u: set<Entry>, n: Node, step: Step)
    requires Enabled(records, n, step) && !step.Write? && Closed(u, n)
    ensures var m := Next(records, n, step);
      && Closed(u, m) && m.replicas.Keys == n.replicas.Keys
      && forall s | s in n.replicas ::
        m.replicas[s].writes + |Lacking(u, m.replicas[s])| <= n.replicas[s].writes + |Lacking(u, n.replicas[s])|
  {
    hide Lacking, Slots, Stores, SameCounts;
    if step.Deliver? { LearningUsesUp(u, n.replicas[n.deliveries[step.j].to], step.e); }
    if step.Answer? {
      EntriesKnown(u, n.visit.value.frozen[step.s].content);
      EntriesKnown(u, n.replicas[Slot(Other(n.visit.value.pair, n.visit.value.dialer), step.s)].content);
    }
  }

  predicate Quiet(steps: seq<Step>) { forall i | 0 <= i < |steps| :: !steps[i].Write? }

  lemma {:induction false} QuietRun(records: Records, u: set<Entry>, n: Node, steps: seq<Step>)
    requires Run(records, n, steps).Some? && Quiet(steps) && Closed(u, n)
    ensures var m := Run(records, n, steps).value;
      && Closed(u, m) && m.replicas.Keys == n.replicas.Keys
      && forall s | s in n.replicas ::
        m.replicas[s].writes + |Lacking(u, m.replicas[s])| <= n.replicas[s].writes + |Lacking(u, n.replicas[s])|
    decreases |steps|
  {
    hide Lacking, Closed;
    if steps != [] {
      QuietRun(records, u, n, steps[..|steps| - 1]);
      QuietStep(records, u, Run(records, n, steps[..|steps| - 1]).value, steps[|steps| - 1]);
    }
  }

  lemma WeightBounded(records: Records, pair: Pair, a: Reading, b: Reading, slack: nat)
    requires Slots(records, pair) <= a.Keys && Slots(records, pair) <= b.Keys
    requires forall slot | slot in Slots(records, pair) :: a[slot].writes <= b[slot].writes + slack
    ensures Weight(records, pair, a) <= Weight(records, pair, b) + 4 * slack
  {
  }

  predicate OpenAt(n: Node, pair: Pair) { n.visit.Some? && n.visit.value.open && n.visit.value.pair == pair }

  /** Every session opened went through, failed, or is the one under way. */
  ghost predicate Balanced(n: Node) {
    forall pair ::
      TallyOf(n, pair).begun == TallyOf(n, pair).succeeded + TallyOf(n, pair).failed + if OpenAt(n, pair) then 1 else 0
  }

  lemma BalanceKept(records: Records, n: Node, step: Step)
    requires Balanced(n) && Enabled(records, n, step)
    ensures Balanced(Next(records, n, step))
  {
    var m := Next(records, n, step);
    forall pair
      ensures TallyOf(m, pair).begun == TallyOf(m, pair).succeeded + TallyOf(m, pair).failed
        + if OpenAt(m, pair) then 1 else 0
    {
      assert TallyOf(n, pair).begun == TallyOf(n, pair).succeeded + TallyOf(n, pair).failed
        + if OpenAt(n, pair) then 1 else 0;
    }
  }

  lemma {:induction false} RunBalances(records: Records, n: Node, steps: seq<Step>)
    requires Balanced(n) && Run(records, n, steps).Some?
    ensures Balanced(Run(records, n, steps).value)
    decreases |steps|
  {
    hide Balanced;
    if steps != [] {
      RunBalances(records, n, steps[..|steps| - 1]);
      BalanceKept(records, Run(records, n, steps[..|steps| - 1]).value, steps[|steps| - 1]);
    }
  }

  lemma SuccessesEnd(records: Records, n: Node, after: seq<Step>, u: set<Entry>, pair: Pair)
    requires Inv(records, n) && Tallied(records, n) && Closed(u, n) && Quiet(after) && Run(records, n, after).Some?
    requires Slots(records, pair) <= n.replicas.Keys
    ensures TallyOf(Run(records, n, after).value, pair).succeeded <= 1 + Weight(records, pair, n.replicas) + 4 * |u|
  {
    RunKeeps(records, n, after);
    QuietRun(records, u, n, after);
    var m := Run(records, n, after).value;
    hide Run, Weight, Slots, Stores, SnapSound, VisitSound;
    if TallyOf(m, pair).succeeded > 0 {
      assert MemoSound(records, m, pair, m.memo[pair]);
      WeightBounded(records, pair, m.memo[pair].reading, m.replicas, 0);
      forall slot | slot in Slots(records, pair) ensures m.replicas[slot].writes <= n.replicas[slot].writes + |u| {
        Sets.SubsetSize(Lacking(u, n.replicas[slot]), u);
      }
      WeightBounded(records, pair, m.replicas, n.replicas, |u|);
    }
  }

  /** Once no write comes from outside, the sessions opened for a pair number at most those that failed, a bound fixed
      at that moment, and the one under way, however long the pass goes on and from whichever side it walks. */
  lemma SessionsEnd(records: Records, replicas: map<Slot, Replica>, before: seq<Step>, after: seq<Step>,
      u: set<Entry>, pair: Pair)
    requires Run(records, Start(replicas), before).Some? && var n := Run(records, Start(replicas), before).value;
      Closed(u, n) && Quiet(after) && Run(records, n, after).Some? && Slots(records, pair) <= n.replicas.Keys
    ensures var n := Run(records, Start(replicas), before).value;
      var m := Run(records, n, after).value;
      TallyOf(m, pair).begun
        <= TallyOf(m, pair).failed + 1 + Weight(records, pair, n.replicas) + 4 * |u| + if OpenAt(m, pair) then 1 else 0
  {
    StartSound(records, replicas);
    RunKeeps(records, Start(replicas), before);
    RunBalances(records, Start(replicas), before);
    var n := Run(records, Start(replicas), before).value;
    RunBalances(records, n, after);
    hide Run, Weight, Slots, Inv, Tallied, Closed;
    SuccessesEnd(records, n, after, u, pair);
  }

  // ---------------------------------------------------------------- sessions that fail

  lemma RunOn(records: Records, n: Node, steps: seq<Step>, step: Step, from: Node) returns (more: seq<Step>, to: Node)
    requires Run(records, n, steps) == Some(from) && Enabled(records, from, step)
    ensures more == steps + [step] && to == Next(records, from, step) && Run(records, n, more) == Some(to)
  {
    more, to := steps + [step], Next(records, from, step);
    assert more[..|steps|] == steps;
  }

  /** Both counts of a pair without a record store read. */
  lemma CountsBoth(records: Records, from: Node, source: PdnId, target: PdnId, ns: NamespaceId) returns (v: Visit)
    requires source != target && ns !in records && Slots(records, Ordered(source, target, ns)) <= from.replicas.Keys
      && from.visit.None?
    ensures var pair := Ordered(source, target, ns);
      var n1 := from.(visit := Some(Visit(pair, source, map[], false, map[], map[])));
      && Enabled(records, from, Begin(source, target, ns)) && Next(records, from, Begin(source, target, ns)) == n1
      && Enabled(records, n1, Count(Slot(pair.first, ns)))
      && var n2 := Next(records, n1, Count(Slot(pair.first, ns)));
      && Enabled(records, n2, Count(Slot(pair.second, ns)))
      && Next(records, n2, Count(Slot(pair.second, ns))) == from.(visit := Some(v))
      && v.pair == pair && !v.open && Complete(records, v)
  {
    var pair := Ordered(source, target, ns);
    TwoSlots(records, pair);
    var a, b := Slot(pair.first, ns), Slot(pair.second, ns);
    v := Visit(pair, source, map[a := from.replicas[a]][b := from.replicas[b]], false, map[], map[]);
    assert v.got.Keys == {a, b};
  }

  lemma FailsOpened(records: Records, from: Node, v: Visit)
    requires v.pair !in from.memo && !v.open && Complete(records, v)
    ensures var n3, t := from.(visit := Some(v)), TallyOf(from, v.pair);
      && Enabled(records, n3, Open) && var n4 := Next(records, n3, Open);
      && Enabled(records, n4, Fail)
      && Next(records, n4, Fail) == from.(visit := None,
        tally := from.tally[v.pair := Tally(t.begun + 1, t.succeeded, t.failed + 1)])
  {
    var n3 := from.(visit := Some(v));
    var n4 := Next(records, n3, Open);
    assert Next(records, n4, Fail).tally == from.tally[v.pair := Tally(TallyOf(from, v.pair).begun + 1,
      TallyOf(from, v.pair).succeeded, TallyOf(from, v.pair).failed + 1)];
  }

  /** The pass at the pair once more, its session failing. */
  lemma OneFailure(records: Records, n: Node, steps: seq<Step>, from: Node, source: PdnId, target: PdnId,
      ns: NamespaceId)
    returns (more: seq<Step>, to: Node)
    requires source != target && ns !in records && Slots(records, Ordered(source, target, ns)) <= from.replicas.Keys
    requires Run(records, n, steps) == Some(from) && from.visit.None? && Ordered(source, target, ns) !in from.memo
      && Quiet(steps)
    ensures Run(records, n, more) == Some(to) && Quiet(more)
    ensures var pair := Ordered(source, target, ns);
      var t := TallyOf(from, pair);
      to == from.(tally := from.tally[pair := Tally(t.begun + 1, t.succeeded, t.failed + 1)])
  {
    hide Slots, Run, Next, Enabled, Complete, TallyOf;
    var pair := Ordered(source, target, ns);
    var v := CountsBoth(records, from, source, target, ns);
    FailsOpened(records, from, v);
    more, to := RunOn(records, n, steps, Begin(source, target, ns), from);
    more, to := RunOn(records, n, more, Count(Slot(pair.first, ns)), to);
    more, to := RunOn(records, n, more, Count(Slot(pair.second, ns)), to);
    more, to := RunOn(records, n, more, Open, to);
    more, to := RunOn(records, n, more, Fail, to);
  }

  /** A pair the pass has no reading of and whose sessions fail is dialed again at every visit: any number of sessions,
      nothing written, none through. */
  lemma {:induction false} FailingPairIsRedialed(records: Records, n: Node, source: PdnId, target: PdnId,
      ns: NamespaceId, k: nat)
    returns (steps: seq<Step>, m: Node)
    requires source != target && ns !in records && Slots(records, Ordered(source, target, ns)) <= n.replicas.Keys
    requires n.visit.None? && Ordered(source, target, ns) !in n.memo
    ensures Run(records, n, steps) == Some(m) && Quiet(steps)
    ensures m.replicas == n.replicas && m.visit.None? && Ordered(source, target, ns) !in m.memo
    ensures var pair := Ordered(source, target, ns);
      && TallyOf(m, pair).begun == TallyOf(n, pair).begun + k && TallyOf(m, pair).failed == TallyOf(n, pair).failed + k
      && TallyOf(m, pair).succeeded == TallyOf(n, pair).succeeded
  {
    if k == 0 {
      steps, m := [], n;
    } else {
      steps, m := FailingPairIsRedialed(records, n, source, target, ns, k - 1);
      steps, m := OneFailure(records, n, steps, m, source, target, ns);
    }
  }

  lemma TwoSlots(records: Records, pair: Pair)
    requires pair.ns !in records
    ensures Slots(records, pair) == {Slot(pair.first, pair.ns), Slot(pair.second, pair.ns)}
  {
    assert Stores(records, pair) == {pair.ns};
    InSlots(records, pair);
  }

  // ---------------------------------------------------------------- a visit can end

  ghost function Uncounted(records: Records, v: Visit): set<Slot> { Slots(records, v.pair) - v.got.Keys }

  ghost function Unfrozen(records: Records, v: Visit): set<NamespaceId> { Stores(records, v.pair) - v.frozen.Keys }

  ghost function Unanswered(records: Records, v: Visit): set<NamespaceId> { Stores(records, v.pair) - v.snaps.Keys }

  /** What the sessions have still to bring the dialer. */
  ghost function Undelivered(n: Node, v: Visit): set<(NamespaceId, Entry)> {
    set s, e | s in v.snaps && v.snaps[s].toDialer < |n.deliveries| && e in n.deliveries[v.snaps[s].toDialer].rest
      :: (s, e)
  }

  ghost predicate Visits(records: Records, n: Node, pair: Pair) {
    n.visit.Some? && n.visit.value.pair == pair && Slots(records, pair) <= n.replicas.Keys
  }

  ghost predicate Further(records: Records, w: Visit, v: Visit) {
    || Uncounted(records, w) < Uncounted(records, v)
    || (Uncounted(records, w) == Uncounted(records, v) && w.open && !v.open)
    || (Uncounted(records, w) == Uncounted(records, v) && w.open == v.open
        && (|| Unfrozen(records, w) < Unfrozen(records, v)
            || (Unfrozen(records, w) == Unfrozen(records, v) && Unanswered(records, w) < Unanswered(records, v))))
  }

  /** The step, no failure and no write, ends the visit or leaves less before it. */
  ghost predicate Nearer(records: Records, n: Node, step: Step, pair: Pair)
    requires n.visit.Some?
  {
    && Enabled(records, n, step) && step != Fail && !step.Write?
    && var m := Next(records, n, step);
    m.visit.Some? ==>
      && Visits(records, m, pair)
      && (|| Further(records, m.visit.value, n.visit.value)
          || (m.visit == n.visit && Undelivered(m, m.visit.value) < Undelivered(n, n.visit.value)))
  }

  lemma Reachable(records: Records, n: Node, pair: Pair, s: NamespaceId)
    requires Inv(records, n) && Visits(records, n, pair) && s in Stores(records, pair)
    ensures var v := n.visit.value;
      Slot(v.dialer, s) in n.replicas && Slot(Other(pair, v.dialer), s) in n.replicas
        && v.snaps.Keys <= v.frozen.Keys <= Stores(records, pair)
  {
    InSlots(records, pair);
    var v := n.visit.value;
    assert CountsSound(records, n, v);
    forall t | t in v.frozen ensures t in Stores(records, pair) { assert FrozenSound(records, n, v, t, v.frozen[t]); }
    forall t | t in v.snaps ensures t in v.frozen {
    }
  }

  lemma CountedFurther(records: Records, v: Visit, slot: Slot, r: Replica)
    requires slot in Uncounted(records, v)
    ensures Further(records, v.(got := v.got[slot := r]), v)
    ensures slot in Slots(records, v.pair) - v.got.Keys
  {
    assert Uncounted(records, v.(got := v.got[slot := r])) == Uncounted(records, v) - {slot};
  }

  lemma OpenFurther(records: Records, v: Visit)
    requires Uncounted(records, v) == {} && !v.open
    ensures Further(records, v.(open := true), v)
    ensures Slots(records, v.pair) <= v.got.Keys
  {
    forall slot | slot in Slots(records, v.pair) ensures slot in v.got { assert slot !in Uncounted(records, v); }
  }

  lemma FrozenFurther(records: Records, v: Visit, s: NamespaceId, r: Replica)
    requires s in Unfrozen(records, v)
    ensures Further(records, v.(frozen := v.frozen[s := r]), v)
    ensures s in Stores(records, v.pair) && s !in v.frozen
  {
    assert Unfrozen(records, v.(frozen := v.frozen[s := r])) == Unfrozen(records, v) - {s};
  }

  lemma AnsweredFurther(records: Records, v: Visit, s: NamespaceId, snap: Snap)
    requires s in Unanswered(records, v) && s !in Unfrozen(records, v)
    ensures Further(records, v.(snaps := v.snaps[s := snap]), v)
    ensures s in Stores(records, v.pair) && s !in v.snaps && s in v.frozen
  {
    assert Unanswered(records, v.(snaps := v.snaps[s := snap])) == Unanswered(records, v) - {s};
  }

  lemma CountMoves(records: Records, n: Node, pair: Pair, slot: Slot)
    requires Visits(records, n, pair) && !n.visit.value.open && slot in Uncounted(records, n.visit.value)
    ensures Nearer(records, n, Count(slot), pair)
  {
    hide Slots, Stores, Further, Uncounted, Undelivered;
    CountedFurther(records, n.visit.value, slot, Replica(0, map[]));
    CountedFurther(records, n.visit.value, slot, n.replicas[slot]);
  }

  lemma OpenMoves(records: Records, n: Node, pair: Pair)
    requires Visits(records, n, pair) && !n.visit.value.open && Uncounted(records, n.visit.value) == {}
    requires n.visit.value.got.Keys <= Slots(records, pair)
    ensures Nearer(records, n, if Unmoved(n) then Skip else Open, pair)
  {
    hide Slots, Stores, Further, Uncounted, Undelivered, SameCounts;
    OpenFurther(records, n.visit.value);
  }

  lemma CountingMoves(records: Records, n: Node, pair: Pair) returns (step: Step)
    requires Inv(records, n) && Visits(records, n, pair) && !n.visit.value.open
    ensures Nearer(records, n, step, pair)
  {
    assert n.visit.value.got.Keys <= Slots(records, pair) by { assert CountsSound(records, n, n.visit.value); }
    hide *;
    if slot :| slot in Uncounted(records, n.visit.value) {
      CountMoves(records, n, pair, slot);
      step := Count(slot);
    } else {
      OpenMoves(records, n, pair);
      step := if Unmoved(n) then Skip else Open;
    }
  }

  lemma FreezeMoves(records: Records, n: Node, pair: Pair, s: NamespaceId)
    requires Inv(records, n) && Visits(records, n, pair) && n.visit.value.open && s in Unfrozen(records, n.visit.value)
    ensures Nearer(records, n, Freeze(s), pair)
  {
    hide Inv, Slots, Stores, Further, Unfrozen, Undelivered;
    var v := n.visit.value;
    FrozenFurther(records, v, s, Replica(0, map[]));
    Reachable(records, n, pair, s);
    FrozenFurther(records, v, s, n.replicas[Slot(v.dialer, s)]);
  }

  lemma AnswerMoves(records: Records, n: Node, pair: Pair, s: NamespaceId) returns (step: Step)
    requires Inv(records, n) && Visits(records, n, pair) && n.visit.value.open
    requires s in Unanswered(records, n.visit.value) && s !in Unfrozen(records, n.visit.value)
    ensures Nearer(records, n, step, pair)
  {
    hide Inv, Slots, Stores, Entries, Further, Unanswered, Unfrozen, Undelivered;
    var v := n.visit.value;
    AnsweredFurther(records, v, s, Snap(Replica(0, map[]), Replica(0, map[]), {}, {}, 0, 0));
    Reachable(records, n, pair, s);
    step := Answer(s, Entries(n.replicas[Slot(Other(pair, v.dialer), s)].content), Entries(v.frozen[s].content));
    AnsweredFurther(records, v, s, Next(records, n, step).visit.value.snaps[s]);
  }

  lemma DeliverMoves(records: Records, n: Node, pair: Pair, s: NamespaceId, e: Entry) returns (step: Step)
    requires Inv(records, n) && Visits(records, n, pair) && (s, e) in Undelivered(n, n.visit.value)
    ensures Nearer(records, n, step, pair)
  {
    var v := n.visit.value;
    assert SnapSound(n, v.pair, v.dialer, v.got, s, v.snaps[s]);
    hide Inv, Slots, Stores;
    step := Deliver(v.snaps[s].toDialer, e);
    DeliversOne(n, v, s, e, Next(records, n, step));
  }

  lemma DeliversOne(n: Node, v: Visit, s: NamespaceId, e: Entry, m: Node)
    requires (s, e) in Undelivered(n, v) && var j := v.snaps[s].toDialer;
      m.deliveries == n.deliveries[j := Delivery(n.deliveries[j].to, n.deliveries[j].rest - {e})]
    ensures Undelivered(m, v) < Undelivered(n, v)
  {
    assert (s, e) !in Undelivered(m, v);
  }

  lemma OwnStore(records: Records, pair: Pair)
    ensures pair.ns in Stores(records, pair)
  {
  }

  lemma NothingLeft(n: Node, v: Visit, s: NamespaceId)
    requires s in v.snaps && v.snaps[s].toDialer < |n.deliveries| && Undelivered(n, v) == {}
    ensures n.deliveries[v.snaps[s].toDialer].rest == {}
  {
    assert forall e | e in n.deliveries[v.snaps[s].toDialer].rest :: (s, e) in Undelivered(n, v);
  }

  lemma SucceedMoves(records: Records, n: Node, pair: Pair)
    requires Inv(records, n) && Visits(records, n, pair) && n.visit.value.open
    requires var v := n.visit.value; (forall s :: s !in Unanswered(records, v)) && Undelivered(n, v) == {}
    ensures Nearer(records, n, Succeed, pair)
  {
    hide Slots, Stores, Undelivered, Further, MemoSound, CountsSound, FrozenSound, Past, Entries;
    var v := n.visit.value;
    OwnStore(records, pair);
    Reachable(records, n, pair, pair.ns);
    forall s | s in Stores(records, pair) ensures s in v.snaps { assert s !in Unanswered(records, v); }
    forall s | s in v.snaps ensures var j := v.snaps[s].toDialer; j < |n.deliveries| && n.deliveries[j].rest == {} {
      assert SnapSound(n, v.pair, v.dialer, v.got, s, v.snaps[s]);
      NothingLeft(n, v, s);
    }
  }

  lemma SessionMoves(records: Records, n: Node, pair: Pair) returns (step: Step)
    requires Inv(records, n) && Visits(records, n, pair) && n.visit.value.open
    ensures Nearer(records, n, step, pair)
  {
    hide Inv, Nearer, Unfrozen, Unanswered, Undelivered;
    var v := n.visit.value;
    if s :| s in Unfrozen(records, v) {
      FreezeMoves(records, n, pair, s);
      step := Freeze(s);
    } else if s :| s in Unanswered(records, v) {
      step := AnswerMoves(records, n, pair, s);
    } else if Undelivered(n, v) != {} {
      var x :| x in Undelivered(n, v);
      step := DeliverMoves(records, n, pair, x.0, x.1);
    } else {
      SucceedMoves(records, n, pair);
      step := Succeed;
    }
  }

  lemma Onward(records: Records, n: Node, steps: seq<Step>, m: Node, step: Step)
    requires Run(records, n, steps) == Some(m) && Enabled(records, m, step)
    ensures Run(records, n, steps + [step]) == Some(Next(records, m, step))
  {
    assert (steps + [step])[..|steps|] == steps;
  }

  ghost predicate Smaller(records: Records, m: Node, w: Visit, n: Node, v: Visit) {
    || Further(records, w, v)
    || (w == v && Undelivered(m, w) < Undelivered(n, v))
  }

  lemma VisitMoves(records: Records, n: Node, pair: Pair) returns (step: Step, m: Node)
    requires Inv(records, n) && Visits(records, n, pair)
    ensures Enabled(records, n, step) && m == Next(records, n, step) && Inv(records, m)
    ensures step != Fail && !step.Write?
    ensures m.visit.Some? ==> Visits(records, m, pair) && Smaller(records, m, m.visit.value, n, n.visit.value)
  {
    hide Inv, Slots, Stores, Further, Undelivered, Enabled, Next;
    if n.visit.value.open { step := SessionMoves(records, n, pair); } else { step := CountingMoves(records, n, pair); }
    StepKeeps(records, n, step);
    m := Next(records, n, step);
  }

  ghost predicate Reaches(records: Records, n: Node, steps: seq<Step>, m: Node) {
    Run(records, n, steps) == Some(m) && Inv(records, m) && Fail !in steps && Quiet(steps)
  }

  lemma ReachesOn(records: Records, n: Node, steps: seq<Step>, m: Node, step: Step, next: Node)
    requires Reaches(records, n, steps, m) && Enabled(records, m, step) && next == Next(records, m, step)
      && Inv(records, next) && step != Fail && !step.Write?
    ensures Reaches(records, n, steps + [step], next)
  {
    Onward(records, n, steps, m, step);
  }

  lemma ReachEnd(records: Records, n: Node, pair: Pair) returns (steps: seq<Step>, m: Node)
    requires Inv(records, n) && Visits(records, n, pair)
    ensures Reaches(records, n, steps, m) && m.visit.None?
  {
    var v := n.visit.value;
    steps, m := [], n;
    StartOfRun(records, n);
    hide Reaches, Inv, Enabled, Next, Run, Slots, Stores, Visits, Uncounted, Unfrozen, Unanswered, Undelivered;
    while m.visit.Some?
      invariant Reaches(records, n, steps, m)
      invariant m.visit.Some? ==> Inv(records, m) && Visits(records, m, pair) && v == m.visit.value
      decreases m.visit.Some?, Uncounted(records, v), !v.open, Unfrozen(records, v), Unanswered(records, v),
        Undelivered(m, v)
    {
      var step, next := VisitMoves(records, m, pair);
      ReachesOn(records, n, steps, m, step, next);
      steps, m := steps + [step], next;
      if m.visit.Some? { v := m.visit.value; }
    }
  }

  lemma StartOfRun(records: Records, n: Node)
    requires Inv(records, n)
    ensures Reaches(records, n, [], n)
  {
  }

  /** After every run a visit under way can end in a skip or a success, with no failure and nothing written
      meanwhile. */
  lemma VisitEnds(records: Records, replicas: map<Slot, Replica>, steps: seq<Step>) returns (more: seq<Step>, m: Node)
    requires Run(records, Start(replicas), steps).Some? && Run(records, Start(replicas), steps).value.visit.Some?
    ensures Run(records, Run(records, Start(replicas), steps).value, more) == Some(m)
    ensures m.visit.None? && Fail !in more && Quiet(more)
  {
    StartSound(records, replicas);
    RunKeeps(records, Start(replicas), steps);
    var n := Run(records, Start(replicas), steps).value;
    assert Visits(records, n, n.visit.value.pair) by { assert CountsSound(records, n, n.visit.value); }
    hide Inv, Run, Quiet;
    more, m := ReachEnd(records, n, n.visit.value.pair);
  }
}
