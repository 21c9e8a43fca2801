/** When a departed identity's tombstone has converged: over every run of derivations of a pod's contacts, exactly when
    a session with a current member went through from a snapshot that held the departure and the record store was
    forgotten from then on. */
module Tombstone {
  import opened Ids
  import opened Options

  type Seq = nat

  /** The membership replica at one moment: its write count, and entries that only accumulate. */
  datatype Replica = Replica(writes: nat, entries: set<int>)

  ghost predicate Accumulates(tl: seq<Replica>) {
    forall i | 0 <= i < |tl| - 1 ::
      tl[i] == tl[i + 1] || (tl[i].writes < tl[i + 1].writes && tl[i].entries <= tl[i + 1].entries)
  }

  lemma {:induction false} Later(tl: seq<Replica>, i: nat, j: nat)
    requires Accumulates(tl) && i <= j < |tl|
    ensures tl[i] == tl[j] || (tl[i].writes < tl[j].writes && tl[i].entries <= tl[j].entries)
  {
    if i < j {
      Later(tl, i, j - 1);
      assert tl[j - 1] == tl[j - 1 + 1]
        || (tl[j - 1].writes < tl[j - 1 + 1].writes && tl[j - 1].entries <= tl[j - 1 + 1].entries);
    }
  }

  /** A session that went through: with whose replica, and when its snapshot opened. */
  datatype Met = Met(counterpart: PdnId, froze: nat)

  /** One derivation of a pod's contacts: when the entries its view was built from were read, when the write count was
      read, if it could be, whether the record store is held, and the sessions met since the last. */
  datatype Derivation = Derivation(viewed: nat, counted: Option<nat>, records: bool, met: seq<Met>)

  /** What a view reads of the entries: this identity's departure, and who is a current member. */
  datatype View = View(departed: set<int> -> Option<Seq>, member: (set<int>, PdnId) -> bool)

  ghost predicate Timed(tl: seq<Replica>, d: Derivation) {
    && d.viewed < |tl| && (d.counted.Some? ==> d.viewed <= d.counted.value < |tl|)
    && forall i | 0 <= i < |d.met| :: d.met[i].froze < |tl|
  }

  datatype Tombstone = Tombstone(departed: Seq, heldAt: nat, converged: bool)

  /** A session as the derivation weighs it. */
  datatype Weighed = Weighed(snapshotWrites: nat, member: bool)

  predicate Settles(heldAt: nat, met: seq<Weighed>) {
    exists i | 0 <= i < |met| :: met[i].snapshotWrites >= heldAt && met[i].member
  }

  function Derive(kept: Option<Tombstone>, departed: Option<Seq>, writes: Option<nat>, records: bool,
      met: seq<Weighed>): Option<Tombstone> {
    var there :=
      if departed.Some? && kept.Some? && kept.value.departed == departed.value then kept
      else if departed.Some? && writes.Some? then Some(Tombstone(departed.value, writes.value, false))
      else None;
    if there.None? then None
    else Some(there.value.(converged := !records && (there.value.converged || Settles(there.value.heldAt, met))))
  }

  class Tombstones {
    var kept: map<PodId, Tombstone>

    function Of(pod: PodId): Option<Tombstone>
      reads this
    {
      if pod in kept then Some(kept[pod]) else None
    }

    constructor ()
      ensures kept == map[]
    {
      kept := map[];
    }

    /** The kept departure, taken up, dropped or left; other pods' are left. */
    method Converged(pod: PodId, departed: Option<Seq>, writes: Option<nat>, records: bool, met: seq<Weighed>)
        returns (converged: bool)
      modifies this
      ensures Of(pod) == Derive(old(Of(pod)), departed, writes, records, met)
      ensures forall p | p != pod :: Of(p) == old(Of(p))
      ensures converged <==> Of(pod).Some? && Of(pod).value.converged
    {
      if departed.Some? && pod in kept && kept[pod].departed == departed.value {
      } else if departed.Some? && writes.Some? {
        kept := kept[pod := Tombstone(departed.value, writes.value, false)];
      } else {
        kept := kept - {pod};
      }
      if pod !in kept { return false; }
      if records {
        kept := kept[pod := kept[pod].(converged := false)];
        return false;
      }
      var settled := AnySettles(kept[pod].heldAt, met);
      kept := kept[pod := kept[pod].(converged := kept[pod].converged || settled)];
      converged := kept[pod].converged;
    }

    method AnySettles(heldAt: nat, met: seq<Weighed>) returns (settled: bool)
      ensures settled <==> Settles(heldAt, met)
    {
      settled := false;
      for i := 0 to |met|
        invariant settled <==> exists k | 0 <= k < i :: met[k].snapshotWrites >= heldAt && met[k].member
      {
        settled := settled || (met[i].snapshotWrites >= heldAt && met[i].member);
      }
    }
  }

  // ---------------------------------------------------------------- runs of derivations

  ghost function DepartedIn(tl: seq<Replica>, view: View, d: Derivation): Option<Seq>
    requires Timed(tl, d)
  {
    view.departed(tl[d.viewed].entries)
  }

  ghost function Weigh(tl: seq<Replica>, view: View, d: Derivation): seq<Weighed>
    requires Timed(tl, d)
  {
    seq(|d.met|, i requires 0 <= i < |d.met| =>
      Weighed(tl[d.met[i].froze].writes, view.member(tl[d.viewed].entries, d.met[i].counterpart)))
  }

  ghost predicate AllTimed(tl: seq<Replica>, ds: seq<Derivation>) { forall i | 0 <= i < |ds| :: Timed(tl, ds[i]) }

  ghost function After(tl: seq<Replica>, view: View, ds: seq<Derivation>): Option<Tombstone>
    requires AllTimed(tl, ds)
    decreases |ds|
  {
    if ds == [] then None
    else
      var d := ds[|ds| - 1];
      var counted :=
        if DepartedIn(tl, view, d).Some? && d.counted.Some? then Some(tl[d.counted.value].writes) else None;
      Derive(After(tl, view, ds[..|ds| - 1]), DepartedIn(tl, view, d), counted, d.records, Weigh(tl, view, d))
  }

  /** A session with a replica the deriving view counts as a current member's, its snapshot holding everything the view
      that first showed the departure was built from. */
  ghost predicate Carried(tl: seq<Replica>, view: View, shown: Derivation, deriving: Derivation, m: Met)
    requires Timed(tl, shown) && Timed(tl, deriving) && m.froze < |tl|
  {
    view.member(tl[deriving.viewed].entries, m.counterpart) && tl[shown.viewed].entries <= tl[m.froze].entries
  }

  /** From derivation `i` to the last the view shows this departure. */
  ghost predicate ShownSince(tl: seq<Replica>, view: View, ds: seq<Derivation>, seqno: Seq, i: nat)
    requires AllTimed(tl, ds)
  {
    i < |ds| && forall k | i <= k < |ds| :: DepartedIn(tl, view, ds[k]) == Some(seqno)
  }

  /** The first derivation of the unbroken stretch showing the departure that could read the write count. */
  ghost predicate TakenUp(tl: seq<Replica>, view: View, ds: seq<Derivation>, seqno: Seq, j: nat)
    requires AllTimed(tl, ds)
  {
    && ShownSince(tl, view, ds, seqno, j) && ds[j].counted.Some?
    && forall i: nat | i < j && ShownSince(tl, view, ds, seqno, i) :: ds[i].counted.None?
  }

  /** A session from a snapshot no older than the count, with one the derivation's view has as a current member. */
  ghost predicate MetSince(tl: seq<Replica>, view: View, d: Derivation, heldAt: nat)
    requires Timed(tl, d)
  {
    exists k | 0 <= k < |d.met| ::
      tl[d.met[k].froze].writes >= heldAt && view.member(tl[d.viewed].entries, d.met[k].counterpart)
  }

  lemma WeighedIsMet(tl: seq<Replica>, view: View, d: Derivation, heldAt: nat)
    requires Timed(tl, d)
    ensures Settles(heldAt, Weigh(tl, view, d)) <==> MetSince(tl, view, d, heldAt)
  {
    var met := Weigh(tl, view, d);
    assert forall k | 0 <= k < |d.met| :: met[k].snapshotWrites == tl[d.met[k].froze].writes;
  }

  /** A settling session in derivation `i`, the record store forgotten from there on. */
  ghost predicate SettledAt(tl: seq<Replica>, view: View, ds: seq<Derivation>, j: nat, heldAt: nat, i: nat)
    requires AllTimed(tl, ds)
  {
    j <= i < |ds| && MetSince(tl, view, ds[i], heldAt) && forall k | i <= k < |ds| :: !ds[k].records
  }

  ghost predicate Settled(tl: seq<Replica>, view: View, ds: seq<Derivation>, j: nat, heldAt: nat)
    requires AllTimed(tl, ds)
  {
    exists i :: SettledAt(tl, view, ds, j, heldAt, i)
  }

  lemma SettledByLast(tl: seq<Replica>, view: View, ds: seq<Derivation>, j: nat, heldAt: nat)
    requires AllTimed(tl, ds) && j < |ds|
    ensures var last := |ds| - 1;
      Settled(tl, view, ds, j, heldAt) <==>
        !ds[last].records && (Settles(heldAt, Weigh(tl, view, ds[last])) || Settled(tl, view, ds[..last], j, heldAt))
  {
    var last := |ds| - 1;
    WeighedIsMet(tl, view, ds[last], heldAt);
    hide MetSince, Settles, Weigh;
    if Settled(tl, view, ds, j, heldAt) {
      var i: nat :| SettledAt(tl, view, ds, j, heldAt, i);
      if i < last { assert SettledAt(tl, view, ds[..last], j, heldAt, i); }
    }
    if !ds[last].records {
      if Settled(tl, view, ds[..last], j, heldAt) {
        var i: nat :| SettledAt(tl, view, ds[..last], j, heldAt, i);
        assert SettledAt(tl, view, ds, j, heldAt, i);
      }
      if Settles(heldAt, Weigh(tl, view, ds[last])) { assert SettledAt(tl, view, ds, j, heldAt, last); }
    }
  }

  lemma ShownByLast(tl: seq<Replica>, view: View, ds: seq<Derivation>, seqno: Seq, i: nat)
    requires AllTimed(tl, ds) && i < |ds|
    ensures ShownSince(tl, view, ds, seqno, i) <==>
      DepartedIn(tl, view, ds[|ds| - 1]) == Some(seqno)
      && (i == |ds| - 1 || ShownSince(tl, view, ds[..|ds| - 1], seqno, i))
  {
    var front := ds[..|ds| - 1];
    assert forall k | 0 <= k < |front| :: front[k] == ds[k];
  }

  lemma TakenUpByLast(tl: seq<Replica>, view: View, ds: seq<Derivation>, seqno: Seq, j: nat)
    requires AllTimed(tl, ds) && j < |ds|
    ensures var last := |ds| - 1;
      TakenUp(tl, view, ds, seqno, j) <==>
        && DepartedIn(tl, view, ds[last]) == Some(seqno)
        && if j < last then TakenUp(tl, view, ds[..last], seqno, j)
           else ds[last].counted.Some? && forall i: nat :: !TakenUp(tl, view, ds[..last], seqno, i)
  {
    var last := |ds| - 1;
    var front := ds[..last];
    forall i: nat | i < |ds|
      ensures ShownSince(tl, view, ds, seqno, i) <==>
        DepartedIn(tl, view, ds[last]) == Some(seqno) && (i == last || ShownSince(tl, view, front, seqno, i))
    {
      ShownByLast(tl, view, ds, seqno, i);
    }
    hide ShownSince;
    if j == last && ds[last].counted.Some?
      && (exists i: nat :: i < last && ShownSince(tl, view, front, seqno, i) && ds[i].counted.Some?) {
      var i: nat :| i < last && ShownSince(tl, view, front, seqno, i) && ds[i].counted.Some?;
      var first := FirstCounted(tl, view, front, seqno, i);
    }
  }

  lemma {:induction false} FirstCounted(tl: seq<Replica>, view: View, ds: seq<Derivation>, seqno: Seq, i: nat)
    returns (j: nat)
    requires AllTimed(tl, ds) && ShownSince(tl, view, ds, seqno, i) && ds[i].counted.Some?
    ensures TakenUp(tl, view, ds, seqno, j)
    decreases i
  {
    j := i;
    if k: nat :| k < i && ShownSince(tl, view, ds, seqno, k) && ds[k].counted.Some? {
      j := FirstCounted(tl, view, ds, seqno, k);
    }
  }

  /** What is kept after any run, in so many words: a departure the view has shown since some derivation that could read
      the count, at the first such count, whatever became of the record store; and converged exactly when some
      derivation since met a settling session and none since that found the record store held. */
  ghost predicate Keeps(tl: seq<Replica>, view: View, ds: seq<Derivation>, t: Tombstone, j: nat)
    requires AllTimed(tl, ds)
  {
    && TakenUp(tl, view, ds, t.departed, j) && t.heldAt == tl[ds[j].counted.value].writes
    && (t.converged <==> Settled(tl, view, ds, j, t.heldAt))
  }

  /** One of these is kept after every run in which one was taken up. */
  lemma {:induction false} KeptOverStretch(tl: seq<Replica>, view: View, ds: seq<Derivation>) returns (j: nat)
    requires AllTimed(tl, ds)
    ensures After(tl, view, ds).Some? ==> Keeps(tl, view, ds, After(tl, view, ds).value, j)
    ensures After(tl, view, ds).None? ==> forall seqno: nat, i: nat :: !TakenUp(tl, view, ds, seqno, i)
    decreases |ds|
  {
    hide Settled, Settles, Weigh;
    j := 0;
    if ds != [] {
      var last := |ds| - 1;
      var before := After(tl, view, ds[..last]);
      var departed := DepartedIn(tl, view, ds[last]);
      var kept := KeptOverStretch(tl, view, ds[..last]);
      forall seqno: nat, i: nat | i < |ds|
        ensures TakenUp(tl, view, ds, seqno, i) <==>
          && departed == Some(seqno)
          && if i < last then TakenUp(tl, view, ds[..last], seqno, i)
             else ds[last].counted.Some? && forall k: nat :: !TakenUp(tl, view, ds[..last], seqno, k)
      {
        TakenUpByLast(tl, view, ds, seqno, i);
      }
      if before.Some? && departed == Some(before.value.departed) {
        j := kept;
        SettledByLast(tl, view, ds, j, before.value.heldAt);
        hide TakenUp;
      } else {
        if before.Some? { OneStretch(tl, view, ds[..last], before.value.departed, kept); }
        hide TakenUp;
        j := last;
        if departed.Some? && ds[last].counted.Some? {
          var heldAt := tl[ds[last].counted.value].writes;
          SettledByLast(tl, view, ds, j, heldAt);
          NotBefore(tl, view, ds[..last], j, heldAt);
        }
      }
    }
  }

  /** One departure is taken up at a time, and once. */
  lemma OneStretch(tl: seq<Replica>, view: View, ds: seq<Derivation>, seqno: Seq, j: nat)
    requires AllTimed(tl, ds) && TakenUp(tl, view, ds, seqno, j)
    ensures forall other: nat, i: nat | TakenUp(tl, view, ds, other, i) :: other == seqno && i == j
  {
    forall other: nat, i: nat | TakenUp(tl, view, ds, other, i) ensures other == seqno && i == j {
      assert DepartedIn(tl, view, ds[|ds| - 1]) == Some(seqno) && DepartedIn(tl, view, ds[|ds| - 1]) == Some(other);
    }
  }

  /** And nothing else is. */
  lemma KeptExactly(tl: seq<Replica>, view: View, ds: seq<Derivation>, t: Tombstone)
    requires AllTimed(tl, ds)
    ensures After(tl, view, ds) == Some(t) <==> exists j: nat :: Keeps(tl, view, ds, t, j)
  {
    var kept := KeptOverStretch(tl, view, ds);
    if j: nat :| Keeps(tl, view, ds, t, j) { OneStretch(tl, view, ds, t.departed, j); }
  }

  lemma NotBefore(tl: seq<Replica>, view: View, ds: seq<Derivation>, j: nat, heldAt: nat)
    requires AllTimed(tl, ds) && j >= |ds|
    ensures !Settled(tl, view, ds, j, heldAt)
  {
  }

  /** A snapshot whose count reached the one read past the view holds what the view was built from. */
  lemma CountCarriesView(tl: seq<Replica>, shown: Derivation, froze: nat)
    requires Accumulates(tl) && Timed(tl, shown) && shown.counted.Some? && froze < |tl|
    requires tl[froze].writes >= tl[shown.counted.value].writes
    ensures tl[shown.viewed].entries <= tl[froze].entries
  {
    Later(tl, shown.viewed, shown.counted.value);
    if froze < shown.counted.value { Later(tl, froze, shown.counted.value); }
    else { Later(tl, shown.counted.value, froze); }
  }

  /** A converged tombstone went, from a snapshot that held its departure, to a current member's replica, and the record
      store has been forgotten since. */
  lemma ConvergedIsSound(tl: seq<Replica>, view: View, ds: seq<Derivation>) returns (j: nat, i: nat, k: nat)
    requires Accumulates(tl) && AllTimed(tl, ds) && After(tl, view, ds).Some? && After(tl, view, ds).value.converged
    ensures j <= i < |ds| && k < |ds[i].met| && Carried(tl, view, ds[j], ds[i], ds[i].met[k])
    ensures DepartedIn(tl, view, ds[j]) == Some(After(tl, view, ds).value.departed)
    ensures forall n | j <= n < |ds| :: DepartedIn(tl, view, ds[n]) == DepartedIn(tl, view, ds[j])
    ensures forall n | i <= n < |ds| :: !ds[n].records
  {
    var t := After(tl, view, ds).value;
    j := KeptOverStretch(tl, view, ds);
    assert Keeps(tl, view, ds, t, j);
    i :| SettledAt(tl, view, ds, j, t.heldAt, i);
    k :| 0 <= k < |ds[i].met| && tl[ds[i].met[k].froze].writes >= t.heldAt
      && view.member(tl[ds[i].viewed].entries, ds[i].met[k].counterpart);
    CountCarriesView(tl, ds[j], ds[i].met[k].froze);
  }
}
