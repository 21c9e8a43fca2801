/** Which incremental directories the stale-build cleaner keeps: those written since the mark, and for each unit still
    read the closest directory left, so that none it removes could have served a unit left without one. */
module Matching {

  type Hash = int
  type Crate = int

  /** How long after a unit's compilation started its session may start, in seconds. */
  const SESSION_AFTER: real := -10.0
  const SESSION_BEFORE: real := 60.0

  /** A kept unit: when its compilation started. */
  datatype Unit = Unit(hash: Hash, crate: Crate, invoked: real)

  /** An incremental directory: when each of its sessions started. */
  datatype Dir = Dir(name: int, crate: Crate, starts: seq<real>)

  datatype Pair = Pair(distance: real, hash: Hash, dir: Dir)

  function Newest(starts: seq<real>): (m: real)
    ensures starts != [] ==> m in starts
    ensures forall t | t in starts :: t <= m
  {
    if starts == [] then 0.0
    else
      var rest := Newest(starts[1..]);
      assert forall t | t in starts :: t == starts[0] || t in starts[1..];
      if |starts| == 1 || starts[0] >= rest then starts[0] else rest
  }

  /** The directories written since the mark. */
  function Written(dirs: seq<Dir>, since: real): set<Dir> { set d | d in dirs && Newest(d.starts) >= since }

  function Distance(d: Dir, u: Unit): real {
    var gap := Newest(d.starts) - u.invoked;
    if gap < 0.0 then -gap else gap
  }

  /** The directory's newest session started within the window after the unit's compilation. */
  predicate Admissible(d: Dir, u: Unit, lo: real, hi: real) {
    u.crate == d.crate && lo <= Newest(d.starts) - u.invoked <= hi
  }

  ghost predicate IsPair(dirs: seq<Dir>, units: seq<Unit>, lo: real, hi: real, p: Pair) {
    exists d, u | d in dirs && u in units :: Admissible(d, u, lo, hi) && p == Pair(Distance(d, u), u.hash, d)
  }

  /** When the last of the sessions started, the beginning of time where there was none. */
  ghost predicate IsLast(starts: seq<real>, t: real) {
    if starts == [] then t == 0.0 else t in starts && forall s | s in starts :: s <= t
  }

  /** How far a pair is apart is how long before or after the unit's compilation the directory's last session
      started. */
  lemma PairMeans(dirs: seq<Dir>, units: seq<Unit>, lo: real, hi: real, p: Pair)
    ensures IsPair(dirs, units, lo, hi, p) <==> exists u, t | u in units && IsLast(p.dir.starts, t) ::
      && p.dir in dirs && p.hash == u.hash && p.dir.crate == u.crate
      && u.invoked + lo <= t <= u.invoked + hi
      && p.distance >= 0.0 && (t == u.invoked + p.distance || u.invoked == t + p.distance)
  {
    assert IsLast(p.dir.starts, Newest(p.dir.starts));
  }

  lemma WrittenMeans(dirs: seq<Dir>, since: real, d: Dir)
    ensures d in Written(dirs, since) <==> d in dirs && exists t | IsLast(d.starts, t) :: since <= t
  {
    assert IsLast(d.starts, Newest(d.starts));
  }

  ghost predicate Sorted(pairs: seq<Pair>) {
    forall i, j | 0 <= i < j < |pairs| :: pairs[i].distance <= pairs[j].distance
  }

  /** After the pairs no farther, as a stable sort puts it. */
  function Placed(pairs: seq<Pair>, p: Pair): (r: seq<Pair>)
    ensures forall q :: q in r <==> q in pairs || q == p
  {
    if pairs == [] || pairs[|pairs| - 1].distance <= p.distance then pairs + [p]
    else
      assert pairs == pairs[..|pairs| - 1] + [pairs[|pairs| - 1]];
      Placed(pairs[..|pairs| - 1], p) + [pairs[|pairs| - 1]]
  }

  lemma {:induction false} PlacedSorted(pairs: seq<Pair>, p: Pair)
    requires Sorted(pairs)
    ensures Sorted(Placed(pairs, p))
  {
    if pairs != [] && pairs[|pairs| - 1].distance > p.distance {
      var last := pairs[|pairs| - 1];
      var front := Placed(pairs[..|pairs| - 1], p);
      PlacedSorted(pairs[..|pairs| - 1], p);
      forall i | 0 <= i < |front| ensures front[i].distance <= last.distance {
        assert front[i] in front;
      }
    }
  }

  /** What the walk over the directories leaves: those written since the mark, and the admissible pairs, sorted. */
  method Gather(dirs: seq<Dir>, units: seq<Unit>, since: real, lo: real, hi: real)
      returns (kept: set<Dir>, pairs: seq<Pair>)
    ensures kept == Written(dirs, since)
    ensures Sorted(pairs) && forall p :: p in pairs <==> IsPair(dirs, units, lo, hi, p)
  {
    kept, pairs := {}, [];
    for i := 0 to |dirs|
      invariant kept == Written(dirs[..i], since)
      invariant Sorted(pairs) && forall p :: p in pairs <==> IsPair(dirs[..i], units, lo, hi, p)
    {
      var d := dirs[i];
      assert dirs[..i + 1] == dirs[..i] + [d];
      if Newest(d.starts) >= since { kept := kept + {d}; }
      pairs := GatherUnits(dirs[..i], d, units, lo, hi, pairs);
    }
    assert dirs[..|dirs|] == dirs;
  }

  method GatherUnits(done: seq<Dir>, d: Dir, units: seq<Unit>, lo: real, hi: real, before: seq<Pair>)
      returns (pairs: seq<Pair>)
    requires Sorted(before) && forall p :: p in before <==> IsPair(done, units, lo, hi, p)
    ensures Sorted(pairs) && forall p :: p in pairs <==> IsPair(done + [d], units, lo, hi, p)
  {
    pairs := before;
    for j := 0 to |units|
      invariant Sorted(pairs)
      invariant forall p :: p in pairs <==> p in before || OfDir(d, units[..j], lo, hi, p)
    {
      var u := units[j];
      assert units[..j + 1] == units[..j] + [u];
      if Admissible(d, u, lo, hi) {
        PlacedSorted(pairs, Pair(Distance(d, u), u.hash, d));
        pairs := Placed(pairs, Pair(Distance(d, u), u.hash, d));
      }
    }
    assert units[..|units|] == units;
    forall p ensures p in pairs <==> IsPair(done + [d], units, lo, hi, p) {
      PairsOfOneMore(done, d, units, lo, hi, p);
    }
  }

  ghost predicate OfDir(d: Dir, units: seq<Unit>, lo: real, hi: real, p: Pair) {
    exists u | u in units :: Admissible(d, u, lo, hi) && p == Pair(Distance(d, u), u.hash, d)
  }

  lemma PairsOfOneMore(done: seq<Dir>, d: Dir, units: seq<Unit>, lo: real, hi: real, p: Pair)
    ensures IsPair(done + [d], units, lo, hi, p) <==> IsPair(done, units, lo, hi, p) || OfDir(d, units, lo, hi, p)
  {
  }

  // ---------------------------------------------------------------- the greedy pairing

  /** Neither the unit nor the directory is taken, nor was the directory written since the mark. */
  predicate Free(chosen: seq<Pair>, written: set<Dir>, p: Pair) {
    p.dir !in written && forall q | q in chosen :: q.hash != p.hash && q.dir != p.dir
  }

  /** The pairs chosen, gone through in order. */
  function Chosen(written: set<Dir>, pairs: seq<Pair>): seq<Pair> {
    if pairs == [] then []
    else
      var front := Chosen(written, pairs[..|pairs| - 1]);
      front + if Free(front, written, pairs[|pairs| - 1]) then [pairs[|pairs| - 1]] else []
  }

  function DirsOf(chosen: seq<Pair>): set<Dir> { set p | p in chosen :: p.dir }

  function HashesOf(chosen: seq<Pair>): set<Hash> { set p | p in chosen :: p.hash }

  lemma ChosenStep(written: set<Dir>, pairs: seq<Pair>, i: nat)
    requires i < |pairs|
    ensures var front, next := Chosen(written, pairs[..i]), Chosen(written, pairs[..i + 1]);
      if pairs[i].hash !in HashesOf(front) && pairs[i].dir !in written + DirsOf(front) then
        DirsOf(next) == DirsOf(front) + {pairs[i].dir} && HashesOf(next) == HashesOf(front) + {pairs[i].hash}
      else next == front
  {
    assert pairs[..i + 1][..i] == pairs[..i];
  }

  method Claim(written: set<Dir>, pairs: seq<Pair>) returns (kept: set<Dir>)
    ensures kept == written + DirsOf(Chosen(written, pairs))
  {
    kept := written;
    var claimed: set<Hash> := {};
    for i := 0 to |pairs|
      invariant kept == written + DirsOf(Chosen(written, pairs[..i]))
      invariant claimed == HashesOf(Chosen(written, pairs[..i]))
    {
      var p := pairs[i];
      ChosenStep(written, pairs, i);
      hide *;
      if p.hash !in claimed && p.dir !in kept {
        claimed := claimed + {p.hash};
        kept := kept + {p.dir};
      }
    }
    assert pairs[..|pairs|] == pairs;
  }

  /** A unit keeps one directory, a directory serves one unit, and none of them was written since the mark. */
  ghost predicate OneToOne(chosen: seq<Pair>, written: set<Dir>) {
    && (forall p | p in chosen :: p.dir !in written)
    && (forall p, q | p in chosen && q in chosen && (p.hash == q.hash || p.dir == q.dir) :: p == q)
  }

  lemma {:induction false} ChosenOneToOne(written: set<Dir>, pairs: seq<Pair>)
    ensures OneToOne(Chosen(written, pairs), written)
    ensures forall p | p in Chosen(written, pairs) :: p in pairs
  {
    if pairs != [] { ChosenOneToOne(written, pairs[..|pairs| - 1]); }
  }

  /** Passed over for a pair at no greater distance that has its unit, or its directory. */
  ghost predicate Beaten(chosen: seq<Pair>, p: Pair) {
    exists q | q in chosen :: q.distance <= p.distance && (q.hash == p.hash || q.dir == p.dir)
  }

  lemma {:induction false} OthersBeaten(written: set<Dir>, pairs: seq<Pair>, p: Pair)
    requires Sorted(pairs) && p in pairs && p.dir !in written
    ensures Beaten(Chosen(written, pairs), p)
  {
    var front, last := pairs[..|pairs| - 1], pairs[|pairs| - 1];
    var chosen := Chosen(written, pairs);
    if p in front {
      OthersBeaten(written, front, p);
      var q :| q in Chosen(written, front) && q.distance <= p.distance && (q.hash == p.hash || q.dir == p.dir);
      assert q in chosen;
    } else if Free(Chosen(written, front), written, p) {
      assert p in chosen;
    } else {
      var q :| q in Chosen(written, front) && (q.hash == p.hash || q.dir == p.dir);
      ChosenOneToOne(written, front);
      assert q in front && q in chosen;
    }
  }

  // ---------------------------------------------------------------- a unit and its closest directory

  lemma {:induction false} StaysChosen(written: set<Dir>, pairs: seq<Pair>, i: nat, q: Pair)
    requires i <= |pairs| && q in Chosen(written, pairs[..i])
    ensures q in Chosen(written, pairs)
    decreases |pairs|
  {
    if i < |pairs| {
      assert pairs[..|pairs| - 1][..i] == pairs[..i];
      StaysChosen(written, pairs[..|pairs| - 1], i, q);
    } else {
      assert pairs[..i] == pairs;
    }
  }

  /** The first pair of its unit with a directory not written since the mark: the closest such directory it has. */
  predicate First(written: set<Dir>, pairs: seq<Pair>, i: nat) {
    && i < |pairs| && pairs[i].dir !in written
    && forall j | 0 <= j < i && pairs[j].hash == pairs[i].hash :: pairs[j].dir in written
  }

  lemma FirstIsClosest(written: set<Dir>, pairs: seq<Pair>, i: nat, q: Pair)
    requires Sorted(pairs) && First(written, pairs, i) && q in pairs && q.hash == pairs[i].hash && q.dir !in written
    ensures pairs[i].distance <= q.distance
  {
    var j :| 0 <= j < |pairs| && pairs[j] == q;
  }

  /** A pair ranked before `i` is chosen for this directory. */
  ghost predicate TakenBefore(written: set<Dir>, pairs: seq<Pair>, i: nat, d: Dir)
    requires i <= |pairs|
  {
    exists q | q in Chosen(written, pairs[..i]) :: q.dir == d
  }

  /** Of a unit's pairs the first is chosen exactly when no pair ranked before it is chosen for its directory. */
  lemma KeepsFirst(written: set<Dir>, pairs: seq<Pair>, i: nat)
    requires First(written, pairs, i)
    ensures pairs[i] in Chosen(written, pairs) <==> !TakenBefore(written, pairs, i, pairs[i].dir)
  {
    var p, front := pairs[i], Chosen(written, pairs[..i]);
    assert pairs[..i + 1][..i] == pairs[..i];
    ChosenOneToOne(written, pairs[..i]);
    ChosenOneToOne(written, pairs);
    if TakenBefore(written, pairs, i, p.dir) {
      var q :| q in front && q.dir == p.dir;
      StaysChosen(written, pairs, i, q);
      assert q.hash != p.hash by { assert q in pairs[..i]; }
    } else {
      forall q | q in front ensures q.hash != p.hash { assert q in pairs[..i]; }
      assert p in Chosen(written, pairs[..i + 1]);
      StaysChosen(written, pairs, i + 1, p);
    }
  }

  /** A pair of `i`'s unit at its least distance, the directory not written since the mark. */
  predicate Closest(written: set<Dir>, pairs: seq<Pair>, i: nat, m: nat)
    requires i < |pairs|
  {
    m < |pairs| && pairs[m].hash == pairs[i].hash && pairs[m].distance == pairs[i].distance && pairs[m].dir !in written
  }

  /** The unit ends with a directory at its least distance. */
  ghost predicate Keeps(written: set<Dir>, pairs: seq<Pair>, i: nat)
    requires i < |pairs|
  {
    exists p | p in Chosen(written, pairs) :: p.hash == pairs[i].hash && p.distance == pairs[i].distance
  }

  /** Where a pair was chosen its directory was free. */
  lemma {:induction false} ChosenAt(written: set<Dir>, pairs: seq<Pair>, p: Pair) returns (m: nat)
    requires p in Chosen(written, pairs)
    ensures m < |pairs| && pairs[m] == p && p.dir !in written && !TakenBefore(written, pairs, m, p.dir)
  {
    var last := |pairs| - 1;
    if p in Chosen(written, pairs[..last]) {
      m := ChosenAt(written, pairs[..last], p);
      assert pairs[..last][..m] == pairs[..m];
    } else {
      m := last;
    }
  }

  /** A unit ends with a closest directory exactly when one of its closest is not taken by a pair ranked before. */
  lemma KeepsClosest(written: set<Dir>, pairs: seq<Pair>, i: nat)
    requires Sorted(pairs) && First(written, pairs, i)
    ensures Keeps(written, pairs, i) <==>
      exists m: nat :: Closest(written, pairs, i, m) && !TakenBefore(written, pairs, m, pairs[m].dir)
  {
    if Keeps(written, pairs, i) {
      var p :| p in Chosen(written, pairs) && p.hash == pairs[i].hash && p.distance == pairs[i].distance;
      var m := ChosenAt(written, pairs, p);
      assert Closest(written, pairs, i, m);
    }
    if m: nat :| Closest(written, pairs, i, m) && !TakenBefore(written, pairs, m, pairs[m].dir) {
      KeptIfFree(written, pairs, i, m);
    }
  }

  lemma KeptIfFree(written: set<Dir>, pairs: seq<Pair>, i: nat, m: nat)
    requires Sorted(pairs) && First(written, pairs, i)
    requires Closest(written, pairs, i, m) && !TakenBefore(written, pairs, m, pairs[m].dir)
    ensures Keeps(written, pairs, i)
  {
    var p, front := pairs[m], Chosen(written, pairs[..m]);
    assert pairs[..m + 1][..m] == pairs[..m];
    if Free(front, written, p) {
      assert p in Chosen(written, pairs[..m + 1]);
      StaysChosen(written, pairs, m + 1, p);
    } else {
      var q :| q in front && q.hash == p.hash;
      ChosenOneToOne(written, pairs[..m]);
      var k :| 0 <= k < m && pairs[k] == q;
      FirstIsClosest(written, pairs, i, q);
      StaysChosen(written, pairs, m, q);
    }
  }

  /** No two units have the same first directory. */
  ghost predicate Apart(written: set<Dir>, pairs: seq<Pair>) {
    forall i: nat, j: nat | First(written, pairs, i) && First(written, pairs, j)
      && pairs[i].dir == pairs[j].dir :: i == j
  }

  /** No unit has two directories at its least distance. */
  ghost predicate Untied(written: set<Dir>, pairs: seq<Pair>) {
    forall i: nat, m: nat | First(written, pairs, i) && Closest(written, pairs, i, m) :: pairs[m] == pairs[i]
  }

  /** Every unit keeps a closest directory when no two share their first, and, without ties, only then. */
  lemma AllKeepClosest(written: set<Dir>, pairs: seq<Pair>)
    ensures Apart(written, pairs) ==> forall i: nat | First(written, pairs, i) :: Keeps(written, pairs, i)
    ensures Untied(written, pairs) && (forall i: nat | First(written, pairs, i) :: Keeps(written, pairs, i)) ==>
      Apart(written, pairs)
  {
    if Apart(written, pairs) {
      forall i: nat | First(written, pairs, i) ensures Keeps(written, pairs, i) { KeptIfApart(written, pairs, i); }
    }
    if Untied(written, pairs) && (forall i: nat | First(written, pairs, i) :: Keeps(written, pairs, i)) {
      ChosenOneToOne(written, pairs);
      forall i: nat, j: nat | First(written, pairs, i) && First(written, pairs, j) && pairs[i].dir == pairs[j].dir
        ensures i == j
      {
        FirstIsChosen(written, pairs, i);
        FirstIsChosen(written, pairs, j);
        assert pairs[i] == pairs[j];
      }
    }
  }

  lemma FirstIsChosen(written: set<Dir>, pairs: seq<Pair>, i: nat)
    requires Untied(written, pairs) && First(written, pairs, i) && Keeps(written, pairs, i)
    ensures pairs[i] in Chosen(written, pairs)
  {
    var p :| p in Chosen(written, pairs) && p.hash == pairs[i].hash && p.distance == pairs[i].distance;
    var m := ChosenAt(written, pairs, p);
    assert Closest(written, pairs, i, m);
  }

  lemma {:induction false} KeptIfApart(written: set<Dir>, pairs: seq<Pair>, i: nat)
    requires Apart(written, pairs) && First(written, pairs, i)
    ensures pairs[i] in Chosen(written, pairs)
    decreases i
  {
    ChosenOneToOne(written, pairs[..i]);
    ChosenOneToOne(written, pairs);
    forall q | q in Chosen(written, pairs[..i]) ensures q.dir != pairs[i].dir {
      var j :| 0 <= j < i && pairs[j] == q;
      StaysChosen(written, pairs, i, q);
      var k := FirstOf(written, pairs, j);
      KeptIfApart(written, pairs, k);
      assert pairs[k] == q;
    }
    KeepsFirst(written, pairs, i);
  }

  lemma {:induction false} FirstOf(written: set<Dir>, pairs: seq<Pair>, j: nat) returns (k: nat)
    requires j < |pairs| && pairs[j].dir !in written
    ensures k <= j && First(written, pairs, k) && pairs[k].hash == pairs[j].hash
  {
    k := j;
    if !First(written, pairs, j) {
      var l :| 0 <= l < j && pairs[l].hash == pairs[j].hash && pairs[l].dir !in written;
      k := FirstOf(written, pairs, l);
    }
  }

  /** One crate, two units and two directories: the later unit takes the directory closest to both, and the earlier one
      ends with its farther. */
  lemma FartherKept()
    ensures var d, e := Dir(1, 0, [15.0]), Dir(2, 0, [20.0]);
      var units := [Unit(1, 0, 10.0), Unit(2, 0, 14.0)];
      var pairs := [Pair(1.0, 2, d), Pair(5.0, 1, d), Pair(6.0, 2, e), Pair(10.0, 1, e)];
      && Sorted(pairs) && (forall p :: p in pairs <==> IsPair([d, e], units, SESSION_AFTER, SESSION_BEFORE, p))
      && First({}, pairs, 1) && Chosen({}, pairs) == [pairs[0], pairs[3]] && !Keeps({}, pairs, 1)
  {
    var d, e := Dir(1, 0, [15.0]), Dir(2, 0, [20.0]);
    var u, v := Unit(1, 0, 10.0), Unit(2, 0, 14.0);
    var pairs := [Pair(1.0, 2, d), Pair(5.0, 1, d), Pair(6.0, 2, e), Pair(10.0, 1, e)];
    assert Newest(d.starts) == 15.0 && Newest(e.starts) == 20.0;
    forall p ensures p in pairs <==> IsPair([d, e], [u, v], SESSION_AFTER, SESSION_BEFORE, p) {
      assert d in [d, e] && e in [d, e] && u in [u, v] && v in [u, v];
    }
    assert pairs[..3] == [pairs[0], pairs[1], pairs[2]] && pairs[..3][..2] == [pairs[0], pairs[1]];
    assert [pairs[0], pairs[1]][..1] == [pairs[0]] && [pairs[0]][..0] == [];
    assert Chosen({}, [pairs[0]]) == [pairs[0]];
    assert Chosen({}, [pairs[0], pairs[1]]) == [pairs[0]];
    assert Chosen({}, [pairs[0], pairs[1], pairs[2]]) == [pairs[0]];
  }

  // ---------------------------------------------------------------- what is removed

  /** The directories removed: none written since the mark, and none that a unit left without a directory could have
      used. */
  method Clean(dirs: seq<Dir>, units: seq<Unit>, since: real, lo: real, hi: real)
    returns (removed: seq<Dir>, pairs: seq<Pair>)
    ensures Sorted(pairs) && forall p :: p in pairs <==> IsPair(dirs, units, lo, hi, p)
    ensures forall d :: d in removed <==>
      d in dirs && d !in Written(dirs, since) && d !in DirsOf(Chosen(Written(dirs, since), pairs))
    ensures forall d, t | d in removed && IsLast(d.starts, t) :: t < since
    ensures forall d, u | d in removed && u in units && Admissible(d, u, lo, hi) ::
      ServedCloser(Chosen(Written(dirs, since), pairs), u, Distance(d, u))
  {
    var written, all := Gather(dirs, units, since, lo, hi);
    var kept := Claim(written, all);
    removed := Without(dirs, kept);
    pairs := all;
    hide *;
    forall d, t | d in removed && IsLast(d.starts, t) ensures t < since { WrittenMeans(dirs, since, d); }
    forall d, u | d in removed && u in units && Admissible(d, u, lo, hi)
      ensures ServedCloser(Chosen(Written(dirs, since), pairs), u, Distance(d, u))
    {
      UsedElsewhere(dirs, units, written, lo, hi, all, d, u);
    }
  }

  ghost predicate ServedCloser(chosen: seq<Pair>, u: Unit, distance: real) {
    exists q | q in chosen :: q.hash == u.hash && q.distance <= distance
  }

  lemma UsedElsewhere(dirs: seq<Dir>, units: seq<Unit>, written: set<Dir>, lo: real, hi: real, pairs: seq<Pair>,
      d: Dir, u: Unit)
    requires Sorted(pairs) && forall p :: p in pairs <==> IsPair(dirs, units, lo, hi, p)
    requires d in dirs && u in units && Admissible(d, u, lo, hi) && d !in written + DirsOf(Chosen(written, pairs))
    ensures ServedCloser(Chosen(written, pairs), u, Distance(d, u))
  {
    var p := Pair(Distance(d, u), u.hash, d);
    assert IsPair(dirs, units, lo, hi, p);
    OthersBeaten(written, pairs, p);
  }

  method Without(dirs: seq<Dir>, kept: set<Dir>) returns (removed: seq<Dir>)
    ensures forall d :: d in removed <==> d in dirs && d !in kept
  {
    removed := [];
    for i := 0 to |dirs|
      invariant forall d :: d in removed <==> d in dirs[..i] && d !in kept
    {
      if dirs[i] !in kept { removed := removed + [dirs[i]]; }
    }
  }
}
