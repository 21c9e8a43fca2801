/** A record store imported onto a pod's tombstone: the namespace guarded, imported over an await, and set with no
    further check, in every interleaving with registrations, departures and other imports. */
module Imports {
  import opened Ids
  import opened Options
  import opened Registry

  /** An import between its guard and its set, or past it. */
  datatype Import = Guarded(pod: PodId, ns: NamespaceId) | Over

  datatype World = World(pods: Pods, imports: seq<Import>)

  datatype Step =
    | Guard(pod: PodId, ns: NamespaceId)
    | Set(i: nat)
    | Register(pod: PodId, binding: Binding)
    | Forget(pod: PodId)
    | Discard(pod: PodId)

  predicate Enabled(w: World, step: Step) {
    match step
    case Guard(pod, ns) => pod in w.pods && w.pods[pod].records.None? && Free(w.pods, ns)
    case Set(i) => i < |w.imports| && w.imports[i].Guarded?
    case _ => true
  }

  function Next(w: World, step: Step): World
    requires Enabled(w, step)
  {
    match step
    case Guard(pod, ns) => w.(imports := w.imports + [Guarded(pod, ns)])
    case Set(i) =>
      World(WithRecords(w.pods, w.imports[i].pod, Some(w.imports[i].ns)), w.imports[i := Over])
    case Register(pod, binding) =>
      w.(pods := if Registers(w.pods, pod, binding) then w.pods[pod := binding] else w.pods)
    case Forget(pod) => w.(pods := WithRecords(w.pods, pod, None))
    case Discard(pod) => w.(pods := w.pods - {pod})
  }

  /** The set finds its namespace in a role other than the one it sets. */
  ghost predicate Taken(w: World, step: Step) {
    && step.Set? && step.i < |w.imports| && w.imports[step.i].Guarded? && w.imports[step.i].pod in w.pods
    && exists r :: Plays(w.pods, w.imports[step.i].ns, r) && r != Role(w.imports[step.i].pod, Records)
  }

  /** One role each is kept by every step but such a set, and by that one never. */
  lemma StepKeeps(w: World, step: Step)
    requires Enabled(w, step) && OneRoleEach(w.pods)
    ensures OneRoleEach(Next(w, step).pods) <==> !Taken(w, step)
  {
    var m := Next(w, step).pods;
    if step.Set? {
      if w.imports[step.i].pod in w.pods { SetKeeps(w.pods, w.imports[step.i].pod, Some(w.imports[step.i].ns)); }
    } else if step.Register? && Registers(w.pods, step.pod, step.binding) {
      RegisterKeeps(w.pods, step.pod, step.binding);
    } else {
      forall ns, r | Plays(m, ns, r) ensures Plays(w.pods, ns, r) {
      }
    }
  }

  /** What each step makes of a role: a set puts the guarded namespace in the pod's record store in place of what was
      there, a registration that is let in brings the pod's two, forgetting ends the record store and discarding
      both. */
  lemma RolesMove(w: World, step: Step, ns: NamespaceId, r: Role)
    requires Enabled(w, step)
    ensures Plays(Next(w, step).pods, ns, r) <==>
      match step
      case Guard(_, _) => Plays(w.pods, ns, r)
      case Set(i) =>
        if r == Role(w.imports[i].pod, Records) then r.pod in w.pods && ns == w.imports[i].ns else Plays(w.pods, ns, r)
      case Register(pod, binding) =>
        if r.pod == pod && pod !in w.pods then
          (forall s, q | s == binding.membership || Some(s) == binding.records :: !Plays(w.pods, s, q))
            && binding.records != Some(binding.membership)
            && Some(ns) == if r.store == Membership then Some(binding.membership) else binding.records
        else Plays(w.pods, ns, r)
      case Forget(pod) => Plays(w.pods, ns, r) && r != Role(pod, Records)
      case Discard(pod) => Plays(w.pods, ns, r) && r.pod != pod
  {
    if step.Register? {
      FreeMeans(w.pods, step.binding.membership);
      if step.binding.records.Some? { FreeMeans(w.pods, step.binding.records.value); }
    }
  }

  function Run(w: World, steps: seq<Step>): Option<World>
    decreases |steps|
  {
    if steps == [] then Some(w)
    else
      var before := Run(w, steps[..|steps| - 1]);
      if before.Some? && Enabled(before.value, steps[|steps| - 1]) then Some(Next(before.value, steps[|steps| - 1]))
      else None
  }

  const EMPTY := World(map[], [])

  /** No set of the run finds its namespace taken. */
  ghost predicate Untaken(steps: seq<Step>)
    decreases |steps|
  {
    steps != [] ==>
      var before := Run(EMPTY, steps[..|steps| - 1]);
      Untaken(steps[..|steps| - 1]) && (before.Some? ==> !Taken(before.value, steps[|steps| - 1]))
  }

  /** Over every such run each namespace is one store of one pod. */
  lemma {:induction false} OneRoleOverRuns(steps: seq<Step>)
    requires Run(EMPTY, steps).Some? && Untaken(steps)
    ensures OneRoleEach(Run(EMPTY, steps).value.pods)
    decreases |steps|
  {
    if steps != [] {
      OneRoleOverRuns(steps[..|steps| - 1]);
      StepKeeps(Run(EMPTY, steps[..|steps| - 1]).value, steps[|steps| - 1]);
    }
  }

  /** At step `k` of the run the namespace came to the role, and has stayed in it. */
  ghost predicate TookAt(w: World, steps: seq<Step>, k: nat, ns: NamespaceId, r: Role) {
    && k < |steps| && Run(w, steps[..k]).Some? && !Plays(Run(w, steps[..k]).value.pods, ns, r)
    && forall j | k < j <= |steps| :: Run(w, steps[..j]).Some? && Plays(Run(w, steps[..j]).value.pods, ns, r)
  }

  lemma {:induction false} PlaysSince(w: World, steps: seq<Step>, ns: NamespaceId, r: Role)
    requires Run(w, steps).Some? && !Plays(w.pods, ns, r)
    ensures Plays(Run(w, steps).value.pods, ns, r) <==> exists k: nat :: TookAt(w, steps, k, ns, r)
    decreases |steps|
  {
    assert steps[..|steps|] == steps;
    if Plays(Run(w, steps).value.pods, ns, r) {
      var front := steps[..|steps| - 1];
      if Plays(Run(w, front).value.pods, ns, r) {
        PlaysSince(w, front, ns, r);
        var k: nat :| TookAt(w, front, k, ns, r);
        assert steps[..k] == front[..k];
        forall j | k < j <= |steps| ensures Run(w, steps[..j]).Some? && Plays(Run(w, steps[..j]).value.pods, ns, r) {
          if j < |steps| { assert steps[..j] == front[..j]; }
        }
        assert TookAt(w, steps, k, ns, r);
      } else {
        assert TookAt(w, steps, |steps| - 1, ns, r);
      }
    }
  }

  lemma {:induction false} ImportStays(w: World, steps: seq<Step>, i: nat)
    requires Run(w, steps).Some? && i < |w.imports|
    ensures i < |Run(w, steps).value.imports|
    ensures Run(w, steps).value.imports[i] == w.imports[i] || Run(w, steps).value.imports[i] == Over
    decreases |steps|
  {
    if steps != [] { ImportStays(w, steps[..|steps| - 1], i); }
  }

  /** Another role took the namespace on the way, and has it still. */
  ghost predicate TookBesides(w: World, steps: seq<Step>, ns: NamespaceId, own: Role) {
    exists r, k: nat :: TookAt(w, steps, k, ns, r) && r != own
  }

  lemma PlaysBesides(w: World, steps: seq<Step>, ns: NamespaceId, own: Role)
    requires Run(w, steps).Some? && Free(w.pods, ns)
    ensures TookBesides(w, steps, ns, own) <==> exists r :: Plays(Run(w, steps).value.pods, ns, r) && r != own
  {
    hide TookAt;
    var end := Run(w, steps).value.pods;
    if r :| Plays(end, ns, r) && r != own {
      FreeMeans(w.pods, ns);
      PlaysSince(w, steps, ns, r);
      var k: nat :| TookAt(w, steps, k, ns, r);
      assert TookBesides(w, steps, ns, own);
    }
    if TookBesides(w, steps, ns, own) {
      var r, k: nat :| TookAt(w, steps, k, ns, r) && r != own;
      FreeMeans(w.pods, ns);
      PlaysSince(w, steps, ns, r);
      assert Plays(end, ns, r);
    }
  }

  /** A guarded set, however long its import took and whatever ran beside it: one role each is kept exactly when the pod
      is gone, or no other role took the namespace since the guard and still has it. */
  lemma GuardedSet(w: World, pod: PodId, ns: NamespaceId, between: seq<Step>)
    requires Enabled(w, Guard(pod, ns))
    requires var g := Next(w, Guard(pod, ns));
      Run(g, between).Some? && var m := Run(g, between).value; Enabled(m, Set(|w.imports|)) && OneRoleEach(m.pods)
    ensures var g := Next(w, Guard(pod, ns));
      var m := Run(g, between).value;
      OneRoleEach(Next(m, Set(|w.imports|)).pods) <==>
        pod !in m.pods || !TookBesides(g, between, ns, Role(pod, Records))
  {
    var g := Next(w, Guard(pod, ns));
    var m := Run(g, between).value;
    ImportStays(g, between, |w.imports|);
    StepKeeps(m, Set(|w.imports|));
    PlaysBesides(g, between, ns, Role(pod, Records));
    hide Run, TookBesides, OneRoleEach, Plays;
    assert m.imports[|w.imports|] == Guarded(pod, ns);
  }

  lemma RunOn(w: World, steps: seq<Step>, n: World, step: Step)
    requires Run(w, steps) == Some(n) && Enabled(n, step)
    ensures Run(w, steps + [step]) == Some(Next(n, step))
  {
    assert (steps + [step])[..|steps|] == steps;
  }

  const TOMBSTONE := Register(PodId(1), Binding(10, None))
  const TAKING := Register(PodId(2), Binding(20, Some(21)))

  /** And the guard does not keep it: a tombstone's record store is guarded, another pod is registered on that namespace
      while it is imported, and the set gives it a second role. */
  lemma TwoRoles()
    ensures var run := Run(EMPTY, [TOMBSTONE] + [Guard(PodId(1), 20)] + [TAKING] + [Set(0)]);
      && run.Some? && Plays(run.value.pods, 20, Role(PodId(1), Records))
      && Plays(run.value.pods, 20, Role(PodId(2), Membership)) && !OneRoleEach(run.value.pods)
  {
    assert Run(EMPTY, []) == Some(EMPTY);
    RunOn(EMPTY, [], EMPTY, TOMBSTONE);
    assert [] + [TOMBSTONE] == [TOMBSTONE];
    var dead := World(map[PodId(1) := Binding(10, None)], []);
    assert Next(EMPTY, TOMBSTONE) == dead;
    RunOn(EMPTY, [TOMBSTONE], dead, Guard(PodId(1), 20));
    var guarded := dead.(imports := [Guarded(PodId(1), 20)]);
    assert Next(dead, Guard(PodId(1), 20)) == guarded;
    RunOn(EMPTY, [TOMBSTONE] + [Guard(PodId(1), 20)], guarded, TAKING);
    var taken := Next(guarded, TAKING);
    assert taken.pods == map[PodId(1) := Binding(10, None), PodId(2) := Binding(20, Some(21))];
    RunOn(EMPTY, [TOMBSTONE] + [Guard(PodId(1), 20)] + [TAKING], taken, Set(0));
    var end := Next(taken, Set(0)).pods;
    assert Plays(end, 20, Role(PodId(1), Records)) && Plays(end, 20, Role(PodId(2), Membership));
  }
}
