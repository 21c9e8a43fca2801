/** One facade handle and the tasks of its bring-ups and stops: whatever calls overlap, at most one runtime is
    alive, a stop that returned left none of an earlier bring-up, and every task comes to an end. */
module Handle {
  import opened Options

  /** A bring-up or a stop in flight, told by the lock it was made with. */
  type Token = nat

  datatype State = Down | ComingUp(token: Token) | Up(runtime: Token)

  predicate Claimed(state: State, ours: Token) { state == ComingUp(ours) }

  // Each critical section under the handle's state lock, as a function of the state it finds.

  function AfterSettle(state: State, ours: Token): State { if Claimed(state, ours) then Down else state }

  function AfterInstall(state: State, ours: Token): State { if Claimed(state, ours) then Up(ours) else state }

  class Facade {
    var state: State

    constructor ()
      ensures state == Down
    {
      state := Down;
    }

    /** Refused, changing nothing, unless the handle is down. */
    method ClaimBringUp(ours: Token) returns (claimed: bool)
      modifies this
      ensures claimed <==> old(state) == Down
      ensures state == if claimed then ComingUp(ours) else old(state)
    {
      match state
      case Down =>
        state := ComingUp(ours);
        claimed := true;
      case ComingUp(_) => claimed := false;
      case Up(_) => claimed := false;
    }

    /** A stop takes over whatever is there and goes on to wait for it; with nothing there it is a no-op. */
    method ClaimStop(ours: Token) returns (previous: State)
      modifies this
      ensures previous == old(state)
      ensures state == if old(state) == Down then Down else ComingUp(ours)
    {
      previous := state;
      if state.Down? { return; }
      state := ComingUp(ours);
    }

    /** The runtime goes where the calls look for it unless a stop overtook the bring-up. */
    method Install(ours: Token) returns (installed: bool)
      modifies this
      ensures installed <==> old(state) == ComingUp(ours)
      ensures state == if installed then Up(ours) else old(state)
      ensures state == AfterInstall(old(state), ours)
    {
      installed := Claimed(state, ours);
      if installed { state := Up(ours); }
    }

    /** The end of a stop, or of a bring-up whose spawn failed. */
    method Settle(ours: Token)
      modifies this
      ensures state == if old(state) == ComingUp(ours) then Down else old(state)
      ensures state == AfterSettle(old(state), ours)
    {
      if Claimed(state, ours) { state := Down; }
    }
  }

  // ---------------------------------------------------------------- the tasks

  datatype Phase =
    | Spawning                    // a bring-up, its runtime on the way up
    | Spawned                     // up, its fate not yet read from the state
    | Failed                      // did not come up
    | ShuttingDown                // overtaken, on the way down
    | Waiting(previous: State)    // a stop, for what it took over
    | Stopped
    | Settled                     // done with the state, its lock still held
    | Ended

  datatype Task = Task(bringUp: bool, phase: Phase)

  /** Tokens are the tasks' places: each call that claims makes a new one. */
  datatype Node = Node(state: State, tasks: seq<Task>)

  datatype Step =
    | BringUpCall | StopCall                                     // a call from outside
    | SpawnEnds(i: Token, ok: bool) | Installs(i: Token) | ShutDown(i: Token)
    | Takes(i: Token) | Settles(i: Token) | Releases(i: Token)   // a task moving on

  predicate Internal(step: Step) { !step.BringUpCall? && !step.StopCall? }

  predicate At(n: Node, i: Token, phase: Phase) { i < |n.tasks| && n.tasks[i].phase == phase }

  predicate Enabled(n: Node, step: Step) {
    match step
    case BringUpCall => true
    case StopCall => true
    case SpawnEnds(i, _) => At(n, i, Spawning)
    case Installs(i) => At(n, i, Spawned)
    case ShutDown(i) => At(n, i, ShuttingDown)
    case Takes(i) =>
      && i < |n.tasks| && n.tasks[i].phase.Waiting?
      && (n.tasks[i].phase.previous.ComingUp? ==> At(n, n.tasks[i].phase.previous.token, Ended))
    case Settles(i) => At(n, i, Stopped) || At(n, i, Failed)
    case Releases(i) => At(n, i, Settled)
  }

  function Moved(n: Node, i: Token, phase: Phase): Node
    requires i < |n.tasks|
  {
    n.(tasks := n.tasks[i := n.tasks[i].(phase := phase)])
  }

  function Take(n: Node, step: Step): Node
    requires Enabled(n, step)
  {
    match step
    case BringUpCall => if n.state.Down? then Node(ComingUp(|n.tasks|), n.tasks + [Task(true, Spawning)]) else n
    case StopCall => if n.state.Down? then n else Node(ComingUp(|n.tasks|), n.tasks + [Task(false, Waiting(n.state))])
    case SpawnEnds(i, ok) => Moved(n, i, if ok then Spawned else Failed)
    case Installs(i) =>
      Moved(n, i, if Claimed(n.state, i) then Settled else ShuttingDown).(state := AfterInstall(n.state, i))
    case ShutDown(i) => Moved(n, i, Settled)
    case Takes(i) => Moved(n, i, Stopped)
    case Settles(i) => Moved(n, i, Settled).(state := AfterSettle(n.state, i))
    case Releases(i) => Moved(n, i, Ended)
  }

  function Run(steps: seq<Step>): (end: Option<Node>)
    decreases |steps|
  {
    if steps == [] then Some(Node(Down, []))
    else
      var before := Run(steps[..|steps| - 1]);
      if before.Some? && Enabled(before.value, steps[|steps| - 1]) then Some(Take(before.value, steps[|steps| - 1]))
      else None
  }

  /** The runtimes alive, each by the bring-up that spawned it: held by that bring-up, installed, or held by a stop
      shutting it down. */
  predicate AliveIn(n: Node, i: Token, runtime: Token) {
    i < |n.tasks| && match n.tasks[i].phase
    case Spawning => runtime == i
    case Spawned => runtime == i
    case ShuttingDown => runtime == i
    case Waiting(previous) => previous == Up(runtime)
    case _ => false
  }

  /** Where a live runtime is: a task, or the handle itself, written as the place past the last task. */
  predicate Alive(n: Node, place: nat, runtime: Token) {
    if place == |n.tasks| then n.state == Up(runtime) else AliveIn(n, place, runtime)
  }

  predicate Busy(t: Task) { t.phase != Settled && t.phase != Ended }

  /** Behind a busy task every later one waits for the one before it. */
  ghost predicate Queued(n: Node) {
    forall i, k | 0 <= i < k < |n.tasks| && Busy(n.tasks[i]) :: n.tasks[k].phase == Waiting(ComingUp(k - 1))
  }

  /** The handle names the last task while that is busy, and otherwise nothing is. */
  ghost predicate Held(n: Node) {
    match n.state
    case ComingUp(t) => t == |n.tasks| - 1 && Busy(n.tasks[t])
    case Down => forall i | 0 <= i < |n.tasks| :: !Busy(n.tasks[i])
    case Up(r) => r == |n.tasks| - 1 && n.tasks[r].bringUp && forall i | 0 <= i < |n.tasks| :: !Busy(n.tasks[i])
  }

  ghost predicate Inv(n: Node) {
    Queued(n) && Held(n) && forall k | 0 <= k < |n.tasks| :: Kind(n, k)
  }

  /** A bring-up is never in a stop's phase, nor the other way round, a stop took over the task before it, and an
      overtaken bring-up is not the last. */
  predicate Kind(n: Node, k: Token)
    requires k < |n.tasks|
  {
    match n.tasks[k].phase
    case Waiting(previous) =>
      && !n.tasks[k].bringUp && 0 < k
      && match previous {
        case Down => false
        case ComingUp(t) => t == k - 1
        case Up(r) => r == k - 1 && n.tasks[r].bringUp
      }
    case ShuttingDown => n.tasks[k].bringUp && k < |n.tasks| - 1
    case Stopped => !n.tasks[k].bringUp
    case Settled => true
    case Ended => true
    case _ => n.tasks[k].bringUp
  }

  lemma OthersKind(n: Node, m: Node, i: Token, k: Token)
    requires i < |n.tasks| && k < |n.tasks| && k != i && |m.tasks| == |n.tasks|
    requires m.tasks == n.tasks[i := n.tasks[i].(phase := m.tasks[i].phase)] && Kind(n, k)
    ensures Kind(m, k)
  {
  }

  lemma CallKeeps(n: Node, step: Step)
    requires Inv(n) && !Internal(step)
    ensures Inv(Take(n, step))
  {
    var m := Take(n, step);
    forall k | 0 <= k < |m.tasks| ensures Kind(m, k) {
      if k < |n.tasks| { assert Kind(n, k); }
    }
  }

  /** The task moving on is the only busy one not waiting for another, so the others see no change. */
  lemma MoveKeeps(n: Node, step: Step, i: Token)
    requires Inv(n) && Enabled(n, step) && Internal(step) && step.i == i
    ensures Inv(Take(n, step))
  {
    var m := Take(n, step);
    assert Kind(n, i);
    if step.Takes? && n.tasks[i].phase.previous.ComingUp? { assert !Busy(n.tasks[i - 1]); }
    forall k | 0 <= k < |m.tasks| ensures Kind(m, k) {
      if k != i { OthersKind(n, m, i, k); }
    }
  }

  lemma {:induction false} RunKeeps(steps: seq<Step>)
    ensures Run(steps).Some? ==> Inv(Run(steps).value)
    decreases |steps|
  {
    if steps != [] && Run(steps).Some? {
      var last := steps[|steps| - 1];
      RunKeeps(steps[..|steps| - 1]);
      var before := Run(steps[..|steps| - 1]).value;
      if Internal(last) { MoveKeeps(before, last, last.i); } else { CallKeeps(before, last); }
    }
  }

  // ---------------------------------------------------------------- what every run keeps

  /** At most one runtime is alive, in one place; with the handle down there is none. */
  lemma OneRuntime(steps: seq<Step>, p: nat, q: nat, r: Token, r': Token)
    requires Run(steps).Some?
    ensures var n := Run(steps).value;
      && (Alive(n, p, r) && Alive(n, q, r') ==> p == q && r == r')
      && (n.state.Down? ==> !Alive(n, p, r))
  {
    RunKeeps(steps);
    var n := Run(steps).value;
    AliveIsBusy(n, p, r);
    AliveIsBusy(n, q, r');
  }

  lemma AliveIsBusy(n: Node, p: nat, r: Token)
    requires Inv(n)
    ensures Alive(n, p, r) && p < |n.tasks| ==>
      Busy(n.tasks[p]) && (forall i | 0 <= i < p :: !Busy(n.tasks[i])) && n.state.ComingUp?
    ensures Alive(n, p, r) ==> r < |n.tasks| && n.tasks[r].bringUp && p <= r + 1
  {
    if p < |n.tasks| { assert Kind(n, p); }
  }

  /** A stop whose lock has gone left no runtime of a bring-up before it, however many stops and bring-ups overlapped
      it. */
  lemma StoppedMeansGone(steps: seq<Step>, stop: Token, p: nat, r: Token)
    requires Run(steps).Some? && var n := Run(steps).value;
      stop < |n.tasks| && !n.tasks[stop].bringUp && !Busy(n.tasks[stop])
    ensures Alive(Run(steps).value, p, r) ==> stop < r
    ensures forall i | 0 <= i <= stop :: !Busy(Run(steps).value.tasks[i])
  {
    RunKeeps(steps);
    var n := Run(steps).value;
    AliveIsBusy(n, p, r);
  }

  /** Only the task the handle names changes what it holds: an overtaken task leaves a later claim alone. */
  lemma OvertakenLeavesState(n: Node, step: Step)
    requires Inv(n) && Enabled(n, step) && Internal(step) && Take(n, step).state != n.state
    ensures n.state == ComingUp(|n.tasks| - 1) && step.i == |n.tasks| - 1
    ensures forall i | 0 <= i < |n.tasks| - 1 :: !Busy(n.tasks[i])
  {
  }

  // ---------------------------------------------------------------- what becomes of a bring-up

  ghost predicate Lives(n: Node, r: Token) { exists p: nat :: Alive(n, p, r) }

  /** The step takes the runtime down: it did not come up, its own overtaken bring-up shuts it down, or a stop that took
      it over does. */
  predicate TakesDown(n: Node, step: Step, r: Token) {
    step == SpawnEnds(r, false) || step == ShutDown(r)
    || (step.Takes? && step.i < |n.tasks| && n.tasks[step.i].phase == Waiting(Up(r)))
  }

  /** A runtime is there from its bring-up's claim on, until a step takes it down. */
  lemma RuntimeStays(n: Node, step: Step, r: Token)
    requires Inv(n) && Enabled(n, step)
    ensures Lives(Take(n, step), r) <==>
      if Lives(n, r) then !TakesDown(n, step, r) else step == BringUpCall && n.state == Down && r == |n.tasks|
  {
    var m := Take(n, step);
    if step == BringUpCall && n.state == Down { assert Alive(m, |n.tasks|, |n.tasks|); }
    if Lives(n, r) {
      var p: nat :| Alive(n, p, r);
      StaysSomewhere(n, step, p, r);
    }
    if Lives(m, r) {
      var q: nat :| Alive(m, q, r);
      WasSomewhere(n, step, q, r);
    }
  }

  lemma StaysSomewhere(n: Node, step: Step, p: nat, r: Token)
    requires Inv(n) && Enabled(n, step) && Alive(n, p, r)
    ensures !TakesDown(n, step, r) ==> Lives(Take(n, step), r)
    ensures TakesDown(n, step, r) ==> p < |n.tasks| && p == step.i
  {
    var m := Take(n, step);
    AliveIsBusy(n, p, r);
    if p < |n.tasks| { assert Kind(n, p); }
    if Internal(step) { assert Kind(n, step.i); }
    assert Alive(m, p, r) || Alive(m, |n.tasks|, r) || Alive(m, |m.tasks|, r) || TakesDown(n, step, r);
  }

  lemma WasSomewhere(n: Node, step: Step, q: nat, r: Token)
    requires Inv(n) && Enabled(n, step) && Alive(Take(n, step), q, r)
    ensures Lives(n, r) || (step == BringUpCall && n.state == Down && r == |n.tasks|)
    ensures !TakesDown(n, step, r)
  {
    var m := Take(n, step);
    if Internal(step) { assert Kind(n, step.i); MoveKeeps(n, step, step.i); } else { CallKeeps(n, step); }
    AliveIsBusy(m, q, r);
    assert Alive(n, q, r) || Alive(n, |n.tasks|, r) || (Internal(step) && Alive(n, step.i, r))
      || (step == BringUpCall && n.state == Down && r == |n.tasks|);
  }

  /** How far a bring-up has come, by how its spawn ended; the last call to claim the handle, it left it up with its
      runtime if the spawn ended well, and down if not. */
  ghost predicate Told(steps: seq<Step>, n: Node, k: Token)
    requires k < |n.tasks|
  {
    var well, ill := SpawnEnds(k, true) in steps, SpawnEnds(k, false) in steps;
    n.tasks[k].bringUp ==>
      match n.tasks[k].phase
      case Spawning => !well && !ill
      case Spawned | ShuttingDown => well && !ill
      case Failed => ill && !well
      case _ => well != ill && (k == |n.tasks| - 1 ==> n.state == if well then Up(k) else Down)
  }

  lemma {:induction false} BringUpsTold(steps: seq<Step>, k: Token)
    requires Run(steps).Some?
    ensures var n := Run(steps).value;
      if k < |n.tasks| then Told(steps, n, k) else SpawnEnds(k, true) !in steps && SpawnEnds(k, false) !in steps
    decreases |steps|
  {
    if steps != [] {
      var front, last := steps[..|steps| - 1], steps[|steps| - 1];
      var before := Run(front).value;
      BringUpsTold(front, k);
      RunKeeps(front);
      assert forall s :: s in steps <==> s in front || s == last;
      if k < |before.tasks| { assert Kind(before, k); }
      if Internal(last) { assert Kind(before, last.i); }
    }
  }

  /** Over every run: a bring-up no later call overtook, its task done, left the handle up with its runtime exactly when
      its spawn ended well, and else down. */
  lemma BringUpLands(steps: seq<Step>, k: Token)
    requires Run(steps).Some? && var n := Run(steps).value;
      k == |n.tasks| - 1 && n.tasks[k].bringUp && !Busy(n.tasks[k])
    ensures SpawnEnds(k, true) in steps <==> SpawnEnds(k, false) !in steps
    ensures Run(steps).value.state == if SpawnEnds(k, true) in steps then Up(k) else Down
  {
    BringUpsTold(steps, k);
  }

  // ---------------------------------------------------------------- every task ends

  function Left(t: Task): nat {
    match t.phase
    case Spawning => 4
    case Spawned => 3
    case Failed => 2
    case ShuttingDown => 2
    case Waiting(_) => 3
    case Stopped => 2
    case Settled => 1
    case Ended => 0
  }

  function Owed(tasks: seq<Task>): nat {
    if tasks == [] then 0 else Owed(tasks[..|tasks| - 1]) + Left(tasks[|tasks| - 1])
  }

  lemma {:induction false} OwedMoves(tasks: seq<Task>, i: nat, t: Task)
    requires i < |tasks|
    ensures Owed(tasks[i := t]) == Owed(tasks) - Left(tasks[i]) + Left(t)
  {
    var moved := tasks[i := t];
    var last := |tasks| - 1;
    if i == last {
      assert moved[..last] == tasks[..last];
    } else {
      assert moved[..last] == tasks[..last][i := t];
      OwedMoves(tasks[..last], i, t);
    }
  }

  /** Every move of a task uses up some of what is owed. */
  lemma MovesUseUp(n: Node, step: Step)
    requires Enabled(n, step) && Internal(step)
    ensures Owed(Take(n, step).tasks) < Owed(n.tasks)
  {
    OwedMoves(n.tasks, step.i, Take(n, step).tasks[step.i]);
  }

  /** While any task has not ended, the first such can move: the waits never close into a ring. */
  lemma {:induction false} FirstCanMove(n: Node, i: Token) returns (step: Step)
    requires Inv(n) && i < |n.tasks| && n.tasks[i].phase != Ended
    ensures Internal(step) && Enabled(n, step) && step.i <= i
    decreases i
  {
    assert Kind(n, i);
    match n.tasks[i].phase
    case Spawning => step := SpawnEnds(i, true);
    case Spawned => step := Installs(i);
    case Failed => step := Settles(i);
    case ShuttingDown => step := ShutDown(i);
    case Stopped => step := Settles(i);
    case Settled => step := Releases(i);
    case Waiting(previous) =>
      if previous.ComingUp? && n.tasks[i - 1].phase != Ended { step := FirstCanMove(n, i - 1); }
      else { step := Takes(i); }
  }

  predicate AllEnded(n: Node) { forall i | 0 <= i < |n.tasks| :: n.tasks[i].phase == Ended }

  /** With no further call, whatever order the tasks move in, they move at most `Owed` times, and while one has not
      ended one can move; once all have, the handle is up or down. */
  lemma {:induction false} CallsReturn(n: Node, steps: seq<Step>, end: Node)
    requires Inv(n) && Moves(n, steps) == Some(end)
    ensures Inv(end) && |steps| <= Owed(n.tasks) - Owed(end.tasks)
    ensures AllEnded(end) || exists step :: Internal(step) && Enabled(end, step)
    ensures AllEnded(end) ==> !end.state.ComingUp?
    decreases |steps|
  {
    if steps == [] {
      if !AllEnded(end) {
        var i :| 0 <= i < |end.tasks| && end.tasks[i].phase != Ended;
        var step := FirstCanMove(end, i);
      }
    } else {
      var before := Moves(n, steps[..|steps| - 1]).value;
      var last := steps[|steps| - 1];
      CallsReturn(n, steps[..|steps| - 1], before);
      MovesUseUp(before, last);
      MoveKeeps(before, last, last.i);
      if !AllEnded(end) {
        var i :| 0 <= i < |end.tasks| && end.tasks[i].phase != Ended;
        var step := FirstCanMove(end, i);
      }
    }
  }

  function Moves(n: Node, steps: seq<Step>): Option<Node>
    decreases |steps|
  {
    if steps == [] then Some(n)
    else
      var before := Moves(n, steps[..|steps| - 1]);
      var last := steps[|steps| - 1];
      if before.Some? && Internal(last) && Enabled(before.value, last) then Some(Take(before.value, last)) else None
  }
}
