/** Links of one identity to this node, each succeeding, failing or dropped at any await: who holds the identity's
    reservation, when its half of the node stands, and the one order of a drop's two halves that breaks both. */
module Linking {
  import opened Options

  /** A link between its awaits, or being dropped: `Dropping` once its rollback guard is gone, its reservation not
      yet. */
  datatype Phase =
    | Dialing                     // reserved, nothing local minted
    | Importing                   // the identity's half is up, the rollback guard armed
    | Waiting                     // for the catch-up
    | Undoing                     // failed, the guard still armed
    | Undone                      // its half taken down, the guard armed until the shutdown has ended
    | Confirming                  // past the commit point
    | Releasing
    | Dropping(handedOver: bool)  // whether the guard handed the clean-up to a task of its own
    | Ended

  /** `owns` is the flag the two guards share: the rollback cleans the reservation up. */
  datatype Link = Link(phase: Phase, owns: bool)

  datatype Stage = Undo | Remove | Clear | Done

  /** A clean-up task, spawned by a guard's drop: for link `link`, a rollback or the bare release of the reservation. */
  datatype Cleanup = Rollback(link: nat, stage: Stage) | Release(link: nat, done: bool)

  datatype Node = Node(reserved: bool, hosted: bool, half: bool, links: seq<Link>, cleanups: seq<Cleanup>)

  datatype Step =
    | Begin
    | Provision(i: nat, ok: bool) | Import(i: nat, ok: bool) | CatchUp(i: nat, ok: bool)
    | UndoLink(i: nat) | Disarm(i: nat)
    | Confirm(i: nat) | ReleaseReservation(i: nat)
    | DropGuard(i: nat) | DropReservation(i: nat)
    | Clean(k: nat)

  predicate At(n: Node, i: nat, phase: Phase) { i < |n.links| && n.links[i].phase == phase }

  /** The link's half of the node is up. */
  predicate Up(l: Link) { l.phase.Importing? || l.phase.Waiting? || l.phase.Undoing? }

  predicate Armed(l: Link) { Up(l) || l.phase.Undone? }

  predicate Enabled(n: Node, step: Step) {
    match step
    case Begin => true
    case Provision(i, _) => At(n, i, Dialing)
    case Import(i, _) => At(n, i, Importing)
    case CatchUp(i, _) => At(n, i, Waiting)
    case UndoLink(i) => At(n, i, Undoing)
    case Disarm(i) => At(n, i, Undone)
    case Confirm(i) => At(n, i, Confirming)
    case ReleaseReservation(i) => At(n, i, Releasing)
    case DropGuard(i) => i < |n.links| && !n.links[i].phase.Ended? && !n.links[i].phase.Dropping?
    case DropReservation(i) => i < |n.links| && n.links[i].phase.Dropping?
    case Clean(k) =>
      k < |n.cleanups| && match n.cleanups[k] {
        case Rollback(_, stage) => stage != Done
        case Release(_, done) => !done
      }
  }

  function Moved(n: Node, i: nat, phase: Phase, owns: bool): Node
    requires i < |n.links|
  {
    n.(links := n.links[i := Link(phase, owns)])
  }

  function CleanOnce(n: Node, k: nat): Node
    requires k < |n.cleanups|
  {
    match n.cleanups[k]
    case Release(i, _) => n.(reserved := false, cleanups := n.cleanups[k := Release(i, true)])
    case Rollback(i, stage) =>
      match stage
      case Undo => n.(half := false, cleanups := n.cleanups[k := Rollback(i, Remove)])
      case Remove => n.(reserved := false, cleanups := n.cleanups[k := Rollback(i, Clear)])
      case Clear =>
        n.(links := if i < |n.links| then n.links[i := n.links[i].(owns := false)] else n.links,
           cleanups := n.cleanups[k := Rollback(i, Done)])
      case Done => n
  }

  function Next(n: Node, step: Step): Node
    requires Enabled(n, step)
  {
    match step
    case Begin => if n.hosted || n.reserved then n else n.(reserved := true, links := n.links + [Link(Dialing, false)])
    case Provision(i, ok) => if ok then Moved(n, i, Importing, true).(half := true) else Moved(n, i, Releasing, false)
    case Import(i, ok) => Moved(n, i, if ok then Waiting else Undoing, n.links[i].owns)
    case CatchUp(i, ok) =>
      if ok then Moved(n, i, Confirming, false).(hosted := true) else Moved(n, i, Undoing, n.links[i].owns)
    case UndoLink(i) => Moved(n, i, Undone, n.links[i].owns).(half := false)
    case Disarm(i) => Moved(n, i, Releasing, false)
    case Confirm(i) => Moved(n, i, Releasing, n.links[i].owns)
    case ReleaseReservation(i) => Moved(n, i, Ended, n.links[i].owns).(reserved := false)
    case DropGuard(i) =>
      var armed := Armed(n.links[i]);
      Moved(n, i, Dropping(armed), n.links[i].owns).(cleanups := if armed then n.cleanups + [Rollback(i, Undo)]
        else n.cleanups)
    case DropReservation(i) =>
      Moved(n, i, Ended, n.links[i].owns).(cleanups := if n.links[i].owns then n.cleanups
        else n.cleanups + [Release(i, false)])
    case Clean(k) => CleanOnce(n, k)
  }

  /** The dropped link's clean-up went through between the drops of its two guards. */
  predicate Overtaken(n: Node, step: Step) {
    step.DropReservation? && step.i < |n.links| && n.links[step.i] == Link(Dropping(true), false)
  }

  // ---------------------------------------------------------------- who holds the reservation

  /** A link, or a clean-up task, that will release the reservation. */
  datatype Claim = ByLink(i: nat) | ByCleanup(k: nat)

  predicate Claims(n: Node, c: Claim) {
    match c
    case ByLink(i) => i < |n.links| && n.links[i].phase != Ended && n.links[i].phase != Dropping(true)
    case ByCleanup(k) =>
      k < |n.cleanups| && match n.cleanups[k] {
        case Rollback(_, stage) => stage == Undo || stage == Remove
        case Release(_, done) => !done
      }
  }

  /** A claim that has the identity's half of the node to take down unless it commits. */
  predicate Undoes(n: Node, c: Claim) {
    match c
    case ByLink(i) => i < |n.links| && Armed(n.links[i])
    case ByCleanup(k) => k < |n.cleanups| && n.cleanups[k].Rollback? && n.cleanups[k].stage == Undo
  }

  ghost predicate OneClaim(n: Node) {
    && (forall c, d | Claims(n, c) && Claims(n, d) :: c == d)
    && (n.reserved <==> exists c :: Claims(n, c))
  }

  ghost predicate HalfStands(n: Node) {
    && (n.half ==> n.hosted || exists c :: Undoes(n, c))
    && (n.hosted ==> n.half && forall c :: !Undoes(n, c))
    && (forall i | 0 <= i < |n.links| && Armed(n.links[i]) :: n.half == Up(n.links[i]))
    && (n.hosted ==> forall i | 0 <= i < |n.links| :: n.links[i].phase != Dialing)
  }

  /** The shared flag stands while the guard is armed, and is down when there was none to hand over to. */
  predicate FlagRight(l: Link) {
    match l.phase
    case Dropping(handedOver) => handedOver || !l.owns
    case Ended => true
    case _ => l.owns == Armed(l)
  }

  predicate Dropped(l: Link) { l.phase == Dropping(true) || l.phase == Ended }

  ghost predicate FlagsTell(n: Node) {
    && (forall i | 0 <= i < |n.links| :: FlagRight(n.links[i]))
    && (forall k | 0 <= k < |n.cleanups| && n.cleanups[k].Rollback? ::
      n.cleanups[k].link < |n.links| && Dropped(n.links[n.cleanups[k].link]))
  }

  ghost predicate Inv(n: Node) { OneClaim(n) && HalfStands(n) && FlagsTell(n) }

  lemma ClaimStays(n: Node, m: Node)
    requires OneClaim(n) && m.reserved == n.reserved && forall c :: Claims(m, c) <==> Claims(n, c)
    ensures OneClaim(m)
  {
  }

  lemma ClaimPasses(n: Node, m: Node, from: Claim, to: Claim)
    requires OneClaim(n) && Claims(n, from) && m.reserved == n.reserved
    requires forall c :: Claims(m, c) <==> c == to || (Claims(n, c) && c != from)
    ensures OneClaim(m)
  {
    assert Claims(m, to);
  }

  lemma ClaimEnds(n: Node, m: Node, from: Claim)
    requires OneClaim(n) && Claims(n, from) && !m.reserved && forall c :: Claims(m, c) <==> Claims(n, c) && c != from
    ensures OneClaim(m)
  {
  }

  lemma BeginKeeps(n: Node)
    requires Inv(n)
    ensures Inv(Next(n, Begin))
  {
    var m := Next(n, Begin);
    if m != n {
      assert forall c :: !Claims(n, c);
      forall c ensures Claims(m, c) <==> c == ByLink(|n.links|) {
        if c != ByLink(|n.links|) { assert !Claims(n, c); }
      }
      assert Claims(m, ByLink(|n.links|));
      assert forall c :: Undoes(m, c) <==> Undoes(n, c);
    }
  }

  lemma LinkHandsOver(n: Node, step: Step, i: nat)
    requires Inv(n) && Enabled(n, step) && !Overtaken(n, step) && !step.Begin? && !step.Clean? && step.i == i
    requires (step.DropGuard? && Armed(n.links[i])) || (step.DropReservation? && !n.links[i].owns)
    ensures OneClaim(Next(n, step))
  {
    ClaimPasses(n, Next(n, step), ByLink(i), ByCleanup(|n.cleanups|));
  }

  /** A link moving on: its claim stays its own, passes to a task, or ends with the reservation. */
  lemma LinkClaim(n: Node, step: Step, i: nat)
    requires Inv(n) && Enabled(n, step) && !Overtaken(n, step) && !step.Begin? && !step.Clean? && step.i == i
    ensures OneClaim(Next(n, step))
  {
    var m := Next(n, step);
    if step.ReleaseReservation? { ClaimEnds(n, m, ByLink(i)); }
    else if (step.DropGuard? && Armed(n.links[i])) || (step.DropReservation? && !n.links[i].owns) {
      LinkHandsOver(n, step, i);
    }
    else { ClaimStays(n, m); }
  }

  lemma HalfStays(n: Node, m: Node)
    requires HalfStands(n) && m.half == n.half && m.hosted == n.hosted && forall c :: Undoes(m, c) <==> Undoes(n, c)
    requires m.hosted ==> forall i | 0 <= i < |m.links| :: m.links[i].phase != Dialing
    requires forall i | 0 <= i < |m.links| && Armed(m.links[i]) ::
      i < |n.links| && Armed(n.links[i]) && (Up(m.links[i]) <==> Up(n.links[i]))
    ensures HalfStands(m)
  {
  }

  lemma HalfDone(n: Node, m: Node, from: Claim)
    requires HalfStands(n) && OneClaim(n) && Undoes(n, from) && (forall c :: Undoes(n, c) ==> Claims(n, c))
    requires forall c :: Undoes(m, c) <==> Undoes(n, c) && c != from
    requires m.half == m.hosted && forall i | 0 <= i < |m.links| :: m.links[i].phase != Dialing
    ensures HalfStands(m)
  {
    forall i | 0 <= i < |m.links| ensures !Armed(m.links[i]) { assert Undoes(m, ByLink(i)) <==> Armed(m.links[i]); }
  }

  lemma UndoersClaim(n: Node)
    ensures forall c :: Undoes(n, c) ==> Claims(n, c)
  {
  }

  lemma NoneDials(n: Node, from: Claim)
    requires OneClaim(n) && Undoes(n, from)
    ensures forall i | 0 <= i < |n.links| :: n.links[i].phase != Dialing
  {
    UndoersClaim(n);
    forall i | 0 <= i < |n.links| ensures n.links[i].phase != Dialing {
      if n.links[i].phase == Dialing { assert Claims(n, ByLink(i)); }
    }
  }

  lemma OthersUnarmed(n: Node, i: nat)
    requires OneClaim(n) && Claims(n, ByLink(i))
    ensures forall k | 0 <= k < |n.links| && k != i :: !Armed(n.links[k])
  {
    forall k | 0 <= k < |n.links| && k != i ensures !Armed(n.links[k]) {
      if Armed(n.links[k]) { assert Claims(n, ByLink(k)); }
    }
  }

  lemma ProvisionHalf(n: Node, i: nat)
    requires Inv(n) && At(n, i, Dialing)
    ensures HalfStands(Next(n, Provision(i, true)))
  {
    var m := Next(n, Provision(i, true));
    UndoersClaim(n);
    assert Claims(n, ByLink(i)) && !n.hosted;
    OthersUnarmed(n, i);
    assert Undoes(m, ByLink(i));
  }

  lemma SettleHalf(n: Node, step: Step, i: nat)
    requires Inv(n) && Enabled(n, step) && (step == CatchUp(i, true) || step == Disarm(i))
    ensures HalfStands(Next(n, step))
  {
    UndoersClaim(n);
    assert Undoes(n, ByLink(i));
    NoneDials(n, ByLink(i));
    OthersUnarmed(n, i);
    HalfDone(n, Next(n, step), ByLink(i));
  }

  lemma UndoHalf(n: Node, i: nat)
    requires Inv(n) && Enabled(n, UndoLink(i))
    ensures HalfStands(Next(n, UndoLink(i)))
  {
    OthersUnarmed(n, i);
    assert Undoes(n, ByLink(i));
  }

  lemma DropHalf(n: Node, i: nat)
    requires Inv(n) && Enabled(n, DropGuard(i))
    ensures HalfStands(Next(n, DropGuard(i)))
  {
    var m := Next(n, DropGuard(i));
    if Armed(n.links[i]) {
      UndoersClaim(n);
      assert Undoes(n, ByLink(i)) && Undoes(m, ByCleanup(|n.cleanups|));
    } else {
      HalfStays(n, m);
    }
  }

  lemma LinkHalf(n: Node, step: Step, i: nat)
    requires Inv(n) && Enabled(n, step) && !Overtaken(n, step) && !step.Begin? && !step.Clean? && step.i == i
    ensures HalfStands(Next(n, step))
  {
    if step == Provision(i, true) { ProvisionHalf(n, i); }
    else if step == CatchUp(i, true) || step == Disarm(i) { SettleHalf(n, step, i); }
    else if step == UndoLink(i) { UndoHalf(n, i); }
    else if step == DropGuard(i) { DropHalf(n, i); }
    else { HalfStays(n, Next(n, step)); }
  }

  lemma CleanClaim(n: Node, k: nat)
    requires Inv(n) && Enabled(n, Clean(k))
    ensures OneClaim(Next(n, Clean(k)))
  {
    var m, mine := Next(n, Clean(k)), ByCleanup(k);
    hide Undoes, HalfStands, FlagsTell;
    if Claims(n, mine) && !Claims(m, mine) { ClaimEnds(n, m, mine); } else { ClaimStays(n, m); }
  }

  lemma CleanHalf(n: Node, k: nat)
    requires Inv(n) && Enabled(n, Clean(k))
    ensures HalfStands(Next(n, Clean(k)))
  {
    var m, mine := Next(n, Clean(k)), ByCleanup(k);
    UndoersClaim(n);
    if Undoes(n, mine) {
      NoneDials(n, mine);
      hide Claims;
      HalfDone(n, m, mine);
    } else {
      hide Claims;
      HalfStays(n, m);
    }
  }

  lemma CleanFlags(n: Node, k: nat)
    requires FlagsTell(n) && Enabled(n, Clean(k))
    ensures FlagsTell(Next(n, Clean(k)))
  {
  }

  lemma LinkFlags(n: Node, step: Step, i: nat)
    requires FlagsTell(n) && Enabled(n, step) && !step.Begin? && !step.Clean? && step.i == i
    ensures FlagsTell(Next(n, step))
  {
    var m := Next(n, step);
    assert FlagRight(m.links[i]) && (Dropped(n.links[i]) ==> Dropped(m.links[i]));
    forall k | 0 <= k < |m.cleanups| && m.cleanups[k].Rollback?
      ensures m.cleanups[k].link < |m.links| && Dropped(m.links[m.cleanups[k].link])
    {
      if k < |n.cleanups| { assert m.cleanups[k] == n.cleanups[k]; }
    }
    hide Dropped, FlagRight;
  }

  /** A release made for a reservation another holds, or nobody. */
  lemma OvertakenBreaks(n: Node, step: Step)
    requires Inv(n) && Enabled(n, step) && Overtaken(n, step)
    ensures !OneClaim(Next(n, step))
  {
    var m, made := Next(n, step), ByCleanup(|n.cleanups|);
    assert Claims(m, made);
    if n.reserved {
      var c :| Claims(n, c);
      assert c != ByLink(step.i) && Claims(m, c);
    }
  }

  /** Every step keeps the one claim, the half and the flags, but for the drop its own clean-up overtook, and that one
      never. */
  lemma StepKeeps(n: Node, step: Step)
    requires Inv(n) && Enabled(n, step)
    ensures Inv(Next(n, step)) <==> !Overtaken(n, step)
  {
    hide OneClaim, HalfStands, FlagsTell;
    if Overtaken(n, step) { OvertakenBreaks(n, step); }
    else if step.Begin? { BeginKeeps(n); }
    else if step.Clean? { CleanClaim(n, step.k); CleanHalf(n, step.k); CleanFlags(n, step.k); }
    else {
      LinkFlags(n, step, step.i);
      LinkClaim(n, step, step.i);
      LinkHalf(n, step, step.i);
    }
  }

  // ---------------------------------------------------------------- over every run

  const FREE: Node := Node(false, false, false, [], [])

  function Run(n: Node, steps: seq<Step>): Option<Node>
    decreases |steps|
  {
    if steps == [] then Some(n)
    else
      var before := Run(n, steps[..|steps| - 1]);
      if before.Some? && Enabled(before.value, steps[|steps| - 1]) then Some(Next(before.value, steps[|steps| - 1]))
      else None
  }

  /** No link's clean-up task runs to its end between the drops of that link's two guards. */
  predicate InOrder(steps: seq<Step>)
    decreases |steps|
  {
    steps != [] ==>
      var before := Run(FREE, steps[..|steps| - 1]);
      InOrder(steps[..|steps| - 1]) && (before.Some? ==> !Overtaken(before.value, steps[|steps| - 1]))
  }

  lemma {:induction false} RunKeeps(steps: seq<Step>)
    requires Run(FREE, steps).Some? && InOrder(steps)
    ensures Inv(Run(FREE, steps).value)
    decreases |steps|
  {
    if steps != [] {
      RunKeeps(steps[..|steps| - 1]);
      StepKeeps(Run(FREE, steps[..|steps| - 1]).value, steps[|steps| - 1]);
    }
  }

  predicate InFlight(l: Link) { !l.phase.Ended? && !l.phase.Dropping? }

  /** Every link and task has come to its end. */
  predicate Quiet(n: Node) {
    && (forall i | 0 <= i < |n.links| :: n.links[i].phase.Ended?)
    && forall k | 0 <= k < |n.cleanups| :: !Enabled(n, Clean(k))
  }

  /** At most one link is in flight and the reservation is its; a further one is let in exactly on a node that does not
      host the identity and has no link or clean-up to release it; once everything has run, the identity is free again
      and its half of the node stands exactly when a link committed. */
  lemma OneLinkAtATime(steps: seq<Step>)
    requires Run(FREE, steps).Some? && InOrder(steps)
    ensures var n := Run(FREE, steps).value;
      && (forall i, j | 0 <= i < |n.links| && 0 <= j < |n.links| && InFlight(n.links[i])
        && InFlight(n.links[j]) :: i == j)
      && (forall i | 0 <= i < |n.links| && InFlight(n.links[i]) :: n.reserved)
      && (n.hosted ==> n.half)
      && (|Next(n, Begin).links| > |n.links| <==> !n.hosted && forall c :: !Claims(n, c))
      && (Quiet(n) ==> !n.reserved && n.half == n.hosted)
  {
    RunKeeps(steps);
    var n := Run(FREE, steps).value;
    forall i, j | 0 <= i < |n.links| && 0 <= j < |n.links| && InFlight(n.links[i]) && InFlight(n.links[j])
      ensures i == j && n.reserved
    {
      assert Claims(n, ByLink(i)) && Claims(n, ByLink(j));
    }
    if Quiet(n) {
      forall c ensures !Claims(n, c) { if c.ByCleanup? && c.k < |n.cleanups| { assert !Enabled(n, Clean(c.k)); } }
      UndoersClaim(n);
    }
  }

  // ---------------------------------------------------------------- what the steps themselves say

  predicate Of(step: Step, i: nat) { !step.Begin? && !step.Clean? && step.i == i }

  /** The steps a link has taken. */
  ghost function Heard(steps: seq<Step>, i: nat): set<Step> { set step | step in steps && Of(step, i) }

  /** A link goes on to the import once provisioned, to the catch-up once imported, and is undone where either
      failed. */
  ghost predicate Ordered(heard: set<Step>, i: nat) {
    && !(Provision(i, true) in heard && Provision(i, false) in heard)
    && !(Import(i, true) in heard && Import(i, false) in heard)
    && !(CatchUp(i, true) in heard && CatchUp(i, false) in heard)
    && (Import(i, true) in heard || Import(i, false) in heard ==> Provision(i, true) in heard)
    && (CatchUp(i, true) in heard || CatchUp(i, false) in heard ==> Import(i, true) in heard)
    && (UndoLink(i) in heard ==> Import(i, false) in heard || CatchUp(i, false) in heard)
    && (Disarm(i) in heard ==> UndoLink(i) in heard) && (Confirm(i) in heard ==> CatchUp(i, true) in heard)
  }

  /** Where its steps leave a link. */
  ghost predicate Told(heard: set<Step>, i: nat, phase: Phase) {
    var failed := Import(i, false) in heard || CatchUp(i, false) in heard;
    var over := Provision(i, false) in heard || Disarm(i) in heard || Confirm(i) in heard;
    match phase
    case Dialing => Provision(i, true) !in heard && Provision(i, false) !in heard
    case Importing => Provision(i, true) in heard && Import(i, true) !in heard && Import(i, false) !in heard
    case Waiting => Import(i, true) in heard && CatchUp(i, true) !in heard && CatchUp(i, false) !in heard
    case Undoing => failed && UndoLink(i) !in heard
    case Undone => UndoLink(i) in heard && Disarm(i) !in heard
    case Confirming => CatchUp(i, true) in heard && Confirm(i) !in heard
    case Releasing => over
    case Dropping(handedOver) =>
      handedOver <==> Provision(i, true) in heard && CatchUp(i, true) !in heard && Disarm(i) !in heard
    case Ended => DropReservation(i) in heard || over
  }

  /** Where a step of its own takes a link. */
  ghost function Onward(l: Link, step: Step): Phase {
    match step
    case Provision(_, ok) => if ok then Importing else Releasing
    case Import(_, ok) => if ok then Waiting else Undoing
    case CatchUp(_, ok) => if ok then Confirming else Undoing
    case UndoLink(_) => Undone
    case Disarm(_) | Confirm(_) => Releasing
    case DropGuard(_) => Dropping(Armed(l))
    case _ => Ended
  }

  lemma PhaseStep(n: Node, step: Step, i: nat)
    requires Enabled(n, step) && i < |n.links|
    ensures Next(n, step).links[i].phase == if Of(step, i) then Onward(n.links[i], step) else n.links[i].phase
  {
    match step
    case Begin =>
    case Clean(k) => if n.cleanups[k].Rollback? && n.cleanups[k].stage.Clear? { }
    case _ => if step.i == i { }
  }

  predicate Fits(l: Link, step: Step) {
    match step
    case Provision(_, _) => l.phase == Dialing
    case Import(_, _) => l.phase == Importing
    case CatchUp(_, _) => l.phase == Waiting
    case UndoLink(_) => l.phase == Undoing
    case Disarm(_) => l.phase == Undone
    case Confirm(_) => l.phase == Confirming
    case ReleaseReservation(_) => l.phase == Releasing
    case DropGuard(_) => !l.phase.Ended? && !l.phase.Dropping?
    case _ => l.phase.Dropping?
  }

  lemma ToldStep(heard: set<Step>, l: Link, step: Step, i: nat)
    requires Of(step, i) && Fits(l, step) && Ordered(heard, i) && Told(heard, i, l.phase)
    ensures Ordered(heard + {step}, i) && Told(heard + {step}, i, Onward(l, step))
  {
  }

  lemma HeardStep(steps: seq<Step>, i: nat)
    requires steps != []
    ensures var front, last := steps[..|steps| - 1], steps[|steps| - 1];
      Heard(steps, i) == if Of(last, i) then Heard(front, i) + {last} else Heard(front, i)
  {
    assert steps == steps[..|steps| - 1] + [steps[|steps| - 1]];
  }

  lemma {:induction false} LinksTold(steps: seq<Step>, i: nat)
    requires Run(FREE, steps).Some?
    ensures var n := Run(FREE, steps).value;
      if i < |n.links| then Ordered(Heard(steps, i), i) && Told(Heard(steps, i), i, n.links[i].phase)
      else Heard(steps, i) == {}
    decreases |steps|
  {
    hide Ordered, Told, Next, Enabled;
    if steps == [] {
      assert Heard(steps, i) == {};
    } else {
      hide Heard;
      var front, last := steps[..|steps| - 1], steps[|steps| - 1];
      LinksTold(front, i);
      HeardStep(steps, i);
      var before := Run(FREE, front).value;
      if i >= |before.links| {
        NotYet(before, last, i);
      } else {
        StaysThere(before, last, i);
        PhaseStep(before, last, i);
        if Of(last, i) { ToldStep(Heard(front, i), before.links[i], last, i); }
      }
    }
  }

  lemma StaysThere(n: Node, step: Step, i: nat)
    requires Enabled(n, step) && i < |n.links|
    ensures i < |Next(n, step).links| && (Of(step, i) ==> Fits(n.links[i], step))
  {
  }

  lemma NotYet(n: Node, step: Step, i: nat)
    requires Enabled(n, step) && i >= |n.links|
    ensures !Of(step, i) && (i < |Next(n, step).links| ==> Next(n, step).links[i].phase == Dialing)
    ensures Ordered({}, i) && Told({}, i, Dialing)
  {
  }

  lemma HostingStep(n: Node, step: Step)
    requires Enabled(n, step)
    ensures Next(n, step).hosted <==> n.hosted || (step.CatchUp? && step.ok)
  {
  }

  lemma CaughtStep(steps: seq<Step>, i: nat)
    requires Run(FREE, steps).Some? && steps != []
    ensures Caught(steps, i) <==> Caught(steps[..|steps| - 1], i) || steps[|steps| - 1] == CatchUp(i, true)
  {
    assert Run(FREE, steps[..|steps| - 1]).Some?;
    LinksTold(steps[..|steps| - 1], i);
    LinksTold(steps, i);
    HeardStep(steps, i);
    hide Run, Told, Heard, Next, Enabled;
  }

  /** Over every run the node hosts the identity exactly when a link caught up, having been provisioned and imported. */
  lemma {:induction false} HostedByCatchUp(steps: seq<Step>)
    requires Run(FREE, steps).Some?
    ensures Run(FREE, steps).value.hosted <==> exists i: nat :: Caught(steps, i)
    decreases |steps|
  {
    hide Caught, Next, Enabled;
    if steps == [] {
      forall i: nat ensures !Caught(steps, i) { NoneCaught(i); }
    } else {
      var front, last := steps[..|steps| - 1], steps[|steps| - 1];
      HostedByCatchUp(front);
      HostingStep(Run(FREE, front).value, last);
      forall i: nat ensures Caught(steps, i) <==> Caught(front, i) || last == CatchUp(i, true) { CaughtStep(steps, i); }
    }
  }

  lemma NoneCaught(i: nat)
    ensures !Caught([], i)
  {
    assert Provision(i, true) !in Heard([], i);
  }

  ghost predicate Caught(steps: seq<Step>, i: nat) {
    {Provision(i, true), Import(i, true), CatchUp(i, true)} <= Heard(steps, i)
  }

  // ---------------------------------------------------------------- the reservation does not stay

  function LinkLeft(l: Link): nat {
    match l.phase
    case Dialing => 17
    case Importing => 16
    case Waiting => 15
    case Undoing => 14
    case Undone => 13
    case Confirming => 12
    case Releasing => 11
    case Dropping(_) => 5
    case Ended => 0
  }

  function CleanupLeft(c: Cleanup): nat {
    match c
    case Release(_, done) => if done then 0 else 1
    case Rollback(_, stage) => match stage { case Undo => 3 case Remove => 2 case Clear => 1 case Done => 0 }
  }

  function LinksLeft(ls: seq<Link>): nat { if ls == [] then 0 else LinksLeft(ls[..|ls| - 1]) + LinkLeft(ls[|ls| - 1]) }

  function CleanupsLeft(cs: seq<Cleanup>): nat {
    if cs == [] then 0 else CleanupsLeft(cs[..|cs| - 1]) + CleanupLeft(cs[|cs| - 1])
  }

  lemma {:induction false} LinkMoves(ls: seq<Link>, i: nat, l: Link)
    requires i < |ls|
    ensures LinksLeft(ls[i := l]) == LinksLeft(ls) - LinkLeft(ls[i]) + LinkLeft(l)
  {
    var last := |ls| - 1;
    if i == last {
      assert ls[i := l][..last] == ls[..last];
    } else {
      assert ls[i := l][..last] == ls[..last][i := l];
      LinkMoves(ls[..last], i, l);
    }
  }

  lemma {:induction false} CleanupMoves(cs: seq<Cleanup>, k: nat, c: Cleanup)
    requires k < |cs|
    ensures CleanupsLeft(cs[k := c]) == CleanupsLeft(cs) - CleanupLeft(cs[k]) + CleanupLeft(c)
  {
    var last := |cs| - 1;
    if k == last {
      assert cs[k := c][..last] == cs[..last];
    } else {
      assert cs[k := c][..last] == cs[..last][k := c];
      CleanupMoves(cs[..last], k, c);
    }
  }

  lemma CleanupAdded(cs: seq<Cleanup>, c: Cleanup)
    ensures CleanupsLeft(cs + [c]) == CleanupsLeft(cs) + CleanupLeft(c)
  {
  }

  function Left(n: Node): nat { LinksLeft(n.links) + CleanupsLeft(n.cleanups) }

  lemma CleanEnds(n: Node, k: nat)
    requires Enabled(n, Clean(k))
    ensures Left(Next(n, Clean(k))) < Left(n)
  {
    hide LinksLeft, CleanupsLeft;
    var m, i := Next(n, Clean(k)), n.cleanups[k].link;
    CleanupMoves(n.cleanups, k, m.cleanups[k]);
    if m.links != n.links { LinkMoves(n.links, i, m.links[i]); }
  }

  lemma LinkLessens(n: Node, step: Step, i: nat)
    requires Enabled(n, step) && !step.Begin? && !step.Clean? && step.i == i
    ensures var m := Next(n, step);
      && |m.links| == |n.links| && m.links == n.links[i := m.links[i]]
      && (m.cleanups == n.cleanups || (|m.cleanups| == |n.cleanups| + 1
        && m.cleanups == n.cleanups + [m.cleanups[|n.cleanups|]]))
      && LinkLeft(m.links[i]) + (if m.cleanups == n.cleanups then 0
        else CleanupLeft(m.cleanups[|n.cleanups|])) < LinkLeft(n.links[i])
  {
  }

  /** Whatever a link or task does next, less is left; and while one has not ended, one can move. So with no further
      link begun everything ends, and with it the reservation. */
  lemma EndsInTime(n: Node, step: Step)
    requires Enabled(n, step) && !step.Begin?
    ensures Left(Next(n, step)) < Left(n)
  {
    var m := Next(n, step);
    if step.Clean? {
      CleanEnds(n, step.k);
    } else {
      LinkLessens(n, step, step.i);
      hide LinksLeft, CleanupsLeft, LinkLeft, CleanupLeft, Next;
      LinkMoves(n.links, step.i, m.links[step.i]);
      if m.cleanups != n.cleanups { CleanupAdded(n.cleanups, m.cleanups[|n.cleanups|]); }
    }
  }

  lemma SomethingMoves(n: Node) returns (step: Step)
    requires !Quiet(n)
    ensures Enabled(n, step) && !step.Begin?
  {
    if k :| 0 <= k < |n.cleanups| && Enabled(n, Clean(k)) {
      step := Clean(k);
    } else {
      var i :| 0 <= i < |n.links| && !n.links[i].phase.Ended?;
      step := if n.links[i].phase.Dropping? then DropReservation(i) else DropGuard(i);
    }
  }

  // ---------------------------------------------------------------- out of order

  lemma RunOn(n: Node, steps: seq<Step>, step: Step, from: Node) returns (more: seq<Step>, to: Node)
    requires Run(n, steps) == Some(from) && Enabled(from, step)
    ensures more == steps + [step] && to == Next(from, step) && Run(n, more) == Some(to)
  {
    more, to := steps + [step], Next(from, step);
    assert more[..|steps|] == steps;
  }

  /** A link waiting, dropped as far as its guard, its clean-up through before its reservation is dropped. */
  lemma OvertakenRun() returns (steps: seq<Step>, n: Node)
    ensures Run(FREE, steps) == Some(n)
      && n == Node(false, false, false, [Link(Dropping(true), false)], [Rollback(0, Done)])
  {
    n := FREE;
    steps, n := RunOn(FREE, [], Begin, n);
    steps, n := RunOn(FREE, steps, Provision(0, true), n);
    assert n.links == [Link(Importing, true)];
    steps, n := RunOn(FREE, steps, DropGuard(0), n);
    assert n.links == [Link(Dropping(true), true)] && n.cleanups == [Rollback(0, Undo)];
    steps, n := RunOn(FREE, steps, Clean(0), n);
    assert n.cleanups == [Rollback(0, Remove)];
    steps, n := RunOn(FREE, steps, Clean(0), n);
    assert n.cleanups == [Rollback(0, Clear)];
    steps, n := RunOn(FREE, steps, Clean(0), n);
    assert n.links == [Link(Dropping(true), false)] && n.cleanups == [Rollback(0, Done)];
  }

  /** Then the first link's late release takes the reservation a second link has made, and a third is let in beside
      it. */
  lemma TwoLinksInFlight() returns (steps: seq<Step>, n: Node)
    ensures Run(FREE, steps) == Some(n) && |n.links| == 3 && InFlight(n.links[1]) && InFlight(n.links[2])
  {
    steps, n := OvertakenRun();
    steps, n := RunOn(FREE, steps, Begin, n);
    assert n.links == [Link(Dropping(true), false), Link(Dialing, false)];
    steps, n := RunOn(FREE, steps, DropReservation(0), n);
    assert n.links == [Link(Ended, false), Link(Dialing, false)]
      && n.cleanups == [Rollback(0, Done), Release(0, false)];
    steps, n := RunOn(FREE, steps, Clean(1), n);
    assert !n.reserved && !n.hosted;
    steps, n := RunOn(FREE, steps, Begin, n);
  }

  ghost predicate TwoInFlight(n: Node) {
    exists i, j | 0 <= i < j < |n.links| :: InFlight(n.links[i]) && InFlight(n.links[j])
  }

  lemma HostedStep(n: Node, step: Step)
    requires Enabled(n, step) && n.hosted && !TwoInFlight(n)
    ensures Next(n, step).hosted && !TwoInFlight(Next(n, step))
  {
    var m := Next(n, step);
    forall i | 0 <= i < |m.links| && InFlight(m.links[i]) ensures InFlight(n.links[i]) { }
  }

  /** Hosted, the identity has no further link let in, however its reservation stands. */
  lemma {:induction false} HostedLetsNoneIn(n: Node, steps: seq<Step>)
    requires n.hosted && !TwoInFlight(n) && Run(n, steps).Some?
    ensures Run(n, steps).value.hosted && !TwoInFlight(Run(n, steps).value)
    decreases |steps|
  {
    if steps != [] {
      HostedLetsNoneIn(n, steps[..|steps| - 1]);
      hide TwoInFlight;
      HostedStep(Run(n, steps[..|steps| - 1]).value, steps[|steps| - 1]);
    }
  }

  /** What was in flight still is, and the identity is as little hosted as before. */
  ghost predicate StillFlies(n: Node, m: Node) {
    && m.hosted == n.hosted && |n.links| <= |m.links|
    && forall i | 0 <= i < |n.links| && InFlight(n.links[i]) :: InFlight(m.links[i])
  }

  /** With no reservation, and not hosted, a link is let in. */
  lemma LetIn(n: Node, steps: seq<Step>, from: Node) returns (more: seq<Step>, to: Node)
    requires Run(n, steps) == Some(from) && !from.reserved && !from.hosted
    ensures Run(n, more) == Some(to) && StillFlies(from, to) && to.cleanups == from.cleanups
    ensures to.links == from.links + [Link(Dialing, false)]
  {
    more, to := RunOn(n, steps, Begin, from);
  }

  /** A claim that is no link in flight can take the reservation away. */
  lemma Discharge(n: Node, steps: seq<Step>, from: Node, c: Claim) returns (more: seq<Step>, to: Node)
    requires Run(n, steps) == Some(from) && Claims(from, c)
    requires c.ByLink? ==> !InFlight(from.links[c.i]) && !from.links[c.i].owns
    ensures Run(n, more) == Some(to) && StillFlies(from, to) && !to.reserved
  {
    hide Run;
    match c
    case ByCleanup(k) =>
      more, to := RunOn(n, steps, Clean(k), from);
      if from.cleanups[k].Rollback? && from.cleanups[k].stage == Undo { more, to := RunOn(n, more, Clean(k), to); }
    case ByLink(i) =>
      more, to := RunOn(n, steps, DropReservation(i), from);
      more, to := RunOn(n, more, Clean(|from.cleanups|), to);
  }

  /** Two releases pending, a link let in between them and one after. */
  lemma BothRelease(n: Node, k: nat, c: Claim) returns (steps: seq<Step>, m: Node)
    requires k < |n.cleanups| && n.cleanups[k].Release? && !n.cleanups[k].done && Claims(n, c) && c != ByCleanup(k)
      && !n.hosted
    requires c.ByLink? ==> !InFlight(n.links[c.i]) && !n.links[c.i].owns
    ensures Run(n, steps) == Some(m) && TwoInFlight(m)
  {
    steps, m := RunOn(n, [], Clean(k), n);
    assert Claims(m, c) && m.links == n.links;
    hide Run;
    steps, m := LetIn(n, steps, m);
    assert Claims(m, c) && InFlight(m.links[|n.links|]);
    steps, m := DischargeBeside(n, steps, m, c, |n.links|);
  }

  /** An overtaken drop of an identity not hosted can go on to two links in flight; of a hosted one it cannot. */
  lemma OvertakenLetsTwoIn(n: Node, i: nat) returns (steps: seq<Step>, m: Node)
    requires Inv(n) && Enabled(n, DropReservation(i)) && Overtaken(n, DropReservation(i)) && !n.hosted
    ensures Run(Next(n, DropReservation(i)), steps) == Some(m) && TwoInFlight(m)
  {
    var start, made := Next(n, DropReservation(i)), ByCleanup(|n.cleanups|);
    assert Run(start, []) == Some(start) && Claims(start, made);
    hide Run, TwoInFlight, HalfStands;
    if !n.reserved {
      steps, m := LetIn(start, [], start);
      steps, m := DischargeBeside(start, steps, m, made, |start.links|);
    } else {
      var c :| Claims(n, c);
      assert c != ByLink(i) && Claims(start, c);
      if c.ByLink? && InFlight(n.links[c.i]) {
        steps, m := DischargeBeside(start, [], start, made, c.i);
      } else {
        assert c.ByLink? ==> FlagRight(n.links[c.i]);
        steps, m := BothRelease(start, |n.cleanups|, c);
      }
    }
  }

  /** And a hosted one never does. */
  lemma HostedOvertakenLetsNoneIn(n: Node, i: nat, steps: seq<Step>)
    requires Inv(n) && Enabled(n, DropReservation(i)) && n.hosted && Run(Next(n, DropReservation(i)), steps).Some?
    ensures !TwoInFlight(Run(Next(n, DropReservation(i)), steps).value)
  {
    forall a, b | 0 <= a < |n.links| && 0 <= b < |n.links| && InFlight(n.links[a]) && InFlight(n.links[b])
      ensures a == b
    {
      assert Claims(n, ByLink(a)) && Claims(n, ByLink(b));
    }
    HostedStep(n, DropReservation(i));
    HostedLetsNoneIn(Next(n, DropReservation(i)), steps);
  }

  /** The reservation of a link in flight taken away, another is let in. */
  lemma DischargeBeside(n: Node, steps: seq<Step>, from: Node, c: Claim, a: nat) returns (more: seq<Step>, to: Node)
    requires Run(n, steps) == Some(from) && Claims(from, c) && !from.hosted
    requires c.ByLink? ==> !InFlight(from.links[c.i]) && !from.links[c.i].owns
    requires a < |from.links| && InFlight(from.links[a])
    ensures Run(n, more) == Some(to) && TwoInFlight(to)
  {
    hide Run;
    more, to := Discharge(n, steps, from, c);
    var last := |to.links|;
    more, to := LetIn(n, more, to);
    assert InFlight(to.links[a]) && InFlight(to.links[last]);
  }
}
