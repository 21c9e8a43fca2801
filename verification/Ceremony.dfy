/** One-time secrets of a linking or joining ceremony, with any number of serving halves at once: a secret is accepted
    at most once, before its expiry, and what is said of it afterwards names the newcomer it was accepted from. */
module Ceremony {
  import opened Options

  type Secret = int
  type Subject = int
  type Newcomer = int

  datatype Fate = Pending | Burned | Used(newcomer: Newcomer)

  datatype Invite = Invite(mintedFor: Subject, expiresAt: nat, fate: Fate)

  datatype InviteState = IsPending | IsBurned | IsUsed(newcomer: Newcomer) | IsExpired | IsUnknown

  type Invites = map<Secret, Invite>

  /** The last instant the clock can name. */
  const LAST_INSTANT: nat := 0xFFFF_FFFF_FFFF_FFFF

  function Swept(invites: Invites, now: nat): Invites {
    map s | s in invites && invites[s].expiresAt > now :: invites[s]
  }

  predicate Acceptable(invites: Invites, secret: Secret, now: nat) {
    secret in invites && invites[secret].fate == Pending && now < invites[secret].expiresAt
  }

  function Burn(invites: Invites, secret: Secret, now: nat): Invites {
    if Acceptable(invites, secret, now) then invites[secret := invites[secret].(fate := Burned)] else invites
  }

  function Mark(invites: Invites, secret: Secret, newcomer: Newcomer): Invites {
    if secret in invites && invites[secret].fate == Burned then
      invites[secret := invites[secret].(fate := Used(newcomer))]
    else invites
  }

  class PendingInvites {
    var invites: Invites

    constructor ()
      ensures invites == map[]
    {
      invites := map[];
    }

    /** Refused for a lifetime past the clock's end, changing nothing; without randomness the sweep alone is done. */
    method Mint(mintedFor: Subject, lifetime: nat, now: nat, random: Option<Secret>) returns (secret: Option<Secret>)
      modifies this
      ensures secret == if now + lifetime <= LAST_INSTANT then random else None
      ensures now + lifetime <= LAST_INSTANT ==> forall s | s in invites && Some(s) != random ::
        s in old(invites) && invites[s] == old(invites)[s] && now < invites[s].expiresAt
      ensures forall s | s in old(invites) && now < old(invites)[s].expiresAt && Some(s) != random ::
        s in invites && invites[s] == old(invites)[s]
      ensures invites ==
        if now + lifetime > LAST_INSTANT then old(invites)
        else if random.None? then Swept(old(invites), now)
        else Swept(old(invites), now)[random.value := Invite(mintedFor, now + lifetime, Pending)]
    {
      if now + lifetime > LAST_INSTANT { return None; }
      invites := Swept(invites, now);
      if random.None? { return None; }
      invites := invites[random.value := Invite(mintedFor, now + lifetime, Pending)];
      secret := random;
    }

    method VerifyAndBurn(secret: Secret, now: nat) returns (mintedFor: Option<Subject>)
      modifies this
      ensures mintedFor.Some? <==>
        secret in old(invites) && old(invites)[secret].fate == Pending && now < old(invites)[secret].expiresAt
      ensures mintedFor.Some? ==> mintedFor.value == old(invites)[secret].mintedFor
      ensures mintedFor.Some? ==>
        invites == old(invites)[secret := Invite(mintedFor.value, old(invites)[secret].expiresAt, Burned)]
      ensures mintedFor.None? ==> invites == old(invites)
      ensures invites == Burn(old(invites), secret, now)
    {
      if secret !in invites { return None; }
      var pending := invites[secret];
      if pending.fate != Pending || pending.expiresAt <= now { return None; }
      invites := invites[secret := pending.(fate := Burned)];
      mintedFor := Some(pending.mintedFor);
    }

    method MarkUsed(secret: Secret, newcomer: Newcomer)
      modifies this
      ensures invites == Mark(old(invites), secret, newcomer)
      ensures if secret in old(invites) && old(invites)[secret].fate == Burned
        then invites == old(invites)[secret := old(invites)[secret].(fate := Used(newcomer))]
          else invites == old(invites)
    {
      if secret in invites && invites[secret].fate == Burned {
        invites := invites[secret := invites[secret].(fate := Used(newcomer))];
      }
    }

    method State(secret: Secret, mintedFor: Subject, now: nat) returns (state: InviteState)
      ensures state == StateOf(invites, secret, mintedFor, now)
      ensures state != IsUnknown <==> secret in invites && invites[secret].mintedFor == mintedFor
      ensures state != IsUnknown ==>
        match invites[secret].fate
        case Used(n) => state == IsUsed(n)
        case Burned => state == IsBurned
        case Pending => state == if now < invites[secret].expiresAt then IsPending else IsExpired
    {
      if secret !in invites || invites[secret].mintedFor != mintedFor { return IsUnknown; }
      match invites[secret].fate
      case Pending => state := if invites[secret].expiresAt <= now then IsExpired else IsPending;
      case Burned => state := IsBurned;
      case Used(n) => state := IsUsed(n);
    }
  }

  function StateOf(invites: Invites, secret: Secret, mintedFor: Subject, now: nat): InviteState {
    if secret !in invites || invites[secret].mintedFor != mintedFor then IsUnknown
    else match invites[secret].fate
      case Pending => if invites[secret].expiresAt <= now then IsExpired else IsPending
      case Burned => IsBurned
      case Used(n) => IsUsed(n)
  }

  // ---------------------------------------------------------------- the serving halves

  /** One connection presenting a secret: accepted at an instant, then served to its end or lost on the way. */
  datatype Phase = Arrived | Refused | Accepted(at: nat) | Lost(at: nat) | Served(at: nat)

  datatype Half = Half(secret: Secret, newcomer: Newcomer, phase: Phase) {
    predicate WasAccepted() { phase.Accepted? || phase.Lost? || phase.Served? }
  }

  /** `minted` is every secret ever minted, as minted. */
  datatype World = World(now: nat, invites: Invites, minted: Invites, halves: seq<Half>)

  datatype Step =
    | Pass(to: nat)
    | Mint(random: Option<Secret>, mintedFor: Subject, lifetime: nat)
    | Connect(secret: Secret, newcomer: Newcomer)
    | Present(h: nat)
    | Lose(h: nat)
    | Finish(h: nat)

  predicate Enabled(w: World, step: Step) {
    match step
    case Pass(to) => w.now <= to
    case Mint(secret, _, _) => secret.Some? ==> secret.value !in w.minted
    case Connect(_, _) => true
    case Present(h) => h < |w.halves| && w.halves[h].phase.Arrived?
    case Lose(h) => h < |w.halves| && w.halves[h].phase.Accepted?
    case Finish(h) => h < |w.halves| && w.halves[h].phase.Accepted?
  }

  function Next(w: World, step: Step): World
    requires Enabled(w, step)
  {
    match step
    case Pass(to) => w.(now := to)
    case Mint(secret, mintedFor, lifetime) =>
      var left := Swept(w.invites, w.now);
      if w.now + lifetime > LAST_INSTANT then w
      else if secret.None? then w.(invites := left)
      else
        var invite := Invite(mintedFor, w.now + lifetime, Pending);
        w.(invites := left[secret.value := invite], minted := w.minted[secret.value := invite])
    case Connect(secret, newcomer) => w.(halves := w.halves + [Half(secret, newcomer, Arrived)])
    case Present(h) =>
      var half := w.halves[h];
      w.(invites := Burn(w.invites, half.secret, w.now),
         halves := w.halves[h := half.(phase := if Acceptable(w.invites, half.secret, w.now) then Accepted(w.now)
           else Refused)])
    case Lose(h) => w.(halves := w.halves[h := w.halves[h].(phase := Lost(w.halves[h].phase.at))])
    case Finish(h) =>
      var half := w.halves[h];
      w.(invites := Mark(w.invites, half.secret, half.newcomer),
        halves := w.halves[h := half.(phase := Served(half.phase.at))])
  }

  predicate Took(half: Half, secret: Secret) { half.secret == secret && half.WasAccepted() }

  ghost predicate HalvesSound(w: World) {
    && (forall h | 0 <= h < |w.halves| && w.halves[h].WasAccepted() ::
         w.halves[h].secret in w.minted && w.halves[h].phase.at < w.minted[w.halves[h].secret].expiresAt
           && w.halves[h].phase.at <= w.now)
    && (forall g, h | 0 <= g < |w.halves| && 0 <= h < |w.halves| && w.halves[g].WasAccepted()
      && Took(w.halves[h], w.halves[g].secret) :: g == h)
  }

  /** What the map says of a secret is what became of the connections that presented it. */
  ghost predicate FateTold(halves: seq<Half>, secret: Secret, fate: Fate) {
    match fate
    case Pending => forall h | 0 <= h < |halves| :: !Took(halves[h], secret)
    case Burned => exists h | 0 <= h < |halves| :: Took(halves[h], secret) && !halves[h].phase.Served?
    case Used(n) => exists h | 0 <= h < |halves| ::
      Took(halves[h], secret) && halves[h].phase.Served? && halves[h].newcomer == n
  }

  ghost predicate InvitesSound(w: World) {
    && (forall s | s in w.invites ::
      s in w.minted && w.invites[s] == w.minted[s].(fate := w.invites[s].fate)
      && FateTold(w.halves, s, w.invites[s].fate))
    && (forall s | s in w.minted :: w.minted[s].fate == Pending)
    && (forall s | s in w.minted && s !in w.invites :: w.minted[s].expiresAt <= w.now)
  }

  ghost predicate Inv(w: World) { HalvesSound(w) && InvitesSound(w) }

  lemma Retold(halves: seq<Half>, h: nat, moved: Half, s: Secret, fate: Fate)
    requires h < |halves| && moved.secret == halves[h].secret && FateTold(halves, s, fate)
    requires s != moved.secret || (!moved.WasAccepted() && !halves[h].WasAccepted())
      || (Took(halves[h], s) && moved.WasAccepted() && moved.phase.Served? == halves[h].phase.Served?)
    requires moved.newcomer == halves[h].newcomer
    ensures FateTold(halves[h := moved], s, fate)
  {
    var after := halves[h := moved];
    if !fate.Pending? {
      var g :| 0 <= g < |halves| && Took(halves[g], s) && (fate.Used? <==> halves[g].phase.Served?)
        && (fate.Used? ==> halves[g].newcomer == fate.newcomer);
      assert Took(after[g], s) && after[g].phase.Served? == halves[g].phase.Served?;
    }
  }

  lemma PresentKeeps(w: World, h: nat)
    requires Inv(w) && Enabled(w, Present(h))
    ensures Inv(Next(w, Present(h)))
  {
    var m, secret := Next(w, Present(h)), w.halves[h].secret;
    assert Acceptable(w.invites, secret, w.now) ==> FateTold(w.halves, secret, Pending) && Took(m.halves[h], secret);
    forall s | s in m.invites ensures FateTold(m.halves, s, m.invites[s].fate) {
      if s != secret || !Acceptable(w.invites, secret, w.now) {
        Retold(w.halves, h, m.halves[h], s, w.invites[s].fate);
      }
    }
  }

  lemma EndKeeps(w: World, h: nat, step: Step)
    requires Inv(w) && Enabled(w, step) && (step == Lose(h) || step == Finish(h))
    ensures Inv(Next(w, step))
  {
    var m, secret := Next(w, step), w.halves[h].secret;
    assert Took(w.halves[h], secret) && Took(m.halves[h], secret);
    forall s | s in m.invites ensures FateTold(m.halves, s, m.invites[s].fate) {
      if s == secret && step.Finish? {
        assert !w.invites[s].fate.Pending?;
        assert forall g | 0 <= g < |w.halves| && Took(w.halves[g], s) :: g == h;
      } else {
        Retold(w.halves, h, m.halves[h], s, w.invites[s].fate);
      }
    }
  }

  lemma MintKeeps(w: World, random: Option<Secret>, mintedFor: Subject, lifetime: nat)
    requires Inv(w) && Enabled(w, Mint(random, mintedFor, lifetime))
    ensures Inv(Next(w, Mint(random, mintedFor, lifetime)))
  {
  }

  lemma StepKeeps(w: World, step: Step)
    requires Inv(w) && Enabled(w, step)
    ensures Inv(Next(w, step))
  {
    match step
    case Present(h) => PresentKeeps(w, h);
    case Lose(h) => EndKeeps(w, h, step);
    case Finish(h) => EndKeeps(w, h, step);
    case Mint(random, mintedFor, lifetime) => MintKeeps(w, random, mintedFor, lifetime);
    case Pass(_) =>
    case Connect(_, _) => ConnectKeeps(w, step);
  }

  lemma ConnectKeeps(w: World, step: Step)
    requires Inv(w) && step.Connect?
    ensures Inv(Next(w, step))
  {
    var m := Next(w, step);
    forall s | s in m.invites ensures FateTold(m.halves, s, m.invites[s].fate) {
      if !w.invites[s].fate.Pending? {
        var g :| 0 <= g < |w.halves| && Took(w.halves[g], s) && (w.invites[s].fate.Used? <==> w.halves[g].phase.Served?)
          && (w.invites[s].fate.Used? ==> w.halves[g].newcomer == w.invites[s].fate.newcomer);
        assert m.halves[g] == w.halves[g];
      }
    }
  }

  // ---------------------------------------------------------------- over every run

  function Run(steps: seq<Step>): Option<World>
    decreases |steps|
  {
    if steps == [] then Some(World(0, map[], map[], []))
    else
      var before := Run(steps[..|steps| - 1]);
      if before.Some? && Enabled(before.value, steps[|steps| - 1]) then Some(Next(before.value, steps[|steps| - 1]))
      else None
  }

  lemma {:induction false} RunKeeps(steps: seq<Step>)
    requires Run(steps).Some?
    ensures Inv(Run(steps).value)
    decreases |steps|
  {
    if steps != [] {
      RunKeeps(steps[..|steps| - 1]);
      StepKeeps(Run(steps[..|steps| - 1]).value, steps[|steps| - 1]);
    }
  }

  /** A secret is accepted from one connection at most, minted here and not yet expired; and the state asked of it for
      what it was minted for says so: used names that one connection's newcomer, burned is its being served or lost,
      pending and expired that there was none. */
  lemma AcceptedOnce(steps: seq<Step>, secret: Secret)
    requires Run(steps).Some? && secret in Run(steps).value.minted
    ensures var w := Run(steps).value;
      var state := StateOf(w.invites, secret, w.minted[secret].mintedFor, w.now);
      && (forall g, h | 0 <= g < |w.halves| && 0 <= h < |w.halves| && Took(w.halves[g], secret)
        && Took(w.halves[h], secret) :: g == h)
      && (forall h | 0 <= h < |w.halves| && Took(w.halves[h], secret) ::
            && w.halves[h].phase.at < w.minted[secret].expiresAt
            && (state == IsUnknown || state == if w.halves[h].phase.Served? then IsUsed(w.halves[h].newcomer)
              else IsBurned))
      && (state == IsPending || state == IsExpired ==> forall h | 0 <= h < |w.halves| :: !Took(w.halves[h], secret))
      && (state == IsUnknown ==> w.minted[secret].expiresAt <= w.now)
  {
    RunKeeps(steps);
  }

  // ---------------------------------------------------------------- what the steps themselves say

  /** The secret was minted by this step. */
  ghost predicate MintsAt(steps: seq<Step>, secret: Secret, k: nat) {
    k < |steps| && steps[k].Mint? && steps[k].random == Some(secret) && Run(steps[..k]).Some?
      && Run(steps[..k]).value.now + steps[k].lifetime <= LAST_INSTANT
  }

  /** A secret is in the book from the step that minted it on, for what that names and until its lifetime is over. */
  lemma {:induction false} MintedAs(steps: seq<Step>, secret: Secret)
    requires Run(steps).Some?
    ensures secret in Run(steps).value.minted <==> exists k: nat :: MintsAt(steps, secret, k)
    ensures forall k: nat | MintsAt(steps, secret, k) ::
      Run(steps).value.minted[secret]
        == Invite(steps[k].mintedFor, Run(steps[..k]).value.now + steps[k].lifetime, Pending)
    decreases |steps|
  {
    if steps != [] {
      var front, last := steps[..|steps| - 1], |steps| - 1;
      MintedAs(front, secret);
      forall k: nat | k < last
        ensures steps[..k] == front[..k] && (MintsAt(steps, secret, k) <==> MintsAt(front, secret, k))
      {
        assert steps[..k] == front[..k];
      }
      if MintsAt(steps, secret, last) { assert secret !in Run(front).value.minted; }
    }
  }

  /** The connections are those of the steps, in their order. */
  lemma {:induction false} ConnectedAs(steps: seq<Step>, k: nat)
    requires Run(steps).Some? && k < |steps|
    ensures Run(steps[..k]).Some? && |Run(steps[..k]).value.halves| <= |Run(steps).value.halves|
    ensures steps[k].Connect? ==>
      var h := |Run(steps[..k]).value.halves|;
      && h < |Run(steps).value.halves| && Run(steps).value.halves[h].secret == steps[k].secret
      && Run(steps).value.halves[h].newcomer == steps[k].newcomer
    decreases |steps|
  {
    var front := steps[..|steps| - 1];
    if k < |front| {
      ConnectedAs(front, k);
      assert steps[..k] == front[..k];
    }
  }

  /** A connection presents the secret, minted here, before its expiry. */
  ghost predicate InTime(steps: seq<Step>, secret: Secret, k: nat) {
    k < |steps| && steps[k].Present? && Run(steps[..k]).Some? && var w := Run(steps[..k]).value;
    && steps[k].h < |w.halves| && w.halves[steps[k].h].secret == secret
    && secret in w.minted && w.now < w.minted[secret].expiresAt
  }

  ghost predicate FirstInTime(steps: seq<Step>, secret: Secret, h: nat, k: nat) {
    InTime(steps, secret, k) && steps[k].h == h && forall j: nat | j < k :: !InTime(steps, secret, j)
  }

  lemma {:induction false} SomeFirst(steps: seq<Step>, secret: Secret, k: nat) returns (first: nat)
    requires Run(steps).Some? && InTime(steps, secret, k)
    ensures first < |steps| && steps[first].Present? && steps[first].h < |Run(steps).value.halves|
    ensures FirstInTime(steps, secret, steps[first].h, first)
  {
    first := k;
    ConnectedAs(steps, k);
    if j: nat :| j < k && InTime(steps, secret, j) { first := SomeFirst(steps, secret, j); }
  }

  ghost predicate TookFirst(steps: seq<Step>, secret: Secret, w: World, h: nat)
    requires h < |w.halves|
  {
    Took(w.halves[h], secret) <==> exists k: nat :: FirstInTime(steps, secret, h, k)
  }

  /** Presented in time, a secret is acceptable exactly when it was not before. */
  lemma AcceptableFirst(steps: seq<Step>, secret: Secret, w: World)
    requires Run(steps) == Some(w) && Inv(w) && secret in w.minted && w.now < w.minted[secret].expiresAt
    requires forall g: nat | g < |w.halves| :: TookFirst(steps, secret, w, g)
    ensures Acceptable(w.invites, secret, w.now) <==> forall k: nat :: !InTime(steps, secret, k)
  {
    hide InTime, Run;
    if k: nat :| InTime(steps, secret, k) {
      var first := SomeFirst(steps, secret, k);
      assert TookFirst(steps, secret, w, steps[first].h);
      assert Took(w.halves[steps[first].h], secret);
    } else {
      forall g: nat | g < |w.halves| ensures !Took(w.halves[g], secret) { assert TookFirst(steps, secret, w, g); }
      assert FateTold(w.halves, secret, w.invites[secret].fate);
    }
  }

  lemma InTimeBefore(steps: seq<Step>, secret: Secret)
    requires Run(steps).Some? && steps != []
    ensures forall k: nat | k < |steps| - 1 :: InTime(steps, secret, k) <==> InTime(steps[..|steps| - 1], secret, k)
    ensures forall k: nat | InTime(steps[..|steps| - 1], secret, k) ::
      k < |steps| - 1 && steps[k].h < |Run(steps[..|steps| - 1]).value.halves|
  {
    var front := steps[..|steps| - 1];
    forall k: nat | k < |steps| - 1 ensures InTime(steps, secret, k) <==> InTime(front, secret, k) {
      assert steps[..k] == front[..k];
    }
    forall k: nat | InTime(front, secret, k) ensures steps[k].h < |Run(front).value.halves| { ConnectedAs(front, k); }
  }

  lemma FirstBefore(steps: seq<Step>, secret: Secret, h: nat)
    requires Run(steps).Some? && steps != []
    ensures var front, last := steps[..|steps| - 1], |steps| - 1;
      && (FirstInTime(steps, secret, h, last) <==>
        InTime(steps, secret, last) && steps[last].h == h && forall k: nat :: !InTime(front, secret, k))
      && ((exists k: nat :: FirstInTime(steps, secret, h, k)) <==>
        (exists k: nat :: FirstInTime(front, secret, h, k)) || FirstInTime(steps, secret, h, last))
      && (h >= |Run(front).value.halves| ==> forall k: nat :: !FirstInTime(front, secret, h, k))
  {
    var front, last := steps[..|steps| - 1], |steps| - 1;
    InTimeBefore(steps, secret);
    assert forall k: nat | InTime(steps, secret, k) :: k <= last;
    hide InTime, Run;
    forall k: nat | k < last ensures FirstInTime(steps, secret, h, k) <==> FirstInTime(front, secret, h, k) {
      assert front[k] == steps[k] && (InTime(steps, secret, k) <==> InTime(front, secret, k));
      forall j: nat | j < k ensures InTime(steps, secret, j) <==> InTime(front, secret, j) { assert j < last; }
    }
    forall k: nat | k < last ensures InTime(steps, secret, k) <==> InTime(front, secret, k) { }
  }

  /** Over every run a secret is accepted exactly from the connection that first presents it before its expiry. */
  lemma {:induction false} AcceptedFirst(steps: seq<Step>, secret: Secret, h: nat)
    requires Run(steps).Some? && h < |Run(steps).value.halves|
    ensures TookFirst(steps, secret, Run(steps).value, h)
    decreases |steps|
  {
    hide InTime;
    var front, last := steps[..|steps| - 1], |steps| - 1;
    var before := Run(front).value;
    RunKeeps(front);
    forall g: nat | g < |before.halves| ensures TookFirst(front, secret, before, g) { AcceptedFirst(front, secret, g); }
    LastInTime(steps, secret);
    if InTime(steps, secret, last) { AcceptableFirst(front, secret, before); }
    TookStep(before, steps[last], secret, h);
    FirstBefore(steps, secret, h);
    hide FirstInTime, Took, Acceptable;
    assert h < |before.halves| ==> TookFirst(front, secret, before, h);
  }

  lemma LastInTime(steps: seq<Step>, secret: Secret)
    requires Run(steps).Some? && steps != []
    ensures var last, w := steps[|steps| - 1], Run(steps[..|steps| - 1]).value;
      InTime(steps, secret, |steps| - 1) <==>
        last.Present? && w.halves[last.h].secret == secret && secret in w.minted && w.now < w.minted[secret].expiresAt
  {
  }

  lemma TookStep(w: World, step: Step, secret: Secret, h: nat)
    requires Inv(w) && Enabled(w, step) && h < |Next(w, step).halves|
    ensures Took(Next(w, step).halves[h], secret) <==>
      || (h < |w.halves| && Took(w.halves[h], secret))
      || (step == Present(h) && w.halves[h].secret == secret && Acceptable(w.invites, secret, w.now))
    ensures Acceptable(w.invites, secret, w.now) ==> secret in w.minted && w.now < w.minted[secret].expiresAt
  {
  }

  /** Asked of anything but what it was minted for, a secret is unknown. */
  lemma AskedForAnother(steps: seq<Step>, secret: Secret, subject: Subject)
    requires Run(steps).Some? && var w := Run(steps).value; secret in w.minted ==> w.minted[secret].mintedFor != subject
    ensures var w := Run(steps).value; StateOf(w.invites, secret, subject, w.now) == IsUnknown
  {
    RunKeeps(steps);
  }

  /** Minting now would sweep the secret. */
  ghost predicate Sweeps(w: World, step: Step, secret: Secret) {
    step.Mint? && w.now + step.lifetime <= LAST_INSTANT && secret in w.minted && w.minted[secret].expiresAt <= w.now
  }

  /** Another secret was minted, sweeping, once this one had expired. */
  ghost predicate SweptAt(steps: seq<Step>, secret: Secret, k: nat) {
    k < |steps| && Run(steps[..k]).Some? && Sweeps(Run(steps[..k]).value, steps[k], secret)
  }

  lemma SweptOne(steps: seq<Step>, secret: Secret, k: nat)
    requires Run(steps).Some? && steps != []
    ensures var front, last := steps[..|steps| - 1], |steps| - 1;
      && (SweptAt(steps, secret, k) <==>
        if k == last then Sweeps(Run(front).value, steps[last], secret) else SweptAt(front, secret, k))
      && (SweptAt(front, secret, k) ==> k < last)
  {
    var front := steps[..|steps| - 1];
    assert Run(front).Some?;
    hide Run, Next, Enabled;
    if k < |steps| - 1 { assert steps[..k] == front[..k]; }
  }

  lemma SweptBefore(steps: seq<Step>, secret: Secret)
    requires Run(steps).Some? && steps != []
    ensures var front, last := steps[..|steps| - 1], |steps| - 1;
      (exists k: nat :: SweptAt(steps, secret, k)) <==>
        (exists k: nat :: SweptAt(front, secret, k)) || Sweeps(Run(front).value, steps[last], secret)
  {
    var front, last := steps[..|steps| - 1], |steps| - 1;
    assert Run(front).Some?;
    hide *;
    SweptOne(steps, secret, last);
    if k: nat :| SweptAt(steps, secret, k) { SweptOne(steps, secret, k); }
    if k: nat :| SweptAt(front, secret, k) { SweptOne(steps, secret, k); }
  }

  /** A secret is forgotten exactly by the first mint after it has expired; until then what it is pending, burned or
      used by is told. */
  lemma {:induction false} ForgottenBySweep(steps: seq<Step>, secret: Secret)
    requires Run(steps).Some? && secret in Run(steps).value.minted
    ensures Said(Run(steps).value, secret) == IsUnknown <==> exists k: nat :: SweptAt(steps, secret, k)
    decreases |steps|
  {
    hide SweptAt;
    RunKeeps(steps);
    if steps != [] {
      var front := steps[..|steps| - 1];
      RunKeeps(front);
      if secret in Run(front).value.minted { ForgottenBySweep(front, secret); } else { NotMintedYet(front, secret); }
      SweptBefore(steps, secret);
    }
  }

  lemma {:induction false} NotMintedYet(steps: seq<Step>, secret: Secret)
    requires Run(steps).Some? && secret !in Run(steps).value.minted
    ensures forall k: nat :: !SweptAt(steps, secret, k)
    decreases |steps|
  {
    if steps != [] {
      NotMintedYet(steps[..|steps| - 1], secret);
      SweptBefore(steps, secret);
    }
  }

  /** One step of what is said of a secret. */
  predicate Follows(before: InviteState, after: InviteState) {
    before == after ||
      match before
      case IsPending => after == IsExpired || after == IsBurned
      case IsExpired => after == IsUnknown
      case IsBurned => after.IsUsed? || after == IsUnknown
      case IsUsed(_) => after == IsUnknown
      case IsUnknown => false
  }

  /** Any number of them: used stays with its newcomer, and unknown is for good. */
  predicate Leads(before: InviteState, after: InviteState) {
    match before
    case IsPending => true
    case IsExpired => after == IsExpired || after == IsUnknown
    case IsBurned => after == IsBurned || after.IsUsed? || after == IsUnknown
    case IsUsed(n) => after == IsUsed(n) || after == IsUnknown
    case IsUnknown => after == IsUnknown
  }

  function Said(w: World, secret: Secret): InviteState
    requires secret in w.minted
  {
    StateOf(w.invites, secret, w.minted[secret].mintedFor, w.now)
  }

  lemma StateMovesOn(w: World, step: Step, secret: Secret)
    requires Inv(w) && Enabled(w, step) && secret in w.minted
    ensures secret in Next(w, step).minted && Follows(Said(w, secret), Said(Next(w, step), secret))
  {
    if step.Finish? && w.halves[step.h].secret == secret && secret in w.invites { EndOf(w, step, secret); }
  }

  lemma EndOf(w: World, step: Step, secret: Secret)
    requires Inv(w) && Enabled(w, step) && secret in w.invites && step.Finish? && w.halves[step.h].secret == secret
    ensures !w.invites[secret].fate.Pending?
  {
  }

  /** Over every run and whatever comes after it: pending may become anything, expired only unknown, burned used or
      unknown, used by a newcomer nothing but unknown, and unknown is for good. */
  lemma {:induction false} SaidOnlyMovesOn(steps: seq<Step>, more: seq<Step>, secret: Secret)
    requires Run(steps + more).Some? && Run(steps).Some? && secret in Run(steps).value.minted
    ensures secret in Run(steps + more).value.minted
    ensures Leads(Said(Run(steps).value, secret), Said(Run(steps + more).value, secret))
    decreases |more|
  {
    if more == [] {
      assert steps + more == steps;
    } else {
      var all, front := steps + more, more[..|more| - 1];
      assert all[..|all| - 1] == steps + front && all[|all| - 1] == more[|more| - 1];
      SaidOnlyMovesOn(steps, front, secret);
      RunKeeps(steps + front);
      hide Inv;
      StateMovesOn(Run(steps + front).value, more[|more| - 1], secret);
    }
  }
}
