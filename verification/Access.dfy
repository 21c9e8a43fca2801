/** The access book: what a session may send and take, decided from what was read of one identity's own stores, and what
    an accept decision rests on. */
module Access {
  import opened Ids
  import opened Options
  import opened Registry

  type NodeId = int
  type AuthorId = int

  datatype Role = Accept | Dial

  /** An entry's key as the membership layout reads it. */
  datatype Key = Devices(member: PdnId, version: nat) | Other(bytes: int)

  datatype Payload = Read(hash: Hash) | Awaited | Unread | OutOfBounds

  datatype HeldEntry = HeldEntry(key: Key, author: AuthorId, payload: Payload)

  datatype SignedEntry = SignedEntry(key: Key, author: AuthorId)

  datatype Device = Device(node: NodeId, author: AuthorId)

  datatype Member = Member(current: bool, departure: Option<nat>, devices: set<Device>) {
    /** The departure that ended the latest membership, while it is no member. */
    function DepartedAt(): Option<nat> { if current then None else departure }
  }

  type View = map<PdnId, Member>

  /** What a store's entries make of the pod's members, of a departure's past and of what a departed
      replica still takes: each a function of the entries with their payloads, which is all it read. */
  datatype Rules = Rules(view: seq<HeldEntry> -> View,
                         past: (seq<HeldEntry>, PdnId) -> set<SignedEntry>,
                         rests: (seq<HeldEntry>, PdnId) -> set<Key>)

  datatype Egress = Whole | PastOnly(past: set<SignedEntry>) | OwnStatements | Closed

  datatype Ingest =
    | TakeAll
    | TakePast(past: set<SignedEntry>)
    | TakeRests(keys: set<Key>)
    | TakeSigned(authors: set<AuthorId>, statementsOf: Option<PdnId>)

  datatype RestsOn = Nothing | Writes(counts: seq<(NamespaceId, nat)>) | Unknown

  datatype SessionAccess = Deny | Allow(egress: Egress, ingest: Ingest, restsOn: RestsOn)

  predicate Reveals(me: PdnId, egress: Egress, e: SignedEntry) {
    match egress
    case Whole => true
    case PastOnly(past) => e in past
    case OwnStatements => e.key.Devices? && e.key.member == me
    case Closed => false
  }

  predicate Admits(ingest: Ingest, e: SignedEntry) {
    match ingest
    case TakeAll => true
    case TakePast(past) => e in past
    case TakeRests(keys) => e.key in keys
    case TakeSigned(authors, named) =>
      (named.Some? && e.key.Devices? && e.key.member == named.value) || e.author in authors
  }

  const WHOLE := Allow(Whole, TakeAll, Nothing)

  function RestingOn(access: SessionAccess, read: RestsOn): SessionAccess {
    if access.Allow? && access.restsOn != Unknown then access.(restsOn := read) else access
  }

  predicate Unarrived(entries: seq<HeldEntry>) { exists e | e in entries :: e.payload == Awaited }

  predicate Departed(view: View, id: PdnId) { id in view && view[id].DepartedAt().Some? }

  predicate Current(view: View, id: PdnId) { id in view && view[id].current }

  predicate Listed(view: View, id: PdnId, peer: NodeId) {
    id in view && exists d | d in view[id].devices :: d.node == peer
  }

  /** The past of a departure the view shows; none for an identity it shows no departure of. */
  function Past(rules: Rules, entries: seq<HeldEntry>, id: PdnId): Option<set<SignedEntry>> {
    if Departed(rules.view(entries), id) then Some(rules.past(entries, id)) else None
  }

  function Rested(entries: seq<HeldEntry>, access: SessionAccess): SessionAccess {
    if Unarrived(entries) then RestingOn(access, Unknown) else access
  }

  /** How a session naming `caller` from `peer` is served; `None` when it is refused. */
  function ServePod(rules: Rules, me: PdnId, store: PodStore, caller: PdnId, peer: NodeId,
      entries: seq<HeldEntry>): Option<SessionAccess> {
    var view := rules.view(entries);
    if !Listed(view, caller, peer) then None
    else if Current(view, caller) then
      match Past(rules, entries, me)
      case None => Some(Rested(entries, WHOLE))
      case Some(own) =>
        if store == Records then None
        else Some(Rested(entries, Allow(PastOnly(own), TakeRests(rules.rests(entries, me)), Nothing)))
    else
      match Past(rules, entries, caller)
      case None => None
      case Some(theirs) =>
        if store == Records then None
        else Some(Rested(entries, Allow(PastOnly(theirs), TakePast(theirs), Nothing)))
  }

  datatype Unserved = Unresolved | Members(authors: set<AuthorId>, statementsOf: Option<PdnId>) | NothingTaken

  function UnservedBy(rules: Rules, me: PdnId, caller: PdnId, entries: seq<HeldEntry>): Unserved {
    var view := rules.view(entries);
    if Departed(view, me) then NothingTaken
    else if (forall id | id in view :: !view[id].current)
      || (Current(view, caller) && view[caller].devices == {}) then Unresolved
    else
      Members(set id, d | id in view && view[id].current && d in view[id].devices :: d.author,
              if Current(view, caller) then Some(caller) else None)
  }

  function Refused(role: Role, unserved: Unserved): SessionAccess {
    if role == Accept then Deny
    else
      match unserved
      case Unresolved => Allow(OwnStatements, TakeAll, Nothing)
      case Members(authors, named) => Allow(Closed, TakeSigned(authors, named), Nothing)
      case NothingTaken => Allow(Closed, TakeSigned({}, None), Nothing)
  }

  predicate TakesStatementsOf(rules: Rules, me: PdnId, store: PodStore, caller: PdnId, entries: seq<HeldEntry>) {
    var view := rules.view(entries);
    store == Membership && !Departed(view, me) && Current(view, caller)
  }

  /** One session as the book is asked about it. */
  datatype Ask = Ask(me: PdnId, role: Role, store: PodStore, held: bool, caller: PdnId, peer: NodeId)

  /** What the decision read: the device records, the membership store, and, when it holds entries of
      the caller's own, the store once more after their payloads were waited for. */
  datatype Reads = Reads(ownDevice: bool, first: seq<HeldEntry>, again: Option<seq<HeldEntry>>)

  function ClassifyPod(rules: Rules, ask: Ask, read: Reads): SessionAccess {
    if !ask.held then Refused(ask.role, NothingTaken)
    else if ask.caller == ask.me then
      if read.ownDevice then WHOLE
      else if ask.role == Accept then Deny
      else Refused(ask.role, UnservedBy(rules, ask.me, ask.caller, read.first))
    else
      var once := ServePod(rules, ask.me, ask.store, ask.caller, ask.peer, read.first);
      if once.Some? then once.value
      else
        var twice := if read.again.Some? then ServePod(rules, ask.me, ask.store, ask.caller, ask.peer, read.again.value)
          else None;
        if twice.Some? then twice.value
        else
          var last := if read.again.Some? then read.again.value else read.first;
          if ask.role == Accept && TakesStatementsOf(rules, ask.me, ask.store, ask.caller, last) then
            Allow(Closed, TakeSigned({}, Some(ask.caller)), Nothing)
          else Refused(ask.role, UnservedBy(rules, ask.me, ask.caller, last))
  }

  /** The read the decision on another identity's session was taken from. */
  function Deciding(rules: Rules, ask: Ask, read: Reads): seq<HeldEntry> {
    if read.again.None? || ServePod(rules, ask.me, ask.store, ask.caller, ask.peer, read.first).Some? then read.first
    else read.again.value
  }

  // ---------------------------------------------------------------- the policy the decision tree comes to

  datatype Standing = Stranger | Active | Former

  ghost function StandingOf(view: View, id: PdnId): Standing {
    if id !in view then Stranger
    else if view[id].current then Active
    else if view[id].departure != None then Former
    else Stranger
  }

  /** A statement counted lists the node as this identity's. */
  ghost predicate HasDevice(view: View, id: PdnId, node: NodeId) {
    exists author :: id in view && Device(node, author) in view[id].devices
  }

  /** Served by another identity's listed device: whole, or on the membership store over a departure's past. */
  ghost predicate Served(ask: Ask, view: View) {
    && ask.caller != ask.me && HasDevice(view, ask.caller, ask.peer)
    && match StandingOf(view, ask.caller)
       case Active => StandingOf(view, ask.me) != Former || ask.store == Membership
       case Former => ask.store == Membership
       case Stranger => false
  }

  /** The read a decision rests on: the first, unless another identity's session is not served from it and the store
      was read again. */
  ghost function Basis(rules: Rules, ask: Ask, read: Reads): seq<HeldEntry> {
    if ask.caller == ask.me || Served(ask, rules.view(read.first)) || read.again.None? then read.first
    else read.again.value
  }

  lemma BasisDecides(rules: Rules, ask: Ask, read: Reads)
    requires ask.caller != ask.me
    ensures Basis(rules, ask, read) == Deciding(rules, ask, read)
  {
    ServedMeans(rules, ask, read.first);
  }

  lemma ServedMeans(rules: Rules, ask: Ask, entries: seq<HeldEntry>)
    requires ask.caller != ask.me
    ensures Served(ask, rules.view(entries)) <==>
      ServePod(rules, ask.me, ask.store, ask.caller, ask.peer, entries).Some?
  {
    ListedMeans(rules.view(entries), ask.caller, ask.peer);
  }

  lemma ListedMeans(view: View, id: PdnId, peer: NodeId)
    ensures Listed(view, id, peer) <==> HasDevice(view, id, peer)
  {
    if Listed(view, id, peer) {
      var d :| d in view[id].devices && d.node == peer;
      assert Device(peer, d.author) in view[id].devices;
    }
  }

  /** A session entitled to the store whole. */
  ghost predicate Entitled(rules: Rules, ask: Ask, read: Reads) {
    && ask.held
    && if ask.caller == ask.me then read.ownDevice
       else
         var view := rules.view(Basis(rules, ask, read));
         HasDevice(view, ask.caller, ask.peer) && StandingOf(view, ask.caller) == Active
           && StandingOf(view, ask.me) != Former
  }

  /** A pod store goes out whole exactly to the entitled; a record store otherwise goes out to nobody that
      dialed it; and whoever is not entitled sees at most a departure's past or this identity's own statements. */
  lemma EgressIsConfined(rules: Rules, ask: Ask, read: Reads)
    ensures var access, entries := ClassifyPod(rules, ask, read), Basis(rules, ask, read);
      && (access.Allow? && access.egress == Whole <==> Entitled(rules, ask, read))
      && (ask.role == Accept && ask.store == Records ==> access.Deny? || access.egress == Whole)
      && (ask.role == Dial ==> access.Allow?)
      && forall e: SignedEntry | access.Allow? && Reveals(ask.me, access.egress, e) && !Entitled(rules, ask, read) ::
           || (ask.role == Dial && e.key.Devices? && e.key.member == ask.me)
           || (ask.store == Membership && HasDevice(rules.view(entries), ask.caller, ask.peer)
               && exists id | id == ask.me || id == ask.caller ::
                 StandingOf(rules.view(entries), id) == Former && e in rules.past(entries, id))
  {
    var entries := Basis(rules, ask, read);
    ListedMeans(rules.view(entries), ask.caller, ask.peer);
    if ask.caller != ask.me {
      BasisDecides(rules, ask, read);
      ServedMeans(rules, ask, entries);
    }
  }

  /** Nobody to tell members from strangers by: the view counts no current member, or lists no device of the one
      named. */
  ghost predicate Unresolvable(ask: Ask, view: View) {
    || (forall id :: StandingOf(view, id) != Active)
    || (StandingOf(view, ask.caller) == Active && forall node :: !HasDevice(view, ask.caller, node))
  }

  predicate StatementOf(e: SignedEntry, id: PdnId) { e.key.Devices? && e.key.member == id }

  ghost predicate SignedByMember(view: View, e: SignedEntry) {
    exists id, node | StandingOf(view, id) == Active :: Device(node, e.author) in view[id].devices
  }

  ghost predicate MayOpen(rules: Rules, ask: Ask, read: Reads) {
    var view := rules.view(Basis(rules, ask, read));
    || ask.role == Dial
    || (ask.held && (Entitled(rules, ask, read) || Served(ask, view)
                     || (ask.caller != ask.me && ask.store == Membership && StandingOf(view, ask.me) != Former
                       && StandingOf(view, ask.caller) == Active)))
  }

  ghost predicate MayReveal(rules: Rules, ask: Ask, read: Reads, e: SignedEntry) {
    var entries := Basis(rules, ask, read);
    var view := rules.view(entries);
    ask.held &&
      if Entitled(rules, ask, read) then true
      else if Served(ask, view) then
        e in rules.past(entries, if StandingOf(view, ask.caller) == Active then ask.me else ask.caller)
      else
        ask.role == Dial && StandingOf(view, ask.me) != Former && Unresolvable(ask, view) && StatementOf(e, ask.me)
  }

  ghost predicate MayAdmit(rules: Rules, ask: Ask, read: Reads, e: SignedEntry) {
    var entries := Basis(rules, ask, read);
    var view := rules.view(entries);
    ask.held &&
      if Entitled(rules, ask, read) then true
      else if Served(ask, view) then
        if StandingOf(view, ask.caller) == Active then e.key in rules.rests(entries, ask.me)
        else e in rules.past(entries, ask.caller)
      else
        StandingOf(view, ask.me) != Former &&
          if ask.role == Accept then
            ask.caller != ask.me && ask.store == Membership && StandingOf(view, ask.caller) == Active
              && StatementOf(e, ask.caller)
          else
            || Unresolvable(ask, view) || SignedByMember(view, e)
            || (StandingOf(view, ask.caller) == Active && StatementOf(e, ask.caller))
  }

  /** Every way through the decision comes to one policy: which sessions open, what each may see, and what each may
      bring. */
  lemma DecisionIsPolicy(rules: Rules, ask: Ask, read: Reads, e: SignedEntry)
    ensures var access := ClassifyPod(rules, ask, read);
      && (access.Allow? <==> MayOpen(rules, ask, read))
      && (access.Allow? && Reveals(ask.me, access.egress, e) <==>
        MayOpen(rules, ask, read) && MayReveal(rules, ask, read, e))
      && (access.Allow? && Admits(access.ingest, e) <==> MayOpen(rules, ask, read) && MayAdmit(rules, ask, read, e))
  {
    var entries := Basis(rules, ask, read);
    var view := rules.view(entries);
    AuthorsOfMembers(rules, ask, entries, e);
    ListedMeans(view, ask.caller, ask.peer);
    UnresolvableMeans(ask, view);
    if ask.caller != ask.me {
      BasisDecides(rules, ask, read);
      ServedMeans(rules, ask, entries);
    }
    hide HasDevice, Listed, SignedByMember, Unresolvable;
  }

  lemma AuthorsOfMembers(rules: Rules, ask: Ask, entries: seq<HeldEntry>, e: SignedEntry)
    ensures var u := UnservedBy(rules, ask.me, ask.caller, entries); u.Members? ==>
      (e.author in u.authors <==> SignedByMember(rules.view(entries), e))
  {
    var view := rules.view(entries);
    if id, d :| id in view && view[id].current && d in view[id].devices && d.author == e.author {
      assert Device(d.node, e.author) in view[id].devices;
    }
  }

  lemma UnresolvableMeans(ask: Ask, view: View)
    ensures Unresolvable(ask, view) <==>
      (forall id | id in view :: !view[id].current) || (Current(view, ask.caller) && view[ask.caller].devices == {})
  {
    assert forall id | id in view :: view[id].current <==> StandingOf(view, id) == Active;
    if ask.caller in view && view[ask.caller].devices != {} {
      var d :| d in view[ask.caller].devices;
      assert HasDevice(view, ask.caller, d.node);
    }
  }

  /** An accept by an identity that has not departed admits everything from the entitled, a former member's past from
      its own listed device, the statements the named member signs from a device not listed, and nothing else. */
  lemma IngestIsConfined(rules: Rules, ask: Ask, read: Reads, e: SignedEntry)
    requires ask.role == Accept && StandingOf(rules.view(Basis(rules, ask, read)), ask.me) != Former
    ensures var access, entries := ClassifyPod(rules, ask, read), Basis(rules, ask, read);
      var view := rules.view(entries);
      access.Allow? && Admits(access.ingest, e) <==>
        ask.held &&
        (|| Entitled(rules, ask, read)
         || (ask.caller != ask.me && ask.store == Membership
             && (|| (HasDevice(view, ask.caller, ask.peer) && StandingOf(view, ask.caller) == Former
                     && e in rules.past(entries, ask.caller))
                 || (StandingOf(view, ask.caller) == Active && StatementOf(e, ask.caller)))))
  {
    DecisionIsPolicy(rules, ask, read, e);
    hide HasDevice, ClassifyPod;
  }

  /** An accept rests on the write counts read before it, but where it serves another identity from a read awaiting a
      payload: then on nothing a write count shows. */
  lemma RestsExactly(rules: Rules, ask: Ask, read: Reads, counts: RestsOn)
    ensures var access, basis := RestingOn(ClassifyPod(rules, ask, read), counts), Basis(rules, ask, read);
      access.Deny? || access.restsOn ==
        if ask.held && Served(ask, rules.view(basis)) && (exists e | e in basis :: e.payload == Awaited) then Unknown
        else counts
  {
    if ask.caller != ask.me {
      BasisDecides(rules, ask, read);
      ServedMeans(rules, ask, Basis(rules, ask, read));
    }
  }
}
