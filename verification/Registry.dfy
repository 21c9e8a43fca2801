/** The node-local map from pods to their two stores, which the access book resolves a session through. */
module Registry {
  import opened Ids
  import opened Options

  datatype PodStore = Membership | Records

  datatype Binding = Binding(membership: NamespaceId, records: Option<NamespaceId>) {
    function StoreOf(ns: NamespaceId): Option<PodStore> {
      if membership == ns then Some(Membership)
      else if records == Some(ns) then Some(Records)
      else None
    }

    /** The two stores are two. */
    predicate Apart() { records != Some(membership) }
  }

  datatype Held = Held(pod: PodId, store: PodStore)

  type Pods = map<PodId, Binding>

  /** What a namespace is to a pod. */
  datatype Role = Role(pod: PodId, store: PodStore)

  predicate Plays(pods: Pods, ns: NamespaceId, r: Role) {
    r.pod in pods && match r.store {
      case Membership => pods[r.pod].membership == ns
      case Records => pods[r.pod].records == Some(ns)
    }
  }

  /** Each namespace is at most one store of at most one pod. */
  ghost predicate OneRoleEach(pods: Pods) {
    forall ns, r, s | Plays(pods, ns, r) && Plays(pods, ns, s) :: r == s
  }

  predicate Free(pods: Pods, ns: NamespaceId) {
    forall p | p in pods :: pods[p].StoreOf(ns).None?
  }

  lemma FreeMeans(pods: Pods, ns: NamespaceId)
    ensures Free(pods, ns) <==> forall r :: !Plays(pods, ns, r)
  {
    if forall r :: !Plays(pods, ns, r) {
      forall p | p in pods ensures pods[p].StoreOf(ns).None? {
        assert !Plays(pods, ns, Role(p, Membership)) && !Plays(pods, ns, Role(p, Records));
      }
    }
  }

  /** A registration, refused for a pod already held and for a store another role holds. */
  predicate Registers(pods: Pods, pod: PodId, binding: Binding) {
    && pod !in pods && binding.Apart() && Free(pods, binding.membership)
    && (binding.records.Some? ==> Free(pods, binding.records.value))
  }

  function WithRecords(pods: Pods, pod: PodId, records: Option<NamespaceId>): Pods {
    if pod in pods then pods[pod := pods[pod].(records := records)] else pods
  }

  lemma RegisterKeeps(pods: Pods, pod: PodId, binding: Binding)
    requires OneRoleEach(pods) && Registers(pods, pod, binding)
    ensures OneRoleEach(pods[pod := binding])
  {
    var m := pods[pod := binding];
    FreeMeans(pods, binding.membership);
    if binding.records.Some? { FreeMeans(pods, binding.records.value); }
    forall ns, r | Plays(m, ns, r)
      ensures if r.pod == pod then forall q :: !Plays(pods, ns, q) else Plays(pods, ns, r)
    {
    }
    forall ns, r, q | Plays(m, ns, r) && Plays(m, ns, q) ensures r == q {
      if r.pod == pod && q.pod == pod { assert r.store == q.store; }
    }
  }

  /** Setting a record store keeps one role each exactly when the namespace has no role but that one. */
  lemma SetKeeps(pods: Pods, pod: PodId, records: Option<NamespaceId>)
    requires OneRoleEach(pods) && pod in pods
    ensures OneRoleEach(WithRecords(pods, pod, records)) <==>
      records.None? || forall r | Plays(pods, records.value, r) :: r == Role(pod, Records)
  {
    var m := WithRecords(pods, pod, records);
    forall ns, r | Plays(m, ns, r) ensures Plays(pods, ns, r) || (records == Some(ns) && r == Role(pod, Records)) {
    }
    if records.Some? {
      assert Plays(m, records.value, Role(pod, Records));
      forall r | Plays(pods, records.value, r) ensures r == Role(pod, Records) || Plays(m, records.value, r) {
      }
    }
  }

  class Registry {
    var pods: Pods

    constructor ()
      ensures pods == map[] && OneRoleEach(pods)
    {
      pods := map[];
    }

    /** Refused for a pod already held, for one store given twice, and for a store in any role; changing nothing. */
    method RegisterPod(pod: PodId, binding: Binding) returns (ok: bool)
      modifies this
      ensures ok <==> Registers(old(pods), pod, binding)
      ensures ok <==>
        && pod !in old(pods) && binding.records != Some(binding.membership)
        && forall ns, r | ns == binding.membership || Some(ns) == binding.records :: !Plays(old(pods), ns, r)
      ensures pods == if ok then old(pods)[pod := binding] else old(pods)
      ensures old(OneRoleEach(pods)) ==> OneRoleEach(pods)
    {
      FreeMeans(pods, binding.membership);
      if binding.records.Some? { FreeMeans(pods, binding.records.value); }
      if pod in pods || !binding.Apart() || !Free(pods, binding.membership)
        || (binding.records.Some? && !Free(pods, binding.records.value)) {
        return false;
      }
      if OneRoleEach(pods) { RegisterKeeps(pods, pod, binding); }
      pods := pods[pod := binding];
      ok := true;
    }

    /** Unlike a registration this checks no other role: one role each survives exactly when the new store held none. */
    method SetPodRecords(pod: PodId, records: Option<NamespaceId>) returns (held: bool)
      modifies this
      ensures held <==> pod in old(pods)
      ensures pods == WithRecords(old(pods), pod, records)
      ensures pods == if held then old(pods)[pod := Binding(old(pods)[pod].membership, records)] else old(pods)
      ensures old(OneRoleEach(pods)) && held ==>
        (OneRoleEach(pods) <==> records.None? || forall r | Plays(old(pods), records.value, r) ::
          r == Role(pod, Records))
    {
      if pod !in pods { return false; }
      ghost var before := pods;
      pods := pods[pod := pods[pod].(records := records)];
      held := true;
      if OneRoleEach(before) { SetKeeps(before, pod, records); }
    }

    method UnregisterPod(pod: PodId) returns (was: Option<Binding>)
      modifies this
      ensures was == if pod in old(pods) then Some(old(pods)[pod]) else None
      ensures pods == old(pods) - {pod}
      ensures old(OneRoleEach(pods)) ==> OneRoleEach(pods)
    {
      was := if pod in pods then Some(pods[pod]) else None;
      ghost var before := pods;
      pods := pods - {pod};
      forall ns, r | Plays(pods, ns, r) ensures Plays(before, ns, r) {
      }
    }

    /** The reverse lookup, the pods walked in whatever order: with one role each, the one answer there is. */
    method PodOf(ns: NamespaceId) returns (found: Option<Held>)
      ensures found.None? <==> Free(pods, ns)
      ensures found.None? <==> forall r :: !Plays(pods, ns, r)
      ensures found.Some? ==> Plays(pods, ns, Role(found.value.pod, found.value.store))
      ensures OneRoleEach(pods) && found.Some? ==>
        forall r | Plays(pods, ns, r) :: r == Role(found.value.pod, found.value.store)
    {
      FreeMeans(pods, ns);
      var rest := set p | p in pods;
      while rest != {}
        invariant forall p | p in rest :: p in pods
        invariant forall p | p in pods :: p in rest || pods[p].StoreOf(ns).None?
      {
        var p :| p in rest;
        if pods[p].StoreOf(ns).Some? {
          assert Plays(pods, ns, Role(p, pods[p].StoreOf(ns).value));
          return Some(Held(p, pods[p].StoreOf(ns).value));
        }
        rest := rest - {p};
      }
      found := None;
    }
  }
}
