/** What each kind of step does to the tenant lists, to the workers and to the provisioning
    claims they hold; the proofs of the theorems read steps through these lemmas. */
module Shapes {
  import opened GoStrings
  import opened Objects
  import opened Registry
  import opened Naming
  import opened Lifecycle
  import opened History

  /** The parsed tenant list of every live shared instance. */
  ghost function ListsOf(sets: map<string, StatefulSet>): map<string, seq<string>> {
    map n | n in sets :: Tenants(sets[n])
  }

  ghost function Lists(s: State): map<string, seq<string>> {
    ListsOf(s.sets)
  }

  ghost predicate Listed(s: State, u: string, x: string) {
    x in Lists(s) && u in Lists(s)[x]
  }

  /** The tenant a worker is provisioning and has not yet registered. */
  function Claim(pc: Pc): Option<string> {
    if pc.Main? && PreAdd(pc.at) then Some(pc.env.uid) else None
  }

  /** The tenant, provisioned on the shared path, whose move to Assigned a worker is about to store. */
  function Finishing(pc: Pc): Option<string> {
    if pc.Main? && pc.at.AtToAssigned? && !pc.env.dedicated then Some(pc.env.uid) else None
  }

  // ---- the environment ----

  lemma PutSetLists(s: State, x: StatefulSet)
    ensures Lists(PutSet(s, x)) == Lists(s)[x.name := Tenants(x)]
  {
    hide Tenants, Exact;
    ExactIgnoresVersion(x, s.rev + 1);
  }

  lemma DropSetLists(s: State, x: string)
    ensures ListsOf(s.sets - {x}) == Lists(s) - {x}
  {
    hide Tenants;
  }

  lemma EnvShape(c: Cfg, s: State, a: EnvAction)
    requires Good(c, s) && EnvEnabled(c, s, a)
    ensures Lists(EnvNext(s, a)) == Lists(s) && EnvNext(s, a).jobs == s.jobs
  {
    hide Good, Tenants, Exact;
    if a.TouchSet? {
      LiveSetOk(c, s, a.x);
      PutSetLists(s, s.sets[a.x]);
    }
  }

  // ---- fetch, finalizer, namespace, Provisioning ----

  /** No step of this phase touches a list, a secret or a job. */
  lemma BeginShape(c: Cfg, s: State, w: nat, op: BeginOp)
    requires Good(c, s) && w < |s.workers| && BeginEnabled(c, s, w, op)
    ensures var s' := BeginStore(c, s, w, op);
      s'.sets == s.sets && s'.secrets == s.secrets && s'.jobs == s.jobs
      && (!op.NsCreate? ==> s'.namespaces == s.namespaces)
  {
    hide Good, EnvRead;
  }

  /** A new claim is only made by a stored move to Provisioning. */
  lemma BeginClaim(c: Cfg, s: State, w: nat, op: BeginOp)
    requires Good(c, s) && w < |s.workers| && BeginEnabled(c, s, w, op)
    ensures var pc := BeginPc(c, s, w, op);
      && Finishing(pc).None?
      && (Claim(pc).Some? ==>
            && op == ToProvisioning(false) && s.workers[w].Main? && pc.Main? && pc.at.AtFind?
            && s.workers[w].env in s.envHistory && Accepts(s, s.workers[w].env) && Rank(s.workers[w].env.db) == 0
            && Claim(pc) == Some(s.workers[w].env.uid) && !s.workers[w].env.dedicated)
  {
    hide Good, EnvRead, TargetOk, Tenants;
    WorkerOk(c, s, w);
    if op.ToProvisioning? { AcceptedIsCurrent(c, s, s.workers[w].env); }
  }

  // ---- CreatePostgreSQLForTenant ----

  lemma AllocShape(c: Cfg, s: State, w: nat, op: AllocOp)
    requires Good(c, s) && At(s, w) && AllocEnabled(c, s, w, op)
    ensures var s' := AllocStore(c, s, w, op);
      && s'.namespaces == s.namespaces
      && (!op.NewSetCreate? && !op.AddPut? ==> s'.sets == s.sets)
      && (!op.SecretCreate? ==> s'.secrets == s.secrets) && (!op.JobCreate? ==> s'.jobs == s.jobs)
      && (!op.ToAssigned? ==> s'.envs == s.envs && s'.envHistory == s.envHistory)
  {
    hide Good, Listing, AddTenant, Tenants, FirstFit, Host, SsFromHost, ValidId, ValidUid;
  }

  /** A claim is carried through provisioning unchanged. */
  lemma AllocClaim(c: Cfg, s: State, w: nat, op: AllocOp)
    requires Good(c, s) && At(s, w) && AllocEnabled(c, s, w, op)
    ensures var next := AllocStage(c, s, w, op);
      && (next.Some? ==> PreAdd(next.value) || next.value.AtToAssigned?)
      && (next.Some? && PreAdd(next.value) ==> PreAdd(s.workers[w].at))
  {
    hide Good, Listing, FirstFit, Tenants, Host, NewTarget, ReuseTarget, ValidId, ValidUid;
  }

  lemma NewSetShape(c: Cfg, s: State, w: nat, lost: bool)
    requires Good(c, s) && At(s, w) && AllocEnabled(c, s, w, NewSetCreate(lost))
    ensures var x := s.workers[w].at.t.ss;
      x !in Lists(s) && Lists(AllocStore(c, s, w, NewSetCreate(lost))) == Lists(s)[x := []]
  {
    hide Good, Tenants;
    var x := StatefulSet(s.workers[w].at.t.ss, 0, None, None);
    EmptyExact(x);
    PutSetLists(s, x);
  }

  /** Registration appends the claimed tenant to the live list and gives up the claim. */
  lemma AddShape(c: Cfg, s: State, w: nat, lost: bool)
    requires Good(c, s) && At(s, w) && AllocEnabled(c, s, w, AddPut(lost))
    ensures var x, u := s.workers[w].at.t.ss, s.workers[w].env.uid;
      && x in Lists(s) && u !in Lists(s)[x] && s.sets[x] == s.workers[w].at.copy
      && Lists(AllocStore(c, s, w, AddPut(lost))) == Lists(s)[x := Lists(s)[x] + [u]]
  {
    hide Good, Tenants, Exact, AddTenant, TargetOk, ValidUid;
    var e, at := s.workers[w].env, s.workers[w].at;
    WorkerOk(c, s, w);
    StoredOk(c, s, e);
    StoredSetOk(c, s, at.copy);
    AcceptedSetIsCurrent(c, s, at.copy);
    PutSetLists(s, AddTenant(at.copy, e.uid));
  }

  // ---- deletion ----

  /** Only the filter and the instance delete change a list. */
  lemma DeleteShape(c: Cfg, s: State, w: nat, op: DeleteOp)
    requires Good(c, s) && At(s, w) && DeleteEnabled(c, s, w, op)
    ensures var s' := DeleteStore(c, s, w, op); var at := s.workers[w].at;
      && s'.envHistory == s.envHistory && s'.secrets == s.secrets
      && (op.CleanDelete? && op.applied ==> Lists(s') == Lists(s) - {at.x})
      && (!(op.CleanDelete? && op.applied) && !op.RemovePut? ==> s'.sets == s.sets)
      && (op.DropFinalizer? ==> s'.envs == s.envs - {s.workers[w].env.uid})
      && (!op.DropFinalizer? ==> s'.envs == s.envs)
      && (!op.NsDelete? ==> s'.namespaces == s.namespaces)
      && (!op.CleanJob? ==> s'.jobs == s.jobs)
  {
    hide Good, Tenants, ListsOf, Listing, RemoveTenant;
    if op.CleanDelete? { DropSetLists(s, s.workers[w].at.x); }
  }

  lemma DeleteClaim(c: Cfg, s: State, w: nat, op: DeleteOp)
    requires Good(c, s) && At(s, w) && DeleteEnabled(c, s, w, op)
    ensures Deleting(s.workers[w].at)
    ensures DeleteStage(c, s, w, op).Some? ==> Deleting(DeleteStage(c, s, w, op).value)
  {
    hide Good, Tenants, Listing, Holder, RemoveTenant;
  }

  /** Deregistration filters the tenant out of the live list it was found in. */
  lemma RemoveShape(c: Cfg, s: State, w: nat, lost: bool)
    requires Good(c, s) && At(s, w) && DeleteEnabled(c, s, w, RemovePut(lost))
    ensures var x, u := s.workers[w].at.copy.name, s.workers[w].env.uid;
      && x in Lists(s) && u in Lists(s)[x]
      && Lists(DeleteStore(c, s, w, RemovePut(lost))) == Lists(s)[x := Without(Lists(s)[x], u)]
      && DeleteStage(c, s, w, RemovePut(lost)) ==
           Unless(lost, if Without(Lists(s)[x], u) == [] then AtCleanGet(x) else AtNsDelGet)
  {
    hide Good, Tenants, Exact, RemoveTenant, Without;
    var e, at := s.workers[w].env, s.workers[w].at;
    WorkerOk(c, s, w);
    StoredSetOk(c, s, at.copy);
    AcceptedSetIsCurrent(c, s, at.copy);
    PutSetLists(s, RemoveTenant(at.copy, e.uid));
  }
}
