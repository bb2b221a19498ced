/** The tenant lifecycle and the shared-instance allocator as a step system over a versioned
    API-server store: users, k reconcile workers, pod events, and failures at every API call. */
module Lifecycle {
  import opened GoStrings
  import opened Objects
  import opened Registry
  import opened Naming

  // ---- workers ----

  /** The instance a provisioning run works with: StatefulSet, service and master secret names. */
  datatype Target = Target(ss: string, service: string, master: string)

  /** The next API call of a reconcile of a TenantEnvironment. */
  datatype Stage =
    | AtStamp                                            // Status().Update: createdAt
    | AtPutFinalizer(keep: bool)                         // Update: finalizer still in memory?
    | AtNsGet | AtNsCreate                               // CreateNamespaceForTenant
    | AtToProvisioning                                   // Status().Update: Provisioning
    | AtDedicated                                        // dedicated instance, in the tenant namespace
    | AtFind                                             // findAvailableSharedInstance: List
    | AtNewSetGet(t: Target) | AtNewSetCreate(t: Target) // createPostgreSQLStatefulSet
    | AtSecretGet(t: Target) | AtSecretCreate(t: Target) // createTenantPostgreSQLSecret
    | AtJobGet(t: Target, host: string)                  // createDatabaseInitJob
    | AtJobCreate(t: Target, host: string)
    | AtAddGet(t: Target, attempt: nat)                  // addTenantToSharedInstance
    | AtAddPut(t: Target, attempt: nat, copy: StatefulSet)
    | AtToAssigned                                       // Status().Update: Assigned
    | AtRemoveList | AtRemovePut(copy: StatefulSet)      // removeTenantFromSharedInstance
    | AtCleanGet(x: string) | AtCleanDelete(x: string)   // cleanupSharedPostgreSQLInstance
    | AtCleanList(x: string) | AtCleanJobs(x: string, todo: set<string>)
    | AtNsDelGet | AtNsDelete                            // DeleteNamespaceForTenant
    | AtDropFinalizer                                    // Update: finalizer removed

  datatype Pc =
    | Idle
    | Fetching(name: string)                             // Reconcile: Get
    | PodFetching(name: string, pod: string)             // handlePodEventFromMapping: Get
    | PodMarking(env: TenantEnv)                         // Status().Update: readyAt, phase
    | Main(env: TenantEnv, at: Stage)

  /** The hypotheses of a theorem: how many workers, whether reads may be stale, whether a
      generated id never names a live instance, whether the database kind is left alone once
      provisioning started, and whether UIDs differ in their first eight characters. */
  datatype Cfg = Cfg(workers: nat, stale: bool, freshIds: bool, pinned: bool, distinct: bool)

  /** Live objects, every version ever stored, and the worker states. Namespaces and
      database-secret hosts are keyed by tenant UID. */
  datatype State = State(
    rev: nat,
    envs: map<string, TenantEnv>, envHistory: set<TenantEnv>,
    sets: map<string, StatefulSet>, setHistory: set<StatefulSet>,
    namespaces: map<string, NsPhase>, secrets: map<string, string>, jobs: map<string, DbJob>,
    workers: seq<Pc>)

  function Init(c: Cfg): State {
    State(0, map[], {}, map[], {}, map[], map[], map[], seq(c.workers, _ => Idle))
  }

  // ---- API server ----

  function PutEnv(s: State, e: TenantEnv): State {
    var e' := e.(rv := s.rev + 1);
    s.(rev := s.rev + 1, envs := s.envs[e.uid := e'], envHistory := s.envHistory + {e'})
  }

  function PutSet(s: State, x: StatefulSet): State {
    var x' := x.(rv := s.rev + 1);
    s.(rev := s.rev + 1, sets := s.sets[x.name := x'], setHistory := s.setHistory + {x'})
  }

  /** An Update or status Update is accepted only from the current version. */
  predicate Accepts(s: State, e: TenantEnv) {
    e.uid in s.envs && s.envs[e.uid].rv == e.rv
  }

  predicate AcceptsSet(s: State, x: StatefulSet) {
    x.name in s.sets && s.sets[x.name].rv == x.rv
  }

  /** A List result: each matching object once, in any order; when stale, from any versions. */
  predicate Listing(c: Cfg, s: State, items: seq<StatefulSet>) {
    && (forall i, j :: 0 <= i < j < |items| ==> items[i].name != items[j].name)
    && if c.stale then forall i :: 0 <= i < |items| ==> items[i] in s.setHistory
       else && (forall i :: 0 <= i < |items| ==> items[i].name in s.sets && s.sets[items[i].name] == items[i])
            && (forall x :: x in s.sets ==> s.sets[x] in items)
  }

  // ---- actions ----

  /** Users, the StatefulSet controller, and namespace termination. */
  datatype EnvAction =
    | UserCreate(env: TenantEnv) | UserEdit(uid: string, spec: Spec, dedicated: bool) | UserDelete(uid: string)
    | TouchSet(x: string) | SecretGone(uid: string) | NsGone(uid: string)

  /** Reconcile up to the move to Provisioning, and pod events; `lost` marks a write that took
      effect although the client saw an error. */
  datatype BeginOp =
    | StartMain(name: string) | StartPod(name: string, pod: string) | Abort
    | Fetch(got: Option<TenantEnv>)
    | PodFetch(got: Option<TenantEnv>, ready: bool) | PodMark(now: int)
    | Stamp(now: int, keep: bool, lost: bool) | PutFinalizer
    | NsGet(found: bool) | NsCreate(lost: bool)
    | ToProvisioning(lost: bool)

  /** CreatePostgreSQLForTenant and the move to Assigned. */
  datatype AllocOp =
    | DedicatedDone
    | Find(listed: Option<seq<StatefulSet>>, id: string)
    | NewSetGet(found: bool) | NewSetCreate(lost: bool)
    | SecretGet(host: Option<string>) | SecretCreate(lost: bool)
    | JobGet(found: bool) | JobCreate(lost: bool)
    | AddGet(copy: StatefulSet) | AddPut(lost: bool) | AddConflict
    | ToAssigned

  /** The deletion branch of Reconcile. */
  datatype DeleteOp =
    | RemoveList(items: seq<StatefulSet>) | RemovePut(lost: bool)
    | CleanGet(reply: Option<bool>) | CleanDelete(applied: bool)
    | CleanList(ok: bool) | CleanJob(job: string, applied: bool) | CleanDone
    | NsDelGet(found: bool) | NsDelete(lost: bool)
    | DropFinalizer

  datatype Action =
    | Env(e: EnvAction)
    | Begin(w: nat, begin: BeginOp)
    | Alloc(w: nat, alloc: AllocOp)
    | Delete(w: nat, delete: DeleteOp)

  /** Where a reconcile goes after its Get. */
  function Route(e: TenantEnv): Pc {
    if e.deleting then
      if !e.finalizer then Idle
      else if e.dedicated then Main(e, AtNsDelGet)
      else Main(e, AtRemoveList)
    else if !e.finalizer then
      if e.createdAt.None? then Main(e, AtStamp) else Main(e, AtPutFinalizer(true))
    else Main(e, AtNsGet)
  }

  /** After the namespace exists: provision only when not yet started. */
  function AfterNs(e: TenantEnv): Pc {
    if e.db == Unset || e.db == Unassigned then Main(e, AtToProvisioning) else Idle
  }

  /** The names a new instance gets from its generated id, and those derived on reuse. */
  function NewTarget(id: string): Target
    requires ValidId(id)
  {
    var secret := MasterSecret(id);
    var ss := SsFromSecret(secret);
    Target(ss, ServiceFromSs(ss), secret)
  }

  function ReuseTarget(ss: string): Target {
    Target(ss, ss, if |ss| < ID_LENGTH then "" else MasterFromSs(ss))
  }

  predicate At(s: State, w: nat) {
    w < |s.workers| && s.workers[w].Main?
  }

  /** The request a worker holds; requests are TenantEnvironment names. */
  predicate Serves(pc: Pc, name: string) {
    (pc.Fetching? && pc.name == name) || (pc.Main? && pc.env.name == name)
  }

  function Lookup(m: map<string, string>, k: string): Option<string> {
    if k in m then Some(m[k]) else None
  }

  ghost predicate EnvRead(c: Cfg, s: State, name: string, got: Option<TenantEnv>) {
    match got
    case Some(e) => e.name == name && if c.stale then e in s.envHistory else e.uid in s.envs && s.envs[e.uid] == e
    case None => !c.stale ==> forall u :: u in s.envs ==> s.envs[u].name != name
  }

  function Goto(s: State, w: nat, pc: Pc): State
    requires w < |s.workers|
  {
    s.(workers := s.workers[w := pc])
  }

  /** The object a status Update stores for an in-memory copy; the worker then holds this reply. */
  function Reply(s: State, mem: TenantEnv): TenantEnv
    requires mem.uid in s.envs
  {
    WithStatus(s.envs[mem.uid], mem).(rv := s.rev + 1)
  }

  function PutStatus(s: State, mem: TenantEnv): State
    requires mem.uid in s.envs
  {
    PutEnv(s, WithStatus(s.envs[mem.uid], mem))
  }

  /** No write forgets a stored version, and none moves a worker. */
  predicate Keeps(s: State, s': State) {
    s'.workers == s.workers && s.envHistory <= s'.envHistory && s.setHistory <= s'.setHistory
  }

  // ---- the environment ----

  ghost predicate EnvEnabled(c: Cfg, s: State, a: EnvAction) {
    match a
    case UserCreate(e) =>
      && ValidUid(e.uid) && !e.deleting && !e.finalizer && e.createdAt.None? && e.readyAt.None?
      && e.phase != Ready && (e.db == Unset || e.db == Unassigned)
      && (forall f :: f in s.envHistory ==> f.uid != e.uid)
      && (forall u :: u in s.envs ==> s.envs[u].name != e.name)
      && (c.distinct ==> forall f :: f in s.envHistory && |f.uid| >= 8 ==> f.uid[..8] != e.uid[..8])
    case UserEdit(u, _, dedicated) =>
      u in s.envs &&
      (c.pinned && (s.envs[u].db == Provisioning || s.envs[u].db == Assigned) ==> dedicated == s.envs[u].dedicated)
    case UserDelete(u) => u in s.envs && !s.envs[u].deleting
    case TouchSet(x) => x in s.sets
    case SecretGone(u) => u in s.namespaces && s.namespaces[u] == Terminating
    case NsGone(u) => u in s.namespaces && s.namespaces[u] == Terminating
  }

  function EnvNext(s: State, a: EnvAction): (s': State)
    requires (a.UserEdit? || a.UserDelete?) ==> a.uid in s.envs
    requires a.TouchSet? ==> a.x in s.sets
    ensures Keeps(s, s')
  {
    match a
    case UserCreate(e) => PutEnv(s, e)
    case UserEdit(u, spec, dedicated) => PutEnv(s, s.envs[u].(uid := u, spec := spec, dedicated := dedicated))
    case UserDelete(u) =>
      if s.envs[u].finalizer then PutEnv(s, s.envs[u].(uid := u, deleting := true)) else s.(envs := s.envs - {u})
    case TouchSet(x) => PutSet(s, s.sets[x].(name := x))
    case SecretGone(u) => s.(secrets := s.secrets - {u})
    case NsGone(u) => s.(namespaces := s.namespaces - {u}, secrets := s.secrets - {u})
  }

  // ---- fetch, finalizer, namespace, Provisioning ----

  ghost predicate BeginEnabled(c: Cfg, s: State, w: nat, op: BeginOp)
    requires w < |s.workers|
  {
    var pc := s.workers[w];
    match op
    case StartMain(name) => pc == Idle && forall v :: 0 <= v < |s.workers| ==> !Serves(s.workers[v], name)
    case StartPod(name, pod) => pc == Idle && PodFetching(name, pod) !in s.workers
    case Abort => true
    case Fetch(got) => pc.Fetching? && EnvRead(c, s, pc.name, got)
    case PodFetch(got, _) => pc.PodFetching? && EnvRead(c, s, pc.name, got)
    case PodMark(_) => pc.PodMarking? && Accepts(s, pc.env)
    case Stamp(_, _, _) => pc.Main? && pc.at.AtStamp? && Accepts(s, pc.env)
    case PutFinalizer => pc.Main? && pc.at.AtPutFinalizer? && Accepts(s, pc.env)
    case NsGet(found) => pc.Main? && pc.at.AtNsGet? && (!c.stale ==> found == (pc.env.uid in s.namespaces))
    case NsCreate(_) => pc.Main? && pc.at.AtNsCreate? && pc.env.uid !in s.namespaces
    case ToProvisioning(_) => pc.Main? && pc.at.AtToProvisioning? && Accepts(s, pc.env)
  }

  /** What the operation stores. */
  ghost function BeginStore(c: Cfg, s: State, w: nat, op: BeginOp): (s': State)
    requires w < |s.workers| && BeginEnabled(c, s, w, op)
    ensures Keeps(s, s')
  {
    var pc := s.workers[w];
    match op
    case PodMark(now) => PutStatus(s, pc.env.(readyAt := Some(now), phase := Ready))
    case Stamp(now, _, _) => PutStatus(s, pc.env.(createdAt := Some(now)))
    case PutFinalizer =>
      if pc.at.keep then PutEnv(s, s.envs[pc.env.uid].(uid := pc.env.uid, finalizer := true)) else s
    case NsCreate(_) => s.(namespaces := s.namespaces[pc.env.uid := Active])
    case ToProvisioning(_) => PutStatus(s, pc.env.(db := Provisioning))
    case _ => s
  }

  /** Where the operation takes its worker. */
  ghost function BeginPc(c: Cfg, s: State, w: nat, op: BeginOp): Pc
    requires w < |s.workers| && BeginEnabled(c, s, w, op)
  {
    var pc := s.workers[w];
    match op
    case StartMain(name) => Fetching(name)
    case StartPod(name, pod) => PodFetching(name, pod)
    case Abort => Idle
    case Fetch(got) => if got.None? then Idle else Route(got.value)
    case PodFetch(got, ready) =>
      if got.Some? && ready && got.value.readyAt.None? then PodMarking(got.value) else Idle
    case PodMark(_) => Idle
    case Stamp(now, keep, lost) =>
      if lost then Idle else Main(Reply(s, pc.env.(createdAt := Some(now))), AtPutFinalizer(keep))
    case PutFinalizer => Idle
    case NsGet(found) => if found then AfterNs(pc.env) else Main(pc.env, AtNsCreate)
    case NsCreate(lost) => if lost then Idle else AfterNs(pc.env)
    case ToProvisioning(lost) =>
      var e := Reply(s, pc.env.(db := Provisioning));
      if lost then Idle else Main(e, if e.dedicated then AtDedicated else AtFind)
  }

  // ---- CreatePostgreSQLForTenant ----

  ghost predicate AllocEnabled(c: Cfg, s: State, w: nat, op: AllocOp)
    requires At(s, w)
  {
    var e, at := s.workers[w].env, s.workers[w].at;
    match op
    case DedicatedDone => at.AtDedicated? && e.uid in s.namespaces && s.namespaces[e.uid] == Active
    case Find(listed, id) =>
      && at.AtFind? && (listed.Some? ==> Listing(c, s, listed.value))
      && ValidId(id) && (c.freshIds ==> NewTarget(id).ss !in s.sets)
    case NewSetGet(found) => at.AtNewSetGet? && (!c.stale ==> found == (at.t.ss in s.sets))
    case NewSetCreate(_) => at.AtNewSetCreate? && at.t.ss !in s.sets
    case SecretGet(host) => at.AtSecretGet? && (!c.stale ==> host == Lookup(s.secrets, e.uid))
    case SecretCreate(_) =>
      at.AtSecretCreate? && e.uid !in s.secrets && e.uid in s.namespaces && s.namespaces[e.uid] == Active
    case JobGet(found) => at.AtJobGet? && |e.uid| >= 8 && (!c.stale ==> found == (InitJobName(e.uid) in s.jobs))
    case JobCreate(_) => at.AtJobCreate? && |e.uid| >= 8 && InitJobName(e.uid) !in s.jobs
    case AddGet(copy) =>
      && at.AtAddGet? && copy.name == at.t.ss
      && copy in s.setHistory && (!c.stale ==> copy.name in s.sets && copy == s.sets[copy.name])
      && |Tenants(copy)| < MAX_INT  // the length of a Go slice is an int
    case AddPut(_) => at.AtAddPut? && AcceptsSet(s, at.copy)
    case AddConflict => at.AtAddPut? && at.t.ss in s.sets && !AcceptsSet(s, at.copy)
    case ToAssigned => at.AtToAssigned? && Accepts(s, e)
  }

  ghost function AllocStore(c: Cfg, s: State, w: nat, op: AllocOp): (s': State)
    requires At(s, w) && AllocEnabled(c, s, w, op)
    ensures Keeps(s, s')
  {
    var e, at := s.workers[w].env, s.workers[w].at;
    match op
    case NewSetCreate(_) => PutSet(s, StatefulSet(at.t.ss, 0, None, None))
    case SecretCreate(_) => s.(secrets := s.secrets[e.uid := Host(at.t.service, SHARED_NS)])
    case JobCreate(_) => s.(jobs := s.jobs[InitJobName(e.uid) := DbJob(e.uid, SsFromHost(at.host), at.t.master)])
    case AddPut(_) => PutSet(s, AddTenant(at.copy, e.uid))
    case ToAssigned => PutStatus(s, e.(db := Assigned))
    case _ => s
  }

  /** The stage the operation leads to; None ends the reconcile. */
  ghost function AllocStage(c: Cfg, s: State, w: nat, op: AllocOp): Option<Stage>
    requires At(s, w) && AllocEnabled(c, s, w, op)
  {
    var e, at := s.workers[w].env, s.workers[w].at;
    match op
    case DedicatedDone => Some(AtToAssigned)
    case Find(listed, id) =>
      if listed.None? || FirstFit(listed.value).None? then Some(AtNewSetGet(NewTarget(id)))
      else Some(AtSecretGet(ReuseTarget(FirstFit(listed.value).value)))
    case NewSetGet(found) => Some(if found then AtSecretGet(at.t) else AtNewSetCreate(at.t))
    case NewSetCreate(lost) => Unless(lost, AtSecretGet(at.t))
    case SecretGet(host) => Some(if host.None? then AtSecretCreate(at.t) else AtJobGet(at.t, host.value))
    case SecretCreate(lost) => Unless(lost, AtJobGet(at.t, Host(at.t.service, SHARED_NS)))
    case JobGet(found) => Some(if found then AtAddGet(at.t, 0) else AtJobCreate(at.t, at.host))
    case JobCreate(lost) => Unless(lost, AtAddGet(at.t, 0))
    case AddGet(copy) => Some(if e.uid in Tenants(copy) then AtToAssigned else AtAddPut(at.t, at.attempt, copy))
    case AddPut(lost) => Unless(lost, AtToAssigned)
    case AddConflict => Unless(at.attempt + 1 >= ADD_ATTEMPTS, AtAddGet(at.t, at.attempt + 1))
    case ToAssigned => None
  }

  /** Go on, unless the reply was lost and the reconcile aborts. */
  function Unless(lost: bool, at: Stage): Option<Stage> {
    if lost then None else Some(at)
  }

  function Continue(e: TenantEnv, next: Option<Stage>): Pc {
    if next.None? then Idle else Main(e, next.value)
  }

  // ---- deletion ----

  ghost predicate DeleteEnabled(c: Cfg, s: State, w: nat, op: DeleteOp)
    requires At(s, w)
  {
    var e, at := s.workers[w].env, s.workers[w].at;
    match op
    case RemoveList(items) => at.AtRemoveList? && Listing(c, s, items)
    case RemovePut(_) => at.AtRemovePut? && AcceptsSet(s, at.copy)
    case CleanGet(reply) => at.AtCleanGet? && (!c.stale && reply.Some? ==> reply.value == (at.x in s.sets))
    case CleanDelete(_) => at.AtCleanDelete?
    case CleanList(_) => at.AtCleanList?
    case CleanJob(job, _) => at.AtCleanJobs? && job in at.todo
    case CleanDone => at.AtCleanJobs? && at.todo == {}
    case NsDelGet(found) => at.AtNsDelGet? && (!c.stale ==> found == (e.uid in s.namespaces))
    case NsDelete(_) => at.AtNsDelete?
    case DropFinalizer => at.AtDropFinalizer? && Accepts(s, e)
  }

  ghost function DeleteStore(c: Cfg, s: State, w: nat, op: DeleteOp): (s': State)
    requires At(s, w) && DeleteEnabled(c, s, w, op)
    ensures Keeps(s, s')
  {
    var e, at := s.workers[w].env, s.workers[w].at;
    match op
    case RemovePut(_) => PutSet(s, RemoveTenant(at.copy, e.uid))
    case CleanDelete(applied) => if applied then s.(sets := s.sets - {at.x}) else s
    case CleanJob(job, applied) => if applied then s.(jobs := s.jobs - {job}) else s
    case NsDelete(_) =>
      if e.uid in s.namespaces then s.(namespaces := s.namespaces[e.uid := Terminating]) else s
    case DropFinalizer => s.(envs := s.envs - {e.uid})  // marked for deletion, the last finalizer gone
    case _ => s
  }

  ghost function DeleteStage(c: Cfg, s: State, w: nat, op: DeleteOp): Option<Stage>
    requires At(s, w) && DeleteEnabled(c, s, w, op)
  {
    var e, at := s.workers[w].env, s.workers[w].at;
    match op
    case RemoveList(items) =>
      var h := Holder(items, e.uid);
      Some(if h.None? then AtNsDelGet else AtRemovePut(h.value))
    case RemovePut(lost) =>
      Unless(lost, if Tenants(RemoveTenant(at.copy, e.uid)) == [] then AtCleanGet(at.copy.name) else AtNsDelGet)
    case CleanGet(reply) =>  // an error of the cleanup is ignored
      Some(if reply.None? then AtNsDelGet else if reply.value then AtCleanDelete(at.x) else AtCleanList(at.x))
    case CleanDelete(_) => Some(AtCleanList(at.x))
    case CleanList(ok) => Some(AtCleanJobs(at.x, if ok then set j | j in s.jobs && s.jobs[j].ssName == at.x else {}))
    case CleanJob(job, _) => Some(AtCleanJobs(at.x, at.todo - {job}))
    case CleanDone => Some(AtNsDelGet)
    case NsDelGet(found) => Some(if found then AtNsDelete else AtDropFinalizer)
    case NsDelete(lost) => Unless(lost, AtDropFinalizer)
    case DropFinalizer => None
  }

  // ---- runs ----

  ghost predicate Enabled(c: Cfg, s: State, a: Action) {
    match a
    case Env(e) => EnvEnabled(c, s, e)
    case Begin(w, op) => w < |s.workers| && BeginEnabled(c, s, w, op)
    case Alloc(w, op) => At(s, w) && AllocEnabled(c, s, w, op)
    case Delete(w, op) => At(s, w) && DeleteEnabled(c, s, w, op)
  }

  ghost function Next(c: Cfg, s: State, a: Action): State
    requires Enabled(c, s, a)
  {
    match a
    case Env(e) => EnvNext(s, e)
    case Begin(w, op) => Goto(BeginStore(c, s, w, op), w, BeginPc(c, s, w, op))
    case Alloc(w, op) =>
      Goto(AllocStore(c, s, w, op), w, Continue(s.workers[w].env, AllocStage(c, s, w, op)))
    case Delete(w, op) =>
      Goto(DeleteStore(c, s, w, op), w, Continue(s.workers[w].env, DeleteStage(c, s, w, op)))
  }

  /** A run is the sequence of actions taken from the empty cluster. */
  ghost predicate ValidRun(c: Cfg, acts: seq<Action>)
    decreases |acts|, 0
  {
    acts == [] || (
      && ValidRun(c, acts[..|acts| - 1])
      && Enabled(c, After(c, acts[..|acts| - 1]), acts[|acts| - 1]))
  }

  ghost function After(c: Cfg, acts: seq<Action>): State
    requires ValidRun(c, acts)
    decreases |acts|, 1
  {
    if acts == [] then Init(c) else Next(c, After(c, acts[..|acts| - 1]), acts[|acts| - 1])
  }

  /** Every prefix of a run is a run, and each action is enabled where it is taken. */
  lemma {:induction false} Prefixes(c: Cfg, acts: seq<Action>, i: nat)
    requires ValidRun(c, acts) && i <= |acts|
    ensures ValidRun(c, acts[..i])
    ensures i < |acts| ==>
      && Enabled(c, After(c, acts[..i]), acts[i]) && ValidRun(c, acts[..i + 1])
      && After(c, acts[..i + 1]) == Next(c, After(c, acts[..i]), acts[i])
    decreases |acts| - i
  {
    hide Enabled, Next;
    if i == |acts| {
      assert acts[..i] == acts;
    } else {
      Prefixes(c, acts, i + 1);
      assert acts[..i + 1][..i] == acts[..i];
    }
  }
}
