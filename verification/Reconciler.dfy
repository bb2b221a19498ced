/** Reconcile of one TenantEnvironment, call by call, and its convergence. */
module Reconciler {
  import opened GoStrings
  import opened Objects
  import opened Registry
  import opened Naming
  import opened ApiServer
  import opened SharedInstances
  import opened Provisioning
  import opened TenantResources

  // ---- what a reconcile aims at ----

  predicate Converged(st: Store, e: TenantEnv) {
    && e.finalizer && (e.db == Provisioning || e.db == Assigned)
    && e.uid in st.namespaces
    && (e.spec.quotas.Some? ==> QuotaMatches(st, e.uid, Desired(e.spec.quotas, e.dedicated)))
    && DeploymentMatches(st, e.uid, e.spec)
  }

  /** The reconciles still needed when nothing fails. */
  function Left(st: Store, name: string): nat
    requires name in st.envs
  {
    var e := st.envs[name];
    if !e.finalizer then if e.createdAt.None? then 3 else 2
    else if Converged(st, e) then 0 else 1
  }

  /** The server will take the tenant's objects. */
  predicate Willing(st: Store, e: TenantEnv) {
    !WouldCrash(st, e) && (e.uid in st.namespaces ==> st.namespaces[e.uid] == Active)
  }

  predicate WouldCrash(st: Store, e: TenantEnv) {
    && e.spec.quotas.Some? && e.uid in st.quotas && st.quotas[e.uid].None?
    && Desired(e.spec.quotas, e.dedicated) != map[]
  }

  /** A tenant that is wanted, in a namespace that is not going away, with no nil quota to fill. */
  ghost predicate Runnable(st: Store, name: string) {
    && Valid(st) && OperatorNames(st) && name in st.envs
    && var e := st.envs[name];
       ValidUid(e.uid) && !e.deleting && Willing(st, e)
  }

  /** No move to Provisioning was stored. */
  predicate NotStarted(e: TenantEnv) {
    e.db == Unset || e.db == Unassigned
  }

  /** What a reconcile never does to the tenant: change its specification, take back a status, or
      set the finalizer before createdAt. */
  predicate Advances(e: TenantEnv, e': TenantEnv) {
    && e' == e.(rv := e'.rv, finalizer := e'.finalizer, createdAt := e'.createdAt, db := e'.db)
    && (e.db == Assigned ==> e'.db == Assigned)
    && (e.db == Provisioning ==> e'.db == Provisioning || e'.db == Assigned)
    && (e.finalizer ==> e'.finalizer)
    && (e.createdAt.Some? ==> e'.createdAt == e.createdAt)
    && (e'.finalizer && !e.finalizer ==> e'.createdAt.Some?)
  }

  /** Only this tenant's object was written, and it advanced. */
  predicate Moved(st: Store, st': Store, name: string) {
    && name in st.envs && name in st'.envs
    && st' == st.(rev := st'.rev, envs := st.envs[name := st'.envs[name]])
    && Advances(st.envs[name], st'.envs[name])
  }

  lemma MovedTwice(st0: Store, st1: Store, st2: Store, name: string)
    requires Moved(st0, st1, name) && Moved(st1, st2, name)
    ensures Moved(st0, st2, name)
  {
  }

  /** Writing an advanced copy of the stored object, as a status or as a whole. */
  lemma WriteMoves(st: Store, next: TenantEnv)
    requires Valid(st) && next.name in st.envs && Advances(st.envs[next.name], next)
    ensures Moved(st, StoredEnv(st, next), next.name) && Valid(StoredEnv(st, next)) && Moved(st, st, next.name)
    ensures StoredEnv(st, next).envs[next.name] == next.(rv := st.rev + 1)
    ensures next.finalizer == st.envs[next.name].finalizer ==>
              WithStatus(st.envs[next.name], next).(rv := 0) == next.(rv := 0)
  {
  }

  // ---- the calls ----

  /** Status().Update; the reply replaces the in-memory copy. */
  method UpdateStatus(api: Api, mem: TenantEnv) returns (ok: bool, reply: TenantEnv)
    requires Calm(api.script) && Valid(api.store)
    requires mem.name in api.store.envs && api.store.envs[mem.name].rv == mem.rv
    requires Advances(api.store.envs[mem.name], mem) && mem.finalizer == api.store.envs[mem.name].finalizer
    modifies api
    ensures Calm(api.script) && Valid(api.store) && Moved(old(api.store), api.store, mem.name)
    ensures api.store == old(api.store) || api.store.envs[mem.name].(rv := 0) == mem.(rv := 0)
    ensures ok ==> api.store != old(api.store) && reply == api.store.envs[mem.name]
    ensures old(api.script) == [] ==> ok && api.script == []
  {
    hide Advances, Moved, Valid;
    var next := WithStatus(api.store.envs[mem.name], mem);
    SameStatus(api.store.envs[mem.name], mem);
    WriteMoves(api.store, mem);
    ok := api.PutEnv(mem, next);
    reply := mem;
    if ok {
      reply := api.store.envs[mem.name];
    }
  }

  lemma SameStatus(e: TenantEnv, mem: TenantEnv)
    requires Advances(e, mem) && e.rv == mem.rv && mem.finalizer == e.finalizer
    ensures WithStatus(e, mem) == mem
  {
  }

  /** First reconciles: createdAt, then the finalizer. The reply of the status update may have
      dropped the finalizer from the in-memory copy, and then the Update changes nothing. */
  method AddFinalizer(api: Api, name: string, env: TenantEnv) returns (ok: bool)
    requires Calm(api.script) && Valid(api.store)
    requires name in api.store.envs && env == api.store.envs[name] && !env.finalizer
    modifies api
    ensures Calm(api.script) && Valid(api.store) && Moved(old(api.store), api.store, name)
    ensures api.store.envs[name].db == env.db
    ensures ok ==> api.store.envs[name].createdAt.Some?
    ensures ok && env.createdAt.Some? ==> api.store.envs[name].finalizer
    ensures old(api.script) == [] ==> ok && api.script == []
  {
    hide Calm;
    var mem := env;
    var keep := true;
    ghost var st0 := api.store;
    WriteMoves(st0, env);
    if mem.createdAt.None? {
      var now: int := *;
      ok, mem := UpdateStatus(api, mem.(createdAt := Some(now)));
      if !ok {
        return;
      }
      keep := *;
    }
    if keep {
      ghost var st1 := api.store;
      WriteMoves(st1, mem.(finalizer := true));
      ok := api.PutEnv(mem, mem.(finalizer := true));
      hide Moved;
      MovedTwice(st0, st1, api.store, name);
    } else {
      ok := api.Look();
    }
  }

  /** The stores agree on everything but revision, this tenant's object, and the database side. */
  predicate SameResources(st: Store, st': Store, name: string) {
    && name in st'.envs && st'.envs == st.envs[name := st'.envs[name]]
    && st'.namespaces == st.namespaces && st'.quotas == st.quotas && st'.deployments == st.deployments
  }

  /** The stores agree on the database side. */
  predicate SameDatabases(st: Store, st': Store) {
    && st'.sets == st.sets && st'.services == st.services && st'.masters == st.masters
    && st'.secrets == st.secrets && st'.jobs == st.jobs && st'.dedicated == st.dedicated && st'.claims == st.claims
  }

  /** Everything that belongs to other tenants is as it was. */
  ghost predicate OthersKept(st: Store, st': Store, name: string, uid: string) {
    && st'.envs - {name} == st.envs - {name}
    && st'.namespaces - {uid} == st.namespaces - {uid}
    && st'.quotas - {uid} == st.quotas - {uid}
    && st'.deployments - {uid} == st.deployments - {uid}
    && st'.secrets - {uid} == st.secrets - {uid}
    && st'.dedicated - {uid} == st.dedicated - {uid}
  }

  /** What a reconcile that is not a deletion may do beside the tenant: make its instance. */
  ghost predicate OnlyServes(st: Store, st': Store, name: string, e: TenantEnv, id: string)
    requires |e.uid| >= 8
  {
    && OthersKept(st, st', name, e.uid) && Enlarges(st, st', e.uid, id) && RightKind(st, st', e.dedicated)
    && st'.claims == st.claims
  }

  lemma ServesNothing(st: Store, st': Store, name: string, e: TenantEnv, id: string)
    requires |e.uid| >= 8 && OthersKept(st, st', name, e.uid) && SameDatabases(st, st')
    ensures OnlyServes(st, st', name, e, id)
  {
    hide Tenants;
  }

  lemma ServesBefore(st0: Store, st1: Store, st2: Store, name: string, e: TenantEnv, id: string)
    requires |e.uid| >= 8 && OthersKept(st0, st1, name, e.uid) && SameDatabases(st0, st1)
    requires OnlyServes(st1, st2, name, e, id)
    ensures OnlyServes(st0, st2, name, e, id)
  {
    hide Tenants;
  }

  lemma ServesCopy(st: Store, st': Store, name: string, e: TenantEnv, e': TenantEnv, id: string)
    requires |e.uid| >= 8 && OnlyServes(st, st', name, e, id) && e'.uid == e.uid && e'.dedicated == e.dedicated
    ensures OnlyServes(st, st', name, e', id)
  {
    hide OthersKept, Enlarges;
  }

  lemma ServesAfter(st0: Store, st1: Store, st2: Store, name: string, e: TenantEnv, id: string)
    requires |e.uid| >= 8 && OnlyServes(st0, st1, name, e, id)
    requires OthersKept(st1, st2, name, e.uid) && SameDatabases(st1, st2)
    ensures OnlyServes(st0, st2, name, e, id)
  {
    hide Tenants;
  }

  lemma ProvisionedBetween(st0: Store, st1: Store, st2: Store, st3: Store, uid: string, x: string)
    requires |uid| >= 8 && |x| >= ID_LENGTH && Provisioned(st1, st2, uid, x)
    requires SameDatabases(st0, st1) && SameDatabases(st2, st3)
    ensures Provisioned(st0, st3, uid, x)
  {
    hide Tenants, Vacant;
  }

  lemma DatabaseBetween(st0: Store, st1: Store, st2: Store, st3: Store, e: TenantEnv)
    requires HasDatabase(st1, st2, e) && SameDatabases(st0, st1) && SameDatabases(st2, st3)
    ensures HasDatabase(st0, st3, e)
  {
    hide Provisioned;
    if !e.dedicated {
      var x :| IsSsName(x) && Provisioned(st1, st2, e.uid, x);
      ProvisionedBetween(st0, st1, st2, st3, e.uid, x);
    }
  }

  lemma ProvisionFrame(st: Store, st': Store, e: TenantEnv, id: string)
    requires |e.uid| >= 8 && OnlyProvisions(st, st', e.uid, id) && OperatorNames(st) && ValidId(id)
    requires RightKind(st, st', e.dedicated)
    ensures st'.envs == st.envs && st'.namespaces == st.namespaces
    ensures st'.quotas == st.quotas && st'.deployments == st.deployments
    ensures OperatorNames(st') && forall name :: OnlyServes(st, st', name, e, id)
  {
    NamesCohere(id);
    hide Tenants, IsSsName;
  }

  lemma MovedFrame(st: Store, st': Store, name: string)
    requires Moved(st, st', name) && OperatorNames(st)
    ensures SameResources(st, st', name) && SameDatabases(st, st') && OperatorNames(st')
    ensures forall uid :: OthersKept(st, st', name, uid)
    ensures Advances(st.envs[name], st'.envs[name])
  {
  }

  lemma SameResourcesTwice(st0: Store, st1: Store, st2: Store, name: string)
    requires SameResources(st0, st1, name) && SameResources(st1, st2, name) && name in st0.envs
    requires Advances(st0.envs[name], st1.envs[name]) && Advances(st1.envs[name], st2.envs[name])
    ensures SameResources(st0, st2, name) && Advances(st0.envs[name], st2.envs[name])
  {
  }

  /** From the persisted move to Provisioning on. */
  method Provision(api: Api, name: string, env: TenantEnv, id: string) returns (ok: bool)
    requires Calm(api.script) && Valid(api.store) && OperatorNames(api.store) && ValidUid(env.uid)
    requires name in api.store.envs && env == api.store.envs[name] && env.db == Provisioning
    requires ValidId(id) && SS_PREFIX + id !in api.store.sets
    modifies api
    ensures Calm(api.script) && Valid(api.store) && OperatorNames(api.store)
    ensures SameResources(old(api.store), api.store, name) && Advances(env, api.store.envs[name])
    ensures api.store.envs[name].(db := Assigned, rv := 0) == env.(db := Assigned, rv := 0)
    ensures ok ==> api.store.envs[name].db == Assigned
    ensures api.store.envs[name].db == Assigned ==> HasDatabase(old(api.store), api.store, env)
    ensures OnlyServes(old(api.store), api.store, name, env, id)
    ensures ok && old(api.script) == [] && SomeVacant(old(api.store)) ==> api.store.sets.Keys == old(api.store).sets.Keys
    ensures old(api.script) == [] && Living(old(api.store), env.uid) ==> ok
    ensures old(api.script) == [] ==> api.script == []
  {
    hide Calm, OperatorNames, OnlyProvisions, HasDatabase, Valid, IsSsName, Moved, SameDatabases, ValidId, SameResources;
    hide OnlyServes, OthersKept, SomeVacant, RightKind;
    ghost var st1 := api.store;
    NameIsKey(st1, name);
    ok := CreatePostgreSQLForTenant(api, env, id);
    ghost var st2 := api.store;
    ProvisionFrame(st1, st2, env, id);
    EnvsSame(st1, st2, name);
    if !ok {
      return;
    }
    var mem;
    ok, mem := UpdateStatus(api, env.(db := Assigned));
    MovedFrame(st2, api.store, name);
    SameResourcesTwice(st1, st2, api.store, name);
    ServesAfter(st1, st2, api.store, name, env, id);
    DatabaseBetween(st1, st1, st2, api.store, env);
  }

  lemma EnvsSame(st: Store, st': Store, name: string)
    requires name in st.envs && st'.envs == st.envs && st'.namespaces == st.namespaces
    requires st'.quotas == st.quotas && st'.deployments == st.deployments
    ensures SameResources(st, st', name) && Advances(st.envs[name], st'.envs[name]) && SameDatabases(st, st)
  {
  }

  /** The database part: a persisted move to Provisioning, the work, a persisted move to Assigned. */
  method ProvisionDatabase(api: Api, name: string, env: TenantEnv, id: string) returns (ok: bool)
    requires Calm(api.script) && Valid(api.store) && OperatorNames(api.store) && ValidUid(env.uid)
    requires name in api.store.envs && env == api.store.envs[name] && NotStarted(env)
    requires ValidId(id) && SS_PREFIX + id !in api.store.sets
    modifies api
    ensures Calm(api.script) && Valid(api.store) && OperatorNames(api.store)
    ensures SameResources(old(api.store), api.store, name) && Advances(env, api.store.envs[name])
    ensures api.store.envs[name].(db := Assigned, rv := 0) == env.(db := Assigned, rv := 0)
    ensures SameDatabases(old(api.store), api.store) || !NotStarted(api.store.envs[name])
    ensures ok ==> api.store.envs[name].db == Assigned
    ensures api.store.envs[name].db == Assigned ==> HasDatabase(old(api.store), api.store, env)
    ensures OnlyServes(old(api.store), api.store, name, env, id)
    ensures ok && old(api.script) == [] && SomeVacant(old(api.store)) ==> api.store.sets.Keys == old(api.store).sets.Keys
    ensures old(api.script) == [] && Living(old(api.store), env.uid) ==> ok
    ensures old(api.script) == [] ==> api.script == []
  {
    hide Calm, OperatorNames, HasDatabase, Valid, Moved, ValidId, Vacant, OnlyServes, OthersKept;
    ghost var st0 := api.store;
    NameIsKey(st0, name);
    var mem;
    ok, mem := UpdateStatus(api, env.(db := Provisioning));
    ghost var st1 := api.store;
    MovedFrame(st0, st1, name);
    ServesNothing(st0, st1, name, env, id);
    if !ok {
      return;
    }
    ok := Provision(api, name, mem, id);
    ServesCopy(st1, api.store, name, mem, env, id);
    ServesBefore(st0, st1, api.store, name, env, id);
    SameResourcesTwice(st0, st1, api.store, name);
    if api.store.envs[name].db == Assigned {
      EnvsSame(api.store, api.store, name);
      DatabaseBetween(st0, st1, api.store, api.store, mem);
      DatabaseOfCopy(st0, api.store, mem, env);
    }
  }

  lemma DatabaseOfCopy(st: Store, st': Store, e: TenantEnv, e': TenantEnv)
    requires HasDatabase(st, st', e) && e'.uid == e.uid && e'.dedicated == e.dedicated
    ensures HasDatabase(st, st', e')
  {
  }

  lemma NameIsKey(st: Store, name: string)
    requires Valid(st) && name in st.envs
    ensures st.envs[name].name == name
  {
  }

  // ---- the main branch ----

  ghost predicate QuotaReady(st: Store, e: TenantEnv) {
    e.spec.quotas.Some? ==> QuotaMatches(st, e.uid, Desired(e.spec.quotas, e.dedicated))
  }

  /** The quota, if the specification has one. */
  method EnsureQuota(api: Api, env: TenantEnv) returns (ok: bool, crashed: bool)
    requires Calm(api.script)
    modifies api
    ensures Calm(api.script)
    ensures old(api.store).rev <= api.store.rev
    ensures api.store == old(api.store).(rev := api.store.rev, quotas := api.store.quotas)
    ensures ok ==> QuotaReady(api.store, env)
    ensures QuotaReady(old(api.store), env) ==> api.store == old(api.store)
    ensures forall name :: OthersKept(old(api.store), api.store, name, env.uid)
    ensures old(api.script) == [] ==> api.script == []
    ensures old(api.script) == [] && Living(old(api.store), env.uid) && !WouldCrash(old(api.store), env) ==> ok && !crashed
  {
    hide Calm, Desired, QuotaMatches;
    ok, crashed := true, false;
    if env.spec.quotas.Some? {
      ok, crashed := CreateResourceQuotaForTenant(api, env.uid, Desired(env.spec.quotas, env.dedicated));
    }
  }

  ghost predicate NamespaceReady(st: Store, e: TenantEnv) {
    e.uid in st.namespaces && QuotaReady(st, e)
  }

  /** Namespace and quota. */
  method EnsureNamespace(api: Api, env: TenantEnv) returns (ok: bool, crashed: bool)
    requires Calm(api.script)
    modifies api
    ensures Calm(api.script) && old(api.store).rev <= api.store.rev
    ensures api.store ==
              old(api.store).(rev := api.store.rev, namespaces := api.store.namespaces, quotas := api.store.quotas)
    ensures ok ==> NamespaceReady(api.store, env)
    ensures NamespaceReady(old(api.store), env) ==> api.store == old(api.store)
    ensures forall name :: OthersKept(old(api.store), api.store, name, env.uid)
    ensures old(api.script) == [] ==> api.script == []
    ensures old(api.script) == [] && Willing(old(api.store), env) ==> ok && !crashed && Living(api.store, env.uid)
  {
    hide Calm, QuotaReady, OthersKept;
    ghost var st := api.store;
    crashed := false;
    ok := CreateNamespaceForTenant(api, env.uid);
    NamespaceKept(st, api.store, api.store, env.uid);
    if ok {
      ghost var st1 := api.store;
      ok, crashed := EnsureQuota(api, env);
      NamespaceKept(st, st1, api.store, env.uid);
    }
  }

  lemma NamespaceKept(st0: Store, st1: Store, st2: Store, uid: string)
    requires st1 == st0.(rev := st1.rev, namespaces := st1.namespaces)
    requires st1 == st0 || st1.namespaces == st0.namespaces[uid := Active]
    ensures (forall name :: OthersKept(st1, st2, name, uid)) ==> forall name :: OthersKept(st0, st2, name, uid)
    ensures forall name :: OthersKept(st0, st1, name, uid)
  {
    assert st1.namespaces - {uid} == st0.namespaces - {uid};
    forall name | OthersKept(st1, st2, name, uid) ensures OthersKept(st0, st2, name, uid) {
    }
  }

  lemma NamespaceFrame(st: Store, st': Store)
    requires st' == st.(rev := st'.rev, namespaces := st'.namespaces, quotas := st'.quotas) && st.rev <= st'.rev
    ensures SameDatabases(st, st') && (Valid(st) ==> Valid(st'))
  {
  }

  /** The database, unless its provisioning was started before. */
  method EnsureDatabase(api: Api, name: string, env: TenantEnv, id: string) returns (ok: bool)
    requires Calm(api.script) && Valid(api.store) && OperatorNames(api.store) && ValidUid(env.uid)
    requires name in api.store.envs && env == api.store.envs[name]
    requires ValidId(id) && (NotStarted(env) ==> SS_PREFIX + id !in api.store.sets)
    modifies api
    ensures Calm(api.script) && Valid(api.store) && OperatorNames(api.store)
    ensures SameResources(old(api.store), api.store, name) && Advances(env, api.store.envs[name])
    ensures ok ==> api.store.envs[name].db == Provisioning || api.store.envs[name].db == Assigned
    ensures ok && NotStarted(env) ==> api.store.envs[name].db == Assigned
    ensures NotStarted(env) && api.store.envs[name].db == Assigned ==> HasDatabase(old(api.store), api.store, env)
    ensures !NotStarted(env) ==> ok && api.store == old(api.store) && api.script == old(api.script)
    ensures OnlyServes(old(api.store), api.store, name, env, id)
    ensures ok && old(api.script) == [] && SomeVacant(old(api.store)) ==> api.store.sets.Keys == old(api.store).sets.Keys
    ensures old(api.script) == [] && Living(old(api.store), env.uid) ==> ok
    ensures old(api.script) == [] ==> api.script == []
  {
    hide Calm, OperatorNames, HasDatabase, Valid, ValidId, OnlyServes, SameDatabases;
    ok := true;
    SelfAdvances(env);
    ghost var st := api.store;
    SameSelf(st);
    ServesNothing(st, st, name, env, id);
    if env.db == Unset || env.db == Unassigned {
      ok := ProvisionDatabase(api, name, env, id);
    }
  }

  /** The main branch. A run of it that reports success has brought everything in line, whatever
      failed before; on a tenant already in line it writes nothing. */
  method ReconcileMain(api: Api, name: string, env: TenantEnv, id: string) returns (ok: bool, crashed: bool)
    requires Calm(api.script) && Valid(api.store) && OperatorNames(api.store) && ValidUid(env.uid)
    requires name in api.store.envs && env == api.store.envs[name] && env.finalizer
    requires ValidId(id) && (NotStarted(env) ==> SS_PREFIX + id !in api.store.sets)
    modifies api
    ensures Calm(api.script) && Valid(api.store) && OperatorNames(api.store)
    ensures name in api.store.envs && api.store.envs == old(api.store).envs[name := api.store.envs[name]]
    ensures Advances(env, api.store.envs[name])
    ensures ok ==> Converged(api.store, api.store.envs[name])
    ensures ok && (env.db == Unset || env.db == Unassigned) ==> api.store.envs[name].db == Assigned
    ensures NotStarted(env) && api.store.envs[name].db == Assigned ==> HasDatabase(old(api.store), api.store, env)
    ensures Converged(old(api.store), env) ==> api.store == old(api.store)
    ensures !(env.db == Unset || env.db == Unassigned) ==>
              SameDatabases(old(api.store), api.store) && api.store.envs == old(api.store).envs
    ensures OnlyServes(old(api.store), api.store, name, env, id)
    ensures ok && old(api.script) == [] && SomeVacant(old(api.store)) ==> api.store.sets.Keys == old(api.store).sets.Keys
    ensures old(api.script) == [] ==> api.script == []
    ensures old(api.script) == [] && Willing(old(api.store), env) ==> ok && !crashed && Living(api.store, env.uid)
  {
    hide Calm, OperatorNames, HasDatabase, Valid, ValidId, Willing, SameDatabases, OnlyServes, OthersKept, Vacant;
    hide NamespaceReady, DeploymentMatches, Converged, Advances;
    ghost var st0 := api.store;
    if Converged(st0, env) { ConvergedParts(st0, env); }
    SelfAdvances(env);
    ok, crashed := EnsureNamespace(api, env);
    ghost var st1 := api.store;
    NamespaceFrame(st0, st1);
    DatabasesFrame(st0, st1);
    ServesNothing(st0, st1, name, env, id);
    if !ok {
      return;
    }
    ok := EnsureDatabase(api, name, env, id);
    ghost var st2 := api.store;
    ServesBefore(st0, st1, st2, name, env, id);
    if NotStarted(env) && st2.envs[name].db == Assigned {
      SameSelf(st2);
      DatabaseBetween(st0, st1, st2, st2, env);
    }
    if !ok {
      return;
    }
    ok := CreateTenantServiceDeployment(api, env.uid, env.spec);
    DeploymentFrame(st2, api.store, env.uid);
    ServesAfter(st0, st2, api.store, name, env, id);
    if NotStarted(env) {
      DatabaseBetween(st0, st1, st2, api.store, env);
    } else {
      SameTwice(st0, st2, api.store);
    }
    if ok {
      NowConverged(st1, api.store, env, api.store.envs[name]);
    }
  }

  lemma ConvergedParts(st: Store, e: TenantEnv)
    requires Converged(st, e)
    ensures NamespaceReady(st, e) && DeploymentMatches(st, e.uid, e.spec) && !NotStarted(e)
  {
    hide Desired, SameValues;
  }

  lemma NowConverged(st: Store, st': Store, e: TenantEnv, e': TenantEnv)
    requires NamespaceReady(st, e) && Advances(e, e') && st'.namespaces == st.namespaces && st'.quotas == st.quotas
    requires DeploymentMatches(st', e.uid, e.spec) && e.finalizer && (e'.db == Provisioning || e'.db == Assigned)
    ensures Converged(st', e')
  {
    ReadyKept(st, st', e, e');
    hide Desired, SameValues;
  }

  lemma ReadyKept(st: Store, st': Store, e: TenantEnv, e': TenantEnv)
    requires NamespaceReady(st, e) && Advances(e, e') && st'.namespaces == st.namespaces && st'.quotas == st.quotas
    ensures NamespaceReady(st', e')
  {
    hide Desired, SameValues;
  }

  lemma DatabasesFrame(st: Store, st': Store)
    requires SameDatabases(st, st')
    ensures OperatorNames(st) ==> OperatorNames(st')
    ensures st'.sets == st.sets
  {
  }

  lemma DeploymentFrame(st: Store, st': Store, uid: string)
    requires st' == st.(rev := st'.rev, deployments := st'.deployments) && st.rev <= st'.rev
    requires st' == st || (uid in st'.deployments && st'.deployments == st.deployments[uid := st'.deployments[uid]])
    ensures SameDatabases(st, st') && (OperatorNames(st) ==> OperatorNames(st')) && (Valid(st) ==> Valid(st'))
    ensures forall name :: OthersKept(st, st', name, uid)
  {
  }

  // ---- the deletion branch ----

  /** DeletePostgreSQLForTenant: a dedicated instance goes with its namespace. Whatever fails, only
      the instance that listed the tenant is touched, and no other tenant loses its place. Success
      takes the tenant off its instance; an instance left empty vanishes when no call failed, another
      one has its removal job. */
  method DeletePostgreSQLForTenant(api: Api, env: TenantEnv) returns (ok: bool)
    requires Calm(api.script) && Valid(api.store) && OperatorNames(api.store) && ValidUid(env.uid)
    modifies api
    ensures Calm(api.script)
    ensures OnlyInstances(old(api.store), api.store) && OthersUntouched(old(api.store), api.store, env.uid)
    ensures env.dedicated ==> api.store == old(api.store)
    ensures OnceListed(old(api.store), env.uid) ==> OthersListed(old(api.store), api.store, env.uid)
    ensures ok && !env.dedicated && OnceListed(old(api.store), env.uid) ==>
              NotListed(api.store, env.uid) && TakenOff(old(api.store), api.store, env.uid, old(api.script) == [])
    ensures old(api.script) == [] ==> ok && api.script == []
  {
    hide OnceListed, NotListed, Removed, RemovalDone, Valid, IsSsName, OthersUntouched, OthersListed, TakenOff;
    ghost var st := api.store;
    SelfUntouched(st, env.uid);
    if env.dedicated {
      return true;
    }
    ok := RemoveTenantFromSharedInstance(api, env.uid);
    if api.store != st {
      RemovedKeeps(st, api.store, env.uid);
    }
    if ok && OnceListed(st, env.uid) {
      RemovalTells(st, api.store, env.uid, old(api.script));
    }
  }

  lemma RemovedKeeps(st: Store, st': Store, uid: string)
    requires Valid(st) && ValidUid(uid) && exists x | IsSsName(x) :: Removed(st, st', uid, x)
    ensures OnlyInstances(st, st') && OthersUntouched(st, st', uid)
    ensures OnceListed(st, uid) ==> OthersListed(st, st', uid)
  {
    hide Removed, Valid, OnceListed, OthersListed, OthersUntouched, OnlyInstances;
    var x :| IsSsName(x) && Removed(st, st', uid, x);
    RemovedTouchesOnly(st, st', uid, x);
    if OnceListed(st, uid) { RemovedKeepsListed(st, st', uid, x); }
  }

  /** Nothing beside the tenant was touched, except for the instance that listed it, on which
      everybody else keeps their place. */
  ghost predicate NothingElse(st: Store, st': Store, name: string, uid: string) {
    && OthersKept(st, st', name, uid) && OthersUntouched(st, st', uid)
    && (OnceListed(st, uid) ==> OthersListed(st, st', uid))
  }

  lemma RemovalElse(st: Store, st': Store, name: string, uid: string)
    requires OnlyInstances(st, st') && OthersUntouched(st, st', uid)
    requires OnceListed(st, uid) ==> OthersListed(st, st', uid)
    ensures NothingElse(st, st', name, uid)
  {
    hide OthersUntouched, OnceListed, OthersListed;
  }

  /** Later writes outside the database side change nothing about a removal. */
  lemma RemovalKept(st: Store, st1: Store, st2: Store, uid: string)
    requires SameDatabases(st1, st2) && |uid| >= 8
    ensures OthersUntouched(st, st1, uid) ==> OthersUntouched(st, st2, uid)
    ensures OthersListed(st, st1, uid) ==> OthersListed(st, st2, uid)
    ensures forall fine :: TakenOff(st, st1, uid, fine) ==> TakenOff(st, st2, uid, fine)
    ensures NotListed(st1, uid) ==> NotListed(st2, uid)
  {
    hide Tenants, OwnClaim, IsSsName;
  }

  /** One of the writes of the deletion branch after the removal. */
  predicate DeletionWrite(st: Store, st': Store, name: string, uid: string) {
    && st' == st.(rev := st'.rev, envs := st'.envs, quotas := st'.quotas, namespaces := st'.namespaces)
    && (st'.envs == st.envs || st'.envs == st.envs - {name})
    && (st'.quotas == st.quotas || st'.quotas == st.quotas - {uid})
    && (st'.namespaces == st.namespaces || st'.namespaces == st.namespaces[uid := Terminating])
  }

  lemma DeletionElse(st: Store, st1: Store, st2: Store, name: string, uid: string)
    requires NothingElse(st, st1, name, uid) && DeletionWrite(st1, st2, name, uid) && |uid| >= 8
    ensures NothingElse(st, st2, name, uid)
    ensures forall fine :: TakenOff(st, st1, uid, fine) ==> TakenOff(st, st2, uid, fine)
    ensures NotListed(st1, uid) ==> NotListed(st2, uid)
  {
    RemovalKept(st, st1, st2, uid);
    hide OthersUntouched, OnceListed, OthersListed, TakenOff, NotListed;
  }

  /** The tenant is listed nowhere and was taken off its instance; its quota is gone, its namespace
      gone or going. */
  ghost predicate Departed(st: Store, st': Store, e: TenantEnv, fine: bool) {
    && (e.uid in st'.namespaces ==> st'.namespaces[e.uid] == Terminating)
    && (e.spec.quotas.Some? ==> e.uid !in st'.quotas)
    && (!e.dedicated && OnceListed(st, e.uid) ==>
          NotListed(st', e.uid) && |e.uid| >= 8 && TakenOff(st, st', e.uid, fine))
  }

  /** Between the removal from the instance and the removal of the finalizer. */
  method DeleteQuotaAndNamespace(api: Api, env: TenantEnv) returns (ok: bool)
    requires Calm(api.script)
    modifies api
    ensures Calm(api.script)
    ensures forall name :: DeletionWrite(old(api.store), api.store, name, env.uid)
    ensures api.store.envs == old(api.store).envs
    ensures ok ==> (env.uid in api.store.namespaces ==> api.store.namespaces[env.uid] == Terminating)
    ensures ok && env.spec.quotas.Some? ==> env.uid !in api.store.quotas
    ensures old(api.script) == [] ==> ok && api.script == []
  {
    if env.spec.quotas.Some? {
      ok := DeleteResourceQuotaForTenant(api, env.uid);
      if !ok {
        return;
      }
    }
    ok := DeleteNamespaceForTenant(api, env.uid);
  }

  /** The deletion branch. Whatever fails, the object disappears only after everything else has
      succeeded: its tenant is then in no list, taken off its instance as described above, and its
      quota and its namespace are gone or going. Nothing of other tenants or instances is touched. */
  method ReconcileDeletion(api: Api, name: string, env: TenantEnv) returns (ok: bool)
    requires Calm(api.script) && Valid(api.store) && OperatorNames(api.store) && ValidUid(env.uid)
    requires name in api.store.envs && env == api.store.envs[name] && env.deleting && env.finalizer
    modifies api
    ensures Calm(api.script)
    ensures ok ==> name !in api.store.envs
    ensures api.store.envs == old(api.store).envs || api.store.envs == old(api.store).envs - {name}
    ensures name !in api.store.envs ==> Departed(old(api.store), api.store, env, old(api.script) == [])
    ensures NothingElse(old(api.store), api.store, name, env.uid)
    ensures old(api.script) == [] ==> ok && api.script == []
  {
    hide OnceListed, Valid, Tenants, OperatorNames, NotListed, OthersUntouched, OthersListed, TakenOff, NothingElse;
    hide Calm;
    ghost var st := api.store;
    ok := DeletePostgreSQLForTenant(api, env);
    RemovalElse(st, api.store, name, env.uid);
    if !ok {
      return;
    }
    ghost var st1 := api.store;
    ok := DeleteQuotaAndNamespace(api, env);
    DeletionElse(st, st1, api.store, name, env.uid);
    if !ok {
      return;
    }
    ghost var st2 := api.store;
    // Update without the finalizer: the last one gone, the server deletes the object
    ok := api.Commit(api.store.(envs := api.store.envs - {name}));
    DeletionElse(st, st2, api.store, name, env.uid);
  }

  // ---- Reconcile ----

  /** What a reconcile without failures does for a tenant that is wanted: it comes closer to being
      converged, and a converged one is left exactly as it is. */
  ghost predicate Served(st: Store, st': Store, name: string) {
    Runnable(st, name) ==>
      && Runnable(st', name)
      && (Left(st, name) == 0 ==> st' == st)
      && (Left(st, name) > 0 ==> Left(st', name) < Left(st, name))
      && (Left(st, name) > 1 ==> SameDatabases(st, st') && st'.envs[name].db == st.envs[name].db)
      && (Left(st, name) == 1 && (st.envs[name].db == Unset || st.envs[name].db == Unassigned) ==>
            st'.envs[name].db == Assigned && HasDatabase(st, st', st.envs[name]))
  }

  /** Assigned is only ever stored for a tenant that has its database. */
  ghost predicate AssignedHasDatabase(st: Store, st': Store, name: string) {
    name in st.envs && name in st'.envs && NotStarted(st.envs[name]) && st'.envs[name].db == Assigned ==>
      HasDatabase(st, st', st.envs[name])
  }

  predicate Wanted(st: Store, name: string) {
    name in st.envs && !st.envs[name].deleting && st.envs[name].finalizer
  }

  predicate Fresh(st: Store, name: string) {
    name in st.envs && !st.envs[name].deleting && !st.envs[name].finalizer
  }

  predicate Dismissed(st: Store, name: string) {
    name in st.envs && st.envs[name].deleting && st.envs[name].finalizer
  }

  /** What is true when the tenant's object has disappeared: it was to be deleted, and it departed. */
  ghost predicate Parted(st: Store, st': Store, name: string, fine: bool) {
    name in st.envs && name !in st'.envs ==> Dismissed(st, name) && Departed(st, st', st.envs[name], fine)
  }

  /** One reconcile. Nothing it does takes a status back; whatever fails, the object of a tenant only
      disappears when nothing of it is left to remove. When nothing fails, a tenant that is wanted is
      served, and one that is to be deleted is gone. */
  method Reconcile(api: Api, name: string, id: string) returns (ok: bool, crashed: bool)
    requires Calm(api.script) && Valid(api.store) && OperatorNames(api.store)
    requires name in api.store.envs ==> ValidUid(api.store.envs[name].uid)
    requires ValidId(id)
    requires name in api.store.envs && NotStarted(api.store.envs[name]) ==> SS_PREFIX + id !in api.store.sets
    modifies api
    ensures Calm(api.script)
    ensures name in old(api.store).envs && name in api.store.envs ==>
              Advances(old(api.store).envs[name], api.store.envs[name])
    ensures name !in old(api.store).envs ==> api.store == old(api.store)
    ensures Parted(old(api.store), api.store, name, old(api.script) == [])
    ensures ok && Dismissed(old(api.store), name) ==> name !in api.store.envs
    ensures ok && Wanted(old(api.store), name) ==> name in api.store.envs && Converged(api.store, api.store.envs[name])
    ensures ok && Wanted(old(api.store), name) && NotStarted(old(api.store).envs[name]) ==>
              api.store.envs[name].db == Assigned
    ensures AssignedHasDatabase(old(api.store), api.store, name)
    ensures Wanted(old(api.store), name) && !NotStarted(old(api.store).envs[name]) ==>
              SameDatabases(old(api.store), api.store) && api.store.envs == old(api.store).envs
    ensures Fresh(old(api.store), name) ==>
              Moved(old(api.store), api.store, name) && api.store.envs[name].db == old(api.store).envs[name].db
    ensures name in old(api.store).envs && old(api.store).envs[name].deleting && !old(api.store).envs[name].finalizer ==>
              api.store == old(api.store)
    ensures ok && old(api.script) == [] && Wanted(old(api.store), name) && SomeVacant(old(api.store)) ==>
              api.store.sets.Keys == old(api.store).sets.Keys
    ensures ok && Fresh(old(api.store), name) ==> name in api.store.envs && api.store.envs[name].createdAt.Some?
    ensures ok && Fresh(old(api.store), name) && old(api.store).envs[name].createdAt.Some? ==>
              api.store.envs[name].finalizer
    ensures name in old(api.store).envs ==>
              var uid := old(api.store).envs[name].uid;
              if Dismissed(old(api.store), name) then NothingElse(old(api.store), api.store, name, uid)
              else OnlyServes(old(api.store), api.store, name, old(api.store).envs[name], id)
    ensures old(api.script) == [] ==> api.script == []
    ensures old(api.script) == [] && (Runnable(old(api.store), name) || Dismissed(old(api.store), name)) ==> ok && !crashed
    ensures old(api.script) == [] ==> Served(old(api.store), api.store, name)
  {
    hide Calm, HasDatabase, Converged, Willing, ValidId, OperatorNames, Valid, ValidUid, OnceListed, NotListed;
    hide OnlyServes, NothingElse, OthersKept, SameDatabases, Departed;
    crashed := false;
    ghost var st := api.store;
    if name in st.envs { NothingDone(st, name, id); }
    ok := api.Look();
    if !ok || name !in api.store.envs {
      return;
    }
    var env := api.store.envs[name];
    if env.deleting {
      if env.finalizer {
        ghost var rest := api.script;
        ok := ReconcileDeletion(api, name, env);
        if name !in api.store.envs { DepartedAnyway(st, api.store, env, rest == []); }
      }
      return;
    }
    if !env.finalizer {
      ok := AddFinalizer(api, name, env);
      MovedFrame(st, api.store, name);
      ServesNothing(st, api.store, name, env, id);
      MovedWilling(st, api.store, name);
      return;
    }
    ok, crashed := ReconcileMain(api, name, env, id);
    if Converged(api.store, api.store.envs[name]) {
      ConvergedWilling(api.store, api.store.envs[name]);
    }
  }

  lemma DepartedAnyway(st: Store, st': Store, e: TenantEnv, fine: bool)
    requires Departed(st, st', e, fine)
    ensures Departed(st, st', e, false)
  {
    hide Vanished, JobLeft, Tenants, OnceListed;
  }

  lemma NothingDone(st: Store, name: string, id: string)
    requires name in st.envs && ValidUid(st.envs[name].uid)
    ensures |st.envs[name].uid| >= 8 && Moved(st, st, name) && SameDatabases(st, st)
    ensures NothingElse(st, st, name, st.envs[name].uid) && OnlyServes(st, st, name, st.envs[name], id)
  {
    SelfUntouched(st, st.envs[name].uid);
    ServesNothing(st, st, name, st.envs[name], id);
    hide OthersUntouched, OthersListed, OnceListed, OnlyServes;
  }

  lemma SelfAdvances(e: TenantEnv)
    ensures Advances(e, e)
  {
  }

  lemma MovedWilling(st: Store, st': Store, name: string)
    requires Moved(st, st', name)
    ensures Willing(st, st.envs[name]) ==> Willing(st', st'.envs[name])
  {
    hide Desired;
  }

  lemma ConvergedWilling(st: Store, e: TenantEnv)
    requires Converged(st, e)
    ensures Living(st, e.uid) ==> Willing(st, e)
  {
    hide Desired;
    if e.spec.quotas.Some? && e.uid in st.quotas && st.quotas[e.uid].None? {
      assert Desired(e.spec.quotas, e.dedicated).Keys == {};
    }
  }

  /** What the work queue does with a fresh tenant when nothing fails: at most three reconciles bring
      it to Assigned; `Served` says that one more writes nothing. */
  method Settle(api: Api, name: string, id: string) returns (n: nat)
    requires api.script == [] && Runnable(api.store, name)
    requires ValidId(id) && (NotStarted(api.store.envs[name]) ==> SS_PREFIX + id !in api.store.sets)
    modifies api
    ensures Runnable(api.store, name) && Converged(api.store, api.store.envs[name])
    ensures n <= Left(old(api.store), name) <= 3
    ensures Advances(old(api.store).envs[name], api.store.envs[name])
    ensures NotStarted(old(api.store).envs[name]) && Left(old(api.store), name) > 0 ==>
              api.store.envs[name].db == Assigned && HasDatabase(old(api.store), api.store, old(api.store).envs[name])
  {
    hide Converged, HasDatabase, Runnable, ValidId, SameDatabases;
    ghost var st := api.store;
    RunnableFacts(st, name);
    SelfAdvances(st.envs[name]);
    SameSelf(st);
    n := 0;
    var left := Left(api.store, name);
    while left > 0
      invariant api.script == [] && Runnable(api.store, name) && name in api.store.envs
      invariant left == Left(api.store, name) && n + left <= Left(st, name)
      invariant Advances(st.envs[name], api.store.envs[name])
      invariant left > 0 ==> SameDatabases(st, api.store) && api.store.envs[name].db == st.envs[name].db
      invariant left == 0 && Left(st, name) > 0 && NotStarted(st.envs[name]) ==>
                  api.store.envs[name].db == Assigned && HasDatabase(st, api.store, st.envs[name])
      decreases left
    {
      ghost var before := api.store;
      RunnableFacts(before, name);
      SameSets(st, before);
      var ok, crashed := Reconcile(api, name, id);
      RunnableFacts(api.store, name);
      if left == 1 && NotStarted(st.envs[name]) {
        DatabaseFromStart(st, before, api.store, st.envs[name], before.envs[name]);
      }
      if left > 1 { SameTwice(st, before, api.store); }
      left := Left(api.store, name);
      n := n + 1;
    }
  }

  lemma RunnableFacts(st: Store, name: string)
    requires Runnable(st, name)
    ensures Valid(st) && OperatorNames(st) && name in st.envs && ValidUid(st.envs[name].uid)
    ensures Left(st, name) == 0 ==> Converged(st, st.envs[name])
  {
  }

  lemma SameSelf(st: Store)
    ensures SameDatabases(st, st)
  {
  }

  lemma SameTwice(st0: Store, st1: Store, st2: Store)
    requires SameDatabases(st0, st1) && SameDatabases(st1, st2)
    ensures SameDatabases(st0, st2)
  {
  }

  lemma SameSets(st: Store, st': Store)
    requires SameDatabases(st, st')
    ensures st'.sets == st.sets
  {
  }

  lemma DatabaseFromStart(st0: Store, st1: Store, st2: Store, e: TenantEnv, e1: TenantEnv)
    requires SameDatabases(st0, st1) && HasDatabase(st1, st2, e1) && Advances(e, e1)
    ensures HasDatabase(st0, st2, e)
  {
    hide Provisioned;
    DatabaseBetween(st0, st1, st2, st2, e1);
  }
}
