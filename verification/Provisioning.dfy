/** CreatePostgreSQLForTenant, call by call: find a shared instance with room or make a new one,
    the tenant's secret and init job, and the registration. */
module Provisioning {
  import opened GoStrings
  import opened Objects
  import opened Registry
  import opened Naming
  import opened ApiServer
  import opened SharedInstances

  /** findAvailableSharedInstance: a failed List is the same to the caller as a full house. */
  method FindAvailableSharedInstance(api: Api) returns (found: Option<string>)
    requires Calm(api.script) && Valid(api.store)
    modifies api
    ensures Calm(api.script) && api.store == old(api.store)
    ensures found.Some? ==> found.value in api.store.sets && Vacant(api.store.sets[found.value])
    ensures found.None? && old(api.script) == [] ==> forall x | x in api.store.sets :: !Vacant(api.store.sets[x])
    ensures old(api.script) == [] ==> api.script == []
  {
    hide Vacant, FirstFit;
    var listed := api.Look();
    if !listed {
      return None;
    }
    var items := ItemsOf(api.store.sets);
    found := FindAvailable(items);
  }

  /** DB_HOST is the cluster address of the service of instance x. */
  predicate AddressOf(host: string, x: string) {
    Split(host, '.') == [x, "shared-services", "svc", "cluster", "local"]
  }

  predicate SecretMade(st: Store, st': Store, uid: string, service: string) {
    && uid !in st.secrets
    && st' == st.(rev := st'.rev, secrets := st.secrets[uid := Host(service, SHARED_NS)])
  }

  /** createTenantPostgreSQLSecret: the host of a secret that is already there wins. */
  method CreateTenantSecret(api: Api, uid: string, service: string) returns (ok: bool, host: string)
    requires Calm(api.script)
    modifies api
    ensures Calm(api.script) && old(api.store).rev <= api.store.rev
    ensures api.store == old(api.store) || SecretMade(old(api.store), api.store, uid, service)
    ensures ok ==> uid in api.store.secrets && host == api.store.secrets[uid]
    ensures ok && uid !in old(api.store).secrets && IsSsName(service) ==> AddressOf(host, service)
    ensures old(api.script) == [] && Living(api.store, uid) ==> ok
    ensures uid in api.store.secrets && uid !in old(api.store).secrets ==>
              uid in old(api.store).namespaces && old(api.store).namespaces[uid] == Active
    ensures old(api.script) == [] ==> api.script == []
  {
    host := "";
    var got := api.Look();
    if !got {
      return false, host;
    }
    if uid in api.store.secrets {
      return true, api.store.secrets[uid];
    }
    if !Living(api.store, uid) {
      return false, host;  // the server creates nothing in a namespace that is absent or going
    }
    host := Host(service, SHARED_NS);
    if IsSsName(service) { HostParts(service); }
    ok := api.Commit(api.store.(secrets := api.store.secrets[uid := host]));
  }

  predicate JobMade(st: Store, st': Store, uid: string, ssName: string, master: string)
    requires |uid| >= 8
  {
    && InitJobName(uid) !in st.jobs
    && st' == st.(rev := st'.rev, jobs := st.jobs[InitJobName(uid) := DbJob(uid, ssName, master)])
  }

  /** createDatabaseInitJob: one job per eight-character UID prefix, labelled with the first
      component of the host. */
  method CreateDatabaseInitJob(api: Api, uid: string, master: string, host: string) returns (ok: bool)
    requires Calm(api.script) && |uid| >= 8
    modifies api
    ensures Calm(api.script) && old(api.store).rev <= api.store.rev
    ensures api.store == old(api.store) || JobMade(old(api.store), api.store, uid, SsFromHost(host), master)
    ensures ok ==> InitJobName(uid) in api.store.jobs
    ensures old(api.script) == [] ==> ok && api.script == []
  {
    var jobName := "db-init-" + uid[..8];
    var got := api.Look();
    if !got {
      return false;
    }
    if jobName in api.store.jobs {
      return true;
    }
    var job := DbJob(uid, Split(host, '.')[0], master);
    ok := api.Commit(api.store.(jobs := api.store.jobs[jobName := job]));
  }

  // ---- the objects of a new instance; each may already be there ----

  /** createPostgreSQLSecret. */
  method CreateMasterSecret(api: Api, id: string) returns (ok: bool, secret: string)
    requires Calm(api.script) && Valid(api.store)
    modifies api
    ensures Calm(api.script) && Valid(api.store) && old(api.store).rev <= api.store.rev
    ensures secret == MasterSecret(id)
    ensures api.store == old(api.store).(rev := api.store.rev, masters := api.store.masters)
    ensures old(api.store).masters <= api.store.masters <= old(api.store).masters + {secret}
    ensures ok ==> secret in api.store.masters
    ensures old(api.script) == [] ==> ok && api.script == []
  {
    secret := "postgresql-master-secret-" + id;
    ok := api.Look();
    if ok && secret !in api.store.masters {
      ok := api.Commit(api.store.(masters := api.store.masters + {secret}));
    }
  }

  /** createPostgreSQLStatefulSet, named by the last six characters of the secret. */
  method CreateStatefulSet(api: Api, secret: string) returns (ok: bool, ss: string)
    requires Calm(api.script) && Valid(api.store) && |secret| >= ID_LENGTH
    modifies api
    ensures Calm(api.script) && Valid(api.store) && old(api.store).rev <= api.store.rev
    ensures ss == SsFromSecret(secret)
    ensures api.store == old(api.store).(rev := api.store.rev, sets := api.store.sets)
    ensures api.store.sets == old(api.store).sets || (ss !in old(api.store).sets &&
              api.store.sets == old(api.store).sets[ss := StatefulSet(ss, api.store.rev, None, None)])
    ensures ok ==> ss in api.store.sets
    ensures old(api.script) == [] ==> ok && api.script == []
  {
    ss := "postgresql-" + secret[|secret| - 6..];
    ok := api.Look();
    if ok && ss !in api.store.sets {
      var made := StatefulSet(ss, api.store.rev + 1, None, None);
      ok := api.Commit(api.store.(sets := api.store.sets[ss := made]));
    }
  }

  /** createPostgreSQLService, named by the last six characters of the StatefulSet. */
  method CreateService(api: Api, ss: string) returns (ok: bool, service: string)
    requires Calm(api.script) && Valid(api.store) && |ss| >= ID_LENGTH
    modifies api
    ensures Calm(api.script) && Valid(api.store) && old(api.store).rev <= api.store.rev
    ensures service == ServiceFromSs(ss)
    ensures api.store == old(api.store).(rev := api.store.rev, services := api.store.services)
    ensures old(api.store).services <= api.store.services <= old(api.store).services + {service}
    ensures ok ==> service in api.store.services
    ensures old(api.script) == [] ==> ok && api.script == []
  {
    service := "postgresql-" + ss[|ss| - 6..];
    ok := api.Look();
    if ok && service !in api.store.services {
      ok := api.Commit(api.store.(services := api.store.services + {service}));
    }
  }

  // ---- the whole of it ----

  /** Failed or not, provisioning touches this tenant's secret and job, the one instance x and
      nothing else. */
  ghost predicate OnlyProvisions(st: Store, st': Store, uid: string, id: string)
    requires |uid| >= 8
  {
    && st.rev <= st'.rev
    && st' == st.(rev := st'.rev, sets := st'.sets, services := st'.services, masters := st'.masters,
                  secrets := st'.secrets, jobs := st'.jobs, dedicated := st'.dedicated)
    && Enlarges(st, st', uid, id)
  }

  /** Only things of this tenant and of the instance named by the id are added, and nothing is lost. */
  ghost predicate Enlarges(st: Store, st': Store, uid: string, id: string)
    requires |uid| >= 8
  {
    && st.services <= st'.services <= st.services + {SS_PREFIX + id}
    && st.masters <= st'.masters <= st.masters + {MASTER_PREFIX + id}
    && st.dedicated <= st'.dedicated <= st.dedicated + {uid}
    && (forall u | u in st'.secrets && u != uid :: u in st.secrets && st'.secrets[u] == st.secrets[u])
    && (forall u | u in st.secrets :: u in st'.secrets && st'.secrets[u] == st.secrets[u])
    && (forall j | j in st'.jobs && j != InitJobName(uid) :: j in st.jobs && st'.jobs[j] == st.jobs[j])
    && (forall j | j in st.jobs :: j in st'.jobs && st'.jobs[j] == st.jobs[j])
    && st.sets.Keys <= st'.sets.Keys <= st.sets.Keys + {SS_PREFIX + id}
    && (forall x, u | x in st'.sets && u in Tenants(st'.sets[x]) && u != uid :: x in st.sets && u in Tenants(st.sets[x]))
    && (forall x, u | x in st.sets && u in Tenants(st.sets[x]) :: u in Tenants(st'.sets[x]))
  }

  /** The instance as it was, or as it is made. */
  function Base(st: Store, x: string): StatefulSet {
    if x in st.sets then st.sets[x] else StatefulSet(x, 0, None, None)
  }

  /** The tenant has its place in x, and its secret and init job say so. */
  ghost predicate Provisioned(st: Store, st': Store, uid: string, x: string)
    requires |uid| >= 8 && |x| >= ID_LENGTH
  {
    && x in st'.sets
    && (forall y | y in st.sets && y != x :: y in st'.sets && st'.sets[y] == st.sets[y])
    && (forall y | y in st'.sets && y != x :: y in st.sets)
    && st'.sets[x] == AddTenant(Base(st, x), uid).(rv := st'.sets[x].rv)
    && (x in st.sets ==> Vacant(st.sets[x]))
    && (x in st.sets ==>
          Tenants(st'.sets[x]) == Tenants(st.sets[x]) + if uid in Tenants(st.sets[x]) then [] else [uid])
    && (x !in st.sets ==> Tenants(st'.sets[x]) == [uid] && x in st'.services && MasterFromSs(x) in st'.masters)
    && CredentialsMade(st, st', uid, x)
  }

  /** A new, still empty instance with the tenant's credentials. */
  ghost predicate InstanceMade(st: Store, st': Store, uid: string, x: string)
    requires |uid| >= 8 && |x| >= ID_LENGTH
  {
    && x in st'.sets && st'.sets == st.sets[x := StatefulSet(x, st'.sets[x].rv, None, None)]
    && x in st'.services && MasterFromSs(x) in st'.masters
    && CredentialsMade(st, st', uid, x)
  }

  ghost predicate CredentialsMade(st: Store, st': Store, uid: string, x: string)
    requires |uid| >= 8 && |x| >= ID_LENGTH
  {
    && st'.secrets == (if uid in st.secrets then st.secrets else st.secrets[uid := Host(x, SHARED_NS)])
    && st'.jobs == (if InitJobName(uid) in st.jobs then st.jobs
                    else st.jobs[InitJobName(uid) := DbJob(uid, SsFromHost(st'.secrets[uid]), MasterFromSs(x))])
    && (uid !in st.secrets ==> AddressOf(st'.secrets[uid], x))
  }

  /** The secret and the job, on either path, between the choice of x and the registration. */
  method CreateCredentials(api: Api, uid: string, x: string, service: string, master: string) returns (ok: bool)
    requires Calm(api.script) && Valid(api.store) && |uid| >= 8
    requires IsSsName(x) && service == x && master == MasterFromSs(x)
    modifies api
    ensures Calm(api.script) && Valid(api.store)
    ensures old(api.store).rev <= api.store.rev
    ensures api.store == old(api.store).(rev := api.store.rev, secrets := api.store.secrets, jobs := api.store.jobs)
    ensures api.store.secrets == old(api.store).secrets ||
            (uid !in old(api.store).secrets && api.store.secrets == old(api.store).secrets[uid := Host(x, SHARED_NS)])
    ensures JobsKept(old(api.store), api.store, uid)
    ensures ok ==> CredentialsMade(old(api.store), api.store, uid, x)
    ensures old(api.script) == [] && Living(old(api.store), uid) ==> ok
    ensures ok && uid !in old(api.store).secrets ==> Living(old(api.store), uid)
    ensures old(api.script) == [] ==> api.script == []
  {
    hide SsFromHost, Host, Calm, Split;
    var host;
    ok, host := CreateTenantSecret(api, uid, service);
    if !ok {
      return;
    }
    SsNameHost(x);
    ok := CreateDatabaseInitJob(api, uid, master, host);
  }

  /** The only steps on the way to a provisioned tenant before its registration. */
  predicate Prepares(st: Store, st': Store, uid: string, id: string)
    requires |uid| >= 8
  {
    && st.rev <= st'.rev
    && st' == st.(rev := st'.rev, sets := st'.sets, services := st'.services, masters := st'.masters,
                  secrets := st'.secrets, jobs := st'.jobs)
    && (st'.sets == st.sets || EmptySetMade(st.sets, st'.sets, SS_PREFIX + id))
    && st.services <= st'.services <= st.services + {SS_PREFIX + id}
    && st.masters <= st'.masters <= st.masters + {MASTER_PREFIX + id}
    && (st'.secrets == st.secrets ||
        (uid !in st.secrets && uid in st'.secrets && st'.secrets == st.secrets[uid := st'.secrets[uid]]))
    && JobsKept(st, st', uid)
  }

  predicate EmptySetMade(sets: map<string, StatefulSet>, sets': map<string, StatefulSet>, x: string) {
    x !in sets && x in sets' && sets' == sets[x := StatefulSet(x, sets'[x].rv, None, None)]
  }

  predicate JobsKept(st: Store, st': Store, uid: string)
    requires |uid| >= 8
  {
    st'.jobs == st.jobs || (
      && InitJobName(uid) !in st.jobs && InitJobName(uid) in st'.jobs
      && st'.jobs == st.jobs[InitJobName(uid) := st'.jobs[InitJobName(uid)]])
  }

  lemma PreparesOnly(st: Store, st': Store, uid: string, id: string)
    requires |uid| >= 8 && Prepares(st, st', uid, id)
    ensures OnlyProvisions(st, st', uid, id)
  {
    hide Split;
  }

  /** The first three creations, each named after the one before. */
  method CreateInstanceObjects(api: Api, id: string) returns (ok: bool, secret: string, ss: string, service: string)
    requires Calm(api.script) && Valid(api.store)
    requires ValidId(id) && SS_PREFIX + id !in api.store.sets
    modifies api
    ensures Calm(api.script) && Valid(api.store)
    ensures ss == SS_PREFIX + id && secret == MASTER_PREFIX + id && service == SS_PREFIX + id
    ensures old(api.store).rev <= api.store.rev
    ensures api.store == old(api.store).(rev := api.store.rev, sets := api.store.sets,
                                         services := api.store.services, masters := api.store.masters)
    ensures api.store.sets == old(api.store).sets || EmptySetMade(old(api.store).sets, api.store.sets, ss)
    ensures old(api.store).services <= api.store.services <= old(api.store).services + {ss}
    ensures old(api.store).masters <= api.store.masters <= old(api.store).masters + {secret}
    ensures ok ==> ss in api.store.sets && ss in api.store.services && secret in api.store.masters
    ensures old(api.script) == [] ==> ok && api.script == []
  {
    hide Calm, Valid, IsSsName, SsFromSecret, MasterSecret, ServiceFromSs, MasterFromSs, EmptySetMade, ValidId;
    NamesCohere(id);
    SecretLength(id);
    ss, service := SS_PREFIX + id, SS_PREFIX + id;
    ok, secret := CreateMasterSecret(api, id);
    if ok {
      ghost var sets := api.store.sets;
      ok, ss := CreateStatefulSet(api, secret);
      NewSetEmpty(sets, api.store.sets, ss, api.store.rev);
      if ok {
        ok, service := CreateService(api, ss);
      }
    }
  }

  lemma NewSetEmpty(sets: map<string, StatefulSet>, sets': map<string, StatefulSet>, x: string, rv: nat)
    ensures x !in sets && sets' == sets[x := StatefulSet(x, rv, None, None)] ==> EmptySetMade(sets, sets', x)
  {
  }

  /** createPostgreSQLInstance in the shared-services namespace. */
  method CreateSharedInstance(api: Api, uid: string, id: string) returns (ok: bool, ss: string)
    requires Calm(api.script) && Valid(api.store) && |uid| >= 8
    requires ValidId(id) && SS_PREFIX + id !in api.store.sets
    modifies api
    ensures Calm(api.script) && Valid(api.store) && ss == SS_PREFIX + id && IsSsName(ss)
    ensures Prepares(old(api.store), api.store, uid, id)
    ensures ok ==> InstanceMade(old(api.store), api.store, uid, ss)
    ensures old(api.script) == [] && Living(old(api.store), uid) ==> ok
    ensures ok && uid !in old(api.store).secrets ==> Living(old(api.store), uid)
    ensures old(api.script) == [] ==> api.script == []
  {
    hide Calm, Valid, IsSsName, SsFromSecret, MasterSecret, ServiceFromSs, MasterFromSs, InitJobName, Host;
    NamesCohere(id);
    SecretLength(id);
    var secret, service;
    ok, secret, ss, service := CreateInstanceObjects(api, id);
    if ok {
      ok := CreateCredentials(api, uid, ss, service, secret);
    }
  }

  lemma SecretLength(id: string)
    requires ValidId(id)
    ensures |MasterSecret(id)| >= ID_LENGTH && |SS_PREFIX + id| >= ID_LENGTH && MasterSecret(id) == MASTER_PREFIX + id
  {
  }

  predicate AddedOrNot(st: Store, st': Store, uid: string, x: string) {
    x in st.sets && (st' == st || st' == Stored(st, AddTenant(st.sets[x], uid)))
  }

  lemma AddedSets(st: Store, st': Store, uid: string, x: string)
    requires Valid(st) && ValidUid(uid) && AddedOrNot(st, st', uid, x)
    ensures st' == st.(rev := st'.rev, sets := st'.sets) && st.rev <= st'.rev
    ensures x in st'.sets && st'.sets.Keys == st.sets.Keys && forall y | y in st.sets && y != x :: st'.sets[y] == st.sets[y]
    ensures Tenants(st'.sets[x]) == Tenants(st.sets[x]) || Tenants(st'.sets[x]) == Tenants(st.sets[x]) + [uid]
    ensures uid in Tenants(st'.sets[x]) ==>
              && Tenants(st'.sets[x]) == Tenants(st.sets[x]) + (if uid in Tenants(st.sets[x]) then [] else [uid])
              && st'.sets[x] == AddTenant(st.sets[x], uid).(rv := st'.sets[x].rv)
  {
    hide Tenants, AddTenant, ValidUid;
    ListedUnchanged(st.sets[x], uid);
    assert st.sets[x].name == x;
    AddedObject(st.sets[x], uid, st.rev + 1);
  }

  lemma ListedUnchanged(ss: StatefulSet, uid: string)
    ensures uid in Tenants(ss) ==> AddTenant(ss, uid) == ss
  {
    hide Tenants;
  }

  lemma AddedObject(ss: StatefulSet, uid: string, rv: nat)
    requires ValidUid(uid)
    ensures Tenants(AddTenant(ss, uid).(rv := rv)) == Tenants(ss) + if uid in Tenants(ss) then [] else [uid]
  {
    hide Tenants, AddTenant;
    AddTenantLists(ss, uid);
    VersionIgnored(AddTenant(ss, uid), rv);
  }

  /** Preparation followed by registration. */
  lemma RegisteredOnly(st0: Store, st1: Store, st2: Store, uid: string, id: string, x: string)
    requires ValidUid(uid) && Prepares(st0, st1, uid, id) && Valid(st1) && AddedOrNot(st1, st2, uid, x)
    ensures OnlyProvisions(st0, st2, uid, id)
  {
    hide Tenants, Prepares, AddedOrNot, Valid;
    AddedSets(st1, st2, uid, x);
    PreparesOnly(st0, st1, uid, id);
  }

  lemma RegisteredProvisions(st0: Store, st1: Store, st2: Store, uid: string, x: string)
    requires ValidUid(uid) && IsSsName(x) && Valid(st1) && AddedOrNot(st1, st2, uid, x) && uid in Tenants(st2.sets[x])
    requires (x !in st0.sets && InstanceMade(st0, st1, uid, x)) ||
             (x in st0.sets && Vacant(st0.sets[x]) && st1.sets == st0.sets && CredentialsMade(st0, st1, uid, x))
    ensures Provisioned(st0, st2, uid, x)
  {
    hide AddedOrNot, Valid, LabelCount, CredentialsMade, IsSsName;
    NameLengthOf(x);
    AddedSets(st1, st2, uid, x);
    assert CredentialsMade(st0, st2, uid, x) by { CredentialsKept(st0, st1, st2, uid, x); }
    if x !in st0.sets {
      assert Tenants(st1.sets[x]) == [];
      AddIgnoresVersion(Base(st0, x), uid, st1.sets[x].rv, st2.sets[x].rv);
    }
    hide Tenants, AddTenant;
  }

  lemma AddIgnoresVersion(ss: StatefulSet, uid: string, rv: nat, rv': nat)
    ensures AddTenant(ss.(rv := rv), uid).(rv := rv') == AddTenant(ss, uid).(rv := rv')
  {
    VersionIgnored(ss, rv);
  }

  lemma CredentialsKept(st0: Store, st1: Store, st2: Store, uid: string, x: string)
    requires |uid| >= 8 && |x| >= ID_LENGTH && CredentialsMade(st0, st1, uid, x)
    requires st2 == st1.(rev := st2.rev, sets := st2.sets)
    ensures CredentialsMade(st0, st2, uid, x)
  {
  }

  lemma AddOutcome(st: Store, mid: Store, st': Store, uid: string, x: string)
    requires mid == st && x in st.sets && OnlyAdds(mid, st', uid, x)
    ensures AddedOrNot(st, st', uid, x)
  {
  }

  /** The choice of an instance, and everything up to the registration. */
  method Prepare(api: Api, uid: string, id: string) returns (ok: bool, x: string)
    requires Calm(api.script) && Valid(api.store) && OperatorNames(api.store) && |uid| >= 8
    requires ValidId(id) && SS_PREFIX + id !in api.store.sets
    modifies api
    ensures Calm(api.script) && Valid(api.store) && Prepares(old(api.store), api.store, uid, id)
    ensures ok ==> IsSsName(x) && x in api.store.sets
    ensures ok ==> (x !in old(api.store).sets && InstanceMade(old(api.store), api.store, uid, x)) ||
                   (x in old(api.store).sets && Vacant(old(api.store).sets[x])
                      && api.store.sets == old(api.store).sets && CredentialsMade(old(api.store), api.store, uid, x))
    ensures ok && old(api.script) == [] && x !in old(api.store).sets ==>
              forall y | y in old(api.store).sets :: !Vacant(old(api.store).sets[y])
    ensures old(api.script) == [] && Living(old(api.store), uid) ==> ok
    ensures ok && uid !in old(api.store).secrets ==> Living(old(api.store), uid)
    ensures old(api.script) == [] ==> api.script == []
  {
    hide Calm, Valid, Vacant, InstanceMade, CredentialsMade, Host, SsFromHost, InitJobName;
    var found := FindAvailableSharedInstance(api);
    if found.None? {
      ghost var st := api.store;
      ok, x := CreateSharedInstance(api, uid, id);
      if ok { MadeSets(st, api.store, uid, x); }
    } else {
      x := found.value;
      NameLengthOf(x);
      ok := CreateCredentials(api, uid, x, x, "postgresql-master-secret-" + x[|x| - 6..]);
    }
  }

  lemma MadeSets(st: Store, st': Store, uid: string, x: string)
    requires |uid| >= 8 && |x| >= ID_LENGTH && InstanceMade(st, st', uid, x)
    ensures x in st'.sets
  {
  }

  /** The instance that lists the tenant, or its dedicated one. */
  ghost predicate HasDatabase(st: Store, st': Store, e: TenantEnv) {
    if e.dedicated then e.uid in st'.dedicated
    else |e.uid| >= 8 && exists x | IsSsName(x) :: Provisioned(st, st', e.uid, x)
  }

  ghost predicate SomeVacant(st: Store) {
    exists y | y in st.sets :: Vacant(st.sets[y])
  }

  /** A dedicated instance leaves the shared ones alone, and the other way round. */
  predicate RightKind(st: Store, st': Store, dedicated: bool) {
    if dedicated then
      && st'.sets == st.sets && st'.services == st.services && st'.masters == st.masters
      && st'.secrets == st.secrets && st'.jobs == st.jobs
    else st'.dedicated == st.dedicated
  }

  /** CreatePostgreSQLForTenant. Under any failures it only adds, and only for this tenant; when it
      succeeds, the tenant is listed by an instance that had room or was made for it, full ones
      being the only reason to make one, and its credentials lead to that instance. */
  method CreatePostgreSQLForTenant(api: Api, env: TenantEnv, id: string) returns (ok: bool)
    requires Calm(api.script) && Valid(api.store) && OperatorNames(api.store) && ValidUid(env.uid)
    requires ValidId(id) && SS_PREFIX + id !in api.store.sets
    modifies api
    ensures Calm(api.script) && Valid(api.store)
    ensures OnlyProvisions(old(api.store), api.store, env.uid, id)
    ensures ok ==> HasDatabase(old(api.store), api.store, env)
    ensures RightKind(old(api.store), api.store, env.dedicated)
    ensures env.dedicated && api.store != old(api.store) ==>
              env.uid in old(api.store).namespaces && old(api.store).namespaces[env.uid] == Active
    ensures ok && !env.dedicated && env.uid !in old(api.store).secrets ==> Living(old(api.store), env.uid)
    ensures ok && old(api.script) == [] && SomeVacant(old(api.store)) ==>
              api.store.sets.Keys == old(api.store).sets.Keys
    ensures old(api.script) == [] && Living(old(api.store), env.uid) ==> ok
    ensures old(api.script) == [] ==> api.script == []
  {
    hide Valid, Vacant, InstanceMade, CredentialsMade, OnlyProvisions, Provisioned, Prepares;
    hide AddedOrNot, Tenants, OnlyAdds, IsSsName, DisturbAll;
    ghost var st0 := api.store;
    if env.dedicated {
      if !Living(api.store, env.uid) {
        DedicatedOnly(st0, st0, env.uid, id);
        return false;
      }
      ok := api.Commit(api.store.(dedicated := api.store.dedicated + {env.uid}));
      DedicatedOnly(st0, api.store, env.uid, id);
      return;
    }
    var x;
    ok, x := Prepare(api, env.uid, id);
    ghost var st1 := api.store;
    if !ok {
      PreparesOnly(st0, st1, env.uid, id);
      PreparesShared(st0, st1, env.uid, id);
      return;
    }
    ghost var script1 := api.script;
    var e := AddTenantToSharedInstance(api, env.uid, x);
    CalmUsed(st1, script1, api.script);
    AddOutcome(st1, DisturbAll(st1, Used(script1, api.script)), api.store, env.uid, x);
    SharedOnly(st0, st1, api.store, env.uid, id, x);
    RegisteredOnly(st0, st1, api.store, env.uid, id, x);
    ok := e.NoError?;
    if ok {
      RegisteredProvisions(st0, st1, api.store, env.uid, x);
      AddedSets(st1, api.store, env.uid, x);
    }
  }

  lemma PreparesShared(st: Store, st': Store, uid: string, id: string)
    requires |uid| >= 8 && Prepares(st, st', uid, id)
    ensures st'.dedicated == st.dedicated
  {
    hide EmptySetMade, JobsKept;
  }

  lemma SharedOnly(st0: Store, st1: Store, st2: Store, uid: string, id: string, x: string)
    requires |uid| >= 8 && Prepares(st0, st1, uid, id) && AddedOrNot(st1, st2, uid, x)
    ensures RightKind(st0, st2, false)
  {
    PreparesShared(st0, st1, uid, id);
    hide AddTenant, Prepares;
  }

  lemma DedicatedOnly(st: Store, st': Store, uid: string, id: string)
    requires |uid| >= 8 && Valid(st)
    requires st' == st || st' == st.(rev := st.rev + 1, dedicated := st.dedicated + {uid})
    ensures OnlyProvisions(st, st', uid, id) && Valid(st')
  {
    hide Tenants;
  }

  lemma CalmUsed(st: Store, before: seq<Event>, after: seq<Event>)
    requires Calm(before) && IsRest(before, after)
    ensures DisturbAll(st, Used(before, after)) == st && Calm(after)
    ensures before == [] ==> after == []
  {
    CalmDisturbs(st, Used(before, after));
  }
}
