/** The two views of provisioning are one: a successful CreatePostgreSQLForTenant, call by call,
    is a sequence of provisioning steps of one worker in the step system. */
module Refinement {
  import opened GoStrings
  import opened Objects
  import opened Registry
  import opened Naming
  import opened Lifecycle
  import opened History
  import opened Shapes
  import opened AtMostOne
  import opened Witness
  import opened ApiServer
  import opened SharedInstances
  import opened Provisioning

  /** The same object but for its version; the two views count different writes. */
  predicate SameObject(a: StatefulSet, b: StatefulSet) {
    a.name == b.name && a.tenantList == b.tenantList && a.tenantCount == b.tenantCount
  }

  /** The step system has no removal jobs. */
  function WithoutRemovals(jobs: map<string, DbJob>): map<string, DbJob> {
    map j | j in jobs && !("db-remove-" <= j) :: jobs[j]
  }

  /** The store and the state agree on everything that provisioning and removal read and write. */
  ghost predicate Matches(st: Store, s: State) {
    && s.namespaces == st.namespaces && s.secrets == st.secrets && s.jobs == WithoutRemovals(st.jobs)
    && s.sets.Keys == st.sets.Keys && forall x | x in s.sets :: SameObject(st.sets[x], s.sets[x])
  }

  /** The run goes on with provisioning steps of worker w only. */
  ghost predicate Continues(acts: seq<Action>, more: seq<Action>, w: nat) {
    && |acts| <= |more| && more[..|acts|] == acts
    && forall i | |acts| <= i < |more| :: more[i].Alloc? && more[i].w == w
  }

  lemma Step(c: Cfg, start: seq<Action>, acts: seq<Action>, w: nat, op: AllocOp) returns (more: seq<Action>)
    requires ValidRun(c, acts) && Enabled(c, After(c, acts), Alloc(w, op)) && Continues(start, acts, w)
    ensures ValidRun(c, more) && After(c, more) == Next(c, After(c, acts), Alloc(w, op)) && Continues(start, more, w)
  {
    hide Enabled, Next, After, ValidRun;
    more := Extend(c, acts, Alloc(w, op));
  }

  // ---- the steps ----

  /** A listing of the live sets. */
  lemma {:induction false} SomeItems(sets: map<string, StatefulSet>) returns (items: seq<StatefulSet>)
    requires forall x | x in sets :: sets[x].name == x
    ensures ApiServer.Lists(items, sets)
    decreases |sets|
  {
    if sets == map[] {
      return [];
    }
    var x :| x in sets;
    var rest := sets - {x};
    assert rest.Keys == sets.Keys - {x};
    assert |rest| == |sets| - 1;
    var more := SomeItems(rest);
    items := more + [sets[x]];
    forall y | y in sets ensures sets[y] in items {
      if y != x { assert rest[y] in more; }
    }
  }

  /** A listing that begins with x. */
  lemma ItemsFrom(sets: map<string, StatefulSet>, x: string) returns (items: seq<StatefulSet>)
    requires x in sets && forall y | y in sets :: sets[y].name == y
    ensures ApiServer.Lists(items, sets) && items != [] && items[0] == sets[x]
  {
    var more := SomeItems(sets - {x});
    items := [sets[x]] + more;
    forall y | y in sets ensures sets[y] in items {
      if y != x { assert (sets - {x})[y] in more; }
    }
  }

  lemma LiveListing(c: Cfg, s: State, items: seq<StatefulSet>)
    requires Good(c, s) && ApiServer.Lists(items, s.sets)
    ensures Listing(c, s, items)
  {
    forall i | 0 <= i < |items| ensures items[i] in s.setHistory {
      LiveSetOk(c, s, items[i].name);
    }
    hide Good;
  }

  lemma SetNames(c: Cfg, s: State)
    requires Good(c, s)
    ensures forall x | x in s.sets :: s.sets[x].name == x && s.sets[x] in s.setHistory
  {
    hide EnvsOk, PcsOk;
  }

  lemma FirstFound(items: seq<StatefulSet>)
    requires items != [] && Vacant(items[0])
    ensures FirstFit(items) == Some(items[0].name)
  {
    VacantLabel(items[0]);
  }

  /** The search returns x, some order of the listing allowing. */
  lemma FindsInstance(c: Cfg, start: seq<Action>, acts: seq<Action>, w: nat, uid: string, x: string, id: string)
    returns (more: seq<Action>)
    requires ValidRun(c, acts) && Continues(start, acts, w) && IsAt(After(c, acts), w, uid, AtFind)
    requires x in After(c, acts).sets && Vacant(After(c, acts).sets[x]) && |x| >= ID_LENGTH
    requires ValidId(id) && NewTarget(id).ss !in After(c, acts).sets
    ensures ValidRun(c, more) && Continues(start, more, w)
    ensures After(c, more) == Goto(After(c, acts), w, Main(After(c, acts).envs[uid], AtSecretGet(ReuseTarget(x))))
  {
    hide After, ValidRun, NewTarget, ValidId, LabelCount, Good, Listing, ApiServer.Lists;
    AlwaysGood(c, acts);
    var s := After(c, acts);
    SetNames(c, s);
    var items := ItemsFrom(s.sets, x);
    LiveListing(c, s, items);
    FirstFound(items);
    hide FirstFit, Vacant;
    more := Step(c, start, acts, w, Find(Some(items), id));
  }

  /** No instance has room, or the List failed. */
  lemma FindsNothing(c: Cfg, start: seq<Action>, acts: seq<Action>, w: nat, uid: string, id: string, failed: bool)
    returns (more: seq<Action>)
    requires ValidRun(c, acts) && Continues(start, acts, w) && IsAt(After(c, acts), w, uid, AtFind)
    requires !failed ==> forall y | y in After(c, acts).sets :: !Vacant(After(c, acts).sets[y])
    requires ValidId(id) && NewTarget(id).ss !in After(c, acts).sets
    ensures ValidRun(c, more) && Continues(start, more, w)
    ensures After(c, more) == Goto(After(c, acts), w, Main(After(c, acts).envs[uid], AtNewSetGet(NewTarget(id))))
  {
    hide After, ValidRun, NewTarget, ValidId, Vacant, Good, Listing, ApiServer.Lists;
    AlwaysGood(c, acts);
    var s := After(c, acts);
    SetNames(c, s);
    var items := SomeItems(s.sets);
    LiveListing(c, s, items);
    NothingFits(s.sets, items);
    hide FirstFit;
    more := Step(c, start, acts, w, Find(if failed then None else Some(items), id));
  }

  /** A new instance is made. */
  lemma MakesNew(c: Cfg, start: seq<Action>, acts: seq<Action>, w: nat, uid: string, t: Target)
    returns (more: seq<Action>)
    requires ValidRun(c, acts) && Continues(start, acts, w) && IsAt(After(c, acts), w, uid, AtNewSetGet(t))
    requires t.ss !in After(c, acts).sets
    ensures ValidRun(c, more) && Continues(start, more, w)
    ensures var s, s' := After(c, acts), After(c, more);
            && t.ss in s'.sets && s'.sets == s.sets[t.ss := StatefulSet(t.ss, s'.sets[t.ss].rv, None, None)]
            && s' == s.(rev := s'.rev, sets := s'.sets, setHistory := s'.setHistory,
                        workers := s.workers[w := Main(s.envs[uid], AtSecretGet(t))])
  {
    hide After, ValidRun;
    var s := After(c, acts);
    more := Step(c, start, acts, w, NewSetGet(false));
    assert After(c, more) == Goto(s, w, Main(s.envs[uid], AtNewSetCreate(t)));
    more := Step(c, start, more, w, NewSetCreate(false));
    assert After(c, more).workers == s.workers[w := Main(s.envs[uid], AtSecretGet(t))];
  }

  lemma NothingFits(sets: map<string, StatefulSet>, items: seq<StatefulSet>)
    requires ApiServer.Lists(items, sets)
    ensures (forall y | y in sets :: !Vacant(sets[y])) ==> FirstFit(items) == None
  {
    hide Vacant, FirstFit;
    FirstFitVacant(items);
  }

  /** The tenant's secret, new or there before. */
  lemma TakesSecret(c: Cfg, start: seq<Action>, acts: seq<Action>, w: nat, uid: string, t: Target)
    returns (more: seq<Action>, host: string)
    requires ValidRun(c, acts) && Continues(start, acts, w) && IsAt(After(c, acts), w, uid, AtSecretGet(t))
    requires var s := After(c, acts); uid in s.secrets || (uid in s.namespaces && s.namespaces[uid] == Active)
    ensures ValidRun(c, more) && Continues(start, more, w)
    ensures var s, s' := After(c, acts), After(c, more);
            && uid in s'.secrets && host == s'.secrets[uid]
            && s'.secrets == (if uid in s.secrets then s.secrets else s.secrets[uid := Host(t.service, SHARED_NS)])
            && s' == s.(secrets := s'.secrets, workers := s.workers[w := Main(s.envs[uid], AtJobGet(t, host))])
  {
    hide After, ValidRun, Host;
    var s := After(c, acts);
    if uid in s.secrets {
      host := s.secrets[uid];
      more := Step(c, start, acts, w, SecretGet(Some(host)));
    } else {
      host := Host(t.service, SHARED_NS);
      more := Step(c, start, acts, w, SecretGet(None));
      assert After(c, more) == Goto(s, w, Main(s.envs[uid], AtSecretCreate(t)));
      more := Step(c, start, more, w, SecretCreate(false));
    }
    assert After(c, more).workers == s.workers[w := Main(s.envs[uid], AtJobGet(t, host))];
  }

  lemma TakesJob(c: Cfg, start: seq<Action>, acts: seq<Action>, w: nat, uid: string, t: Target, host: string)
    returns (more: seq<Action>)
    requires ValidRun(c, acts) && Continues(start, acts, w) && IsAt(After(c, acts), w, uid, AtJobGet(t, host))
    ensures ValidRun(c, more) && Continues(start, more, w)
    ensures var s, s' := After(c, acts), After(c, more);
            s' == s.(jobs := WithJob(s.jobs, uid, SsFromHost(host), t.master),
                     workers := s.workers[w := Main(s.envs[uid], AtAddGet(t, 0))])
  {
    hide After, ValidRun, SsFromHost, InitJobName;
    var s := After(c, acts);
    var found := InitJobName(uid) in s.jobs;
    more := Step(c, start, acts, w, JobGet(found));
    if !found {
      more := Step(c, start, more, w, JobCreate(false));
    }
    assert After(c, more).workers == s.workers[w := Main(s.envs[uid], AtAddGet(t, 0))];
  }

  /** Secret and job, new or there before. */
  lemma CredentialSteps(c: Cfg, start: seq<Action>, acts: seq<Action>, w: nat, uid: string, t: Target)
    returns (more: seq<Action>)
    requires ValidRun(c, acts) && Continues(start, acts, w) && IsAt(After(c, acts), w, uid, AtSecretGet(t))
    requires var s := After(c, acts); uid in s.secrets || (uid in s.namespaces && s.namespaces[uid] == Active)
    ensures ValidRun(c, more) && Continues(start, more, w)
    ensures var s, s' := After(c, acts), After(c, more);
            && uid in s'.secrets
            && s'.secrets == (if uid in s.secrets then s.secrets else s.secrets[uid := Host(t.service, SHARED_NS)])
            && s' == s.(secrets := s'.secrets, jobs := WithJob(s.jobs, uid, SsFromHost(s'.secrets[uid]), t.master),
                        workers := s.workers[w := Main(s.envs[uid], AtAddGet(t, 0))])
  {
    hide After, ValidRun, Host, SsFromHost, WithJob;
    var s := After(c, acts);
    var host;
    more, host := TakesSecret(c, start, acts, w, uid, t);
    more := TakesJob(c, start, more, w, uid, t, host);
    assert After(c, more).workers == s.workers[w := Main(s.envs[uid], AtAddGet(t, 0))];
  }

  /** The registration, first attempt. */
  lemma TakesPlace(c: Cfg, start: seq<Action>, acts: seq<Action>, w: nat, uid: string, t: Target)
    returns (more: seq<Action>)
    requires ValidRun(c, acts) && Continues(start, acts, w) && IsAt(After(c, acts), w, uid, AtAddGet(t, 0))
    requires t.ss in After(c, acts).sets && |Tenants(After(c, acts).sets[t.ss])| < MAX_INT
    ensures ValidRun(c, more) && Continues(start, more, w)
    ensures var s, s', x := After(c, acts), After(c, more), t.ss;
            && x in s'.sets && s'.sets == s.sets[x := AddTenant(s.sets[x], uid).(rv := s'.sets[x].rv)]
            && s' == s.(rev := s'.rev, sets := s'.sets, setHistory := s'.setHistory,
                        workers := s.workers[w := Main(s.envs[uid], AtToAssigned)])
  {
    hide After, ValidRun, Tenants, AddTenant, Good, Once;
    AlwaysGood(c, acts);
    AlwaysOnce(c, acts);
    var s, x := After(c, acts), t.ss;
    SetNames(c, s);
    ClaimedUnlisted(c, s, w, uid, x);
    var ss := s.sets[x];
    more := Step(c, start, acts, w, AddGet(ss));
    assert After(c, more) == Goto(s, w, Main(s.envs[uid], AtAddPut(t, 0, ss)));
    more := Step(c, start, more, w, AddPut(false));
    assert After(c, more).workers == s.workers[w := Main(s.envs[uid], AtToAssigned)];
  }

  lemma ClaimedUnlisted(c: Cfg, s: State, w: nat, uid: string, x: string)
    requires Good(c, s) && Once(s) && w < |s.workers| && Claim(s.workers[w]) == Some(uid) && x in s.sets
    ensures uid !in Tenants(s.sets[x])
  {
    hide Good, Tenants, Claim;
    assert !Listed(s, uid, x);
    assert Shapes.Lists(s)[x] == Tenants(s.sets[x]);
  }

  // ---- the whole of it ----

  /** The names that every step uses. */
  predicate TargetFor(t: Target, x: string)
    requires |x| >= ID_LENGTH
  {
    t.ss == x && t.service == x && t.master == MasterFromSs(x)
  }

  lemma TargetsAgree(id: string, x: string)
    requires ValidId(id) && IsSsName(x)
    ensures |x| >= ID_LENGTH && TargetFor(ReuseTarget(x), x)
    ensures NewTarget(id).ss == SS_PREFIX + id && (x == SS_PREFIX + id ==> TargetFor(NewTarget(id), x))
  {
    NamesCohere(id);
  }

  lemma SameLabel(a: StatefulSet, b: StatefulSet, uid: string, rv: nat, rv': nat)
    requires SameObject(a, b)
    ensures Vacant(a) <==> Vacant(b)
    ensures SameObject(AddTenant(a, uid).(rv := rv), AddTenant(b, uid).(rv := rv'))
  {
    assert a == b.(rv := a.rv);
    AddIgnoresVersion(b, uid, a.rv, 0);
  }

  lemma ShortList(ss: StatefulSet)
    requires Exact(ss) && Vacant(ss)
    ensures |Tenants(ss)| < MAX_INT
  {
    VacantLabel(ss);
  }

  /** Worker w goes on to the secret with an instance x that is as the store has it, or new. */
  ghost predicate Chosen(st: Store, s: State, s': State, w: nat, uid: string, x: string, t: Target)
    requires uid in s.envs && w < |s.workers|
  {
    && x in s'.sets && SameObject(Base(st, x), s'.sets[x]) && s'.sets == s.sets[x := s'.sets[x]]
    && |Tenants(s'.sets[x])| < MAX_INT
    && s' == s.(rev := s'.rev, sets := s'.sets, setHistory := s'.setHistory,
                workers := s.workers[w := Main(s.envs[uid], AtSecretGet(t))])
  }

  lemma ReuseSteps(c: Cfg, acts: seq<Action>, w: nat, st: Store, uid: string, x: string, id: string)
    returns (more: seq<Action>)
    requires ValidRun(c, acts) && IsAt(After(c, acts), w, uid, AtFind) && Matches(st, After(c, acts))
    requires |x| >= ID_LENGTH && x in st.sets && Vacant(st.sets[x])
    requires ValidId(id) && NewTarget(id).ss !in st.sets
    ensures ValidRun(c, more) && Continues(acts, more, w)
    ensures Chosen(st, After(c, acts), After(c, more), w, uid, x, ReuseTarget(x))
  {
    hide After, ValidRun, NewTarget, ReuseTarget, ValidId, Vacant, Tenants, Exact, Good;
    var s := After(c, acts);
    SameLabel(st.sets[x], s.sets[x], uid, 0, 0);
    AlwaysGood(c, acts);
    LiveSetOk(c, s, x);
    ShortList(s.sets[x]);
    more := FindsInstance(c, acts, acts, w, uid, x, id);
  }

  lemma NewSteps(c: Cfg, acts: seq<Action>, w: nat, st: Store, uid: string, id: string) returns (more: seq<Action>)
    requires ValidRun(c, acts) && IsAt(After(c, acts), w, uid, AtFind) && Matches(st, After(c, acts))
    requires ValidId(id) && NewTarget(id).ss !in st.sets
    ensures ValidRun(c, more) && Continues(acts, more, w)
    ensures Chosen(st, After(c, acts), After(c, more), w, uid, NewTarget(id).ss, NewTarget(id))
  {
    hide After, ValidRun, NewTarget, ValidId, Vacant, Tenants, Exact, Good;
    var s, t := After(c, acts), NewTarget(id);
    more := FindsNothing(c, acts, acts, w, uid, id, exists y | y in s.sets :: Vacant(s.sets[y]));
    more := MakesNew(c, acts, more, w, uid, t);
    EmptyExact(After(c, more).sets[t.ss]);
  }

  /** Up to the choice of an instance. */
  lemma ChoiceSteps(c: Cfg, acts: seq<Action>, w: nat, st: Store, uid: string, x: string, id: string)
    returns (more: seq<Action>, t: Target)
    requires ValidRun(c, acts) && IsAt(After(c, acts), w, uid, AtFind) && Matches(st, After(c, acts))
    requires IsSsName(x) && ValidId(id) && SS_PREFIX + id !in st.sets
    requires if x in st.sets then Vacant(st.sets[x]) else x == SS_PREFIX + id
    ensures |x| >= ID_LENGTH && TargetFor(t, x)
    ensures ValidRun(c, more) && Continues(acts, more, w)
    ensures Chosen(st, After(c, acts), After(c, more), w, uid, x, t)
  {
    TargetsAgree(id, x);
    hide After, ValidRun, NewTarget, ReuseTarget, ValidId, IsSsName, Vacant, MasterFromSs, Chosen, Matches;
    if x in st.sets {
      t := ReuseTarget(x);
      more := ReuseSteps(c, acts, w, st, uid, x, id);
    } else {
      t := NewTarget(id);
      more := NewSteps(c, acts, w, st, uid, id);
    }
  }

  /** A provisioning that succeeded is a sequence of provisioning steps of the worker, from any state
      of the step system that agrees with the store to one that agrees with the store afterwards. */
  lemma ProvisioningSteps(c: Cfg, acts: seq<Action>, w: nat, st: Store, st': Store, uid: string, x: string, id: string)
    returns (more: seq<Action>)
    requires ValidRun(c, acts) && IsAt(After(c, acts), w, uid, AtFind) && Matches(st, After(c, acts))
    requires ValidUid(uid) && IsSsName(x) && ValidId(id) && SS_PREFIX + id !in st.sets
    requires |x| >= ID_LENGTH && Provisioned(st, st', uid, x) && st'.namespaces == st.namespaces
    requires x !in st.sets ==> x == SS_PREFIX + id
    requires uid in st.secrets || Living(st, uid)
    ensures ValidRun(c, more) && Continues(acts, more, w)
    ensures Matches(st', After(c, more)) && IsAt(After(c, more), w, uid, AtToAssigned)
  {
    hide After, ValidRun, NewTarget, ValidId, IsSsName, Vacant, Tenants, AddTenant, Host, SsFromHost, InitJobName;
    hide MasterFromSs, ValidUid, Provisioned, Chosen, Matches, TargetFor, WithJob;
    var s := After(c, acts);
    var t;
    PlaceVacant(st, st', uid, x);
    more, t := ChoiceSteps(c, acts, w, st, uid, x, id);
    var s1 := After(c, more);
    ChosenAt(st, s, s1, w, uid, x, t);
    more := CredentialSteps(c, acts, more, w, uid, t);
    more := TakesPlace(c, acts, more, w, uid, t);
    PlaceMatches(st, st', s, s1, After(c, more), w, uid, x, t);
  }

  lemma PlaceVacant(st: Store, st': Store, uid: string, x: string)
    requires |uid| >= 8 && |x| >= ID_LENGTH && Provisioned(st, st', uid, x)
    ensures x in st.sets ==> Vacant(st.sets[x])
  {
    hide Vacant, Tenants, CredentialsMade, AddTenant;
  }

  lemma ChosenAt(st: Store, s: State, s1: State, w: nat, uid: string, x: string, t: Target)
    requires IsAt(s, w, uid, AtFind) && Matches(st, s) && Chosen(st, s, s1, w, uid, x, t)
    requires |x| >= ID_LENGTH && TargetFor(t, x) && (uid in st.secrets || Living(st, uid))
    ensures IsAt(s1, w, uid, AtSecretGet(t)) && t.ss == x && x in s1.sets && |Tenants(s1.sets[x])| < MAX_INT
    ensures uid in s1.secrets || (uid in s1.namespaces && s1.namespaces[uid] == Active)
  {
    hide Tenants;
  }

  /** Choice, credentials and place bring the state to where the store is. */
  lemma PlaceMatches(st: Store, st': Store, s: State, s1: State, s': State, w: nat, uid: string, x: string, t: Target)
    requires Matches(st, s) && IsAt(s, w, uid, AtFind) && Chosen(st, s, s1, w, uid, x, t)
    requires |x| >= ID_LENGTH && TargetFor(t, x) && |uid| >= 8
    requires Provisioned(st, st', uid, x) && st'.namespaces == st.namespaces
    requires uid in s'.secrets
    requires s'.secrets == (if uid in s1.secrets then s1.secrets else s1.secrets[uid := Host(t.service, SHARED_NS)])
    requires x in s'.sets && s'.sets == s1.sets[x := AddTenant(s1.sets[x], uid).(rv := s'.sets[x].rv)]
    requires s' == s1.(rev := s'.rev, sets := s'.sets, setHistory := s'.setHistory, secrets := s'.secrets,
                       jobs := WithJob(s1.jobs, uid, SsFromHost(s'.secrets[uid]), t.master),
                       workers := s1.workers[w := Main(s1.envs[uid], AtToAssigned)])
    ensures Matches(st', s') && IsAt(s', w, uid, AtToAssigned)
  {
    hide Vacant, Tenants, AddTenant, Host, SsFromHost, MasterFromSs, InitJobName, WithoutRemovals;
    SameLabel(Base(st, x), s1.sets[x], uid, st'.sets[x].rv, s'.sets[x].rv);
    InitJobStays(st.jobs, uid, DbJob(uid, SsFromHost(s'.secrets[uid]), t.master));
  }

  lemma InitJobStays(jobs: map<string, DbJob>, uid: string, job: DbJob)
    requires |uid| >= 8
    ensures InitJobName(uid) in jobs <==> InitJobName(uid) in WithoutRemovals(jobs)
    ensures WithoutRemovals(jobs[InitJobName(uid) := job]) == WithoutRemovals(jobs)[InitJobName(uid) := job]
  {
    assert InitJobName(uid)[3] == 'i' && "db-remove-"[3] == 'r';
  }

  /** CreatePostgreSQLForTenant on the shared path refines the step system: run from a store that
      agrees with a state in which worker w is about to search for tenant `uid`, its success is a
      sequence of provisioning steps of that worker, which is then about to store Assigned. */
  method ProvisionInSteps(api: Api, env: TenantEnv, id: string, ghost c: Cfg, ghost acts: seq<Action>, ghost w: nat)
    returns (ok: bool, ghost more: seq<Action>)
    requires Calm(api.script) && ApiServer.Valid(api.store) && OperatorNames(api.store)
    requires ValidUid(env.uid) && !env.dedicated && ValidId(id) && SS_PREFIX + id !in api.store.sets
    requires ValidRun(c, acts) && IsAt(After(c, acts), w, env.uid, AtFind) && Matches(api.store, After(c, acts))
    modifies api
    ensures ok ==> ValidRun(c, more) && Continues(acts, more, w)
    ensures ok ==> Matches(api.store, After(c, more)) && IsAt(After(c, more), w, env.uid, AtToAssigned)
    ensures old(api.script) == [] && Living(old(api.store), env.uid) ==> ok
  {
    hide Calm, ApiServer.Valid, OperatorNames, OnlyProvisions, Provisioned, IsSsName, ValidId;
    hide After, ValidRun, Matches, IsAt;
    ghost var st := api.store;
    ok := CreatePostgreSQLForTenant(api, env, id);
    more := acts;
    if ok {
      ghost var x := PlaceOf(st, api.store, env, id);
      more := ProvisioningSteps(c, acts, w, st, api.store, env.uid, x, id);
    }
  }

  lemma PlaceOf(st: Store, st': Store, env: TenantEnv, id: string) returns (x: string)
    requires ValidUid(env.uid) && !env.dedicated && HasDatabase(st, st', env) && OnlyProvisions(st, st', env.uid, id)
    ensures IsSsName(x) && |x| >= ID_LENGTH && Provisioned(st, st', env.uid, x) && st'.namespaces == st.namespaces
    ensures x !in st.sets ==> x == SS_PREFIX + id
  {
    hide Tenants, Vacant, CredentialsMade, AddTenant;
    x :| IsSsName(x) && Provisioned(st, st', env.uid, x);
  }
}
