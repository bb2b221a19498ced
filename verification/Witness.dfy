/** Runs that show what the theorems' hypotheses are for. */
module Witness {
  import opened GoStrings
  import opened Objects
  import opened Registry
  import opened Naming
  import opened Lifecycle

  lemma Extend(c: Cfg, acts: seq<Action>, a: Action) returns (more: seq<Action>)
    requires ValidRun(c, acts) && Enabled(c, After(c, acts), a)
    ensures more == acts + [a] && ValidRun(c, more) && After(c, more) == Next(c, After(c, acts), a)
  {
    hide Enabled, Next;
    more := acts + [a];
    assert more[..|more| - 1] == acts;
  }

  // ---- a tenant's way to the search for an instance ----

  /** A shared tenant as a user creates it; it is named like its UID. */
  function NewTenant(uid: string): TenantEnv {
    TenantEnv(uid, uid, 0, false, Spec(1, "latest", None), false, false, None, None, Pending, Unassigned)
  }

  /** Nobody has heard of the tenant. */
  ghost predicate Unknown(s: State, uid: string) {
    && (forall e | e in s.envHistory :: e.uid != uid)
    && (forall u | u in s.envs :: s.envs[u].name != uid) && uid !in s.envs
    && uid !in s.namespaces && uid !in s.secrets
    && (forall v | 0 <= v < |s.workers| :: !Serves(s.workers[v], uid))
  }

  /** The UID respects the hypothesis on prefixes. */
  ghost predicate Admits(c: Cfg, s: State, uid: string) {
    |uid| >= 8 && (c.distinct ==> forall e | e in s.envHistory && |e.uid| >= 8 :: e.uid[..8] != uid[..8])
  }

  /** The tenant's object is e now, worker w is at pc, and nothing else has changed but the tenant's
      own namespace. */
  ghost predicate Moved(s: State, s': State, w: nat, uid: string, e: TenantEnv, pc: Pc)
    requires w < |s.workers|
  {
    && s'.workers == s.workers[w := pc] && s'.envs == s.envs[uid := e]
    && e.uid == uid && e.name == uid && !e.deleting && !e.dedicated
    && s.envHistory <= s'.envHistory && (forall f | f in s'.envHistory :: f in s.envHistory || f.uid == uid)
    && s'.sets == s.sets && s'.setHistory == s.setHistory && s'.jobs == s.jobs && s'.secrets == s.secrets
    && s'.namespaces - {uid} == s.namespaces - {uid}
    && e in s'.envHistory
  }

  lemma UserCreates(c: Cfg, acts: seq<Action>, w: nat, uid: string) returns (more: seq<Action>)
    requires ValidRun(c, acts) && w < |After(c, acts).workers| && After(c, acts).workers[w] == Idle
    requires Unknown(After(c, acts), uid) && ValidUid(uid) && Admits(c, After(c, acts), uid)
    ensures ValidRun(c, more)
    ensures var s, s' := After(c, acts), After(c, more);
            && uid in s'.envs && Moved(s, s', w, uid, s'.envs[uid], Idle)
            && s'.envs[uid] == NewTenant(uid).(rv := s'.rev) && s'.namespaces == s.namespaces
  {
    hide After, ValidRun;
    var s := After(c, acts);
    more := Extend(c, acts, Env(UserCreate(NewTenant(uid))));
    assert s.workers == s.workers[w := Idle];
  }

  /** A worker takes the request up and reads the object. */
  lemma Fetches(c: Cfg, acts: seq<Action>, w: nat, uid: string) returns (more: seq<Action>)
    requires ValidRun(c, acts) && w < |After(c, acts).workers| && After(c, acts).workers[w] == Idle
    requires uid in After(c, acts).envs && After(c, acts).envs[uid] in After(c, acts).envHistory
    requires After(c, acts).envs[uid].uid == uid && After(c, acts).envs[uid].name == uid
    requires forall v | 0 <= v < |After(c, acts).workers| :: !Serves(After(c, acts).workers[v], uid)
    ensures ValidRun(c, more)
    ensures var s := After(c, acts); After(c, more) == Goto(s, w, Route(s.envs[uid]))
  {
    hide After, ValidRun, Route;
    var s := After(c, acts);
    more := Extend(c, acts, Begin(w, StartMain(uid)));
    more := Extend(c, more, Begin(w, Fetch(Some(s.envs[uid]))));
    assert s.workers[w := Fetching(uid)][w := Route(s.envs[uid])] == s.workers[w := Route(s.envs[uid])];
  }

  /** createdAt and the finalizer. */
  lemma Finalizes(c: Cfg, acts: seq<Action>, w: nat, uid: string) returns (more: seq<Action>)
    requires ValidRun(c, acts) && w < |After(c, acts).workers|
    requires uid in After(c, acts).envs && After(c, acts).envs[uid].uid == uid
    requires After(c, acts).workers[w] == Main(After(c, acts).envs[uid], AtStamp)
    ensures ValidRun(c, more)
    ensures var s, s' := After(c, acts), After(c, more);
            && s' == s.(rev := s.rev + 2, envs := s'.envs, envHistory := s'.envHistory, workers := s.workers[w := Idle])
            && uid in s'.envs && s'.envs == s.envs[uid := s'.envs[uid]]
            && s'.envs[uid] == s.envs[uid].(createdAt := Some(0), finalizer := true, rv := s.rev + 2)
            && (forall f | f in s'.envHistory :: f in s.envHistory || f.uid == uid)
            && s.envHistory <= s'.envHistory && s'.envs[uid] in s'.envHistory
  {
    hide After, ValidRun;
    var s := After(c, acts);
    more := Extend(c, acts, Begin(w, Stamp(0, true, false)));
    var s1 := After(c, more);
    assert s1.envs[uid] == s.envs[uid].(createdAt := Some(0), rv := s.rev + 1);
    more := Extend(c, more, Begin(w, PutFinalizer));
    assert s1.workers[w := Idle] == s.workers[w := Idle];
  }

  lemma MakesNamespace(c: Cfg, acts: seq<Action>, w: nat, uid: string) returns (more: seq<Action>)
    requires ValidRun(c, acts) && w < |After(c, acts).workers|
    requires After(c, acts).workers[w].Main? && After(c, acts).workers[w].at == AtNsGet
    requires After(c, acts).workers[w].env.uid == uid && uid !in After(c, acts).namespaces
    requires Rank(After(c, acts).workers[w].env.db) == 0
    ensures ValidRun(c, more)
    ensures var s := After(c, acts);
            After(c, more) ==
              Goto(s.(namespaces := s.namespaces[uid := Active]), w, Main(s.workers[w].env, AtToProvisioning))
  {
    hide After, ValidRun;
    var s := After(c, acts);
    more := Extend(c, acts, Begin(w, NsGet(false)));
    more := Extend(c, more, Begin(w, NsCreate(false)));
  }

  /** The namespace and the move to Provisioning. */
  lemma Provisions(c: Cfg, acts: seq<Action>, w: nat, uid: string) returns (more: seq<Action>)
    requires ValidRun(c, acts) && w < |After(c, acts).workers|
    requires uid in After(c, acts).envs && After(c, acts).envs[uid].uid == uid && uid !in After(c, acts).namespaces
    requires After(c, acts).workers[w] == Main(After(c, acts).envs[uid], AtNsGet)
    requires !After(c, acts).envs[uid].dedicated && Rank(After(c, acts).envs[uid].db) == 0
    ensures ValidRun(c, more)
    ensures var s, s' := After(c, acts), After(c, more);
            && uid in s'.envs && s'.envs == s.envs[uid := s'.envs[uid]]
            && s'.envs[uid] == s.envs[uid].(db := Provisioning, rv := s.rev + 1)
            && s' == s.(rev := s.rev + 1, envs := s'.envs, envHistory := s'.envHistory,
                        namespaces := s.namespaces[uid := Active], workers := s.workers[w := Main(s'.envs[uid], AtFind)])
            && s'.envHistory == s.envHistory + {s'.envs[uid]}
  {
    hide After, ValidRun;
    var s := After(c, acts);
    more := MakesNamespace(c, acts, w, uid);
    more := Extend(c, more, Begin(w, ToProvisioning(false)));
    var s' := After(c, more);
    assert s'.workers == s.workers[w := Main(s'.envs[uid], AtFind)];
  }

  /** From nothing to the search for an instance. */
  lemma Onboards(c: Cfg, acts: seq<Action>, w: nat, uid: string) returns (more: seq<Action>)
    requires ValidRun(c, acts) && w < |After(c, acts).workers| && After(c, acts).workers[w] == Idle
    requires Unknown(After(c, acts), uid) && ValidUid(uid) && Admits(c, After(c, acts), uid)
    ensures ValidRun(c, more)
    ensures var s, s' := After(c, acts), After(c, more);
            && uid in s'.envs && Moved(s, s', w, uid, s'.envs[uid], Main(s'.envs[uid], AtFind))
            && s'.namespaces == s.namespaces[uid := Active]
            && s'.envs[uid].finalizer && s'.envs[uid].db == Provisioning
  {
    hide After, ValidRun;
    var s := After(c, acts);
    more := UserCreates(c, acts, w, uid);
    more := Fetches(c, more, w, uid);
    more := Finalizes(c, more, w, uid);
    var s1 := After(c, more);
    assert s1.workers == s.workers[w := Idle];
    more := Fetches(c, more, w, uid);
    more := Provisions(c, more, w, uid);
    var s' := After(c, more);
    assert s'.workers == s.workers[w := Main(s'.envs[uid], AtFind)];
    assert s'.envs == s.envs[uid := s'.envs[uid]];
  }

  // ---- credentials and registration ----

  /** Worker w of tenant `uid` is at a stage of its provisioning. */
  ghost predicate IsAt(s: State, w: nat, uid: string, at: Stage) {
    && w < |s.workers| && uid in s.envs && s.envs[uid].uid == uid && |uid| >= 8
    && s.workers[w] == Main(s.envs[uid], at)
  }

  /** The jobs with the tenant's init job, unless a job of that name is there. */
  function WithJob(jobs: map<string, DbJob>, uid: string, ssName: string, master: string): map<string, DbJob>
    requires |uid| >= 8
  {
    if InitJobName(uid) in jobs then jobs else jobs[InitJobName(uid) := DbJob(uid, ssName, master)]
  }

  /** Secret and init job; a job of the same eight-character prefix may already be there. */
  lemma MakesCredentials(c: Cfg, acts: seq<Action>, w: nat, uid: string, t: Target) returns (more: seq<Action>)
    requires ValidRun(c, acts) && IsAt(After(c, acts), w, uid, AtSecretGet(t)) && uid !in After(c, acts).secrets
    requires uid in After(c, acts).namespaces && After(c, acts).namespaces[uid] == Active
    ensures ValidRun(c, more)
    ensures var s, s' := After(c, acts), After(c, more);
            && s' == s.(secrets := s.secrets[uid := Host(t.service, SHARED_NS)],
                        jobs := WithJob(s.jobs, uid, SsFromHost(Host(t.service, SHARED_NS)), t.master),
                        workers := s.workers[w := Main(s.envs[uid], AtAddGet(t, 0))])
  {
    hide After, ValidRun, Host, SsFromHost, InitJobName;
    var s := After(c, acts);
    more := Extend(c, acts, Alloc(w, SecretGet(None)));
    more := Extend(c, more, Alloc(w, SecretCreate(false)));
    var host := Host(t.service, SHARED_NS);
    assert After(c, more) == Goto(s.(secrets := s.secrets[uid := host]), w, Main(s.envs[uid], AtJobGet(t, host)));
    more := MakesJob(c, more, w, uid, t, host);
  }

  lemma MakesJob(c: Cfg, acts: seq<Action>, w: nat, uid: string, t: Target, host: string) returns (more: seq<Action>)
    requires ValidRun(c, acts) && IsAt(After(c, acts), w, uid, AtJobGet(t, host))
    ensures ValidRun(c, more)
    ensures var s, s' := After(c, acts), After(c, more);
            s' == s.(jobs := WithJob(s.jobs, uid, SsFromHost(host), t.master),
                     workers := s.workers[w := Main(s.envs[uid], AtAddGet(t, 0))])
  {
    hide After, ValidRun, Host, SsFromHost, InitJobName;
    var s := After(c, acts);
    var found := InitJobName(uid) in s.jobs;
    more := Extend(c, acts, Alloc(w, JobGet(found)));
    if !found {
      more := Extend(c, more, Alloc(w, JobCreate(false)));
    }
    assert After(c, more).workers == s.workers[w := Main(s.envs[uid], AtAddGet(t, 0))];
  }

  /** The search fails and a new, empty instance is made. */
  lemma MakesSet(c: Cfg, acts: seq<Action>, w: nat, uid: string, id: string) returns (more: seq<Action>)
    requires ValidRun(c, acts) && IsAt(After(c, acts), w, uid, AtFind)
    requires ValidId(id) && NewTarget(id).ss !in After(c, acts).sets
    ensures ValidRun(c, more)
    ensures var s, s', t := After(c, acts), After(c, more), NewTarget(id);
            var made := StatefulSet(t.ss, s.rev + 1, None, None);
            && s' == s.(rev := s.rev + 1, sets := s.sets[t.ss := made], setHistory := s.setHistory + {made},
                        workers := s.workers[w := Main(s.envs[uid], AtSecretGet(t))])
  {
    hide After, ValidRun, NewTarget, ValidId;
    var s, t := After(c, acts), NewTarget(id);
    more := Extend(c, acts, Alloc(w, Find(None, id)));
    more := Extend(c, more, Alloc(w, NewSetGet(false)));
    assert After(c, more) == Goto(s, w, Main(s.envs[uid], AtNewSetCreate(t)));
    more := Extend(c, more, Alloc(w, NewSetCreate(false)));
    assert After(c, more).workers == s.workers[w := Main(s.envs[uid], AtSecretGet(t))];
  }

  lemma MakesInstance(c: Cfg, acts: seq<Action>, w: nat, uid: string, id: string) returns (more: seq<Action>)
    requires ValidRun(c, acts) && IsAt(After(c, acts), w, uid, AtFind) && uid !in After(c, acts).secrets
    requires uid in After(c, acts).namespaces && After(c, acts).namespaces[uid] == Active
    requires ValidId(id) && NewTarget(id).ss !in After(c, acts).sets
    ensures ValidRun(c, more)
    ensures var s, s', t := After(c, acts), After(c, more), NewTarget(id);
            var made := StatefulSet(t.ss, s.rev + 1, None, None);
            && s' == s.(rev := s.rev + 1, sets := s.sets[t.ss := made], setHistory := s.setHistory + {made},
                        secrets := s.secrets[uid := Host(t.service, SHARED_NS)],
                        jobs := WithJob(s.jobs, uid, SsFromHost(Host(t.service, SHARED_NS)), t.master),
                        workers := s.workers[w := Main(s.envs[uid], AtAddGet(t, 0))])
  {
    hide After, ValidRun, NewTarget, ValidId, Host, WithJob;
    var s := After(c, acts);
    more := MakesSet(c, acts, w, uid, id);
    more := MakesCredentials(c, more, w, uid, NewTarget(id));
    assert After(c, more).workers == s.workers[w := Main(s.envs[uid], AtAddGet(NewTarget(id), 0))];
  }

  /** The only instance there is has room and is chosen. */
  lemma ChoosesInstance(c: Cfg, acts: seq<Action>, w: nat, uid: string, x: string, id: string) returns (more: seq<Action>)
    requires ValidRun(c, acts) && IsAt(After(c, acts), w, uid, AtFind) && uid !in After(c, acts).secrets
    requires uid in After(c, acts).namespaces && After(c, acts).namespaces[uid] == Active
    requires OnlySet(After(c, acts), x)
    requires LabelCount(After(c, acts).sets[x]).Some? && LabelCount(After(c, acts).sets[x]).value < 10
    requires ValidId(id) && NewTarget(id).ss != x && |x| >= ID_LENGTH
    ensures ValidRun(c, more)
    ensures var s, s', t := After(c, acts), After(c, more), ReuseTarget(x);
            s' == s.(secrets := s.secrets[uid := Host(t.service, SHARED_NS)],
                     jobs := WithJob(s.jobs, uid, SsFromHost(Host(t.service, SHARED_NS)), t.master),
                     workers := s.workers[w := Main(s.envs[uid], AtAddGet(t, 0))])
  {
    hide After, ValidRun, NewTarget, ValidId, Host, LabelCount;
    var s, t := After(c, acts), ReuseTarget(x);
    assert FirstFit([s.sets[x]]) == Some(x);
    hide FirstFit;
    more := Extend(c, acts, Alloc(w, Find(Some([s.sets[x]]), id)));
    assert After(c, more) == Goto(s, w, Main(s.envs[uid], AtSecretGet(t)));
    more := MakesCredentials(c, more, w, uid, t);
  }

  /** x is the one instance, under its own name and in the history. */
  ghost predicate OnlySet(s: State, x: string) {
    x in s.sets && s.sets.Keys == {x} && s.sets[x].name == x && s.sets[x] in s.setHistory
  }

  /** The registration, undisturbed. */
  lemma Registers(c: Cfg, acts: seq<Action>, w: nat, uid: string, t: Target) returns (more: seq<Action>)
    requires ValidRun(c, acts) && IsAt(After(c, acts), w, uid, AtAddGet(t, 0)) && OnlySet(After(c, acts), t.ss)
    requires ValidUid(uid) && uid !in Tenants(After(c, acts).sets[t.ss]) && |Tenants(After(c, acts).sets[t.ss])| < MAX_INT
    ensures ValidRun(c, more)
    ensures var s, s', x := After(c, acts), After(c, more), t.ss;
            && OnlySet(s', x) && Tenants(s'.sets[x]) == Tenants(s.sets[x]) + [uid]
            && (Exact(s.sets[x]) ==> Exact(s'.sets[x])) && s.setHistory <= s'.setHistory
            && uid in s'.envs && s'.envs == s.envs[uid := s'.envs[uid]]
            && s'.envs[uid] == s.envs[uid].(db := Assigned, rv := s'.rev)
            && s' == s.(rev := s.rev + 2, sets := s'.sets, setHistory := s'.setHistory,
                        envs := s'.envs, envHistory := s'.envHistory, workers := s.workers[w := Idle])
            && s'.envHistory == s.envHistory + {s'.envs[uid]}
  {
    hide After, ValidRun, Tenants, Exact;
    var s, x := After(c, acts), t.ss;
    var ss := s.sets[x];
    more := Extend(c, acts, Alloc(w, AddGet(ss)));
    assert After(c, more) == Goto(s, w, Main(s.envs[uid], AtAddPut(t, 0, ss)));
    more := Extend(c, more, Alloc(w, AddPut(false)));
    var s1 := After(c, more);
    AddedSet(ss, uid, s.rev + 1);
    assert s1.sets == map[x := AddTenant(ss, uid).(rv := s.rev + 1)];
    hide AddTenant;
    more := Extend(c, more, Alloc(w, ToAssigned));
    assert After(c, more).workers == s.workers[w := Idle];
  }

  lemma AddedSet(ss: StatefulSet, uid: string, rv: nat)
    requires ValidUid(uid) && uid !in Tenants(ss) && |Tenants(ss)| < MAX_INT
    ensures var added := AddTenant(ss, uid).(rv := rv);
            Tenants(added) == Tenants(ss) + [uid] && (Exact(ss) ==> Exact(added))
  {
    AddTenantLists(ss, uid);
    assert Tenants(AddTenant(ss, uid).(rv := rv)) == Tenants(AddTenant(ss, uid));
    assert LabelCount(AddTenant(ss, uid).(rv := rv)) == LabelCount(AddTenant(ss, uid));
    hide Tenants, AddTenant, LabelCount;
  }

  // ---- one registered tenant, and its deletion ----

  ghost predicate AllIdle(s: State) {
    forall v | 0 <= v < |s.workers| :: s.workers[v] == Idle
  }

  /** Only this tenant has ever been there; it is Assigned, and the only one in the only instance. */
  ghost predicate Alone(s: State, uid: string, x: string) {
    && OnlySet(s, x) && Tenants(s.sets[x]) == [uid] && Exact(s.sets[x]) && AllIdle(s)
    && uid in s.envs && s.envs.Keys == {uid} && s.envs[uid] in s.envHistory
    && s.envs[uid].uid == uid && s.envs[uid].name == uid && s.envs[uid].finalizer
    && !s.envs[uid].deleting && !s.envs[uid].dedicated && s.envs[uid].db == Assigned
    && (forall e | e in s.envHistory :: e.uid == uid)
    && s.namespaces == map[uid := Active] && s.secrets.Keys == {uid}
    && |uid| >= 8 && s.jobs.Keys == {InitJobName(uid)} && s.jobs[InitJobName(uid)].uid == uid
  }

  lemma Starts(c: Cfg, uid: string, id: string) returns (acts: seq<Action>)
    requires c.workers > 0 && ValidUid(uid) && ValidId(id)
    ensures ValidRun(c, acts)
    ensures var s, t := After(c, acts), NewTarget(id);
            && IsAt(s, 0, uid, AtAddGet(t, 0)) && |s.workers| == c.workers
            && (forall v | 0 < v < |s.workers| :: s.workers[v] == Idle)
            && t.ss in s.sets && s.sets == map[t.ss := StatefulSet(t.ss, s.sets[t.ss].rv, None, None)]
            && s.sets[t.ss] in s.setHistory
            && s.envs == map[uid := s.envs[uid]] && (forall e | e in s.envHistory :: e.uid == uid)
            && s.envs[uid].name == uid && s.envs[uid].finalizer && !s.envs[uid].deleting && !s.envs[uid].dedicated
            && s.namespaces == map[uid := Active] && s.secrets.Keys == {uid}
            && s.jobs == WithJob(map[], uid, SsFromHost(Host(t.service, SHARED_NS)), t.master)
  {
    acts := [];
    assert After(c, acts) == Init(c);
    hide After, ValidRun, ValidId, NewTarget, Host, ValidUid, Unknown;
    NobodyKnown(c, uid);
    acts := Onboards(c, acts, 0, uid);
    acts := MakesInstance(c, acts, 0, uid, id);
  }

  lemma Registered(c: Cfg, uid: string, id: string) returns (acts: seq<Action>)
    requires c.workers > 0 && ValidUid(uid) && ValidId(id)
    ensures ValidRun(c, acts) && Alone(After(c, acts), uid, NewTarget(id).ss)
    ensures |After(c, acts).workers| == c.workers
  {
    hide ValidId, NewTarget, Host, ValidUid;
    acts := Starts(c, uid, id);
    hide After, ValidRun;
    EmptyExact(After(c, acts).sets[NewTarget(id).ss]);
    hide Tenants, Exact;
    acts := Registers(c, acts, 0, uid, NewTarget(id));
    var s := After(c, acts);
    assert s.namespaces == map[uid := Active];
  }

  lemma NobodyKnown(c: Cfg, uid: string)
    ensures Unknown(Init(c), uid) && (|uid| >= 8 ==> Admits(c, Init(c), uid))
  {
  }

  /** The user deletes the tenant, and a worker reads the object. */
  lemma Deletes(c: Cfg, acts: seq<Action>, w: nat, uid: string) returns (more: seq<Action>)
    requires ValidRun(c, acts) && w < |After(c, acts).workers| && AllIdle(After(c, acts))
    requires uid in After(c, acts).envs && After(c, acts).envs[uid].uid == uid && After(c, acts).envs[uid].name == uid
    requires After(c, acts).envs[uid].finalizer && !After(c, acts).envs[uid].deleting
    ensures ValidRun(c, more)
    ensures var s, s' := After(c, acts), After(c, more);
            && uid in s'.envs && s'.envs == s.envs[uid := s'.envs[uid]]
            && s'.envs[uid] == s.envs[uid].(deleting := true, rv := s.rev + 1)
            && s' == s.(rev := s.rev + 1, envs := s'.envs, envHistory := s.envHistory + {s'.envs[uid]},
                 workers := s.workers[w := Main(s'.envs[uid], if s.envs[uid].dedicated then AtNsDelGet else AtRemoveList)])
  {
    hide After, ValidRun;
    var s := After(c, acts);
    more := Extend(c, acts, Env(UserDelete(uid)));
    more := Fetches(c, more, w, uid);
  }

  /** The end of a deletion. */
  lemma Vanishes(c: Cfg, acts: seq<Action>, w: nat, uid: string) returns (more: seq<Action>)
    requires ValidRun(c, acts) && IsAt(After(c, acts), w, uid, AtNsDelGet) && uid in After(c, acts).namespaces
    ensures ValidRun(c, more)
    ensures var s, s' := After(c, acts), After(c, more);
            s' == s.(envs := s.envs - {uid}, namespaces := s.namespaces[uid := Terminating], workers := s.workers[w := Idle])
  {
    hide After, ValidRun;
    var s := After(c, acts);
    more := Extend(c, acts, Delete(w, NsDelGet(true)));
    more := Extend(c, more, Delete(w, NsDelete(false)));
    more := Extend(c, more, Delete(w, DropFinalizer));
    assert After(c, more).workers == s.workers[w := Idle];
  }

  /** With stale reads a deletion may list the instances as they were before the registration: the
      tenant is gone and its UID stays in the list. */
  lemma StaleReadsOrphan(c: Cfg, uid: string, id: string) returns (acts: seq<Action>)
    requires c.stale && c.workers > 0 && ValidUid(uid) && ValidId(id)
    ensures ValidRun(c, acts)
    ensures var s, x := After(c, acts), NewTarget(id).ss;
            uid !in s.envs && x in s.sets && uid in Tenants(s.sets[x])
  {
    hide After, ValidRun, ValidId, NewTarget, Tenants, Exact;
    acts := Registered(c, uid, id);
    acts := Deletes(c, acts, 0, uid);
    acts := Extend(c, acts, Delete(0, RemoveList([])));
    acts := Vanishes(c, acts, 0, uid);
  }

  /** When the database kind is edited after provisioning, deletion skips the shared lists. */
  lemma EditedKindOrphans(c: Cfg, uid: string, id: string) returns (acts: seq<Action>)
    requires !c.pinned && c.workers > 0 && ValidUid(uid) && ValidId(id)
    ensures ValidRun(c, acts)
    ensures var s, x := After(c, acts), NewTarget(id).ss;
            uid !in s.envs && x in s.sets && uid in Tenants(s.sets[x])
  {
    hide After, ValidRun, ValidId, NewTarget, Tenants, Exact;
    acts := Registered(c, uid, id);
    acts := Extend(c, acts, Env(UserEdit(uid, After(c, acts).envs[uid].spec, true)));
    acts := Deletes(c, acts, 0, uid);
    acts := Vanishes(c, acts, 0, uid);
  }

  lemma StillUnknown(s: State, s': State, w: nat, u: string, other: string)
    requires Unknown(s, other) && u != other && w < |s.workers|
    requires u in s'.envs && s'.envs == s.envs[u := s'.envs[u]] && s'.envs[u].name == u
    requires forall f | f in s'.envHistory :: f in s.envHistory || f.uid == u
    requires s'.namespaces.Keys <= s.namespaces.Keys + {u} && s'.secrets.Keys <= s.secrets.Keys + {u}
    requires |s'.workers| == |s.workers| && s'.workers == s.workers[w := s'.workers[w]]
    requires s'.workers[w] == Idle || (s'.workers[w].Main? && s'.workers[w].env.name == u)
    ensures Unknown(s', other)
  {
  }

  lemma OthersUnknown(s: State, u: string, other: string, x: string)
    requires Alone(s, u, x) && other != u
    ensures Unknown(s, other)
  {
  }

  lemma SetThere(s: State, x: string)
    requires OnlySet(s, x)
    ensures x in s.sets
  {
  }

  // ---- two workers ----

  /** The last tenant is taken off the list, and its instance is about to be deleted. */
  lemma Empties(c: Cfg, acts: seq<Action>, w: nat, uid: string, x: string) returns (more: seq<Action>)
    requires ValidRun(c, acts) && IsAt(After(c, acts), w, uid, AtRemoveList) && OnlySet(After(c, acts), x)
    requires Exact(After(c, acts).sets[x]) && Tenants(After(c, acts).sets[x]) == [uid]
    ensures ValidRun(c, more)
    ensures var s, s' := After(c, acts), After(c, more);
            && OnlySet(s', x) && Exact(s'.sets[x]) && Tenants(s'.sets[x]) == []
            && s' == s.(rev := s'.rev, sets := s'.sets, setHistory := s'.setHistory,
                        workers := s.workers[w := Main(s.envs[uid], AtCleanDelete(x))])
  {
    hide After, ValidRun;
    var s := After(c, acts);
    var ss := s.sets[x];
    assert Holder([ss], uid) == Some(ss);
    Emptied(ss, uid, s.rev + 1);
    hide Tenants, Exact, Holder, RemoveTenant, IsAt;
    assert s.workers[w] == Main(s.envs[uid], AtRemoveList) && w < |s.workers| by { AtFacts(s, w, uid, AtRemoveList); }
    more := Extend(c, acts, Delete(w, RemoveList([ss])));
    more := Extend(c, more, Delete(w, RemovePut(false)));
    assert After(c, more).sets == map[x := RemoveTenant(ss, uid).(rv := s.rev + 1)];
    assert After(c, more).workers == s.workers[w := Main(s.envs[uid], AtCleanGet(x))];
    more := Extend(c, more, Delete(w, CleanGet(Some(true))));
    assert After(c, more).workers == s.workers[w := Main(s.envs[uid], AtCleanDelete(x))];
  }

  lemma AtFacts(s: State, w: nat, uid: string, at: Stage)
    requires IsAt(s, w, uid, at)
    ensures w < |s.workers| && uid in s.envs && s.envs[uid].uid == uid && s.workers[w] == Main(s.envs[uid], at)
  {
  }

  lemma Emptied(ss: StatefulSet, uid: string, rv: nat)
    requires Exact(ss) && Tenants(ss) == [uid]
    ensures Tenants(RemoveTenant(ss, uid)) == []
    ensures var removed := RemoveTenant(ss, uid).(rv := rv); Tenants(removed) == [] && Exact(removed)
  {
    WithoutKeepsDistinct(Tenants(ss), uid);
    var removed := RemoveTenant(ss, uid);
    assert Tenants(removed.(rv := rv)) == Tenants(removed) && LabelCount(removed.(rv := rv)) == LabelCount(removed);
  }

  /** Worker 1 is about to delete the emptied instance; nobody knows tenant b yet. */
  ghost predicate AboutToDelete(s: State, x: string, b: string) {
    && |s.workers| >= 2 && s.workers[0] == Idle && s.workers[1].Main? && s.workers[1].at == AtCleanDelete(x)
    && OnlySet(s, x) && Tenants(s.sets[x]) == [] && LabelCount(s.sets[x]) == Some(0) && Unknown(s, b)
    && |b| >= 8 && InitJobName(b) !in s.jobs
  }

  lemma ReachesDelete(c: Cfg, a: string, b: string, id: string) returns (acts: seq<Action>)
    requires c.workers >= 2 && ValidUid(a) && ValidUid(b) && a[..8] != b[..8] && ValidId(id)
    ensures ValidRun(c, acts) && AboutToDelete(After(c, acts), NewTarget(id).ss, b)
    ensures Admits(c, After(c, acts), b)
  {
    hide After, ValidRun, ValidId, NewTarget, Tenants, Exact, LabelCount;
    var x := NewTarget(id).ss;
    acts := Registered(c, a, id);
    acts := Deletes(c, acts, 1, a);
    acts := Empties(c, acts, 1, a, x);
    EmptyCount(After(c, acts).sets[x]);
    assert InitJobName(a)[8..] == a[..8] && InitJobName(b)[8..] == b[..8];
  }

  lemma EmptyCount(ss: StatefulSet)
    requires Exact(ss) && Tenants(ss) == []
    ensures LabelCount(ss) == Some(0)
  {
  }

  lemma SetKept(s: State, s': State, x: string)
    requires OnlySet(s, x) && s'.sets == s.sets && s'.setHistory == s.setHistory
    ensures OnlySet(s', x) && x in s'.sets
  {
  }

  /** Onboarding and the choice of the only instance. */
  lemma Chooses(c: Cfg, acts: seq<Action>, w: nat, uid: string, x: string, id: string) returns (more: seq<Action>)
    requires ValidRun(c, acts) && w < |After(c, acts).workers| && After(c, acts).workers[w] == Idle
    requires Unknown(After(c, acts), uid) && ValidUid(uid) && Admits(c, After(c, acts), uid)
    requires OnlySet(After(c, acts), x) && |Tenants(After(c, acts).sets[x])| < 10
    requires LabelCount(After(c, acts).sets[x]) == Some(|Tenants(After(c, acts).sets[x])|)
    requires ValidId(id) && NewTarget(id).ss != x && |x| >= ID_LENGTH
    ensures ValidRun(c, more)
    ensures var s, s' := After(c, acts), After(c, more);
            && uid in s'.envs && IsAt(s', w, uid, AtAddGet(ReuseTarget(x), 0))
            && s'.workers == s.workers[w := s'.workers[w]] && s'.envs[uid].name == uid && !s'.envs[uid].deleting
            && s'.sets == s.sets && s'.setHistory == s.setHistory
            && s'.envs == s.envs[uid := s'.envs[uid]]
            && (forall f | f in s'.envHistory :: f in s.envHistory || f.uid == uid)
            && s'.namespaces.Keys == s.namespaces.Keys + {uid} && s'.secrets.Keys == s.secrets.Keys + {uid}
            && s'.jobs == WithJob(s.jobs, uid, SsFromHost(Host(x, SHARED_NS)), MasterFromSs(x))
  {
    hide After, ValidRun, ValidId, NewTarget, Tenants, LabelCount, Unknown, OnlySet, Admits;
    var s := After(c, acts);
    SecretUnknown(s, uid);
    SetKept(s, s, x);
    more := Onboards(c, acts, w, uid);
    SetKept(s, After(c, more), x);
    more := ChoosesInstance(c, more, w, uid, x, id);
  }

  /** Onboarding and registration in the only instance, undisturbed. */
  lemma Joins(c: Cfg, acts: seq<Action>, w: nat, uid: string, x: string, id: string) returns (more: seq<Action>)
    requires ValidRun(c, acts) && w < |After(c, acts).workers| && After(c, acts).workers[w] == Idle
    requires Unknown(After(c, acts), uid) && ValidUid(uid) && Admits(c, After(c, acts), uid)
    requires OnlySet(After(c, acts), x) && uid !in Tenants(After(c, acts).sets[x]) && |Tenants(After(c, acts).sets[x])| < 10
    requires LabelCount(After(c, acts).sets[x]) == Some(|Tenants(After(c, acts).sets[x])|)
    requires ValidId(id) && NewTarget(id).ss != x && |x| >= ID_LENGTH
    ensures ValidRun(c, more)
    ensures var s, s' := After(c, acts), After(c, more);
            && OnlySet(s', x) && Tenants(s'.sets[x]) == Tenants(s.sets[x]) + [uid]
            && (Exact(s.sets[x]) ==> Exact(s'.sets[x]))
            && s'.workers == s.workers[w := Idle]
            && uid in s'.envs && s'.envs[uid].db == Assigned && !s'.envs[uid].deleting
            && s'.envs[uid].name == uid
            && s'.envs == s.envs[uid := s'.envs[uid]]
            && (forall f | f in s'.envHistory :: f in s.envHistory || f.uid == uid)
            && s'.namespaces.Keys == s.namespaces.Keys + {uid} && s'.secrets.Keys == s.secrets.Keys + {uid}
            && s'.jobs == WithJob(s.jobs, uid, SsFromHost(Host(x, SHARED_NS)), MasterFromSs(x))
  {
    hide After, ValidRun, ValidId, NewTarget, Tenants, Exact, LabelCount, Unknown, Admits, OnlySet;
    var s := After(c, acts);
    more := Chooses(c, acts, w, uid, x, id);
    SetKept(s, After(c, more), x);
    more := Registers(c, more, w, uid, ReuseTarget(x));
    assert After(c, more).workers == s.workers[w := Idle];
  }

  lemma SecretUnknown(s: State, uid: string)
    requires Unknown(s, uid)
    ensures uid !in s.secrets
  {
  }

  lemma DeletesNow(c: Cfg, acts: seq<Action>, w: nat, x: string) returns (more: seq<Action>)
    requires ValidRun(c, acts) && w < |After(c, acts).workers|
    requires After(c, acts).workers[w].Main? && After(c, acts).workers[w].at == AtCleanDelete(x)
    ensures ValidRun(c, more) && |more| > 0 && more[..|more| - 1] == acts
    ensures var s, s' := After(c, acts), After(c, more); s'.envs == s.envs && s'.sets == s.sets - {x}
  {
    hide After, ValidRun;
    more := Extend(c, acts, Delete(w, CleanDelete(true)));
    assert more[..|more| - 1] == acts;
  }

  /** With two workers an instance is deleted although a tenant has meanwhile been registered to it
      and Assigned: the deletion saw the list empty, the search saw room. */
  lemma {:induction false} TwoWorkersDeleteOccupied(c: Cfg, a: string, b: string, id: string, id2: string)
    returns (acts: seq<Action>)
    requires c.workers >= 2 && ValidUid(a) && ValidUid(b) && a[..8] != b[..8]
    requires ValidId(id) && ValidId(id2) && NewTarget(id).ss != NewTarget(id2).ss
    ensures |acts| > 0 && ValidRun(c, acts) && ValidRun(c, acts[..|acts| - 1])
    ensures var s, s', x := After(c, acts[..|acts| - 1]), After(c, acts), NewTarget(id).ss;
            && x in s.sets && Tenants(s.sets[x]) == [b] && x !in s'.sets
            && b in s'.envs && s'.envs[b].db == Assigned && !s'.envs[b].deleting
  {
    var x := NewTarget(id).ss;
    assert |x| >= ID_LENGTH;
    hide After, ValidRun, ValidId, NewTarget, Tenants, Exact, LabelCount, Unknown;
    acts := ReachesDelete(c, a, b, id);
    acts := Joins(c, acts, 0, b, x, id2);
    acts := DeletesNow(c, acts, 1, x);
  }

  // ---- init jobs ----

  /** The delete of the StatefulSet is refused, and the cleanup goes on to the jobs. */
  lemma CleansJob(c: Cfg, acts: seq<Action>, w: nat, x: string, job: string) returns (more: seq<Action>)
    requires ValidRun(c, acts) && w < |After(c, acts).workers|
    requires After(c, acts).workers[w].Main? && After(c, acts).workers[w].at == AtCleanDelete(x)
    requires job in After(c, acts).jobs && After(c, acts).jobs[job].ssName == x
    ensures ValidRun(c, more)
    ensures var s, s' := After(c, acts), After(c, more); s'.sets == s.sets && s'.jobs == s.jobs - {job}
  {
    hide After, ValidRun;
    more := Extend(c, acts, Delete(w, CleanDelete(false)));
    more := Extend(c, more, Delete(w, CleanList(true)));
    more := Extend(c, more, Delete(w, CleanJob(job, true)));
  }

  /** With two workers a tenant can be registered while its init job is deleted, whatever the other
      hypotheses: credential agreement of the job holds for a single worker only. */
  lemma {:induction false} TwoWorkersLoseJob(c: Cfg, a: string, b: string, id: string, id2: string)
    returns (acts: seq<Action>)
    requires c.workers >= 2 && ValidUid(a) && ValidUid(b) && a[..8] != b[..8]
    requires ValidId(id) && ValidId(id2) && NewTarget(id).ss != NewTarget(id2).ss
    ensures ValidRun(c, acts)
    ensures var s, x := After(c, acts), NewTarget(id).ss;
            x in s.sets && Tenants(s.sets[x]) == [b] && InitJobName(b) !in s.jobs
  {
    var x := NewTarget(id).ss;
    NamesCohere(id);
    SsNameHost(x);
    hide After, ValidRun, ValidId, NewTarget, Tenants, Exact, LabelCount, Unknown, Admits;
    hide Host, SsFromHost, InitJobName, MasterFromSs;
    acts := ReachesDelete(c, a, b, id);
    acts := Joins(c, acts, 0, b, x, id2);
    acts := CleansJob(c, acts, 1, x, InitJobName(b));
  }

  /** Of two tenants whose UIDs agree in eight characters the second gets no init job of its own. */
  lemma {:induction false} SharedPrefixSharesJob(c: Cfg, a: string, b: string, id: string, id2: string)
    returns (acts: seq<Action>)
    requires c.workers > 0 && !c.distinct && ValidUid(a) && ValidUid(b) && a != b && a[..8] == b[..8]
    requires ValidId(id) && ValidId(id2) && NewTarget(id).ss != NewTarget(id2).ss
    ensures ValidRun(c, acts)
    ensures var s, x := After(c, acts), NewTarget(id).ss;
            && x in s.sets && Tenants(s.sets[x]) == [a, b]
            && InitJobName(b) in s.jobs && s.jobs[InitJobName(b)].uid == a
  {
    var x := NewTarget(id).ss;
    assert |x| >= ID_LENGTH && InitJobName(a) == InitJobName(b);
    hide After, ValidRun, ValidId, NewTarget, Tenants, Exact, LabelCount, Unknown;
    hide Host, SsFromHost, InitJobName, MasterFromSs;
    acts := Registered(c, a, id);
    AloneAnd(After(c, acts), a, b, x);
    acts := Joins(c, acts, 0, b, x, id2);
  }

  lemma AloneAnd(s: State, a: string, b: string, x: string)
    requires Alone(s, a, x) && a != b
    ensures Unknown(s, b) && LabelCount(s.sets[x]) == Some(|Tenants(s.sets[x])|)
  {
  }

  // ---- a tenant whose database kind is edited the other way ----

  /** A tenant that asks for an instance of its own before the operator sees it. */
  lemma CreatesDedicated(c: Cfg, acts: seq<Action>, w: nat, uid: string) returns (more: seq<Action>)
    requires ValidRun(c, acts) && After(c, acts) == Init(c) && w < c.workers && ValidUid(uid)
    ensures ValidRun(c, more)
    ensures var s := After(c, more);
            && s.workers == Init(c).workers && s.sets == map[] && s.namespaces == map[]
            && uid in s.envs && s.envs[uid] in s.envHistory
            && s.envs[uid] == NewTenant(uid).(dedicated := true, rv := s.envs[uid].rv)
  {
    NobodyKnown(c, uid);
    hide After, ValidRun, Unknown;
    more := UserCreates(c, acts, w, uid);
    more := Extend(c, more, Env(UserEdit(uid, NewTenant(uid).spec, true)));
  }

  /** From the namespace on, with a dedicated instance. */
  lemma StartsDedicated(c: Cfg, acts: seq<Action>, w: nat, uid: string) returns (more: seq<Action>)
    requires ValidRun(c, acts) && IsAt(After(c, acts), w, uid, AtNsGet) && uid !in After(c, acts).namespaces
    requires After(c, acts).envs[uid].dedicated && Rank(After(c, acts).envs[uid].db) == 0
    ensures ValidRun(c, more)
    ensures var s, s' := After(c, acts), After(c, more);
            && IsAt(s', w, uid, AtDedicated) && s'.sets == s.sets && s'.namespaces == s.namespaces[uid := Active]
            && s'.envs[uid] == s.envs[uid].(db := Provisioning, rv := s'.envs[uid].rv)
  {
    hide After, ValidRun;
    more := MakesNamespace(c, acts, w, uid);
    more := Extend(c, more, Begin(w, ToProvisioning(false)));
  }

  lemma AssignsDedicated(c: Cfg, acts: seq<Action>, w: nat, uid: string) returns (more: seq<Action>)
    requires ValidRun(c, acts) && IsAt(After(c, acts), w, uid, AtDedicated)
    requires uid in After(c, acts).namespaces && After(c, acts).namespaces[uid] == Active
    ensures ValidRun(c, more)
    ensures var s, s' := After(c, acts), After(c, more);
            && s'.sets == s.sets && uid in s'.envs
            && s'.envs[uid] == s.envs[uid].(db := Assigned, rv := s'.envs[uid].rv)
  {
    hide After, ValidRun;
    var s := After(c, acts);
    more := Extend(c, acts, Alloc(w, DedicatedDone));
    assert After(c, more) == Goto(s, w, Main(s.envs[uid], AtToAssigned));
    more := Extend(c, more, Alloc(w, ToAssigned));
  }

  /** When the database kind may be edited after provisioning, an Assigned shared tenant can be in
      no list: it was provisioned as a dedicated one. */
  lemma {:induction false} EditedKindHomeless(c: Cfg, uid: string) returns (acts: seq<Action>)
    requires !c.pinned && c.workers > 0 && ValidUid(uid)
    ensures ValidRun(c, acts)
    ensures var s := After(c, acts);
            && uid in s.envs && s.envs[uid].db == Assigned && !s.envs[uid].dedicated && !s.envs[uid].deleting
            && s.sets == map[]
  {
    acts := [];
    assert After(c, acts) == Init(c) && |uid| >= 8;
    hide After, ValidRun, ValidUid;
    acts := CreatesDedicated(c, acts, 0, uid);
    acts := Fetches(c, acts, 0, uid);
    acts := Finalizes(c, acts, 0, uid);
    acts := Fetches(c, acts, 0, uid);
    acts := StartsDedicated(c, acts, 0, uid);
    acts := AssignsDedicated(c, acts, 0, uid);
    acts := Extend(c, acts, Env(UserEdit(uid, NewTenant(uid).spec, false)));
  }
}
