/** What every run keeps, under any hypotheses: the stored versions form a coherent history and
    each worker holds genuine copies. Status history and count cache are read off from it. */
module History {
  import opened GoStrings
  import opened Objects
  import opened Registry
  import opened Naming
  import opened Lifecycle

  /** Well-formed in every stored version: stamped before the finalizer, Ready iff readyAt. */
  predicate EnvOk(e: TenantEnv) {
    && ValidUid(e.uid)
    && (e.finalizer ==> e.createdAt.Some?)
    && (e.phase == Ready <==> e.readyAt.Some?)
    && (e.deleting || Rank(e.db) > 0 ==> e.finalizer)
  }

  /** The one-way history of a TenantEnvironment. */
  predicate Before(e: TenantEnv, f: TenantEnv) {
    && e.name == f.name
    && Rank(e.db) <= Rank(f.db)
    && (e.createdAt.Some? ==> f.createdAt == e.createdAt)
    && (e.readyAt.Some? ==> f.readyAt == e.readyAt)
    && (e.deleting ==> f.deleting)
    && (e.finalizer ==> f.finalizer)
  }

  ghost predicate EnvsOk(s: State) {
    && (forall e :: e in s.envHistory ==> e.rv <= s.rev && EnvOk(e))
    && (forall e, f :: e in s.envHistory && f in s.envHistory && e.rv == f.rv ==> e == f)
    && (forall u :: u in s.envs ==> s.envs[u] in s.envHistory && s.envs[u].uid == u)
    && (forall e :: e in s.envHistory && e.uid in s.envs ==> e.rv <= s.envs[e.uid].rv)
    && (forall e, f :: e in s.envHistory && f in s.envHistory && e.uid == f.uid && e.rv <= f.rv ==> Before(e, f))
  }

  ghost predicate SetsOk(s: State) {
    && (forall x :: x in s.setHistory ==> x.rv <= s.rev && Exact(x) && IsSsName(x.name))
    && (forall x, y :: x in s.setHistory && y in s.setHistory && x.rv == y.rv ==> x == y)
    && (forall n :: n in s.sets ==> s.sets[n] in s.setHistory && s.sets[n].name == n)
  }

  predicate TargetOk(t: Target) {
    IsSsName(t.ss) && t.service == t.ss && t.master == MasterFromSs(t.ss)
  }

  /** Inside CreatePostgreSQLForTenant on the shared path, the tenant not yet registered. */
  predicate PreAdd(at: Stage) {
    match at
    case AtFind => true
    case AtNewSetGet(_) => true
    case AtNewSetCreate(_) => true
    case AtSecretGet(_) => true
    case AtSecretCreate(_) => true
    case AtJobGet(_, _) => true
    case AtJobCreate(_, _) => true
    case AtAddGet(_, _) => true
    case AtAddPut(_, _, _) => true
    case _ => false
  }

  /** In the deletion branch of a reconcile. */
  predicate Deleting(at: Stage) {
    match at
    case AtRemoveList => true
    case AtRemovePut(_) => true
    case AtCleanGet(_) => true
    case AtCleanDelete(_) => true
    case AtCleanList(_) => true
    case AtCleanJobs(_, _) => true
    case AtNsDelGet => true
    case AtNsDelete => true
    case AtDropFinalizer => true
    case _ => false
  }

  /** The facts a provisioning copy carries from the accepted move to Provisioning. */
  predicate Claimed(e: TenantEnv) {
    e.db == Provisioning && e.finalizer && !e.dedicated
  }

  predicate Doomed(e: TenantEnv) {
    e.deleting && e.finalizer
  }

  /** What the copy and the stage of a worker say about the history. */
  predicate StageOk(s: State, e: TenantEnv, at: Stage) {
    match at
    case AtStamp => e.createdAt.None? && !e.finalizer && !e.deleting
    case AtPutFinalizer(_) => e.createdAt.Some? && !e.finalizer && !e.deleting
    case AtNsGet => e.finalizer && !e.deleting
    case AtNsCreate => e.finalizer && !e.deleting
    case AtToProvisioning => e.finalizer && !e.deleting && Rank(e.db) == 0
    case AtDedicated => e.db == Provisioning && e.finalizer && e.dedicated
    case AtFind => Claimed(e)
    case AtNewSetGet(t) => Claimed(e) && TargetOk(t)
    case AtNewSetCreate(t) => Claimed(e) && TargetOk(t)
    case AtSecretGet(t) => Claimed(e) && TargetOk(t)
    case AtSecretCreate(t) => Claimed(e) && TargetOk(t)
    case AtJobGet(t, _) => Claimed(e) && TargetOk(t)
    case AtJobCreate(t, _) => Claimed(e) && TargetOk(t)
    case AtAddGet(t, _) => Claimed(e) && TargetOk(t)
    case AtAddPut(t, _, copy) =>
      && Claimed(e) && TargetOk(t)
      && copy in s.setHistory && copy.name == t.ss && e.uid !in Tenants(copy) && |Tenants(copy)| < MAX_INT
    case AtToAssigned => e.db == Provisioning && e.finalizer
    case AtRemovePut(copy) => Doomed(e) && copy in s.setHistory && e.uid in Tenants(copy)
    case _ => Doomed(e)
  }

  predicate PcOk(s: State, pc: Pc) {
    && (pc.Main? ==> pc.env in s.envHistory && StageOk(s, pc.env, pc.at))
    && (pc.PodMarking? ==> pc.env in s.envHistory && pc.env.readyAt.None?)
  }

  predicate PcsOk(s: State) {
    forall w :: 0 <= w < |s.workers| ==> PcOk(s, s.workers[w])
  }

  ghost predicate Good(c: Cfg, s: State) {
    EnvsOk(s) && SetsOk(s) && PcsOk(s) && |s.workers| == c.workers
  }

  // ---- each kind of write keeps it ----

  lemma SetsFrame(s: State, s': State)
    requires SetsOk(s) && s'.setHistory == s.setHistory && s.rev <= s'.rev
    requires forall n :: n in s'.sets ==> n in s.sets && s'.sets[n] == s.sets[n]
    ensures SetsOk(s')
  {
    hide Exact, IsSsName;
  }

  lemma EnvsFrame(s: State, s': State)
    requires EnvsOk(s) && s'.envHistory == s.envHistory && s.rev <= s'.rev
    requires forall u :: u in s'.envs ==> u in s.envs && s'.envs[u] == s.envs[u]
    ensures EnvsOk(s')
  {
    hide EnvOk, Before;
  }

  lemma PcsFrame(s: State, s': State)
    requires PcsOk(s) && s'.workers == s.workers
    requires s.envHistory <= s'.envHistory && s.setHistory <= s'.setHistory
    ensures PcsOk(s')
  {
    forall w | 0 <= w < |s.workers| ensures PcOk(s', s'.workers[w]) {
      PcFrame(s, s', s.workers[w]);
    }
  }

  lemma PcFrame(s: State, s': State, pc: Pc)
    requires PcOk(s, pc) && s.envHistory <= s'.envHistory && s.setHistory <= s'.setHistory
    ensures PcOk(s', pc)
  {
    hide TargetOk, Tenants;
  }

  /** A write of a live object must follow its history; a new object starts one. */
  lemma PutEnvKeeps(c: Cfg, s: State, e: TenantEnv)
    requires Good(c, s) && EnvOk(e)
    requires e.uid in s.envs ==> Before(s.envs[e.uid], e)
    requires e.uid !in s.envs ==> forall f :: f in s.envHistory ==> f.uid != e.uid
    ensures Good(c, PutEnv(s, e))
  {
    hide SetsOk, PcsOk;
    SetsFrame(s, PutEnv(s, e));
    PcsFrame(s, PutEnv(s, e));
    PutEnvHistory(s, e);
  }

  /** The history of a store that gets a new version, pair by pair. */
  lemma PutEnvOrder(s: State, e: TenantEnv, f: TenantEnv, g: TenantEnv)
    requires EnvsOk(s) && EnvOk(e)
    requires e.uid in s.envs ==> Before(s.envs[e.uid], e)
    requires e.uid !in s.envs ==> forall h :: h in s.envHistory ==> h.uid != e.uid
    requires f in PutEnv(s, e).envHistory && g in PutEnv(s, e).envHistory && f.uid == g.uid && f.rv <= g.rv
    ensures Before(f, g)
  {
    hide EnvOk, Before;
    var e' := e.(rv := s.rev + 1);
    NewVersion(e, s.rev + 1);
    if g == e' && f != e' {
      assert Before(f, s.envs[e.uid]);
      BeforeNewVersion(f, s.envs[e.uid], e, s.rev + 1);
    }
  }

  lemma PutEnvHistory(s: State, e: TenantEnv)
    requires EnvsOk(s) && EnvOk(e)
    requires e.uid in s.envs ==> Before(s.envs[e.uid], e)
    requires e.uid !in s.envs ==> forall f :: f in s.envHistory ==> f.uid != e.uid
    ensures EnvsOk(PutEnv(s, e))
  {
    hide EnvOk, Before;
    NewVersion(e, s.rev + 1);
    var s' := PutEnv(s, e);
    forall f, g | f in s'.envHistory && g in s'.envHistory && f.uid == g.uid && f.rv <= g.rv ensures Before(f, g) {
      PutEnvOrder(s, e, f, g);
    }
  }

  lemma NewVersion(e: TenantEnv, rv: nat)
    requires EnvOk(e)
    ensures EnvOk(e.(rv := rv)) && Before(e.(rv := rv), e.(rv := rv))
  {
  }

  lemma BeforeNewVersion(f: TenantEnv, g: TenantEnv, e: TenantEnv, rv: nat)
    requires Before(f, g) && Before(g, e)
    ensures Before(f, e.(rv := rv))
  {
  }

  lemma PutSetKeeps(c: Cfg, s: State, x: StatefulSet)
    requires Good(c, s) && Exact(x) && IsSsName(x.name)
    ensures Good(c, PutSet(s, x))
  {
    hide EnvsOk, PcsOk, Exact, IsSsName;
    EnvsFrame(s, PutSet(s, x));
    PcsFrame(s, PutSet(s, x));
    ExactIgnoresVersion(x, s.rev + 1);
  }

  lemma ExactIgnoresVersion(x: StatefulSet, rv: nat)
    ensures Exact(x.(rv := rv)) <==> Exact(x)
    ensures Tenants(x.(rv := rv)) == Tenants(x)
  {
  }

  lemma GotoKeeps(c: Cfg, s: State, w: nat, pc: Pc)
    requires Good(c, s) && w < |s.workers| && PcOk(s, pc)
    ensures Good(c, Goto(s, w, pc))
  {
    hide EnvsOk, SetsOk, PcOk;
    var s' := Goto(s, w, pc);
    EnvsFrame(s, s');
    SetsFrame(s, s');
    hide StageOk;
    forall v | 0 <= v < |s'.workers| ensures PcOk(s', s'.workers[v]) {
      PcFrame(s, s', s'.workers[v]);
    }
  }

  /** Steps that touch neither TenantEnvironments nor shared StatefulSets, other than by dropping some. */
  lemma OthersKeep(c: Cfg, s: State, s': State)
    requires Good(c, s) && s'.rev == s.rev && s'.workers == s.workers
    requires s'.envHistory == s.envHistory && s'.setHistory == s.setHistory
    requires forall n :: n in s'.sets ==> n in s.sets && s'.sets[n] == s.sets[n]
    requires forall u :: u in s'.envs ==> u in s.envs && s'.envs[u] == s.envs[u]
    ensures Good(c, s')
  {
    hide EnvsOk, SetsOk, PcsOk;
    EnvsFrame(s, s');
    SetsFrame(s, s');
    PcsFrame(s, s');
  }

  /** What Good says about one worker, one live object, one live set. */
  lemma WorkerOk(c: Cfg, s: State, w: nat)
    requires Good(c, s) && w < |s.workers|
    ensures PcOk(s, s.workers[w])
  {
    hide EnvsOk, SetsOk;
  }

  lemma WorkerCount(c: Cfg, s: State)
    requires Good(c, s)
    ensures |s.workers| == c.workers
  {
    hide EnvsOk, SetsOk, PcsOk;
  }

  lemma LiveOk(c: Cfg, s: State, u: string)
    requires Good(c, s) && u in s.envs
    ensures s.envs[u].uid == u && s.envs[u] in s.envHistory && EnvOk(s.envs[u])
  {
    hide SetsOk, PcsOk;
  }

  lemma StoredOk(c: Cfg, s: State, e: TenantEnv)
    requires Good(c, s) && e in s.envHistory
    ensures EnvOk(e) && e.rv <= s.rev
    ensures e.uid in s.envs ==> Before(e, s.envs[e.uid])
  {
    hide SetsOk, PcsOk, EnvOk, Before;
  }

  lemma StoredSetOk(c: Cfg, s: State, x: StatefulSet)
    requires Good(c, s) && x in s.setHistory
    ensures Exact(x) && IsSsName(x.name) && x.rv <= s.rev
  {
    hide EnvsOk, PcsOk, Exact, IsSsName;
  }

  lemma LiveSetOk(c: Cfg, s: State, n: string)
    requires Good(c, s) && n in s.sets
    ensures s.sets[n].name == n && s.sets[n] in s.setHistory && Exact(s.sets[n]) && IsSsName(n)
  {
    hide EnvsOk, PcsOk, Exact, IsSsName;
  }

  /** An accepted Update comes from the current version itself. */
  lemma AcceptedIsCurrent(c: Cfg, s: State, e: TenantEnv)
    requires Good(c, s) && e in s.envHistory && Accepts(s, e)
    ensures s.envs[e.uid] == e
  {
    hide SetsOk, PcsOk, EnvOk, Before;
  }

  lemma AcceptedSetIsCurrent(c: Cfg, s: State, x: StatefulSet)
    requires Good(c, s) && x in s.setHistory && AcceptsSet(s, x)
    ensures s.sets[x.name] == x
  {
    hide EnvsOk, PcsOk, Exact, IsSsName;
  }

  lemma PutStatusKeeps(c: Cfg, s: State, e: TenantEnv, mem: TenantEnv)
    requires Good(c, s) && e in s.envHistory && Accepts(s, e)
    requires mem == WithStatus(e, mem) && EnvOk(mem) && Before(e, mem)
    ensures s.envs[mem.uid] == e && Reply(s, mem) == mem.(rv := s.rev + 1)
    ensures Good(c, PutStatus(s, mem)) && Reply(s, mem) in PutStatus(s, mem).envHistory
  {
    hide Good, EnvOk;
    AcceptedIsCurrent(c, s, e);
    PutEnvKeeps(c, s, mem);
  }

  // ---- steps ----

  lemma EnvStep(c: Cfg, s: State, a: EnvAction)
    requires Good(c, s) && EnvEnabled(c, s, a)
    ensures Good(c, EnvNext(s, a))
  {
    hide Good, Exact, IsSsName;
    if a.UserEdit? || a.UserDelete? { LiveOk(c, s, a.uid); }
    if a.TouchSet? { LiveSetOk(c, s, a.x); }
    match a
    case UserCreate(e) =>
      if e.uid in s.envs { LiveOk(c, s, e.uid); }
      PutEnvKeeps(c, s, e);
    case UserEdit(u, spec, dedicated) => PutEnvKeeps(c, s, s.envs[u].(uid := u, spec := spec, dedicated := dedicated));
    case UserDelete(u) =>
      if s.envs[u].finalizer { PutEnvKeeps(c, s, s.envs[u].(uid := u, deleting := true)); }
      else { OthersKeep(c, s, EnvNext(s, a)); }
    case TouchSet(x) => PutSetKeeps(c, s, s.sets[x].(name := x));
    case SecretGone(u) => OthersKeep(c, s, EnvNext(s, a));
    case NsGone(u) => OthersKeep(c, s, EnvNext(s, a));
  }

  /** A read hands the worker a stored version, on which the next stage is well founded. */
  lemma ReadStored(c: Cfg, s: State, name: string, e: TenantEnv)
    requires Good(c, s) && EnvRead(c, s, name, Some(e))
    ensures e in s.envHistory && EnvOk(e) && e.name == name
    ensures PcOk(s, Route(e))
  {
    hide Good, ValidUid;
    if e.uid in s.envs { LiveOk(c, s, e.uid); }
    StoredOk(c, s, e);
  }

  lemma BeginKeeps(c: Cfg, s: State, w: nat, op: BeginOp)
    requires Good(c, s) && w < |s.workers| && BeginEnabled(c, s, w, op)
    ensures Good(c, BeginStore(c, s, w, op)) && PcOk(BeginStore(c, s, w, op), BeginPc(c, s, w, op))
  {
    hide Good, ValidUid, EnvRead, Route, TargetOk;
    var pc := s.workers[w];
    WorkerOk(c, s, w);
    if (op.Fetch? || op.PodFetch?) && op.got.Some? {
      ReadStored(c, s, pc.name, op.got.value);
    }
    if pc.Main? || pc.PodMarking? { StoredOk(c, s, pc.env); }
    match op
    case PodMark(now) => PutStatusKeeps(c, s, pc.env, pc.env.(readyAt := Some(now), phase := Ready));
    case Stamp(now, _, _) => PutStatusKeeps(c, s, pc.env, pc.env.(createdAt := Some(now)));
    case PutFinalizer =>
      AcceptedIsCurrent(c, s, pc.env);
      PutEnvKeeps(c, s, pc.env.(finalizer := true));
    case NsCreate(_) => OthersKeep(c, s, BeginStore(c, s, w, op));
    case ToProvisioning(_) => PutStatusKeeps(c, s, pc.env, pc.env.(db := Provisioning));
    case _ =>
  }

  /** The instance chosen for a tenant carries coherent names on both paths. */
  lemma TargetsOk(c: Cfg, s: State, listed: Option<seq<StatefulSet>>, id: string)
    requires Good(c, s) && ValidId(id) && (listed.Some? ==> Listing(c, s, listed.value))
    ensures TargetOk(NewTarget(id))
    ensures listed.Some? && FirstFit(listed.value).Some? ==>
      TargetOk(ReuseTarget(FirstFit(listed.value).value))
  {
    NamesCohere(id);
    if listed.Some? && FirstFit(listed.value).Some? {
      var i := ListedFit(c, s, listed.value);
      SsNameCoheres(listed.value[i].name);
    }
  }

  /** The instance that first fit returns is listed, has room and is the first that has. */
  lemma ListedFit(c: Cfg, s: State, items: seq<StatefulSet>) returns (i: nat)
    requires Good(c, s) && Listing(c, s, items) && FirstFit(items).Some?
    ensures i < |items| && FirstFit(items) == Some(items[i].name) && HasRoom(items[i]) && IsSsName(items[i].name)
  {
    forall i | 0 <= i < |items| ensures Exact(items[i]) && IsSsName(items[i].name) {
      ListedStored(c, s, items, i);
      StoredSetOk(c, s, items[i]);
    }
    hide Good;
    i := FirstFitIndex(items);
  }

  lemma ListedStored(c: Cfg, s: State, items: seq<StatefulSet>, i: nat)
    requires Good(c, s) && Listing(c, s, items) && i < |items|
    ensures items[i] in s.setHistory
  {
    if !c.stale { LiveSetOk(c, s, items[i].name); }
  }

  lemma AllocStoreKeeps(c: Cfg, s: State, w: nat, op: AllocOp)
    requires Good(c, s) && At(s, w) && AllocEnabled(c, s, w, op)
    ensures Good(c, AllocStore(c, s, w, op))
  {
    hide Good, ValidUid, Listing, TargetOk, Tenants, AddTenant, FirstFit, Exact, IsSsName, Host, SsFromHost;
    var e, at := s.workers[w].env, s.workers[w].at;
    WorkerOk(c, s, w);
    StoredOk(c, s, e);
    match op
    case NewSetCreate(_) =>
      EmptyExact(StatefulSet(at.t.ss, 0, None, None));
      TargetNamed(at.t);
      PutSetKeeps(c, s, StatefulSet(at.t.ss, 0, None, None));
    case SecretCreate(_) => OthersKeep(c, s, AllocStore(c, s, w, op));
    case JobCreate(_) => OthersKeep(c, s, AllocStore(c, s, w, op));
    case AddPut(_) =>
      StoredSetOk(c, s, at.copy);
      PutSetKeeps(c, s, AddTenant(at.copy, e.uid));
    case ToAssigned => PutStatusKeeps(c, s, e, e.(db := Assigned));
    case _ =>
  }

  lemma TargetNamed(t: Target)
    requires TargetOk(t)
    ensures IsSsName(t.ss) && t.service == t.ss
  {
  }

  lemma AllocPcOk(c: Cfg, s: State, w: nat, op: AllocOp)
    requires Good(c, s) && At(s, w) && AllocEnabled(c, s, w, op)
    ensures PcOk(s, Continue(s.workers[w].env, AllocStage(c, s, w, op)))
  {
    hide Good, ValidUid, Listing, TargetOk, Tenants, FirstFit, Host, NewTarget, ReuseTarget;
    WorkerOk(c, s, w);
    if op.Find? { TargetsOk(c, s, op.listed, op.id); }
  }

  lemma DeleteStoreKeeps(c: Cfg, s: State, w: nat, op: DeleteOp)
    requires Good(c, s) && At(s, w) && DeleteEnabled(c, s, w, op)
    ensures Good(c, DeleteStore(c, s, w, op))
  {
    hide Good, Listing, Tenants, Holder, RemoveTenant, Exact, IsSsName, Without;
    var e, at := s.workers[w].env, s.workers[w].at;
    WorkerOk(c, s, w);
    if op.RemovePut? {
      StoredSetOk(c, s, at.copy);
      PutSetKeeps(c, s, RemoveTenant(at.copy, e.uid));
    } else {
      OthersKeep(c, s, DeleteStore(c, s, w, op));
    }
  }

  lemma DeletePcOk(c: Cfg, s: State, w: nat, op: DeleteOp)
    requires Good(c, s) && At(s, w) && DeleteEnabled(c, s, w, op)
    ensures PcOk(s, Continue(s.workers[w].env, DeleteStage(c, s, w, op)))
  {
    hide Good, Listing, Tenants, Holder, RemoveTenant;
    WorkerOk(c, s, w);
    if op.RemoveList? {
      var h := Holder(op.items, s.workers[w].env.uid);
      if h.Some? {
        var i :| 0 <= i < |op.items| && op.items[i] == h.value;
        ListedStored(c, s, op.items, i);
      }
    }
  }

  lemma StepKeeps(c: Cfg, s: State, a: Action)
    requires Good(c, s) && Enabled(c, s, a)
    ensures Good(c, Next(c, s, a))
  {
    hide Good, BeginEnabled, AllocEnabled, DeleteEnabled, BeginStore, AllocStore, DeleteStore;
    hide BeginPc, AllocStage, DeleteStage, PcOk;
    match a
    case Env(e) => EnvStep(c, s, e);
    case Begin(w, op) =>
      BeginKeeps(c, s, w, op);
      GotoKeeps(c, BeginStore(c, s, w, op), w, BeginPc(c, s, w, op));
    case Alloc(w, op) =>
      AllocStoreKeeps(c, s, w, op);
      AllocPcOk(c, s, w, op);
      var pc := Continue(s.workers[w].env, AllocStage(c, s, w, op));
      PcFrame(s, AllocStore(c, s, w, op), pc);
      GotoKeeps(c, AllocStore(c, s, w, op), w, pc);
    case Delete(w, op) =>
      DeleteStoreKeeps(c, s, w, op);
      DeletePcOk(c, s, w, op);
      var pc := Continue(s.workers[w].env, DeleteStage(c, s, w, op));
      PcFrame(s, DeleteStore(c, s, w, op), pc);
      GotoKeeps(c, DeleteStore(c, s, w, op), w, pc);
  }

  lemma {:induction false} AlwaysGood(c: Cfg, acts: seq<Action>)
    requires ValidRun(c, acts)
    ensures Good(c, After(c, acts))
  {
    if acts != [] {
      var prefix := acts[..|acts| - 1];
      AlwaysGood(c, prefix);
      StepKeeps(c, After(c, prefix), acts[|acts| - 1]);
    }
  }

  // ---- theorems ----

  /** Status history is monotone under any interleaving, failures and stale reads included: the
      database status only moves forward, createdAt and readyAt are written once, createdAt
      precedes the finalizer, and Phase is Ready exactly when readyAt is set. */
  lemma {:induction false} StatusMonotone(c: Cfg, acts: seq<Action>, e: TenantEnv, f: TenantEnv)
    requires ValidRun(c, acts)
    requires e in After(c, acts).envHistory && f in After(c, acts).envHistory
    requires e.uid == f.uid && e.rv <= f.rv
    ensures e.db == Assigned ==> f.db == Assigned
    ensures e.db == Provisioning ==> f.db == Provisioning || f.db == Assigned
    ensures e.createdAt.Some? ==> f.createdAt == e.createdAt
    ensures e.readyAt.Some? ==> f.readyAt == e.readyAt
    ensures f.finalizer ==> f.createdAt.Some?
    ensures f.phase == Ready <==> f.readyAt.Some?
  {
    hide SetsOk, PcsOk, ValidRun, After;
    AlwaysGood(c, acts);
  }

  /** In every version ever stored the list is duplicate-free and the count label is its length. */
  lemma CountIsExact(c: Cfg, acts: seq<Action>, x: StatefulSet)
    requires ValidRun(c, acts) && x in After(c, acts).setHistory
    ensures NoDuplicates(Tenants(x)) && LabelCount(x) == Some(|Tenants(x)|)
  {
    hide Good, ValidRun, After;
    AlwaysGood(c, acts);
    StoredSetOk(c, After(c, acts), x);
  }

  /** Hence the search over any listing, stale or not, is first fit on the true lengths and fails
      exactly when every listed instance is full. */
  lemma {:induction false} SearchIsFirstFit(c: Cfg, acts: seq<Action>, items: seq<StatefulSet>)
    requires ValidRun(c, acts) && Listing(c, After(c, acts), items)
    ensures IsFirstFit(items, FirstFit(items))
    ensures FirstFit(items) == None <==> forall i :: 0 <= i < |items| ==> |Tenants(items[i])| >= 10
  {
    hide Good, ValidRun, After, Exact;
    AlwaysGood(c, acts);
    var s := After(c, acts);
    forall i | 0 <= i < |items| ensures Exact(items[i]) {
      ListedStored(c, s, items, i);
      StoredSetOk(c, s, items[i]);
    }
    FirstFitIsFirstFit(items);
  }
}
