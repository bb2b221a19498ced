/** With coherent reads and the database kind left alone after provisioning started, no
    registration outlives its TenantEnvironment: any number of workers, any failures. */
module NoOrphan {
  import opened Objects
  import opened Registry
  import opened Naming
  import opened Lifecycle
  import opened History
  import opened Shapes
  import opened AtMostOne

  predicate Coherent(c: Cfg) {
    !c.stale && c.pinned
  }

  /** The tenant's object exists and carries the finalizer. */
  predicate Anchored(s: State, u: string) {
    u in s.envs && s.envs[u].finalizer
  }

  predicate Shared(s: State, u: string) {
    u in s.envs && !s.envs[u].dedicated
  }

  /** From namespace creation to the move to Assigned. */
  predicate Provisions(at: Stage) {
    PreAdd(at) || at.AtNsGet? || at.AtNsCreate? || at.AtToProvisioning? || at.AtDedicated? || at.AtToAssigned?
  }

  /** The tenant has been taken off every list. */
  predicate Removed(at: Stage) {
    Deleting(at) && !at.AtRemoveList? && !at.AtRemovePut?
  }

  ghost predicate KeysDiffer(s: State) {
    forall v, w, n | 0 <= v < |s.workers| && 0 <= w < |s.workers| && v != w && Serves(s.workers[v], n) ::
      !Serves(s.workers[w], n)
  }

  ghost predicate WorkersAnchored(s: State) {
    forall w | 0 <= w < |s.workers| && s.workers[w].Main? ::
      && (Provisions(s.workers[w].at) ==> Anchored(s, s.workers[w].env.uid))
      && (PreAdd(s.workers[w].at) ==> Shared(s, s.workers[w].env.uid))
  }

  ghost predicate ListedAnchored(s: State) {
    forall u, x :: Listed(s, u, x) ==> Anchored(s, u) && Shared(s, u)
  }

  ghost predicate RemovedUnlisted(s: State) {
    forall w, x | 0 <= w < |s.workers| && s.workers[w].Main? && Removed(s.workers[w].at) ::
      !Listed(s, s.workers[w].env.uid, x)
  }

  /** The tenant's namespace is absent or terminating. */
  predicate Inactive(s: State, u: string) {
    u in s.namespaces ==> s.namespaces[u] == Terminating
  }

  ghost predicate ActiveAnchored(s: State) {
    forall u | !Inactive(s, u) :: Anchored(s, u)
  }

  ghost predicate DropsInactive(s: State) {
    forall w | 0 <= w < |s.workers| && s.workers[w].Main? && s.workers[w].at.AtDropFinalizer? ::
      Inactive(s, s.workers[w].env.uid)
  }

  ghost predicate Safe(s: State) {
    && KeysDiffer(s) && WorkersAnchored(s) && ListedAnchored(s) && RemovedUnlisted(s)
    && ActiveAnchored(s) && DropsInactive(s)
  }

  // ---- what a step may rely on ----

  /** Reconciles of one tenant are never concurrent. */
  lemma SameTenantSameWorker(c: Cfg, s: State, v: nat, w: nat)
    requires Good(c, s) && KeysDiffer(s) && At(s, v) && At(s, w)
    requires s.workers[v].env.uid == s.workers[w].env.uid
    ensures v == w
  {
    hide SetsOk, EnvOk, StageOk;
    WorkerOk(c, s, v);
    WorkerOk(c, s, w);
    var e, f := s.workers[v].env, s.workers[w].env;
    assert Before(e, f) || Before(f, e);
    assert Serves(s.workers[v], e.name) && Serves(s.workers[w], e.name);
  }

  /** Once started, the database kind of the stored object is settled. */
  lemma ListedStarted(c: Cfg, s: State, u: string)
    requires Good(c, s) && u in s.envs && Entered(s, u)
    ensures Rank(s.envs[u].db) > 0
  {
    hide Good;
    var e :| e in s.envHistory && e.uid == u && Rank(e.db) > 0;
    StoredOk(c, s, e);
  }

  /** Anchored objects stay anchored and shared ones shared, unless their finalizer is dropped. */
  ghost predicate AnchorsKept(s: State, s': State) {
    && (forall u :: Anchored(s, u) ==> Anchored(s', u))
    && (forall u :: Shared(s, u) && Entered(s, u) ==> Shared(s', u))
  }

  lemma EnvAnchors(c: Cfg, s: State, a: EnvAction)
    requires Good(c, s) && Coherent(c) && EnvEnabled(c, s, a)
    ensures AnchorsKept(s, EnvNext(s, a))
  {
    hide Good, ValidUid, Entered;
    if a.UserCreate? && a.env.uid in s.envs { LiveOk(c, s, a.env.uid); }
    if a.UserEdit? || a.UserDelete? {
      LiveOk(c, s, a.uid);
      if Entered(s, a.uid) { ListedStarted(c, s, a.uid); }
      assert EnvOk(s.envs[a.uid]);
    }
  }

  lemma BeginAnchors(c: Cfg, s: State, w: nat, op: BeginOp)
    requires Good(c, s) && w < |s.workers| && BeginEnabled(c, s, w, op)
    ensures AnchorsKept(s, BeginStore(c, s, w, op))
  {
    hide Good, EnvRead, Entered;
    WorkerOk(c, s, w);
    if s.workers[w].Main? || s.workers[w].PodMarking? {
      if s.workers[w].env.uid in s.envs { LiveOk(c, s, s.workers[w].env.uid); }
    }
  }

  lemma AssignAnchors(c: Cfg, s: State, w: nat, op: AllocOp)
    requires Good(c, s) && At(s, w) && AllocEnabled(c, s, w, op)
    ensures AnchorsKept(s, AllocStore(c, s, w, op))
  {
    hide Good, Entered, AllocStage, Listing, Tenants, AddTenant, FirstFit, Host, SsFromHost;
    AllocShape(c, s, w, op);
    if op.ToAssigned? {
      WorkerOk(c, s, w);
      LiveOk(c, s, s.workers[w].env.uid);
    }
  }

  /** A coherent listing without the tenant means that no list holds it. */
  lemma NotListedAnywhere(c: Cfg, s: State, items: seq<StatefulSet>, u: string)
    requires !c.stale && Listing(c, s, items) && Holder(items, u).None?
    ensures forall x :: !Listed(s, u, x)
  {
    hide Tenants, Holder;
    forall x | x in s.sets ensures !Listed(s, u, x) {
      var i :| 0 <= i < |items| && items[i] == s.sets[x];
    }
  }

  // ---- preservation ----

  /** No worker has taken tenant u off its list and still goes on with its deletion. */
  ghost predicate NoneRemoving(s: State, u: string) {
    forall v | 0 <= v < |s.workers| && s.workers[v].Main? && s.workers[v].env.uid == u :: !Removed(s.workers[v].at)
  }

  ghost predicate NewListingsOk(s: State, s': State) {
    forall u, x | Listed(s', u, x) :: Listed(s, u, x) || (Anchored(s', u) && Shared(s', u) && NoneRemoving(s, u))
  }

  ghost predicate NewActivesOk(s: State, s': State) {
    forall u | !Inactive(s', u) :: !Inactive(s, u) || (Anchored(s', u) && NoneRemoving(s, u))
  }

  /** A write that drops no anchor. */
  lemma WorldKeeps(c: Cfg, s: State, s': State)
    requires Good(c, s) && ListedEntered(s) && Safe(s) && s'.workers == s.workers
    requires AnchorsKept(s, s') && NewListingsOk(s, s') && NewActivesOk(s, s')
    ensures Safe(s')
  {
    hide Good, Listed, Anchored, Shared, Serves, Provisions, PreAdd, Inactive, Entered;
    assert WorkersAnchored(s') by {
      forall v | 0 <= v < |s'.workers| && s'.workers[v].Main? && PreAdd(s'.workers[v].at)
        ensures Shared(s', s'.workers[v].env.uid)
      {
        ClaimedEntered(c, s, v);
      }
    }
    assert KeysDiffer(s');
    assert ListedAnchored(s');
    assert RemovedUnlisted(s');
    assert ActiveAnchored(s');
    assert DropsInactive(s');
  }

  /** What moving worker w to pc asks of the state. */
  ghost predicate PcSafe(s: State, w: nat, pc: Pc)
    requires w < |s.workers|
  {
    && (forall n | Serves(pc, n) :: Serves(s.workers[w], n)
                                    || forall v | 0 <= v < |s.workers| :: !Serves(s.workers[v], n))
    && (pc.Main? ==>
          && (Provisions(pc.at) ==> Anchored(s, pc.env.uid)) && (PreAdd(pc.at) ==> Shared(s, pc.env.uid))
          && (Removed(pc.at) ==> forall x :: !Listed(s, pc.env.uid, x))
          && (pc.at.AtDropFinalizer? ==> Inactive(s, pc.env.uid)))
  }

  lemma GotoSafe(s: State, w: nat, pc: Pc)
    requires Safe(s) && w < |s.workers| && PcSafe(s, w, pc)
    ensures Safe(Goto(s, w, pc))
  {
    hide ListsOf, Anchored, Shared, Serves, Provisions, PreAdd, Removed;
    var s' := Goto(s, w, pc);
    assert forall u, x :: Listed(s', u, x) <==> Listed(s, u, x);
    assert forall u :: (Anchored(s', u) <==> Anchored(s, u)) && (Shared(s', u) <==> Shared(s, u)) by {
      GotoAnchors(s, w, pc);
    }
    assert KeysDiffer(s');
  }

  lemma GotoAnchors(s: State, w: nat, pc: Pc)
    requires w < |s.workers|
    ensures forall u :: Anchored(Goto(s, w, pc), u) <==> Anchored(s, u)
    ensures forall u :: Shared(Goto(s, w, pc), u) <==> Shared(s, u)
  {
  }

  /** The invariants of the run, bundled for the step lemmas. */
  ghost predicate Inv(c: Cfg, s: State) {
    Good(c, s) && Once(s) && Safe(s)
  }

  lemma OwnPc(c: Cfg, s: State, w: nat)
    requires Inv(c, s) && At(s, w)
    ensures var e, at := s.workers[w].env, s.workers[w].at;
      && (Provisions(at) ==> Anchored(s, e.uid)) && (PreAdd(at) ==> Shared(s, e.uid) && Entered(s, e.uid))
      && (Removed(at) ==> forall x :: !Listed(s, e.uid, x))
      && (at.AtDropFinalizer? ==> Inactive(s, e.uid))
  {
    hide Good, Once, Listed, Anchored, Shared, Inactive, PreAdd;
    if PreAdd(s.workers[w].at) { ClaimedEntered(c, s, w); }
  }

  /** A worker at a stage that is not Removed is the only one on its tenant. */
  lemma AloneOnTenant(c: Cfg, s: State, w: nat)
    requires Inv(c, s) && At(s, w) && !Removed(s.workers[w].at)
    ensures NoneRemoving(s, s.workers[w].env.uid)
  {
    hide Good, Once, WorkersAnchored, ListedAnchored, RemovedUnlisted, ActiveAnchored, DropsInactive, Removed;
    forall v | 0 <= v < |s.workers| && s.workers[v].Main? && s.workers[v].env.uid == s.workers[w].env.uid
      ensures v == w
    {
      SameTenantSameWorker(c, s, v, w);
    }
  }

  lemma EnvSafe(c: Cfg, s: State, a: EnvAction)
    requires Inv(c, s) && Coherent(c) && EnvEnabled(c, s, a)
    ensures Safe(EnvNext(s, a))
  {
    hide Good, Safe, ListsOf, AnchorsKept;
    EnvShape(c, s, a);
    EnvAnchors(c, s, a);
    WorldKeeps(c, s, EnvNext(s, a));
  }

  // ---- steps of a worker ----

  lemma BeginPcSafe(c: Cfg, s: State, w: nat, op: BeginOp)
    requires Inv(c, s) && Coherent(c) && w < |s.workers| && BeginEnabled(c, s, w, op)
    ensures PcSafe(BeginStore(c, s, w, op), w, BeginPc(c, s, w, op))
  {
    hide Good, Once, ListsOf, WorkersAnchored, RemovedUnlisted, ActiveAnchored, DropsInactive;
    var pc := s.workers[w];
    WorkerOk(c, s, w);
    if pc.Main? {
      OwnPc(c, s, w);
      StoredOk(c, s, pc.env);
      if pc.env.uid in s.envs { LiveOk(c, s, pc.env.uid); }
    }
  }

  lemma BeginSafe(c: Cfg, s: State, w: nat, op: BeginOp)
    requires Inv(c, s) && Coherent(c) && w < |s.workers| && BeginEnabled(c, s, w, op)
    ensures Safe(Next(c, s, Begin(w, op)))
  {
    hide Good, Safe, ListsOf, AnchorsKept, BeginEnabled, PcSafe, Anchored;
    var s1 := BeginStore(c, s, w, op);
    BeginShape(c, s, w, op);
    BeginAnchors(c, s, w, op);
    assert NewActivesOk(s, s1) by {
      if op.NsCreate? { NsCreateActive(c, s, w, op); }
    }
    WorldKeeps(c, s, s1);
    BeginPcSafe(c, s, w, op);
    GotoSafe(s1, w, BeginPc(c, s, w, op));
  }

  lemma NsCreateActive(c: Cfg, s: State, w: nat, op: BeginOp)
    requires Inv(c, s) && w < |s.workers| && BeginEnabled(c, s, w, op) && op.NsCreate?
    ensures NewActivesOk(s, BeginStore(c, s, w, op))
  {
    hide Good, Once, Safe;
    OwnPc(c, s, w);
    AloneOnTenant(c, s, w);
  }

  lemma AllocPcSafe(c: Cfg, s: State, w: nat, op: AllocOp)
    requires Inv(c, s) && Coherent(c) && At(s, w) && AllocEnabled(c, s, w, op)
    ensures PcSafe(AllocStore(c, s, w, op), w, Continue(s.workers[w].env, AllocStage(c, s, w, op)))
  {
    hide Good, Safe, ListsOf, AllocStore, AllocStage, Entered, Listing, Tenants, FirstFit, Anchored, Shared;
    OwnPc(c, s, w);
    AllocClaim(c, s, w, op);
    AssignAnchors(c, s, w, op);
  }

  lemma AllocSafe(c: Cfg, s: State, w: nat, op: AllocOp)
    requires Inv(c, s) && Coherent(c) && At(s, w) && AllocEnabled(c, s, w, op)
    ensures Safe(Next(c, s, Alloc(w, op)))
  {
    hide Good, Safe, ListsOf, AnchorsKept, AllocEnabled, AllocStore, AllocStage, PcSafe, Anchored, Shared, Inactive;
    var s1 := AllocStore(c, s, w, op);
    AllocShape(c, s, w, op);
    AssignAnchors(c, s, w, op);
    assert NewActivesOk(s, s1) by { SameNamespaces(s, s1); }
    assert NewListingsOk(s, s1) by {
      if op.NewSetCreate? { NewSetShape(c, s, w, op.lost); }
      if op.AddPut? { AddListings(c, s, w, op.lost); }
    }
    WorldKeeps(c, s, s1);
    AllocPcSafe(c, s, w, op);
    GotoSafe(s1, w, Continue(s.workers[w].env, AllocStage(c, s, w, op)));
  }

  lemma SameNamespaces(s: State, s': State)
    requires s'.namespaces == s.namespaces
    ensures forall u :: Inactive(s', u) <==> Inactive(s, u)
  {
  }

  lemma AddListings(c: Cfg, s: State, w: nat, lost: bool)
    requires Inv(c, s) && Coherent(c) && At(s, w) && AllocEnabled(c, s, w, AddPut(lost))
    ensures NewListingsOk(s, AllocStore(c, s, w, AddPut(lost)))
  {
    hide Good, Once, Safe, ListsOf, AllocStore, Entered, Tenants, Removed;
    AddShape(c, s, w, lost);
    AllocShape(c, s, w, AddPut(lost));
    OwnPc(c, s, w);
    assert !Removed(s.workers[w].at) by { AddNotRemoved(s.workers[w].at); }
    AloneOnTenant(c, s, w);
  }

  lemma AddNotRemoved(at: Stage)
    requires at.AtAddPut?
    ensures !Removed(at) && PreAdd(at)
  {
  }

  lemma DeleteWorld(c: Cfg, s: State, w: nat, op: DeleteOp)
    requires Inv(c, s) && At(s, w) && DeleteEnabled(c, s, w, op) && !op.DropFinalizer?
    ensures Safe(DeleteStore(c, s, w, op))
  {
    hide Good, Safe, ListsOf, DeleteEnabled, Without, Anchored, Shared, DeleteStage, RemoveTenant;
    var s1 := DeleteStore(c, s, w, op);
    DeleteShape(c, s, w, op);
    if op.RemovePut? { RemoveShape(c, s, w, op.lost); }
    SameEnvs(s, s1);
    WorldKeeps(c, s, s1);
  }

  lemma SameEnvs(s: State, s': State)
    requires s'.envs == s.envs
    ensures AnchorsKept(s, s')
  {
  }

  lemma DeletePcSafe(c: Cfg, s: State, w: nat, op: DeleteOp)
    requires Inv(c, s) && Coherent(c) && At(s, w) && DeleteEnabled(c, s, w, op)
    ensures PcSafe(DeleteStore(c, s, w, op), w, Continue(s.workers[w].env, DeleteStage(c, s, w, op)))
  {
    hide Good, Safe, Once, ListsOf, DeleteStore, DeleteStage, Listing, Tenants, Anchored, Shared, Inactive;
    var next := DeleteStage(c, s, w, op);
    OwnPc(c, s, w);
    DeleteClaim(c, s, w, op);
    if next.Some? && Removed(next.value) { NowUnlisted(c, s, w, op); }
    if next.Some? && next.value.AtDropFinalizer? { NowInactive(c, s, w, op); }
  }

  /** The only ways into the rest of the deletion: the tenant was in no list, or was filtered
      out of the only list that held it. */
  lemma NowUnlisted(c: Cfg, s: State, w: nat, op: DeleteOp)
    requires Inv(c, s) && Coherent(c) && At(s, w) && DeleteEnabled(c, s, w, op)
    requires DeleteStage(c, s, w, op).Some? && Removed(DeleteStage(c, s, w, op).value)
    ensures forall x :: !Listed(DeleteStore(c, s, w, op), s.workers[w].env.uid, x)
  {
    hide Good, Safe, ListsOf, Listing, Tenants, Holder, RemoveTenant, Without;
    OwnPc(c, s, w);
    DeleteShape(c, s, w, op);
    if op.RemoveList? {
      NotListedAnywhere(c, s, op.items, s.workers[w].env.uid);
    } else if op.RemovePut? {
      FilteredOut(c, s, w, op.lost);
    } else {
      assert Removed(s.workers[w].at);
      assert forall u, x :: Listed(DeleteStore(c, s, w, op), u, x) ==> Listed(s, u, x);
    }
  }

  lemma FilteredOut(c: Cfg, s: State, w: nat, lost: bool)
    requires Good(c, s) && Once(s) && At(s, w) && DeleteEnabled(c, s, w, RemovePut(lost))
    ensures forall x :: !Listed(DeleteStore(c, s, w, RemovePut(lost)), s.workers[w].env.uid, x)
  {
    hide Good, ListsOf, DeleteStore, DeleteStage, Without;
    RemoveShape(c, s, w, lost);
    var u, x0 := s.workers[w].env.uid, s.workers[w].at.copy.name;
    assert Listed(s, u, x0);
    forall x ensures !Listed(DeleteStore(c, s, w, RemovePut(lost)), u, x) {
      if x != x0 { assert !Listed(s, u, x); }
    }
  }

  lemma NowInactive(c: Cfg, s: State, w: nat, op: DeleteOp)
    requires Inv(c, s) && Coherent(c) && At(s, w) && DeleteEnabled(c, s, w, op)
    requires DeleteStage(c, s, w, op).Some? && DeleteStage(c, s, w, op).value.AtDropFinalizer?
    ensures Inactive(DeleteStore(c, s, w, op), s.workers[w].env.uid)
  {
    hide Good, Once, Safe, ListsOf, Listing, Tenants, Holder, RemoveTenant;
  }

  /** The finalizer goes last: nothing refers to the tenant any more. */
  lemma DropSafe(c: Cfg, s: State, w: nat)
    requires Inv(c, s) && At(s, w) && DeleteEnabled(c, s, w, DropFinalizer)
    ensures Safe(DeleteStore(c, s, w, DropFinalizer))
  {
    hide Good, Once, ListsOf, Provisions, PreAdd;
    var u := s.workers[w].env.uid;
    var s' := DeleteStore(c, s, w, DropFinalizer);
    OwnPc(c, s, w);
    DropStage(s.workers[w].at);
    forall v | 0 <= v < |s.workers| && s.workers[v].Main? && s.workers[v].env.uid == u ensures v == w {
      SameTenantSameWorker(c, s, v, w);
    }
    assert forall v, x :: Listed(s', v, x) <==> Listed(s, v, x);
    assert forall v :: v != u && Anchored(s, v) ==> Anchored(s', v);
    assert forall v :: v != u && Shared(s, v) ==> Shared(s', v);
    assert forall v :: Inactive(s', v) <==> Inactive(s, v);
    assert KeysDiffer(s');
    assert WorkersAnchored(s');
    assert ListedAnchored(s');
    assert RemovedUnlisted(s');
    assert ActiveAnchored(s');
  }

  lemma DropStage(at: Stage)
    requires at.AtDropFinalizer?
    ensures Removed(at) && !Provisions(at) && !PreAdd(at)
  {
  }

  lemma DeleteSafe(c: Cfg, s: State, w: nat, op: DeleteOp)
    requires Inv(c, s) && Coherent(c) && At(s, w) && DeleteEnabled(c, s, w, op)
    ensures Safe(Next(c, s, Delete(w, op)))
  {
    hide Good, Once, Safe, DeleteEnabled, DeleteStore, DeleteStage, PcSafe;
    if op.DropFinalizer? { DropSafe(c, s, w); } else { DeleteWorld(c, s, w, op); }
    DeletePcSafe(c, s, w, op);
    GotoSafe(DeleteStore(c, s, w, op), w, Continue(s.workers[w].env, DeleteStage(c, s, w, op)));
  }

  lemma SafeStep(c: Cfg, s: State, a: Action)
    requires Inv(c, s) && Coherent(c) && Enabled(c, s, a)
    ensures Safe(Next(c, s, a))
  {
    hide Good, Once, Safe, EnvEnabled, BeginEnabled, AllocEnabled, DeleteEnabled;
    hide EnvNext, BeginStore, AllocStore, DeleteStore;
    match a
    case Env(e) => EnvSafe(c, s, e);
    case Begin(w, op) => BeginSafe(c, s, w, op);
    case Alloc(w, op) => AllocSafe(c, s, w, op);
    case Delete(w, op) => DeleteSafe(c, s, w, op);
  }

  lemma {:induction false} AlwaysSafe(c: Cfg, acts: seq<Action>)
    requires ValidRun(c, acts) && Coherent(c)
    ensures Inv(c, After(c, acts))
  {
    hide Good, Once, Enabled, Next;
    AlwaysGood(c, acts);
    AlwaysOnce(c, acts);
    if acts != [] {
      var prefix := acts[..|acts| - 1];
      AlwaysSafe(c, prefix);
      SafeStep(c, After(c, prefix), acts[|acts| - 1]);
    }
  }

  // ---- theorems ----

  /** Every registered tenant still has its TenantEnvironment, with the finalizer. */
  lemma {:induction false} RegistrationHasOwner(c: Cfg, acts: seq<Action>, u: string, x: string)
    requires ValidRun(c, acts) && Coherent(c) && Listed(After(c, acts), u, x)
    ensures var s := After(c, acts); u in s.envs && s.envs[u].uid == u && s.envs[u].finalizer && !s.envs[u].dedicated
  {
    hide Good, Once, ValidRun, After, ListsOf;
    AlwaysSafe(c, acts);
    LiveOk(c, After(c, acts), u);
  }

  /** Once the TenantEnvironment is gone, its UID is in no list and its namespace is absent or
      terminating. */
  lemma {:induction false} GoneLeavesNothing(c: Cfg, acts: seq<Action>, u: string)
    requires ValidRun(c, acts) && Coherent(c) && u !in After(c, acts).envs
    ensures forall x :: !Listed(After(c, acts), u, x)
    ensures u in After(c, acts).namespaces ==> After(c, acts).namespaces[u] == Terminating
  {
    hide Good, Once, ValidRun, After, ListsOf;
    AlwaysSafe(c, acts);
    assert Inactive(After(c, acts), u);
  }

  /** Returning after the first match is right: a deregistration leaves the tenant in no list,
      whatever the hypotheses. */
  lemma {:induction false} FirstMatchSuffices(c: Cfg, acts: seq<Action>, w: nat, lost: bool)
    requires ValidRun(c, acts)
    requires At(After(c, acts), w) && DeleteEnabled(c, After(c, acts), w, RemovePut(lost))
    ensures forall x :: !Listed(Next(c, After(c, acts), Delete(w, RemovePut(lost))), After(c, acts).workers[w].env.uid, x)
  {
    hide Good, Once, Safe, ValidRun, After, ListsOf, DeleteEnabled, DeleteStore, DeleteStage;
    AlwaysGood(c, acts);
    AlwaysOnce(c, acts);
    var s := After(c, acts);
    FilteredOut(c, s, w, lost);
    forall x ensures !Listed(Next(c, s, Delete(w, RemovePut(lost))), s.workers[w].env.uid, x) {
      assert !Listed(DeleteStore(c, s, w, RemovePut(lost)), s.workers[w].env.uid, x);
    }
  }
}
