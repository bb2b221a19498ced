/** Packing: in removal-free runs of the one worker in which no provisioning is cut short, n
    shared tenants occupy exactly ceil(n/10) instances, at most one of which is not full. */
module Density {
  import opened GoStrings
  import opened Objects
  import opened Registry
  import opened Naming
  import opened Lifecycle
  import opened History
  import opened Shapes
  import opened AtMostOne
  import opened NoOrphan
  import opened Capacity
  import opened Counting

  /** No removal, and no failure between the move to Provisioning and registration. A conflict
      elsewhere (a user edit, a pod event, a StatefulSet status write) is not excluded. */
  ghost predicate Smooth(s: State, a: Action) {
    match a
    case Env(e) => !e.UserDelete?
    case Begin(w, op) =>
      && (op.Abort? && w < |s.workers| ==> Claim(s.workers[w]).None?)
      && !(op.ToProvisioning? && op.lost)
    case Alloc(w, op) =>
      && (op.Find? ==> op.listed.Some?)
      && !(op.NewSetCreate? && op.lost) && !(op.SecretCreate? && op.lost) && !(op.JobCreate? && op.lost)
      && (op.AddConflict? && At(s, w) && s.workers[w].at.AtAddPut? ==> s.workers[w].at.attempt + 1 < 4)
    case Delete(_, _) => false
  }

  ghost predicate SmoothRun(c: Cfg, acts: seq<Action>)
    requires ValidRun(c, acts)
    decreases |acts|
  {
    acts == [] || (
      && SmoothRun(c, acts[..|acts| - 1])
      && Smooth(After(c, acts[..|acts| - 1]), acts[|acts| - 1]))
  }

  /** The shared tenants whose move to Provisioning has been stored. */
  ghost function Started(history: set<TenantEnv>): set<string> {
    set e | e in history && Rank(e.db) > 0 && !e.dedicated :: e.uid
  }

  predicate Full(list: seq<string>) {
    |list| >= MAX_TENANTS
  }

  /** What the claim of the worker says about the instance it works towards. */
  ghost predicate PcDense(lists: map<string, seq<string>>, pc: Pc) {
    pc.Main? ==>
      && (pc.at.AtNewSetGet? || pc.at.AtNewSetCreate? ==>
            pc.at.t.ss !in lists && forall x | x in lists :: Full(lists[x]))
      && (Chosen(pc).Some? && !pc.at.AtNewSetGet? && !pc.at.AtNewSetCreate? ==>
            pc.at.t.ss in lists && !Full(lists[pc.at.t.ss]))
  }

  ghost predicate Packed(lists: map<string, seq<string>>, pc: Pc) {
    && (forall x | x in lists :: lists[x] != [] || Chosen(pc) == Some(x))
    && (forall x, y | x in lists && y in lists && !Full(lists[x]) && !Full(lists[y]) :: x == y)
    && PcDense(lists, pc)
  }

  /** Everyone started is registered or about to be. */
  ghost predicate Complete(s: State)
    requires |s.workers| == 1
  {
    forall u | u in Started(s.envHistory) :: u in AllOf(Lists(s)) || Claim(s.workers[0]) == Some(u)
  }

  ghost predicate Dense(s: State)
    requires |s.workers| == 1
  {
    Packed(Lists(s), s.workers[0]) && Complete(s)
  }

  // ---- counting ----

  /** Distinct, non-empty, at most ten each, at most one not full: n lies in the last ten. */
  lemma {:induction false} PackedCount(lists: map<string, seq<string>>)
    requires forall x | x in lists :: lists[x] != [] && |lists[x]| <= MAX_TENANTS && NoDuplicates(lists[x])
    requires forall x, y | x in lists && y in lists && !Full(lists[x]) && !Full(lists[y]) :: x == y
    requires forall x, y, u | x in lists && y in lists && u in lists[x] && u in lists[y] :: x == y
    ensures |AllOf(lists)| <= MAX_TENANTS * |lists|
    ensures lists != map[] ==> |AllOf(lists)| > MAX_TENANTS * (|lists| - 1)
    decreases |lists|
  {
    if lists == map[] {
      assert AllOf(lists) == {};
    } else {
      var x :| x in lists;
      if y :| y in lists && Full(lists[y]) { x := y; }
      var rest := lists - {x};
      assert rest.Keys == lists.Keys - {x};
      PackedCount(rest);
      ElemsSize(lists[x]);
      AllOfSplit(lists, x);
      hide AllOf;
      if !Full(lists[x]) {
        assert forall y | y in lists :: y == x;
        assert rest == map[];
      }
    }
  }

  // ---- steps ----

  lemma StartedGrows(history: set<TenantEnv>, e: TenantEnv)
    requires Rank(e.db) > 0 && !e.dedicated ==> e.uid in Started(history)
    ensures Started(history + {e}) == Started(history)
  {
  }

  lemma LiveStarted(c: Cfg, s: State, u: string)
    requires Good(c, s) && u in s.envs
    ensures Rank(s.envs[u].db) > 0 && !s.envs[u].dedicated ==> u in Started(s.envHistory)
  {
    hide Good;
    LiveOk(c, s, u);
  }

  lemma EnvDense(c: Cfg, s: State, a: EnvAction)
    requires Inv(c, s) && Coherent(c) && |s.workers| == 1 && Dense(s) && EnvEnabled(c, s, a)
    ensures Dense(EnvNext(s, a))
  {
    hide Good, Once, Safe, ListsOf, Packed, Started, AllOf;
    EnvShape(c, s, a);
    if a.UserEdit? || a.UserDelete? {
      LiveStarted(c, s, a.uid);
      LiveOk(c, s, a.uid);
    }
    assert Started(EnvNext(s, a).envHistory) == Started(s.envHistory) by {
      match a
      case UserCreate(e) => StartedGrows(s.envHistory, e.(rv := s.rev + 1));
      case UserEdit(u, spec, d) =>
        StartedGrows(s.envHistory, s.envs[u].(uid := u, spec := spec, dedicated := d, rv := s.rev + 1));
      case UserDelete(u) =>
        StartedGrows(s.envHistory, s.envs[u].(uid := u, deleting := true, rv := s.rev + 1));
      case _ =>
    }
  }

  /** Only the move to Provisioning starts a tenant, and it leaves the worker claiming it. */
  lemma BeginStarted(c: Cfg, s: State, w: nat, op: BeginOp)
    requires Good(c, s) && w < |s.workers| && BeginEnabled(c, s, w, op) && !(op.ToProvisioning? && op.lost)
    ensures forall u | u in Started(BeginStore(c, s, w, op).envHistory) ::
              u in Started(s.envHistory) || Claim(BeginPc(c, s, w, op)) == Some(u)
  {
    hide Good, EnvRead, Started;
    WorkerOk(c, s, w);
    var pc := s.workers[w];
    if (pc.Main? || pc.PodMarking?) && Accepts(s, pc.env) {
      AcceptedIsCurrent(c, s, pc.env);
      LiveStarted(c, s, pc.env.uid);
    }
    match op
    case PodMark(now) => StartedGrows(s.envHistory, Reply(s, pc.env.(readyAt := Some(now), phase := Ready)));
    case Stamp(now, _, _) => StartedGrows(s.envHistory, Reply(s, pc.env.(createdAt := Some(now))));
    case PutFinalizer =>
      StartedGrows(s.envHistory, s.envs[pc.env.uid].(uid := pc.env.uid, finalizer := true, rv := s.rev + 1));
    case ToProvisioning(_) => StartedOne(s.envHistory, Reply(s, pc.env.(db := Provisioning)));
    case _ =>
  }

  lemma StartedOne(history: set<TenantEnv>, e: TenantEnv)
    ensures forall u | u in Started(history + {e}) :: u in Started(history) || (u == e.uid && !e.dedicated)
  {
  }

  lemma BeginDense(c: Cfg, s: State, op: BeginOp)
    requires Inv(c, s) && |s.workers| == 1 && Dense(s) && BeginEnabled(c, s, 0, op) && Smooth(s, Begin(0, op))
    ensures Dense(Next(c, s, Begin(0, op)))
  {
    hide Good, Once, Safe, ListsOf, Started, AllOf, BeginStore;
    BeginShape(c, s, 0, op);
    BeginClaim(c, s, 0, op);
    BeginStarted(c, s, 0, op);
    WorkerOk(c, s, 0);
    BeginUnclaimed(c, s, 0, op);
    assert Chosen(BeginPc(c, s, 0, op)).None?;
  }

  /** In a smooth run this phase never drops a claim. */
  lemma BeginUnclaimed(c: Cfg, s: State, w: nat, op: BeginOp)
    requires Good(c, s) && w < |s.workers| && BeginEnabled(c, s, w, op) && Smooth(s, Begin(w, op))
    ensures Claim(s.workers[w]).None? && Chosen(s.workers[w]).None?
  {
    hide Good, EnvRead;
  }

  /** A complete search either picks the one instance with room, or finds all of them full. */
  lemma FindDense(c: Cfg, s: State, op: AllocOp)
    requires Good(c, s) && !c.stale && c.freshIds && |s.workers| == 1 && Dense(s)
    requires At(s, 0) && AllocEnabled(c, s, 0, op) && op.Find? && op.listed.Some?
    ensures Dense(Next(c, s, Alloc(0, op)))
  {
    hide Good, Listing, Tenants, NewTarget, Started, FirstFit, ListsOf, AllOf;
    var items := op.listed.value;
    if FirstFit(items).Some? {
      ChosenListed(c, s, items);
    } else {
      AllFull(c, s, items);
    }
    IdFresh(c, s, op);
  }

  lemma IdFresh(c: Cfg, s: State, op: AllocOp)
    requires At(s, 0) && AllocEnabled(c, s, 0, op) && op.Find? && c.freshIds
    ensures NewTarget(op.id).ss !in Lists(s)
  {
    hide Listing, NewTarget, Tenants, FirstFit;
  }

  lemma ChosenListed(c: Cfg, s: State, items: seq<StatefulSet>)
    requires Good(c, s) && !c.stale && Listing(c, s, items) && FirstFit(items).Some?
    ensures FirstFit(items).value in Lists(s) && !Full(Lists(s)[FirstFit(items).value])
  {
    hide Good, FirstFit, Tenants;
    var i := ListedFit(c, s, items);
  }

  lemma AllFull(c: Cfg, s: State, items: seq<StatefulSet>)
    requires Good(c, s) && !c.stale && Listing(c, s, items) && FirstFit(items).None?
    ensures forall x | x in Lists(s) :: Full(Lists(s)[x])
  {
    hide Good, Tenants, Exact, FirstFit;
    forall i | 0 <= i < |items| ensures Exact(items[i]) { LiveSetOk(c, s, items[i].name); }
    FirstFitIsFirstFit(items);
    forall x | x in Lists(s) ensures Full(Lists(s)[x]) {
      var i :| 0 <= i < |items| && items[i] == s.sets[x];
      assert !HasRoom(items[i]);
    }
  }

  lemma AllocStarted(c: Cfg, s: State, w: nat, op: AllocOp)
    requires Good(c, s) && At(s, w) && AllocEnabled(c, s, w, op)
    ensures Started(AllocStore(c, s, w, op).envHistory) == Started(s.envHistory)
  {
    hide Good, AllocStage, Started, Tenants;
    AllocShape(c, s, w, op);
    if op.ToAssigned? {
      WorkerOk(c, s, w);
      var e := s.workers[w].env;
      AcceptedIsCurrent(c, s, e);
      LiveStarted(c, s, e.uid);
      StartedGrows(s.envHistory, Reply(s, e.(db := Assigned)));
    }
  }

  lemma AllocReadDense(c: Cfg, s: State, op: AllocOp)
    requires Good(c, s) && !c.stale && |s.workers| == 1 && Dense(s) && ClaimsUnlisted(s)
    requires At(s, 0) && AllocEnabled(c, s, 0, op) && Smooth(s, Alloc(0, op))
    requires !op.Find? && !op.AddPut? && !op.NewSetCreate?
    ensures Dense(Next(c, s, Alloc(0, op)))
  {
    hide Good, Tenants, Host, Started, AllOf, ListsOf, Listing, AllocStore;
    AllocShape(c, s, 0, op);
    AllocStarted(c, s, 0, op);
    ReadKeepsClaim(c, s, op);
  }

  lemma ReadKeepsClaim(c: Cfg, s: State, op: AllocOp)
    requires Good(c, s) && !c.stale && |s.workers| == 1 && ClaimsUnlisted(s)
    requires At(s, 0) && AllocEnabled(c, s, 0, op) && Smooth(s, Alloc(0, op))
    requires !op.Find? && !op.AddPut? && !op.NewSetCreate?
    ensures var pc := Continue(s.workers[0].env, AllocStage(c, s, 0, op));
      && Claim(pc) == Claim(s.workers[0]) && Chosen(pc) == Chosen(s.workers[0])
      && (PcDense(Lists(s), s.workers[0]) ==> PcDense(Lists(s), pc))
  {
    hide Good, Tenants, Host;
    if op.AddGet? {
      assert Claim(s.workers[0]) == Some(s.workers[0].env.uid);
      assert !Listed(s, Claim(s.workers[0]).value, op.copy.name);
    }
  }

  lemma NewSetDense(c: Cfg, s: State, op: AllocOp)
    requires Good(c, s) && |s.workers| == 1 && Dense(s)
    requires At(s, 0) && AllocEnabled(c, s, 0, op) && op.NewSetCreate? && !op.lost
    ensures Dense(Next(c, s, Alloc(0, op)))
  {
    hide Good, Tenants, Started, ListsOf, AllocStore;
    AllocShape(c, s, 0, op);
    AllocStarted(c, s, 0, op);
    NewSetShape(c, s, 0, false);
    AllOfGrows(Lists(s), Lists(Next(c, s, Alloc(0, op))));
  }

  /** Appending to the chosen instance fills its gap and gives up the choice. */
  lemma AddPacked(lists: map<string, seq<string>>, x: string, u: string, pc: Pc, pc': Pc)
    requires Packed(lists, pc) && x in lists && Chosen(pc) == Some(x) && !Full(lists[x])
    requires Chosen(pc').None? && !(pc'.Main? && (pc'.at.AtNewSetGet? || pc'.at.AtNewSetCreate?))
    ensures Packed(lists[x := lists[x] + [u]], pc')
  {
  }

  lemma AddDense(c: Cfg, s: State, op: AllocOp)
    requires Good(c, s) && |s.workers| == 1 && Dense(s)
    requires At(s, 0) && AllocEnabled(c, s, 0, op) && op.AddPut?
    ensures Dense(Next(c, s, Alloc(0, op)))
  {
    hide Good, Tenants, Started, ListsOf, AllocStore, Packed, AllOf;
    AllocShape(c, s, 0, op);
    AllocStarted(c, s, 0, op);
    AddShape(c, s, 0, op.lost);
    var s' := Next(c, s, Alloc(0, op));
    var x, u := s.workers[0].at.t.ss, s.workers[0].env.uid;
    ChosenHasRoom(Lists(s), s.workers[0]);
    AddPacked(Lists(s), x, u, s.workers[0], s'.workers[0]);
    InAllOf(Lists(s'), x, u);
    AllOfGrows(Lists(s), Lists(s'));
  }

  lemma ChosenHasRoom(lists: map<string, seq<string>>, pc: Pc)
    requires Packed(lists, pc) && pc.Main? && pc.at.AtAddPut?
    ensures pc.at.t.ss in lists && !Full(lists[pc.at.t.ss])
  {
  }

  lemma StepDense(c: Cfg, s: State, a: Action)
    requires Inv(c, s) && Coherent(c) && c.freshIds && c.workers == 1 && |s.workers| == 1 && Dense(s)
    requires Enabled(c, s, a) && Smooth(s, a)
    ensures |Next(c, s, a).workers| == 1 && Dense(Next(c, s, a))
  {
    hide Good, Safe, Dense, EnvEnabled, BeginEnabled, AllocEnabled, EnvNext, BeginStore, AllocStore, BeginPc, AllocStage;
    match a
    case Env(e) => EnvDense(c, s, e);
    case Begin(w, op) => BeginDense(c, s, op);
    case Alloc(w, op) =>
      if op.Find? { FindDense(c, s, op); }
      else if op.NewSetCreate? { NewSetDense(c, s, op); }
      else if op.AddPut? { AddDense(c, s, op); }
      else { AllocReadDense(c, s, op); }
    case Delete(_, _) =>
  }

  lemma {:induction false} AlwaysDense(c: Cfg, acts: seq<Action>)
    requires ValidRun(c, acts) && SmoothRun(c, acts) && Coherent(c) && c.freshIds && c.workers == 1
    ensures Inv(c, After(c, acts)) && |After(c, acts).workers| == 1 && Dense(After(c, acts))
  {
    hide Good, Once, Safe, Enabled, Next, Smooth;
    AlwaysSafe(c, acts);
    if acts != [] {
      var prefix := acts[..|acts| - 1];
      AlwaysDense(c, prefix);
      StepDense(c, After(c, prefix), acts[|acts| - 1]);
    }
  }

  // ---- theorem ----

  /** Between provisionings, the registered tenants are exactly the n started ones, they occupy
      ceil(n/10) instances, and at most one instance is not full. */
  lemma {:induction false} DensePacking(c: Cfg, acts: seq<Action>)
    requires ValidRun(c, acts) && SmoothRun(c, acts) && Coherent(c) && c.freshIds && c.workers == 1
    requires |After(c, acts).workers| == 1 && Claim(After(c, acts).workers[0]).None?
    ensures var s := After(c, acts); var n := |Started(s.envHistory)|;
      && AllOf(Lists(s)) == Started(s.envHistory)
      && |s.sets| == (n + 9) / 10
      && forall x, y | x in s.sets && y in s.sets && HasRoom(s.sets[x]) && HasRoom(s.sets[y]) :: x == y
  {
    hide Good, Once, Safe, ValidRun, After, SmoothRun, Tenants, Exact;
    AlwaysDense(c, acts);
    AlwaysBounded(c, acts);
    var s := After(c, acts);
    var lists := Lists(s);
    assert lists.Keys == s.sets.Keys;
    forall x | x in lists ensures lists[x] != [] && |lists[x]| <= MAX_TENANTS && NoDuplicates(lists[x]) {
      ListFacts(c, s, x);
    }
    OnceLists(s);
    ListedStarts(c, s);
    PackedCount(lists);
  }

  lemma ListFacts(c: Cfg, s: State, x: string)
    requires Good(c, s) && Bounded(s) && |s.workers| == 1 && x in Lists(s)
    ensures |Lists(s)[x]| <= MAX_TENANTS && NoDuplicates(Lists(s)[x])
  {
    hide Good, Tenants;
    LiveSetOk(c, s, x);
  }

  lemma OnceLists(s: State)
    requires Once(s)
    ensures forall x, y, u | x in Lists(s) && y in Lists(s) && u in Lists(s)[x] && u in Lists(s)[y] :: x == y
  {
    hide ListsOf;
    forall x, y, u | x in Lists(s) && y in Lists(s) && u in Lists(s)[x] && u in Lists(s)[y] ensures x == y {
      assert Listed(s, u, x) && Listed(s, u, y);
    }
  }

  lemma ListedStarts(c: Cfg, s: State)
    requires Inv(c, s)
    ensures forall u | u in AllOf(Lists(s)) :: u in Started(s.envHistory)
  {
    hide Good, Safe, ListsOf;
    forall u | u in AllOf(Lists(s)) ensures u in Started(s.envHistory) {
      var x :| x in Lists(s) && u in Lists(s)[x];
      ListedIsStarted(c, s, u, x);
    }
  }

  lemma ListedIsStarted(c: Cfg, s: State, u: string, x: string)
    requires Inv(c, s) && Listed(s, u, x)
    ensures u in Started(s.envHistory)
  {
    hide Good, ListsOf, Started, KeysDiffer, WorkersAnchored, RemovedUnlisted, ActiveAnchored, DropsInactive;
    ListedStarted(c, s, u);
    LiveStarted(c, s, u);
  }
}
