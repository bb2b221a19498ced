/** With one worker, coherent reads and UIDs that differ in their first eight characters, the
    init job of every registered tenant carries its instance's name and master secret. */
module InitJobs {
  import opened GoStrings
  import opened Objects
  import opened Registry
  import opened Naming
  import opened Lifecycle
  import opened History
  import opened Shapes
  import opened AtMostOne
  import opened NoOrphan
  import opened Credentials
  import opened SingleWorker

  predicate NoJob(s: State, u: string) {
    |u| >= 8 && InitJobName(u) !in s.jobs
  }

  /** The tenant's init job is labelled with instance x and mounts its master secret. */
  predicate JobFor(s: State, u: string, x: string) {
    && |u| >= 8 && InitJobName(u) in s.jobs && |x| >= ID_LENGTH
    && s.jobs[InitJobName(u)] == DbJob(u, x, MasterFromSs(x))
  }

  predicate BeforeJob(at: Stage) {
    BeforeSecret(at) || at.AtJobGet? || at.AtJobCreate?
  }

  /** What the stage of the worker says about init jobs. */
  predicate PcJob(s: State, pc: Pc) {
    && (pc.Main? && PreAdd(pc.at) ==>
          if BeforeJob(pc.at) then NoJob(s, pc.env.uid) else JobFor(s, pc.env.uid, pc.at.t.ss))
    && (pc.Main? && pc.at.AtCleanJobs? ==>
          forall j | j in pc.at.todo && j in s.jobs :: s.jobs[j].ssName == pc.at.x)
  }

  ghost predicate PrefixesDiffer(history: set<TenantEnv>) {
    forall e, f | e in history && f in history && |e.uid| >= 8 && |f.uid| >= 8 && e.uid[..8] == f.uid[..8] ::
      e.uid == f.uid
  }

  ghost predicate JobsEntered(s: State) {
    forall n | n in s.jobs :: |s.jobs[n].uid| >= 8 && n == InitJobName(s.jobs[n].uid) && Entered(s, s.jobs[n].uid)
  }

  ghost predicate ListedJob(s: State) {
    forall u, x | Listed(s, u, x) :: JobFor(s, u, x)
  }

  ghost predicate Jobbed(s: State) {
    && PrefixesDiffer(s.envHistory) && JobsEntered(s) && ListedJob(s)
    && forall w | 0 <= w < |s.workers| :: PcJob(s, s.workers[w])
  }

  lemma JobsSame(s: State, s': State)
    requires s'.jobs == s.jobs
    ensures forall u, x :: JobFor(s', u, x) <==> JobFor(s, u, x)
    ensures forall u :: NoJob(s', u) <==> NoJob(s, u)
    ensures forall pc :: PcJob(s, pc) ==> PcJob(s', pc)
  {
    hide MasterFromSs, InitJobName;
  }

  /** A step that keeps the jobs, lists nobody new and moves the worker to pc. */
  lemma QuietJobs(s: State, s': State)
    requires Jobbed(s) && s'.jobs == s.jobs && s.envHistory <= s'.envHistory && PrefixesDiffer(s'.envHistory)
    requires forall u, x | Listed(s', u, x) :: Listed(s, u, x)
    requires forall w | 0 <= w < |s'.workers| :: PcJob(s, s'.workers[w])
    ensures Jobbed(s')
  {
    JobsSame(s, s');
    hide JobFor, NoJob, PcJob, Listed, InitJobName;
  }

  lemma SameUids(s: State, s': State)
    requires PrefixesDiffer(s.envHistory)
    requires forall e | e in s'.envHistory :: exists f :: f in s.envHistory && f.uid == e.uid
    ensures PrefixesDiffer(s'.envHistory)
  {
    forall e, f | e in s'.envHistory && f in s'.envHistory && |e.uid| >= 8 && |f.uid| >= 8 && e.uid[..8] == f.uid[..8]
      ensures e.uid == f.uid
    {
      var e0 :| e0 in s.envHistory && e0.uid == e.uid;
      var f0 :| f0 in s.envHistory && f0.uid == f.uid;
    }
  }

  lemma EnvJobs(c: Cfg, s: State, a: EnvAction)
    requires Inv(c, s) && c.distinct && Jobbed(s) && EnvEnabled(c, s, a)
    ensures Jobbed(EnvNext(s, a))
  {
    hide Good, Once, Safe, ListsOf, PcJob, JobsEntered, ListedJob;
    EnvShape(c, s, a);
    if a.UserEdit? || a.UserDelete? { LiveOk(c, s, a.uid); }
    QuietJobs(s, EnvNext(s, a));
  }

  /** A tenant that enters provisioning cannot find a job under its name. */
  lemma JobNamesApart(u: string, v: string)
    requires |u| >= 8 && |v| >= 8 && InitJobName(u) == InitJobName(v)
    ensures u[..8] == v[..8]
  {
    assert InitJobName(u)[8..] == u[..8] && InitJobName(v)[8..] == v[..8];
  }

  lemma EntersJobless(c: Cfg, s: State, e: TenantEnv)
    requires Good(c, s) && Jobbed(s) && e in s.envHistory && |e.uid| >= 8 && !Entered(s, e.uid)
    ensures NoJob(s, e.uid)
  {
    hide Good, ListedJob, PcJob, InitJobName;
    var n := InitJobName(e.uid);
    if n in s.jobs {
      var u := s.jobs[n].uid;
      var f :| f in s.envHistory && f.uid == u;
      JobNamesApart(u, e.uid);
    }
  }

  lemma BeginJobs(c: Cfg, s: State, op: BeginOp)
    requires Inv(c, s) && |s.workers| == 1 && Jobbed(s) && BeginEnabled(c, s, 0, op)
    ensures Jobbed(Next(c, s, Begin(0, op)))
  {
    hide Good, Once, Safe, ListsOf, PcJob, JobsEntered, ListedJob, NoJob, JobFor, BeginPc, BeginStore, BeginEnabled;
    hide PrefixesDiffer;
    var s1, pc := BeginStore(c, s, 0, op), BeginPc(c, s, 0, op);
    BeginShape(c, s, 0, op);
    BeginClaim(c, s, 0, op);
    BeginCondemns(c, s, 0, op);
    BeginUids(c, s, 0, op);
    if Claim(pc).Some? {
      FirstEntry(c, s, s.workers[0].env);
      StoredOk(c, s, s.workers[0].env);
      EntersJobless(c, s, s.workers[0].env);
    }
    PcJobBegin(s, pc);
    QuietJobs(s, Goto(s1, 0, pc));
  }

  lemma BeginUids(c: Cfg, s: State, w: nat, op: BeginOp)
    requires Good(c, s) && PrefixesDiffer(s.envHistory) && w < |s.workers| && BeginEnabled(c, s, w, op)
    ensures PrefixesDiffer(BeginStore(c, s, w, op).envHistory)
  {
    hide Good, EnvRead, PrefixesDiffer;
    WorkerOk(c, s, w);
    if (s.workers[w].Main? || s.workers[w].PodMarking?) && s.workers[w].env.uid in s.envs {
      LiveOk(c, s, s.workers[w].env.uid);
    }
    SameUids(s, BeginStore(c, s, w, op));
  }

  lemma PcJobBegin(s: State, pc: Pc)
    requires Claim(pc).Some? ==> pc.at.AtFind? && NoJob(s, pc.env.uid)
    requires Condemned(pc).None?
    ensures PcJob(s, pc)
  {
  }

  lemma AllocPcJob(c: Cfg, s: State, w: nat, op: AllocOp)
    requires Good(c, s) && !c.stale && At(s, w) && PcJob(s, s.workers[w]) && AllocEnabled(c, s, w, op)
    requires !op.JobCreate? && !op.AddPut?
    ensures PcJob(s, Continue(s.workers[w].env, AllocStage(c, s, w, op)))
  {
    hide Good, Listing, Tenants, Host, FirstFit, NewTarget, ReuseTarget, ValidId, MasterFromSs;
  }

  lemma AllocJobs(c: Cfg, s: State, op: AllocOp)
    requires Inv(c, s) && Coherent(c) && |s.workers| == 1 && Jobbed(s) && At(s, 0) && AllocEnabled(c, s, 0, op)
    requires !op.JobCreate? && !op.AddPut?
    ensures Jobbed(Next(c, s, Alloc(0, op)))
  {
    hide Good, Once, Safe, ListsOf, AllocEnabled, AllocStore, AllocStage, PcJob, JobsEntered, ListedJob;
    var s1, pc := AllocStore(c, s, 0, op), Continue(s.workers[0].env, AllocStage(c, s, 0, op));
    AllocShape(c, s, 0, op);
    AllocUids(c, s, 0, op);
    if op.NewSetCreate? { NewSetShape(c, s, 0, op.lost); }
    AllocPcJob(c, s, 0, op);
    QuietJobs(s, Goto(s1, 0, pc));
  }

  lemma AllocUids(c: Cfg, s: State, w: nat, op: AllocOp)
    requires Good(c, s) && PrefixesDiffer(s.envHistory) && At(s, w) && AllocEnabled(c, s, w, op)
    ensures PrefixesDiffer(AllocStore(c, s, w, op).envHistory)
  {
    hide Good, AllocStage, PrefixesDiffer, Tenants;
    AllocShape(c, s, w, op);
    WorkerOk(c, s, w);
    if op.ToAssigned? { LiveOk(c, s, s.workers[w].env.uid); }
    SameUids(s, AllocStore(c, s, w, op));
  }

  /** Creating a job leaves every other tenant's job alone. */
  lemma CreateKeepsJobs(s: State, u: string, job: DbJob, v: string, x: string)
    requires NoJob(s, u) && JobFor(s, v, x)
    ensures JobFor(s.(jobs := s.jobs[InitJobName(u) := job]), v, x)
  {
    hide InitJobName, MasterFromSs;
  }

  lemma CreatedJob(c: Cfg, s: State, op: AllocOp)
    requires Good(c, s) && Keyed(s) && |s.workers| == 1 && At(s, 0) && AllocEnabled(c, s, 0, op) && op.JobCreate?
    requires PcJob(s, s.workers[0])
    ensures |s.workers[0].env.uid| >= 8
    ensures JobFor(AllocStore(c, s, 0, op), s.workers[0].env.uid, s.workers[0].at.t.ss)
    ensures NoJob(s, s.workers[0].env.uid) && Claim(s.workers[0]) == Some(s.workers[0].env.uid)
    ensures exists job :: AllocStore(c, s, 0, op) == s.(jobs := s.jobs[InitJobName(s.workers[0].env.uid) := job])
                          && job.uid == s.workers[0].env.uid
  {
    hide Good, ListsOf, Host, SsFromHost, IsSsName, ListedSecret, SecretsEntered, SecretFor, InitJobName, MasterFromSs;
    var t := s.workers[0].at.t;
    WorkerOk(c, s, 0);
    assert PcSecret(s, s.workers[0]);
    SsNameCoheres(t.ss);
    assert IsSsName(t.ss) ==> |t.ss| >= ID_LENGTH by { NameLength(t.ss); }
  }

  lemma NameLength(x: string)
    ensures IsSsName(x) ==> |x| >= ID_LENGTH
  {
  }

  lemma JobCreateJobs(c: Cfg, s: State, op: AllocOp)
    requires Inv(c, s) && Keyed(s) && |s.workers| == 1 && Jobbed(s)
    requires At(s, 0) && AllocEnabled(c, s, 0, op) && op.JobCreate?
    ensures Jobbed(Next(c, s, Alloc(0, op)))
  {
    hide Good, Once, Safe, Keyed, ListsOf, AllocStore, JobFor, NoJob, PcJob, InitJobName, Listing, Tenants;
    var u := s.workers[0].env.uid;
    var s1, pc := AllocStore(c, s, 0, op), Continue(s.workers[0].env, AllocStage(c, s, 0, op));
    var s' := Goto(s1, 0, pc);
    CreatedJob(c, s, op);
    ClaimedEntered(c, s, 0);
    var job :| s1 == s.(jobs := s.jobs[InitJobName(u) := job]) && job.uid == u;
    JobsSame(s1, s');
    assert forall v, x :: Listed(s', v, x) <==> Listed(s, v, x);
    forall v, x | Listed(s', v, x) ensures JobFor(s', v, x) {
      assert JobFor(s, v, x);
      CreateKeepsJobs(s, u, job, v, x);
    }
    NowHasJob(s', pc, s.workers[0].at);
    assert JobsEntered(s') by { CreatedEntered(s, s', u, job); }
  }

  lemma NowHasJob(s: State, pc: Pc, at: Stage)
    requires at.AtJobCreate? && (pc == Idle || (pc.Main? && pc.at == AtAddGet(at.t, 0) && JobFor(s, pc.env.uid, at.t.ss)))
    ensures PcJob(s, pc)
  {
  }

  lemma CreatedEntered(s: State, s': State, u: string, job: DbJob)
    requires JobsEntered(s) && NoJob(s, u) && s'.jobs == s.jobs[InitJobName(u) := job] && job.uid == u
    requires s'.envHistory == s.envHistory && Entered(s, u)
    ensures JobsEntered(s')
  {
    hide InitJobName;
    assert forall v :: Entered(s', v) <==> Entered(s, v);
  }

  lemma AddHasJob(s: State, pc: Pc)
    requires PcJob(s, pc) && pc.Main? && pc.at.AtAddPut?
    ensures JobFor(s, pc.env.uid, pc.at.t.ss)
  {
  }

  /** Listing a tenant that has its job. */
  lemma ListingKeeps(s: State, s': State, u: string, y: string)
    requires Jobbed(s) && s'.jobs == s.jobs && s'.envHistory == s.envHistory && |s'.workers| == 1
    requires JobFor(s, u, y) && PcJob(s', s'.workers[0])
    requires forall v, x | Listed(s', v, x) :: Listed(s, v, x) || (v == u && x == y)
    ensures Jobbed(s')
  {
    JobsSame(s, s');
    hide JobFor, NoJob, PcJob, Listed, InitJobName;
  }

  lemma AddJobs(c: Cfg, s: State, op: AllocOp)
    requires Inv(c, s) && |s.workers| == 1 && Jobbed(s)
    requires At(s, 0) && AllocEnabled(c, s, 0, op) && op.AddPut?
    ensures Jobbed(Next(c, s, Alloc(0, op)))
  {
    hide Good, Once, Safe, ListsOf, Tenants, AddTenant, JobFor, NoJob, PcJob;
    hide AllocStore, JobsEntered, ListedJob, PrefixesDiffer;
    var s1, pc := AllocStore(c, s, 0, op), Continue(s.workers[0].env, AllocStage(c, s, 0, op));
    AddShape(c, s, 0, op.lost);
    AllocShape(c, s, 0, op);
    AddHasJob(s, s.workers[0]);
    PcJobBegin(Goto(s1, 0, pc), pc);
    ListingKeeps(s, Goto(s1, 0, pc), s.workers[0].env.uid, s.workers[0].at.t.ss);
  }

  /** The jobs that a cleanup deletes belong to no registered tenant. */
  lemma DeleteJobs(c: Cfg, s: State, op: DeleteOp)
    requires Inv(c, s) && CondemnedEmpty(s) && |s.workers| == 1 && Jobbed(s) && At(s, 0) && DeleteEnabled(c, s, 0, op)
    requires !op.CleanJob?
    ensures Jobbed(Next(c, s, Delete(0, op)))
  {
    hide Good, Once, Safe, CondemnedEmpty, ListsOf, DeleteEnabled, DeleteStore, DeleteStage;
    hide PcJob, JobsEntered, ListedJob, Without;
    var s1, pc := DeleteStore(c, s, 0, op), Continue(s.workers[0].env, DeleteStage(c, s, 0, op));
    DeleteShape(c, s, 0, op);
    if op.RemovePut? { RemoveShape(c, s, 0, op.lost); }
    DeletePcJob(c, s, 0, op);
    QuietJobs(s, Goto(s1, 0, pc));
  }

  lemma DeletePcJob(c: Cfg, s: State, w: nat, op: DeleteOp)
    requires Good(c, s) && At(s, w) && DeleteEnabled(c, s, w, op) && !op.CleanJob?
    ensures PcJob(s, Continue(s.workers[w].env, DeleteStage(c, s, w, op)))
  {
    hide Good, Listing, Tenants, Holder, RemoveTenant;
  }

  /** A job labelled with the condemned instance belongs to no registered tenant. */
  lemma CleanedForeign(s: State, u: string, x: string, job: string)
    requires CondemnedEmpty(s) && |s.workers| == 1 && At(s, 0) && s.workers[0].at.AtCleanJobs?
    requires PcJob(s, s.workers[0]) && job in s.workers[0].at.todo
    requires Listed(s, u, x) && JobFor(s, u, x)
    ensures JobFor(s.(jobs := s.jobs - {job}), u, x)
  {
    hide ListsOf, InitJobName, MasterFromSs;
    assert Condemned(s.workers[0]) == Some(s.workers[0].at.x);
  }

  lemma CleanPcJob(s: State, job: string, applied: bool)
    requires |s.workers| == 1 && At(s, 0) && s.workers[0].at.AtCleanJobs? && PcJob(s, s.workers[0])
    ensures PcJob(if applied then s.(jobs := s.jobs - {job}) else s,
                  Main(s.workers[0].env, AtCleanJobs(s.workers[0].at.x, s.workers[0].at.todo - {job})))
  {
  }

  lemma CleanJobJobs(c: Cfg, s: State, op: DeleteOp)
    requires Inv(c, s) && CondemnedEmpty(s) && |s.workers| == 1 && Jobbed(s) && At(s, 0)
    requires DeleteEnabled(c, s, 0, op) && op.CleanJob?
    ensures Jobbed(Next(c, s, Delete(0, op)))
  {
    hide Good, Once, Safe, CondemnedEmpty, ListsOf, InitJobName, JobFor, PcJob;
    var s' := Next(c, s, Delete(0, op));
    var s1 := if op.applied then s.(jobs := s.jobs - {op.job}) else s;
    CleanPcJob(s, op.job, op.applied);
    assert s' == Goto(s1, 0, s'.workers[0]);
    JobsSame(s1, s');
    assert forall u, x :: Listed(s', u, x) <==> Listed(s, u, x);
    forall u, x | Listed(s', u, x) ensures JobFor(s', u, x) {
      assert JobFor(s, u, x);
      CleanedForeign(s, u, x, op.job);
    }
  }

  ghost predicate AllInv(c: Cfg, s: State) {
    Inv(c, s) && CondemnedEmpty(s) && Keyed(s) && Jobbed(s)
  }

  lemma StepJobbed(c: Cfg, s: State, a: Action)
    requires AllInv(c, s) && Coherent(c) && c.distinct && c.workers == 1 && Enabled(c, s, a)
    ensures Jobbed(Next(c, s, a))
  {
    hide Good, Once, Safe, CondemnedEmpty, Keyed, Jobbed, EnvEnabled, BeginEnabled, AllocEnabled, DeleteEnabled;
    hide EnvNext, BeginStore, AllocStore, DeleteStore, BeginPc, AllocStage, DeleteStage;
    WorkerCount(c, s);
    match a
    case Env(e) => EnvJobs(c, s, e);
    case Begin(w, op) => BeginJobs(c, s, op);
    case Alloc(w, op) =>
      if op.JobCreate? { JobCreateJobs(c, s, op); }
      else if op.AddPut? { AddJobs(c, s, op); }
      else { AllocJobs(c, s, op); }
    case Delete(w, op) =>
      if op.CleanJob? { CleanJobJobs(c, s, op); } else { DeleteJobs(c, s, op); }
  }

  lemma {:induction false} AlwaysJobbed(c: Cfg, acts: seq<Action>)
    requires ValidRun(c, acts) && Coherent(c) && c.distinct && c.workers == 1
    ensures AllInv(c, After(c, acts))
  {
    hide Good, Once, Safe, CondemnedEmpty, Keyed, Enabled, Next;
    AlwaysSafe(c, acts);
    AlwaysCondemnedEmpty(c, acts);
    AlwaysKeyed(c, acts);
    if acts != [] {
      var prefix := acts[..|acts| - 1];
      AlwaysJobbed(c, prefix);
      StepJobbed(c, After(c, prefix), acts[|acts| - 1]);
    }
  }

  /** Credential agreement: the secret, the job label and the mounted master secret of a
      registered tenant all name the one instance that lists it. */
  lemma {:induction false} CredentialsAgree(c: Cfg, acts: seq<Action>, u: string, x: string)
    requires ValidRun(c, acts) && Coherent(c) && c.distinct && c.workers == 1
    requires Listed(After(c, acts), u, x)
    ensures var s := After(c, acts);
      && |u| >= 8 && |x| == 17 && "db-init-" + u[..8] in s.jobs
      && s.jobs["db-init-" + u[..8]] == DbJob(u, x, "postgresql-master-secret-" + x[11..])
      && u in s.secrets && Split(s.secrets[u], '.') == [x, "shared-services", "svc", "cluster", "local"]
  {
    hide Good, Once, Safe, CondemnedEmpty, ValidRun, After, Host, Split, Tenants, Exact;
    AlwaysJobbed(c, acts);
    var s := After(c, acts);
    assert SecretFor(s, u, x) && JobFor(s, u, x);
    LiveSetOk(c, s, x);
    HostParts(x);
    MasterOf(x);
  }

  lemma MasterOf(x: string)
    requires IsSsName(x)
    ensures |x| == 17 && MasterFromSs(x) == "postgresql-master-secret-" + x[11..]
  {
    assert LastSix(x) == x[11..];
  }
}
