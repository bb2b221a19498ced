/** The database-secret of every registered tenant names the instance whose list holds it (any
    number of workers, coherent reads), and with one worker its init job carries that instance's
    master secret and StatefulSet name. */
module Credentials {
  import opened GoStrings
  import opened Objects
  import opened Registry
  import opened Naming
  import opened Lifecycle
  import opened History
  import opened Shapes
  import opened AtMostOne
  import opened NoOrphan

  /** DB_HOST of the tenant is the host of instance x, in an active namespace. */
  predicate SecretFor(s: State, u: string, x: string) {
    u in s.secrets && s.secrets[u] == Host(x, SHARED_NS) && u in s.namespaces && s.namespaces[u] == Active
  }

  predicate BeforeSecret(at: Stage) {
    at.AtFind? || at.AtNewSetGet? || at.AtNewSetCreate? || at.AtSecretGet? || at.AtSecretCreate?
  }

  /** What the stage of a worker says about its tenant's secret. */
  predicate PcSecret(s: State, pc: Pc) {
    pc.Main? && PreAdd(pc.at) ==>
      if BeforeSecret(pc.at) then pc.env.uid !in s.secrets
      else SecretFor(s, pc.env.uid, pc.at.t.ss)
           && (pc.at.AtJobGet? || pc.at.AtJobCreate? ==> pc.at.host == Host(pc.at.t.ss, SHARED_NS))
  }

  ghost predicate SecretsEntered(s: State) {
    forall u | u in s.secrets :: Entered(s, u)
  }

  ghost predicate ListedSecret(s: State) {
    forall u, x | Listed(s, u, x) :: SecretFor(s, u, x)
  }

  ghost predicate Keyed(s: State) {
    && SecretsEntered(s) && ListedSecret(s)
    && forall w | 0 <= w < |s.workers| :: PcSecret(s, s.workers[w])
  }

  /** Tenants whose secret some list or some worker relies on. */
  ghost predicate InUse(s: State, u: string) {
    (exists x :: Listed(s, u, x)) || (exists w :: 0 <= w < |s.workers| && Claim(s.workers[w]) == Some(u))
  }

  /** A write that makes no secret, loses none in use and lists nobody. */
  lemma WorldKeyed(s: State, s': State)
    requires Keyed(s) && s'.workers == s.workers && s.envHistory <= s'.envHistory
    requires forall u | u in s'.secrets :: u in s.secrets
    requires forall u, x | SecretFor(s, u, x) && InUse(s, u) :: SecretFor(s', u, x)
    requires forall u, x | Listed(s', u, x) :: Listed(s, u, x)
    ensures Keyed(s')
  {
    hide SecretFor, Listed, Host;
    forall w | 0 <= w < |s'.workers| ensures PcSecret(s', s'.workers[w]) {
      var pc := s.workers[w];
      assert PcSecret(s, pc);
      if pc.Main? && PreAdd(pc.at) {
        assert Claim(s.workers[w]) == Some(pc.env.uid);
        assert InUse(s, pc.env.uid);
        if !BeforeSecret(pc.at) { assert SecretFor(s', pc.env.uid, pc.at.t.ss); }
      }
    }
  }

  lemma GotoKeyed(s: State, w: nat, pc: Pc)
    requires Keyed(s) && w < |s.workers| && PcSecret(s, pc)
    ensures Keyed(Goto(s, w, pc))
  {
    hide ListsOf;
    var s' := Goto(s, w, pc);
    assert forall u, x :: Listed(s', u, x) <==> Listed(s, u, x);
    assert forall u, x :: SecretFor(s', u, x) <==> SecretFor(s, u, x) by { hide Host; }
    hide SecretFor, Listed, PreAdd;
    forall v | 0 <= v < |s'.workers| ensures PcSecret(s', s'.workers[v]) {
      if v != w { assert PcSecret(s, s.workers[v]); }
    }
  }

  lemma SecretsSame(s: State, s': State)
    requires s'.secrets == s.secrets && s'.namespaces == s.namespaces
    ensures forall u, x :: SecretFor(s', u, x) <==> SecretFor(s, u, x)
  {
    hide Host;
  }

  lemma EnvKeyed(c: Cfg, s: State, a: EnvAction)
    requires Inv(c, s) && Keyed(s) && EnvEnabled(c, s, a)
    ensures Keyed(EnvNext(s, a))
  {
    hide Good, Once, Safe, ListsOf, Keyed, Host;
    EnvShape(c, s, a);
    WorldKeyed(s, EnvNext(s, a));
  }

  lemma BeginKeyed(c: Cfg, s: State, w: nat, op: BeginOp)
    requires Inv(c, s) && Keyed(s) && w < |s.workers| && BeginEnabled(c, s, w, op)
    ensures Keyed(Next(c, s, Begin(w, op)))
  {
    hide Good, Once, Safe, ListsOf, Host, PcSecret, BeginPc, ListedSecret;
    var s1, pc := BeginStore(c, s, w, op), BeginPc(c, s, w, op);
    BeginShape(c, s, w, op);
    BeginClaim(c, s, w, op);
    assert forall u, x | SecretFor(s, u, x) :: SecretFor(s1, u, x);
    WorldKeyed(s, s1);
    assert PcSecret(s1, pc) by {
      if Claim(pc).Some? {
        FirstEntry(c, s, s.workers[w].env);
        NewClaimKeyless(s1, pc);
      } else {
        NoClaimKeyless(s1, pc);
      }
    }
    GotoKeyed(s1, w, pc);
  }

  lemma NewClaimKeyless(s: State, pc: Pc)
    requires pc.Main? && pc.at.AtFind? && pc.env.uid !in s.secrets
    ensures PcSecret(s, pc)
  {
  }

  lemma NoClaimKeyless(s: State, pc: Pc)
    requires Claim(pc).None?
    ensures PcSecret(s, pc)
  {
  }

  /** Creating the secret: a claimed tenant that had none gets its instance's host. */
  lemma SecretCreateKeyed(c: Cfg, s: State, w: nat, op: AllocOp)
    requires Inv(c, s) && Keyed(s) && At(s, w) && AllocEnabled(c, s, w, op) && op.SecretCreate?
    ensures Keyed(Next(c, s, Alloc(w, op)))
  {
    hide Good, Safe, ListsOf, TargetOk;
    var u, t := s.workers[w].env.uid, s.workers[w].at.t;
    var s' := Next(c, s, Alloc(w, op));
    WorkerOk(c, s, w);
    TargetNamed(t);
    ClaimedEntered(c, s, w);
    hide Host;
    assert forall v, x :: Listed(s', v, x) <==> Listed(s, v, x);
    forall v | 0 <= v < |s'.workers| && v != w ensures PcSecret(s', s'.workers[v]) {
      assert PcSecret(s, s.workers[v]);
    }
  }

  lemma AddKeyed(c: Cfg, s: State, w: nat, op: AllocOp)
    requires Inv(c, s) && Keyed(s) && At(s, w) && AllocEnabled(c, s, w, op) && op.AddPut?
    ensures Keyed(Next(c, s, Alloc(w, op)))
  {
    hide Good, Once, Safe, ListsOf, Tenants, Host, AddTenant;
    AddShape(c, s, w, op.lost);
    AllocShape(c, s, w, op);
    var s' := Next(c, s, Alloc(w, op));
    var u, y := s.workers[w].env.uid, s.workers[w].at.t.ss;
    assert PcSecret(s, s.workers[w]);
    assert forall v, x :: Listed(s', v, x) <==> Listed(s, v, x) || (v == u && x == y);
    assert forall v, x :: SecretFor(s', v, x) <==> SecretFor(s, v, x);
    forall v | 0 <= v < |s'.workers| && v != w ensures PcSecret(s', s'.workers[v]) {
      assert PcSecret(s, s.workers[v]);
    }
  }

  /** Later stages keep the target, and never find a secret that the claim did not make. */
  lemma AllocPcKeyed(c: Cfg, s: State, w: nat, op: AllocOp)
    requires Good(c, s) && !c.stale && At(s, w) && PcSecret(s, s.workers[w]) && AllocEnabled(c, s, w, op)
    requires !op.SecretCreate? && !op.AddPut?
    ensures PcSecret(s, Continue(s.workers[w].env, AllocStage(c, s, w, op)))
  {
    hide Good, Listing, Tenants, Host, FirstFit, NewTarget, ReuseTarget, ValidId;
  }

  lemma AllocKeyed(c: Cfg, s: State, w: nat, op: AllocOp)
    requires Inv(c, s) && Coherent(c) && Keyed(s) && At(s, w) && AllocEnabled(c, s, w, op)
    requires !op.SecretCreate? && !op.AddPut?
    ensures Keyed(Next(c, s, Alloc(w, op)))
  {
    hide Good, Once, Safe, ListsOf, AllocEnabled, AllocStore, AllocStage, SecretFor, PcSecret;
    var s1, pc := AllocStore(c, s, w, op), Continue(s.workers[w].env, AllocStage(c, s, w, op));
    AllocShape(c, s, w, op);
    if op.NewSetCreate? { NewSetShape(c, s, w, op.lost); }
    SecretsSame(s, s1);
    WorldKeyed(s, s1);
    AllocPcKeyed(c, s, w, op);
    SamePcSecret(s, s1, pc);
    GotoKeyed(s1, w, pc);
  }

  lemma SamePcSecret(s: State, s': State, pc: Pc)
    requires s'.secrets == s.secrets && s'.namespaces == s.namespaces && PcSecret(s, pc)
    ensures PcSecret(s', pc)
  {
    hide Host;
  }

  lemma DeleteKeyed(c: Cfg, s: State, w: nat, op: DeleteOp)
    requires Inv(c, s) && Keyed(s) && At(s, w) && DeleteEnabled(c, s, w, op)
    ensures Keyed(Next(c, s, Delete(w, op)))
  {
    hide Good, Once, Safe, ListsOf, DeleteEnabled, DeleteStore, DeleteStage, SecretFor, PcSecret, Keyed, Without;
    var s1, pc := DeleteStore(c, s, w, op), Continue(s.workers[w].env, DeleteStage(c, s, w, op));
    DeleteShape(c, s, w, op);
    DeleteClaim(c, s, w, op);
    if op.RemovePut? { RemoveShape(c, s, w, op.lost); }
    if op.NsDelete? { NsDeleteUnused(c, s, w, op); } else { SecretsSame(s, s1); }
    WorldKeyed(s, s1);
    NoClaimKeyless(s1, pc);
    GotoKeyed(s1, w, pc);
  }

  /** The namespace of a tenant is only terminated when nothing relies on its secret. */
  lemma NsDeleteUnused(c: Cfg, s: State, w: nat, op: DeleteOp)
    requires Inv(c, s) && At(s, w) && DeleteEnabled(c, s, w, op) && op.NsDelete?
    ensures !InUse(s, s.workers[w].env.uid)
    ensures forall u, x | SecretFor(s, u, x) && InUse(s, u) :: SecretFor(DeleteStore(c, s, w, op), u, x)
  {
    hide Good, Once, Safe, ListsOf, Host;
    OwnPc(c, s, w);
    forall v | 0 <= v < |s.workers| && Claim(s.workers[v]) == Some(s.workers[w].env.uid) ensures false {
      Apart(c, s, v, w);
    }
  }

  lemma Apart(c: Cfg, s: State, v: nat, w: nat)
    requires Inv(c, s) && At(s, v) && At(s, w) && s.workers[v].env.uid == s.workers[w].env.uid
    ensures v == w
  {
    hide Good, Once, WorkersAnchored, ListedAnchored, RemovedUnlisted, ActiveAnchored, DropsInactive;
    SameTenantSameWorker(c, s, v, w);
  }

  lemma StepKeyed(c: Cfg, s: State, a: Action)
    requires Inv(c, s) && Coherent(c) && Keyed(s) && Enabled(c, s, a)
    ensures Keyed(Next(c, s, a))
  {
    hide Good, Once, Safe, Keyed, EnvEnabled, BeginEnabled, AllocEnabled, DeleteEnabled;
    hide EnvNext, BeginStore, AllocStore, DeleteStore, BeginPc, AllocStage, DeleteStage;
    match a
    case Env(e) => EnvKeyed(c, s, e);
    case Begin(w, op) => BeginKeyed(c, s, w, op);
    case Alloc(w, op) =>
      if op.SecretCreate? { SecretCreateKeyed(c, s, w, op); }
      else if op.AddPut? { AddKeyed(c, s, w, op); }
      else { AllocKeyed(c, s, w, op); }
    case Delete(w, op) => DeleteKeyed(c, s, w, op);
  }

  lemma {:induction false} AlwaysKeyed(c: Cfg, acts: seq<Action>)
    requires ValidRun(c, acts) && Coherent(c)
    ensures Inv(c, After(c, acts)) && Keyed(After(c, acts))
  {
    hide Good, Once, Safe, Enabled, Next;
    AlwaysSafe(c, acts);
    if acts != [] {
      var prefix := acts[..|acts| - 1];
      AlwaysKeyed(c, prefix);
      StepKeyed(c, After(c, prefix), acts[|acts| - 1]);
    }
  }

  /** DB_HOST of every registered tenant is the cluster address of the service of the instance whose
      list holds it, and parsing that host gives back the instance name. */
  lemma {:induction false} SecretNamesInstance(c: Cfg, acts: seq<Action>, u: string, x: string)
    requires ValidRun(c, acts) && Coherent(c) && Listed(After(c, acts), u, x)
    ensures var s := After(c, acts);
            && u in s.secrets && SsFromHost(s.secrets[u]) == x
            && Split(s.secrets[u], '.') == [x, "shared-services", "svc", "cluster", "local"]
  {
    hide Good, Once, Safe, ValidRun, After, Host, SsFromHost, IsSsName, Tenants, Exact, Split;
    AlwaysKeyed(c, acts);
    var s := After(c, acts);
    assert SecretFor(s, u, x);
    LiveSetOk(c, s, x);
    SsNameCoheres(x);
    HostParts(x);
  }
}
