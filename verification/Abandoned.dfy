/** A tenant whose provisioning was cut short stays in Provisioning for good: nothing ever takes
    the work up again. */
module Abandoned {
  import opened Objects
  import opened Registry
  import opened Naming
  import opened Lifecycle
  import opened History
  import opened Shapes
  import opened AtMostOne

  /** Between the stored move to Provisioning and the move to Assigned, on either path. */
  predicate Works(pc: Pc, u: string) {
    pc.Main? && pc.env.uid == u && (PreAdd(pc.at) || pc.at.AtDedicated? || pc.at.AtToAssigned?)
  }

  /** Provisioning began, it is not finished, and no worker is at it. */
  ghost predicate GivenUp(s: State, u: string) {
    && Entered(s, u)
    && (forall w | 0 <= w < |s.workers| :: !Works(s.workers[w], u))
    && (u in s.envs ==> s.envs[u].db != Assigned)
  }

  lemma BeginLeaves(c: Cfg, s: State, w: nat, op: BeginOp, u: string)
    requires Good(c, s) && GivenUp(s, u) && w < |s.workers| && BeginEnabled(c, s, w, op)
    ensures !Works(BeginPc(c, s, w, op), u)
    ensures u in BeginStore(c, s, w, op).envs ==> BeginStore(c, s, w, op).envs[u].db != Assigned
  {
    hide Good, EnvRead, Tenants, TargetOk;
    WorkerOk(c, s, w);
    var pc := s.workers[w];
    if op.ToProvisioning? {
      FirstEntry(c, s, pc.env);
    }
    if op.Stamp? || op.PodMark? || op.PutFinalizer? || op.ToProvisioning? {
      AcceptedIsCurrent(c, s, pc.env);
    }
  }

  lemma AllocLeaves(c: Cfg, s: State, w: nat, op: AllocOp, u: string)
    requires Good(c, s) && GivenUp(s, u) && At(s, w) && AllocEnabled(c, s, w, op)
    ensures !Works(Continue(s.workers[w].env, AllocStage(c, s, w, op)), u)
    ensures u in AllocStore(c, s, w, op).envs ==> AllocStore(c, s, w, op).envs[u].db != Assigned
  {
    hide Good, Listing, FirstFit, Tenants, Host, NewTarget, ReuseTarget, Entered;
    AllocFrom(c, s, w, op);
    if op.ToAssigned? {
      WorkerOk(c, s, w);
      AcceptedIsCurrent(c, s, s.workers[w].env);
    }
    assert Works(s.workers[w], s.workers[w].env.uid);
  }

  /** Every operation of this kind is taken from a working stage. */
  lemma AllocFrom(c: Cfg, s: State, w: nat, op: AllocOp)
    requires At(s, w) && AllocEnabled(c, s, w, op)
    ensures var at := s.workers[w].at; PreAdd(at) || at.AtDedicated? || at.AtToAssigned?
  {
  }

  lemma DeleteLeaves(c: Cfg, s: State, w: nat, op: DeleteOp, u: string)
    requires Good(c, s) && GivenUp(s, u) && At(s, w) && DeleteEnabled(c, s, w, op)
    ensures !Works(Continue(s.workers[w].env, DeleteStage(c, s, w, op)), u)
    ensures u in DeleteStore(c, s, w, op).envs ==> u in s.envs && DeleteStore(c, s, w, op).envs[u] == s.envs[u]
  {
    hide Good, Tenants, Listing, Holder, RemoveTenant, Entered;
  }

  lemma EnvLeaves(c: Cfg, s: State, a: EnvAction, u: string)
    requires Good(c, s) && GivenUp(s, u) && EnvEnabled(c, s, a)
    ensures u in EnvNext(s, a).envs ==> EnvNext(s, a).envs[u].db != Assigned
  {
    hide Good, Tenants;
  }

  lemma GivenUpStep(c: Cfg, s: State, a: Action, u: string)
    requires Good(c, s) && GivenUp(s, u) && Enabled(c, s, a)
    ensures GivenUp(Next(c, s, a), u)
  {
    hide Good, Works, EnvEnabled, BeginEnabled, AllocEnabled, DeleteEnabled;
    hide EnvNext, BeginStore, AllocStore, DeleteStore, BeginPc, AllocStage, DeleteStage;
    match a
    case Env(e) => EnvLeaves(c, s, e, u);
    case Begin(w, op) => BeginLeaves(c, s, w, op, u);
    case Alloc(w, op) => AllocLeaves(c, s, w, op, u);
    case Delete(w, op) => DeleteLeaves(c, s, w, op, u);
  }

  /** Once given up, a tenant is never Assigned, however the run goes on. */
  lemma {:induction false} NeverAssigned(c: Cfg, acts: seq<Action>, i: nat, u: string)
    requires ValidRun(c, acts) && i <= |acts| && ValidRun(c, acts[..i]) && GivenUp(After(c, acts[..i]), u)
    ensures GivenUp(After(c, acts), u)
    ensures u in After(c, acts).envs ==> After(c, acts).envs[u].db != Assigned
  {
    hide Good, Works, Enabled, Next, Entered;
    Prefixes(c, acts, i);
    if i == |acts| {
      assert acts[..i] == acts;
    } else {
      var before := acts[..|acts| - 1];
      assert before[..i] == acts[..i];
      NeverAssigned(c, before, i, u);
      AlwaysGood(c, before);
      GivenUpStep(c, After(c, before), acts[|acts| - 1], u);
    }
  }

  // ---- at most one worker is at a tenant ----

  ghost predicate SoleWorker(s: State) {
    forall v, w, u | 0 <= v < |s.workers| && 0 <= w < |s.workers| && Works(s.workers[v], u) && Works(s.workers[w], u) ::
      v == w
  }

  lemma WorkedEntered(c: Cfg, s: State, w: nat, u: string)
    requires Good(c, s) && w < |s.workers| && Works(s.workers[w], u)
    ensures Entered(s, u)
  {
    hide Good, TargetOk, Tenants;
    WorkerOk(c, s, w);
  }

  lemma BeginWorks(c: Cfg, s: State, w: nat, op: BeginOp, u: string)
    requires Good(c, s) && w < |s.workers| && BeginEnabled(c, s, w, op)
    ensures Works(BeginPc(c, s, w, op), u) ==> !Entered(s, u)
  {
    hide Good, EnvRead, Tenants, TargetOk, Entered;
    WorkerOk(c, s, w);
    var pc := s.workers[w];
    if op.ToProvisioning? {
      FirstEntry(c, s, pc.env);
      AcceptedIsCurrent(c, s, pc.env);
    }
  }

  lemma AllocWorks(c: Cfg, s: State, w: nat, op: AllocOp, u: string)
    requires Good(c, s) && At(s, w) && AllocEnabled(c, s, w, op)
    ensures Works(Continue(s.workers[w].env, AllocStage(c, s, w, op)), u) ==> Works(s.workers[w], u)
  {
    hide Good, AllocEnabled, AllocStage;
    AllocFrom(c, s, w, op);
  }

  lemma DeleteWorks(c: Cfg, s: State, w: nat, op: DeleteOp, u: string)
    requires Good(c, s) && At(s, w) && DeleteEnabled(c, s, w, op)
    ensures !Works(Continue(s.workers[w].env, DeleteStage(c, s, w, op)), u)
  {
    hide Good, DeleteEnabled, DeleteStage;
    DeleteClaim(c, s, w, op);
  }

  lemma SoleStep(c: Cfg, s: State, a: Action)
    requires Good(c, s) && SoleWorker(s) && Enabled(c, s, a)
    ensures SoleWorker(Next(c, s, a))
  {
    hide Good, Works, Entered, EnvEnabled, BeginEnabled, AllocEnabled, DeleteEnabled;
    hide EnvNext, BeginStore, AllocStore, DeleteStore, BeginPc, AllocStage, DeleteStage;
    var s' := Next(c, s, a);
    forall v, w, u | 0 <= v < |s'.workers| && 0 <= w < |s'.workers| && Works(s'.workers[v], u) && Works(s'.workers[w], u)
      ensures v == w
    {
      if a.Begin? {
        BeginWorks(c, s, a.w, a.begin, u);
        if v != a.w { WorkedEntered(c, s, v, u); }
        if w != a.w { WorkedEntered(c, s, w, u); }
      } else if a.Alloc? {
        AllocWorks(c, s, a.w, a.alloc, u);
      } else if a.Delete? {
        DeleteWorks(c, s, a.w, a.delete, u);
      }
    }
  }

  lemma {:induction false} AlwaysSole(c: Cfg, acts: seq<Action>)
    requires ValidRun(c, acts)
    ensures SoleWorker(After(c, acts))
  {
    hide Good, Enabled, Next;
    if acts != [] {
      AlwaysGood(c, acts[..|acts| - 1]);
      AlwaysSole(c, acts[..|acts| - 1]);
      SoleStep(c, After(c, acts[..|acts| - 1]), acts[|acts| - 1]);
    }
  }

  // ---- theorem ----

  /** A failure between the two status updates is final: when the worker at a tenant drops it, by a
      failed call or a lost reply, and Assigned is not stored, then it never will be. */
  lemma {:induction false} FailureIsFinal(c: Cfg, acts: seq<Action>, i: nat, w: nat, u: string)
    requires ValidRun(c, acts) && i < |acts| && ValidRun(c, acts[..i]) && ValidRun(c, acts[..i + 1])
    requires w < |After(c, acts[..i]).workers| && Works(After(c, acts[..i]).workers[w], u)
    requires w < |After(c, acts[..i + 1]).workers| && !Works(After(c, acts[..i + 1]).workers[w], u)
    requires u in After(c, acts[..i + 1]).envs ==> After(c, acts[..i + 1]).envs[u].db != Assigned
    ensures u in After(c, acts).envs ==> After(c, acts).envs[u].db != Assigned
  {
    hide Good, Works, Enabled, Next, Entered, ValidRun, After;
    Prefixes(c, acts, i);
    AlwaysGood(c, acts[..i]);
    AlwaysSole(c, acts[..i]);
    WorkedEntered(c, After(c, acts[..i]), w, u);
    EnteredForGood(c, acts, i, i + 1, u);
    OthersStay(c, After(c, acts[..i]), acts[i], w, u);
    NeverAssigned(c, acts, i + 1, u);
  }

  /** The step that takes w off the tenant puts nobody else on it. */
  lemma OthersStay(c: Cfg, s: State, a: Action, w: nat, u: string)
    requires Good(c, s) && SoleWorker(s) && Enabled(c, s, a) && w < |s.workers| && Works(s.workers[w], u)
    requires w < |Next(c, s, a).workers| && !Works(Next(c, s, a).workers[w], u)
    ensures forall v | 0 <= v < |Next(c, s, a).workers| :: !Works(Next(c, s, a).workers[v], u)
  {
    hide Good, Works, Entered, EnvEnabled, BeginEnabled, AllocEnabled, DeleteEnabled;
    hide EnvNext, BeginStore, AllocStore, DeleteStore, BeginPc, AllocStage, DeleteStage;
    WorkedEntered(c, s, w, u);
    if a.Begin? {
      BeginWorks(c, s, a.w, a.begin, u);
    } else if a.Alloc? {
      AllocWorks(c, s, a.w, a.alloc, u);
    } else if a.Delete? {
      DeleteWorks(c, s, a.w, a.delete, u);
    }
  }
}
