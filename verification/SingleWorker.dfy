/** With the one configured worker, failures and stale reads allowed: no instance is deleted while
    it has tenants, and every Assigned shared tenant not marked for deletion is registered. */
module SingleWorker {
  import opened GoStrings
  import opened Objects
  import opened Registry
  import opened Naming
  import opened Lifecycle
  import opened History
  import opened Shapes
  import opened AtMostOne

  ghost predicate Registered(s: State, u: string) {
    exists x :: Listed(s, u, x)
  }

  /** The instance a cleanup is working on. */
  function Condemned(pc: Pc): Option<string> {
    if pc.Main? && (pc.at.AtCleanGet? || pc.at.AtCleanDelete? || pc.at.AtCleanList? || pc.at.AtCleanJobs?)
    then Some(pc.at.x) else None
  }

  ghost predicate CondemnedEmpty(s: State) {
    forall w | 0 <= w < |s.workers| && Condemned(s.workers[w]).Some? && Condemned(s.workers[w]).value in Lists(s) ::
      Lists(s)[Condemned(s.workers[w]).value] == []
  }

  /** Provisioned on the shared path and here to stay. */
  predicate Settled(s: State, u: string) {
    u in s.envs && s.envs[u].db == Assigned && !s.envs[u].dedicated && !s.envs[u].deleting
  }

  ghost predicate SettledRegistered(s: State) {
    forall u | Settled(s, u) :: Registered(s, u)
  }

  ghost predicate FinishingRegistered(s: State) {
    forall w | 0 <= w < |s.workers| && Finishing(s.workers[w]).Some? :: Registered(s, Finishing(s.workers[w]).value)
  }

  ghost predicate Tidy(s: State) {
    SettledRegistered(s) && FinishingRegistered(s)
  }

  // ---- condemned instances are empty ----

  /** A step of the only worker, through the store s1 to the stage pc. */
  lemma CondemnedMove(s: State, s1: State, pc: Pc)
    requires |s.workers| == 1 && s1.workers == s.workers
    requires Condemned(pc).Some? && Condemned(pc).value in Lists(s1) ==> Lists(s1)[Condemned(pc).value] == []
    ensures CondemnedEmpty(Goto(s1, 0, pc))
  {
    hide ListsOf, Condemned;
  }

  lemma BeginCondemns(c: Cfg, s: State, w: nat, op: BeginOp)
    requires Good(c, s) && w < |s.workers| && BeginEnabled(c, s, w, op)
    ensures Condemned(BeginPc(c, s, w, op)).None?
  {
    hide Good, EnvRead;
  }

  lemma AllocCondemns(c: Cfg, s: State, w: nat, op: AllocOp)
    requires Good(c, s) && At(s, w) && AllocEnabled(c, s, w, op)
    ensures Condemned(Continue(s.workers[w].env, AllocStage(c, s, w, op))).None?
  {
    hide Good, AllocEnabled, AllocStage;
    AllocClaim(c, s, w, op);
  }

  /** A cleanup begins with the Update that emptied the list, and the worker then does nothing else. */
  lemma DeleteCondemns(c: Cfg, s: State, w: nat, op: DeleteOp)
    requires Good(c, s) && CondemnedEmpty(s) && At(s, w) && DeleteEnabled(c, s, w, op)
    ensures var x, s1 := Condemned(Continue(s.workers[w].env, DeleteStage(c, s, w, op))), DeleteStore(c, s, w, op);
      x.Some? && x.value in Lists(s1) ==> Lists(s1)[x.value] == []
  {
    hide Good, ListsOf, Listing, Tenants, Holder, RemoveTenant, Without;
    DeleteShape(c, s, w, op);
    if op.RemovePut? { RemoveShape(c, s, w, op.lost); }
  }

  lemma StepCondemns(c: Cfg, s: State, a: Action)
    requires Good(c, s) && c.workers == 1 && CondemnedEmpty(s) && Enabled(c, s, a)
    ensures CondemnedEmpty(Next(c, s, a))
  {
    hide Good, ListsOf, Condemned, CondemnedEmpty, EnvEnabled, BeginEnabled, AllocEnabled, DeleteEnabled;
    hide EnvNext, BeginStore, AllocStore, DeleteStore, BeginPc, AllocStage, DeleteStage;
    WorkerCount(c, s);
    match a
    case Env(e) =>
      EnvShape(c, s, e);
      SameCondemned(s, Next(c, s, a));
    case Begin(w, op) =>
      BeginCondemns(c, s, w, op);
      CondemnedMove(s, BeginStore(c, s, w, op), BeginPc(c, s, w, op));
    case Alloc(w, op) =>
      AllocCondemns(c, s, w, op);
      CondemnedMove(s, AllocStore(c, s, w, op), Continue(s.workers[w].env, AllocStage(c, s, w, op)));
    case Delete(w, op) =>
      DeleteCondemns(c, s, w, op);
      CondemnedMove(s, DeleteStore(c, s, w, op), Continue(s.workers[w].env, DeleteStage(c, s, w, op)));
  }

  lemma SameCondemned(s: State, s': State)
    requires CondemnedEmpty(s) && Lists(s') == Lists(s) && s'.workers == s.workers
    ensures CondemnedEmpty(s')
  {
    hide ListsOf, Condemned;
  }

  lemma {:induction false} AlwaysCondemnedEmpty(c: Cfg, acts: seq<Action>)
    requires ValidRun(c, acts) && c.workers == 1
    ensures CondemnedEmpty(After(c, acts))
  {
    hide Good, Enabled, Next;
    if acts != [] {
      var prefix := acts[..|acts| - 1];
      AlwaysGood(c, prefix);
      AlwaysCondemnedEmpty(c, prefix);
      StepCondemns(c, After(c, prefix), acts[|acts| - 1]);
    }
  }

  // ---- a tenant being provisioned is in no list ever stored ----

  ghost predicate StoredEntered(s: State) {
    forall x, u | x in s.setHistory && u in Tenants(x) :: Entered(s, u)
  }

  ghost predicate ClaimsUnstored(s: State) {
    forall w, x | 0 <= w < |s.workers| && Claim(s.workers[w]).Some? && x in s.setHistory ::
      Claim(s.workers[w]).value !in Tenants(x)
  }

  ghost predicate Unstored(s: State) {
    StoredEntered(s) && ClaimsUnstored(s)
  }

  /** A step that stores no new list and makes no new claim. */
  lemma QuietUnstored(s: State, s': State)
    requires Unstored(s) && |s'.workers| == |s.workers| && s.envHistory <= s'.envHistory
    requires forall x, u | x in s'.setHistory && u in Tenants(x) :: exists y :: y in s.setHistory && u in Tenants(y)
    requires forall w | 0 <= w < |s.workers| ::
               Claim(s'.workers[w]).None? || Claim(s'.workers[w]) == Claim(s.workers[w])
    ensures Unstored(s')
  {
    hide Tenants, Claim;
    forall x, u | x in s'.setHistory && u in Tenants(x) ensures Entered(s', u) {
      var y :| y in s.setHistory && u in Tenants(y);
      assert Entered(s, u);
    }
  }

  /** A stored version whose tenants an older one had. */
  lemma StoredAgain(s: State, x: StatefulSet, older: StatefulSet)
    requires older in s.setHistory && forall u | u in Tenants(x) :: u in Tenants(older)
    ensures forall y, u | y in PutSet(s, x).setHistory && u in Tenants(y) :: exists z :: z in s.setHistory && u in Tenants(z)
  {
    ExactIgnoresVersion(x, s.rev + 1);
    hide Tenants;
  }

  lemma EnvUnstored(c: Cfg, s: State, a: EnvAction)
    requires Good(c, s) && Unstored(s) && EnvEnabled(c, s, a)
    ensures Unstored(EnvNext(s, a))
  {
    hide Good, Tenants, Claim, Entered, Unstored;
    if a.TouchSet? {
      LiveSetOk(c, s, a.x);
      StoredAgain(s, s.sets[a.x], s.sets[a.x]);
    }
    QuietUnstored(s, EnvNext(s, a));
  }

  lemma BeginUnstored(c: Cfg, s: State, w: nat, op: BeginOp)
    requires Good(c, s) && Unstored(s) && w < |s.workers| && BeginEnabled(c, s, w, op)
    ensures Unstored(Next(c, s, Begin(w, op)))
  {
    hide Good, Tenants, Claim, Entered, BeginEnabled, BeginStore, BeginPc;
    BeginSets(c, s, w, op);
    BeginClaim(c, s, w, op);
    var s' := Next(c, s, Begin(w, op));
    if Claim(BeginPc(c, s, w, op)).Some? {
      FirstEntry(c, s, s.workers[w].env);
    }
    forall x, u | x in s'.setHistory && u in Tenants(x) ensures Entered(s', u) {
      assert Entered(s, u);
      StillEntered(s, s', u);
    }
  }

  lemma StillEntered(s: State, s': State, u: string)
    requires Entered(s, u) && s.envHistory <= s'.envHistory
    ensures Entered(s', u)
  {
  }

  lemma BeginSets(c: Cfg, s: State, w: nat, op: BeginOp)
    requires Good(c, s) && w < |s.workers| && BeginEnabled(c, s, w, op)
    ensures BeginStore(c, s, w, op).setHistory == s.setHistory
  {
    hide Good, EnvRead;
  }

  lemma AllocUnstored(c: Cfg, s: State, w: nat, op: AllocOp)
    requires Good(c, s) && Unstored(s) && At(s, w) && AllocEnabled(c, s, w, op) && !op.AddPut?
    ensures Unstored(Next(c, s, Alloc(w, op)))
  {
    hide Good, Tenants, Entered, AllocEnabled, AllocStore, AllocStage, Unstored;
    AllocClaim(c, s, w, op);
    AllocSets(c, s, w, op);
    QuietUnstored(s, Next(c, s, Alloc(w, op)));
  }

  lemma AllocSets(c: Cfg, s: State, w: nat, op: AllocOp)
    requires Good(c, s) && At(s, w) && AllocEnabled(c, s, w, op) && !op.AddPut?
    ensures forall x, u | x in AllocStore(c, s, w, op).setHistory && u in Tenants(x) :: x in s.setHistory
  {
    hide Good, Exact, Listing, FirstFit, Host, SsFromHost;
    if op.NewSetCreate? {
      var x := StatefulSet(s.workers[w].at.t.ss, 0, None, None);
      EmptyExact(x);
      ExactIgnoresVersion(x, s.rev + 1);
    }
    hide Tenants;
  }

  lemma AddUnstored(c: Cfg, s: State, w: nat, lost: bool)
    requires Good(c, s) && Once(s) && Unstored(s) && At(s, w) && AllocEnabled(c, s, w, AddPut(lost))
    ensures Unstored(Next(c, s, Alloc(w, AddPut(lost))))
  {
    hide Good, Tenants, AddTenant, Exact, ListedEntered, ListedOnce, ClaimsUnlisted;
    var e, at := s.workers[w].env, s.workers[w].at;
    var s' := Next(c, s, Alloc(w, AddPut(lost)));
    WorkerOk(c, s, w);
    StoredOk(c, s, e);
    ClaimedEntered(c, s, w);
    StoredSetOk(c, s, at.copy);
    var added := AddTenant(at.copy, e.uid);
    ExactIgnoresVersion(added, s.rev + 1);
    assert s'.setHistory == s.setHistory + {added.(rv := s.rev + 1)};
    assert forall u | u in Tenants(added) :: u in Tenants(at.copy) || u == e.uid;
    assert Claim(s'.workers[w]).None?;
    assert forall v | 0 <= v < |s.workers| && v != w :: Claim(s.workers[v]) != Some(e.uid);
    hide Claim, Entered;
    forall x, u | x in s'.setHistory && u in Tenants(x) ensures Entered(s', u) {
      assert Entered(s, u);
      StillEntered(s, s', u);
    }
  }

  lemma DeleteUnstored(c: Cfg, s: State, w: nat, op: DeleteOp)
    requires Good(c, s) && Unstored(s) && At(s, w) && DeleteEnabled(c, s, w, op)
    ensures Unstored(Next(c, s, Delete(w, op)))
  {
    hide Good, Tenants, Entered, DeleteEnabled, DeleteStage, Unstored;
    hide Without, RemoveTenant, Exact;
    DeleteClaim(c, s, w, op);
    DeleteSets(c, s, w, op);
    QuietUnstored(s, Next(c, s, Delete(w, op)));
  }

  lemma DeleteSets(c: Cfg, s: State, w: nat, op: DeleteOp)
    requires Good(c, s) && At(s, w) && DeleteEnabled(c, s, w, op)
    ensures forall x, u | x in DeleteStore(c, s, w, op).setHistory && u in Tenants(x) ::
              exists y :: y in s.setHistory && u in Tenants(y)
  {
    hide Good, Tenants, Listing, Holder, RemoveTenant, Exact, Without;
    if op.RemovePut? {
      var copy, u := s.workers[w].at.copy, s.workers[w].env.uid;
      WorkerOk(c, s, w);
      StoredSetOk(c, s, copy);
      StoredAgain(s, RemoveTenant(copy, u), copy);
    }
  }

  lemma StepUnstored(c: Cfg, s: State, a: Action)
    requires Good(c, s) && Once(s) && Unstored(s) && Enabled(c, s, a)
    ensures Unstored(Next(c, s, a))
  {
    hide Good, Once, Unstored, EnvEnabled, BeginEnabled, AllocEnabled, DeleteEnabled;
    hide EnvNext, BeginStore, AllocStore, DeleteStore, BeginPc, AllocStage, DeleteStage;
    match a
    case Env(e) => EnvUnstored(c, s, e);
    case Begin(w, op) => BeginUnstored(c, s, w, op);
    case Alloc(w, op) =>
      if op.AddPut? { AddUnstored(c, s, w, op.lost); }
      else { AllocUnstored(c, s, w, op); }
    case Delete(w, op) => DeleteUnstored(c, s, w, op);
  }

  lemma {:induction false} AlwaysUnstored(c: Cfg, acts: seq<Action>)
    requires ValidRun(c, acts)
    ensures Unstored(After(c, acts))
  {
    hide Good, Once, Enabled, Next;
    if acts != [] {
      var prefix := acts[..|acts| - 1];
      AlwaysGood(c, prefix);
      AlwaysOnce(c, prefix);
      AlwaysUnstored(c, prefix);
      StepUnstored(c, After(c, prefix), acts[|acts| - 1]);
    }
  }

  // ---- settled tenants are registered ----

  /** A step of the only worker, through the store s1 to the stage pc. */
  lemma TidyMove(s: State, s1: State, pc: Pc)
    requires Tidy(s) && |s.workers| == 1 && s1.workers == s.workers
    requires forall u | Settled(s1, u) :: Settled(s, u) || Registered(s1, u)
    requires forall u | Settled(s1, u) && Registered(s, u) :: Registered(s1, u)
    requires Finishing(pc).Some? ==> Registered(s1, Finishing(pc).value)
    ensures Tidy(Goto(s1, 0, pc))
  {
    hide ListsOf, Finishing;
    var s' := Goto(s1, 0, pc);
    assert forall u, x :: Listed(s', u, x) <==> Listed(s1, u, x);
    assert forall u :: Registered(s', u) <==> Registered(s1, u);
    assert forall u :: Settled(s', u) <==> Settled(s1, u);
  }

  lemma SameLists(s: State, s': State)
    requires Lists(s') == Lists(s)
    ensures forall u :: Registered(s', u) <==> Registered(s, u)
  {
    hide ListsOf;
    assert forall u, x :: Listed(s', u, x) <==> Listed(s, u, x);
  }

  lemma EnvTidy(c: Cfg, s: State, a: EnvAction)
    requires Good(c, s) && c.pinned && Tidy(s) && EnvEnabled(c, s, a)
    ensures Tidy(EnvNext(s, a))
  {
    hide Good, ListsOf, Registered;
    EnvShape(c, s, a);
    SameLists(s, EnvNext(s, a));
    if a.UserCreate? && a.env.uid in s.envs { LiveOk(c, s, a.env.uid); }
    assert forall u | Settled(EnvNext(s, a), u) :: Settled(s, u);
  }

  lemma BeginSettled(c: Cfg, s: State, w: nat, op: BeginOp)
    requires Good(c, s) && w < |s.workers| && BeginEnabled(c, s, w, op)
    ensures forall u | Settled(BeginStore(c, s, w, op), u) :: Settled(s, u)
  {
    hide Good, EnvRead;
    WorkerOk(c, s, w);
    if (s.workers[w].Main? || s.workers[w].PodMarking?) && Accepts(s, s.workers[w].env) {
      AcceptedIsCurrent(c, s, s.workers[w].env);
    }
  }

  lemma BeginTidy(c: Cfg, s: State, op: BeginOp)
    requires Good(c, s) && Tidy(s) && |s.workers| == 1 && BeginEnabled(c, s, 0, op)
    ensures Tidy(Next(c, s, Begin(0, op)))
  {
    hide Good, Tidy, ListsOf, Registered, BeginEnabled, BeginStore, BeginPc, Settled;
    BeginShape(c, s, 0, op);
    BeginClaim(c, s, 0, op);
    BeginSettled(c, s, 0, op);
    SameLists(s, BeginStore(c, s, 0, op));
    TidyMove(s, BeginStore(c, s, 0, op), BeginPc(c, s, 0, op));
  }

  /** Provisioning registers before it reports Assigned. */
  lemma AllocSettled(c: Cfg, s: State, w: nat, op: AllocOp)
    requires Good(c, s) && At(s, w) && AllocEnabled(c, s, w, op)
    ensures forall u | Settled(AllocStore(c, s, w, op), u) :: Settled(s, u) || Finishing(s.workers[w]) == Some(u)
  {
    hide Good, AllocStage;
    AllocShape(c, s, w, op);
    if op.ToAssigned? {
      WorkerOk(c, s, w);
      AcceptedIsCurrent(c, s, s.workers[w].env);
    }
  }

  lemma AllocGrows(c: Cfg, s: State, w: nat, op: AllocOp)
    requires Good(c, s) && At(s, w) && AllocEnabled(c, s, w, op)
    ensures forall u, x | Listed(s, u, x) :: Listed(AllocStore(c, s, w, op), u, x)
    ensures op.AddPut? ==> Listed(AllocStore(c, s, w, op), s.workers[w].env.uid, s.workers[w].at.t.ss)
  {
    hide Good, ListsOf, AllocStore, Listing, Tenants;
    AllocShape(c, s, w, op);
    if op.NewSetCreate? { NewSetShape(c, s, w, op.lost); }
    if op.AddPut? { AddShape(c, s, w, op.lost); }
  }

  /** The Get of the registration never meets the tenant in a list, not even an outdated one. */
  lemma AllocFinishing(c: Cfg, s: State, w: nat, op: AllocOp)
    requires Good(c, s) && ClaimsUnstored(s) && At(s, w) && AllocEnabled(c, s, w, op)
    requires Finishing(Continue(s.workers[w].env, AllocStage(c, s, w, op))).Some?
    ensures Registered(AllocStore(c, s, w, op), s.workers[w].env.uid)
  {
    hide Good, Tenants, Listing, FirstFit, Host, AllocStore;
    WorkerOk(c, s, w);
    AllocGrows(c, s, w, op);
  }

  lemma AllocTidy(c: Cfg, s: State, op: AllocOp)
    requires Good(c, s) && ClaimsUnstored(s) && Tidy(s) && |s.workers| == 1 && At(s, 0) && AllocEnabled(c, s, 0, op)
    ensures Tidy(Next(c, s, Alloc(0, op)))
  {
    hide Good, ClaimsUnstored, ListsOf, AllocEnabled, AllocStore, AllocStage, Settled, Listed;
    var s1, pc := AllocStore(c, s, 0, op), Continue(s.workers[0].env, AllocStage(c, s, 0, op));
    AllocSettled(c, s, 0, op);
    AllocGrows(c, s, 0, op);
    if Finishing(pc).Some? { AllocFinishing(c, s, 0, op); }
    assert forall u | Registered(s, u) :: Registered(s1, u);
    TidyMove(s, s1, pc);
  }

  /** Deletion unlists only its own, delete-marked, tenant. */
  lemma DeleteUnlists(c: Cfg, s: State, w: nat, op: DeleteOp)
    requires Good(c, s) && CondemnedEmpty(s) && At(s, w) && DeleteEnabled(c, s, w, op)
    ensures forall u, x | Listed(s, u, x) && u != s.workers[w].env.uid :: Listed(DeleteStore(c, s, w, op), u, x)
    ensures !op.RemovePut? ==> forall u, x | Listed(s, u, x) :: Listed(DeleteStore(c, s, w, op), u, x)
  {
    hide Good, ListsOf, DeleteStore, DeleteStage, Listing, Tenants, Without;
    DeleteShape(c, s, w, op);
    if op.RemovePut? { RemoveShape(c, s, w, op.lost); }
  }

  lemma DeleteSettled(c: Cfg, s: State, w: nat, op: DeleteOp)
    requires Good(c, s) && At(s, w) && DeleteEnabled(c, s, w, op)
    ensures forall u | Settled(DeleteStore(c, s, w, op), u) :: Settled(s, u) && u != s.workers[w].env.uid
    ensures Finishing(Continue(s.workers[w].env, DeleteStage(c, s, w, op))).None?
  {
    hide Good, DeleteStore, DeleteStage, DeleteEnabled, Tenants;
    DeleteShape(c, s, w, op);
    DeleteClaim(c, s, w, op);
    WorkerOk(c, s, w);
    StoredOk(c, s, s.workers[w].env);
  }

  lemma DeleteTidy(c: Cfg, s: State, op: DeleteOp)
    requires Good(c, s) && CondemnedEmpty(s) && Tidy(s) && |s.workers| == 1 && At(s, 0) && DeleteEnabled(c, s, 0, op)
    ensures Tidy(Next(c, s, Delete(0, op)))
  {
    hide Good, ListsOf, DeleteEnabled, DeleteStore, DeleteStage, Settled, Listed, CondemnedEmpty;
    var s1, pc := DeleteStore(c, s, 0, op), Continue(s.workers[0].env, DeleteStage(c, s, 0, op));
    DeleteUnlists(c, s, 0, op);
    DeleteSettled(c, s, 0, op);
    assert forall u | u != s.workers[0].env.uid && Registered(s, u) :: Registered(s1, u);
    TidyMove(s, s1, pc);
  }

  lemma StepTidy(c: Cfg, s: State, a: Action)
    requires Good(c, s) && CondemnedEmpty(s) && ClaimsUnstored(s) && c.pinned && c.workers == 1
    requires Tidy(s) && Enabled(c, s, a)
    ensures Tidy(Next(c, s, a))
  {
    hide Good, Tidy, CondemnedEmpty, ClaimsUnstored, EnvEnabled, BeginEnabled, AllocEnabled, DeleteEnabled;
    hide EnvNext, BeginStore, AllocStore, DeleteStore, BeginPc, AllocStage, DeleteStage;
    WorkerCount(c, s);
    match a
    case Env(e) => EnvTidy(c, s, e);
    case Begin(w, op) => BeginTidy(c, s, op);
    case Alloc(w, op) => AllocTidy(c, s, op);
    case Delete(w, op) => DeleteTidy(c, s, op);
  }

  lemma {:induction false} AlwaysTidy(c: Cfg, acts: seq<Action>)
    requires ValidRun(c, acts) && c.pinned && c.workers == 1
    ensures Tidy(After(c, acts))
  {
    hide Good, Enabled, Next, CondemnedEmpty, ClaimsUnstored;
    if acts != [] {
      var prefix := acts[..|acts| - 1];
      AlwaysGood(c, prefix);
      AlwaysCondemnedEmpty(c, prefix);
      AlwaysUnstored(c, prefix);
      AlwaysTidy(c, prefix);
      StepTidy(c, After(c, prefix), acts[|acts| - 1]);
    }
  }

  // ---- theorems ----

  /** Whenever the delete of an instance can be issued, its tenant list is empty, stale reads and
      an edited database kind notwithstanding. */
  lemma {:induction false} NoDeleteWhileOccupied(c: Cfg, acts: seq<Action>, applied: bool)
    requires ValidRun(c, acts) && c.workers == 1
    requires At(After(c, acts), 0) && DeleteEnabled(c, After(c, acts), 0, CleanDelete(applied))
    ensures var s := After(c, acts); var x := s.workers[0].at.x; x in Lists(s) ==> Lists(s)[x] == []
  {
    hide ValidRun, After, ListsOf;
    AlwaysCondemnedEmpty(c, acts);
  }

  /** Every Assigned shared tenant not marked for deletion is in exactly one existing list, stale
      reads notwithstanding. */
  lemma {:induction false} AssignedInExactlyOne(c: Cfg, acts: seq<Action>, u: string)
    requires ValidRun(c, acts) && c.pinned && c.workers == 1 && Settled(After(c, acts), u)
    ensures exists x :: Listed(After(c, acts), u, x) && forall y | Listed(After(c, acts), u, y) :: y == x
  {
    hide ValidRun, After, ListsOf, Settled;
    AlwaysTidy(c, acts);
    AlwaysOnce(c, acts);
    var s := After(c, acts);
    assert Registered(s, u);
    var x :| Listed(s, u, x);
    assert forall y | Listed(s, u, y) :: y == x;
  }
}
