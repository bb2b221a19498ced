/** A tenant is in at most one shared instance's list, in every run: any number of workers, any
    failures, stale reads. The version-checked move to Provisioning makes it so. */
module AtMostOne {
  import opened GoStrings
  import opened Objects
  import opened Registry
  import opened Lifecycle
  import opened History
  import opened Shapes

  /** Some stored version of the tenant got as far as Provisioning. */
  ghost predicate Entered(s: State, u: string) {
    exists e :: e in s.envHistory && e.uid == u && Rank(e.db) > 0
  }

  ghost predicate ClaimsDiffer(s: State) {
    forall v, w :: 0 <= v < |s.workers| && 0 <= w < |s.workers| && v != w && Claim(s.workers[v]).Some?
      ==> Claim(s.workers[v]) != Claim(s.workers[w])
  }

  ghost predicate ListedEntered(s: State) {
    forall u, x :: Listed(s, u, x) ==> Entered(s, u)
  }

  ghost predicate ListedOnce(s: State) {
    forall u, x, y :: Listed(s, u, x) && Listed(s, u, y) ==> x == y
  }

  ghost predicate ClaimsUnlisted(s: State) {
    forall w, x :: 0 <= w < |s.workers| && Claim(s.workers[w]).Some?
      ==> !Listed(s, Claim(s.workers[w]).value, x)
  }

  ghost predicate Once(s: State) {
    ClaimsDiffer(s) && ListedEntered(s) && ListedOnce(s) && ClaimsUnlisted(s)
  }

  /** A step that lists nobody new and claims nobody new. */
  lemma QuietKeeps(s: State, s': State)
    requires Once(s) && |s'.workers| == |s.workers| && s.envHistory <= s'.envHistory
    requires forall u, x :: Listed(s', u, x) ==> Listed(s, u, x)
    requires forall w :: 0 <= w < |s.workers| ==>
               Claim(s'.workers[w]).None? || Claim(s'.workers[w]) == Claim(s.workers[w])
    ensures Once(s')
  {
    hide Listed, Claim;
    assert ListedEntered(s');
    assert ClaimsDiffer(s');
  }

  /** The move to Provisioning is accepted at most once per tenant. */
  lemma FirstEntry(c: Cfg, s: State, e: TenantEnv)
    requires Good(c, s) && e in s.envHistory && Accepts(s, e) && Rank(e.db) == 0
    ensures !Entered(s, e.uid)
  {
    hide Good;
    AcceptedIsCurrent(c, s, e);
    forall f | f in s.envHistory && f.uid == e.uid ensures Rank(f.db) == 0 {
      StoredOk(c, s, f);
    }
  }

  /** A claimed tenant has entered. */
  lemma ClaimedEntered(c: Cfg, s: State, w: nat)
    requires Good(c, s) && w < |s.workers| && Claim(s.workers[w]).Some?
    ensures Entered(s, Claim(s.workers[w]).value)
  {
    hide Good, TargetOk, Tenants;
    WorkerOk(c, s, w);
  }

  lemma ClaimKeeps(c: Cfg, s: State, s': State, w: nat, u: string)
    requires Good(c, s) && Once(s) && w < |s.workers| && !Entered(s, u)
    requires |s'.workers| == |s.workers| && s'.workers == s.workers[w := s'.workers[w]]
    requires Claim(s'.workers[w]) == Some(u) && Lists(s') == Lists(s) && s.envHistory <= s'.envHistory
    ensures Once(s')
  {
    hide Good, Claim, ListsOf;
    forall v | 0 <= v < |s.workers| && Claim(s.workers[v]).Some? ensures Claim(s.workers[v]) != Some(u) {
      ClaimedEntered(c, s, v);
    }
    assert forall v, x :: Listed(s', v, x) <==> Listed(s, v, x);
    assert forall x :: !Listed(s, u, x);
  }

  lemma AddKeeps(c: Cfg, s: State, w: nat, lost: bool)
    requires Good(c, s) && Once(s) && At(s, w) && AllocEnabled(c, s, w, AddPut(lost))
    ensures Once(Next(c, s, Alloc(w, AddPut(lost))))
  {
    hide Good, ListsOf, AddTenant, Tenants;
    AddShape(c, s, w, lost);
    AllocShape(c, s, w, AddPut(lost));
    AllocClaim(c, s, w, AddPut(lost));
    ClaimedEntered(c, s, w);
    var s' := Next(c, s, Alloc(w, AddPut(lost)));
    var x, u := s.workers[w].at.t.ss, s.workers[w].env.uid;
    assert forall v, y :: Listed(s', v, y) <==> Listed(s, v, y) || (v == u && y == x);
    assert forall v :: 0 <= v < |s.workers| && v != w ==> Claim(s.workers[v]) != Some(u);
  }

  lemma StepKeeps(c: Cfg, s: State, a: Action)
    requires Good(c, s) && Once(s) && Enabled(c, s, a)
    ensures Once(Next(c, s, a))
  {
    hide Good, ListsOf, Claim, Once, EnvEnabled, BeginEnabled, AllocEnabled, DeleteEnabled;
    hide EnvNext, BeginStore, AllocStore, DeleteStore, BeginPc, AllocStage, DeleteStage;
    var s' := Next(c, s, a);
    match a
    case Env(e) =>
      EnvShape(c, s, e);
      QuietKeeps(s, s');
    case Begin(w, op) =>
      BeginShape(c, s, w, op);
      BeginClaim(c, s, w, op);
      if Claim(BeginPc(c, s, w, op)).Some? {
        FirstEntry(c, s, s.workers[w].env);
        ClaimKeeps(c, s, s', w, s.workers[w].env.uid);
      } else {
        QuietKeeps(s, s');
      }
    case Alloc(w, op) =>
      if op.AddPut? { AddKeeps(c, s, w, op.lost); }
      else { AllocKeeps(c, s, w, op); }
    case Delete(w, op) => RemovalKeeps(c, s, w, op);
  }

  lemma AllocKeeps(c: Cfg, s: State, w: nat, op: AllocOp)
    requires Good(c, s) && Once(s) && At(s, w) && AllocEnabled(c, s, w, op) && !op.AddPut?
    ensures Once(Next(c, s, Alloc(w, op)))
  {
    hide Good, ListsOf, Once, AllocEnabled, AllocStore, AllocStage;
    var s' := Next(c, s, Alloc(w, op));
    AllocShape(c, s, w, op);
    AllocClaim(c, s, w, op);
    if op.NewSetCreate? { NewSetShape(c, s, w, op.lost); }
    QuietKeeps(s, s');
  }

  lemma RemovalKeeps(c: Cfg, s: State, w: nat, op: DeleteOp)
    requires Good(c, s) && Once(s) && At(s, w) && DeleteEnabled(c, s, w, op)
    ensures Once(Next(c, s, Delete(w, op)))
  {
    hide Good, ListsOf, Once, DeleteEnabled, DeleteStore, DeleteStage, Without;
    var s' := Next(c, s, Delete(w, op));
    DeleteShape(c, s, w, op);
    DeleteClaim(c, s, w, op);
    if op.RemovePut? { RemoveShape(c, s, w, op.lost); }
    QuietKeeps(s, s');
  }

  lemma {:induction false} AlwaysOnce(c: Cfg, acts: seq<Action>)
    requires ValidRun(c, acts)
    ensures Once(After(c, acts))
  {
    hide Good, Enabled, Next;
    AlwaysGood(c, acts);
    if acts == [] {
      assert forall u, x :: !Listed(Init(c), u, x);
    } else {
      var prefix := acts[..|acts| - 1];
      AlwaysGood(c, prefix);
      AlwaysOnce(c, prefix);
      StepKeeps(c, After(c, prefix), acts[|acts| - 1]);
    }
  }

  // ---- theorems ----

  /** No tenant is ever in two lists, or twice in one, whatever the hypotheses. */
  lemma {:induction false} AtMostOneInstance(c: Cfg, acts: seq<Action>, u: string, x: string, y: string)
    requires ValidRun(c, acts)
    requires Listed(After(c, acts), u, x) && Listed(After(c, acts), u, y)
    ensures x == y && NoDuplicates(Lists(After(c, acts))[x])
  {
    hide Good, ValidRun, After, Tenants;
    AlwaysGood(c, acts);
    AlwaysOnce(c, acts);
    LiveSetOk(c, After(c, acts), x);
  }

  /** Worker w stores the move to Provisioning of tenant u at position i of the run. */
  ghost predicate EntersAt(c: Cfg, acts: seq<Action>, i: nat, u: string)
    requires i < |acts| && ValidRun(c, acts[..i])
  {
    var s := After(c, acts[..i]);
    acts[i].Begin? && acts[i].begin.ToProvisioning? && At(s, acts[i].w) && s.workers[acts[i].w].env.uid == u
  }

  lemma EntryRecorded(c: Cfg, s: State, w: nat, lost: bool)
    requires Good(c, s) && At(s, w) && BeginEnabled(c, s, w, ToProvisioning(lost))
    ensures !Entered(s, s.workers[w].env.uid)
    ensures Entered(Next(c, s, Begin(w, ToProvisioning(lost))), s.workers[w].env.uid)
  {
    hide Good, TargetOk, Tenants;
    WorkerOk(c, s, w);
    var e := s.workers[w].env;
    FirstEntry(c, s, e);
    AcceptedIsCurrent(c, s, e);
    assert Reply(s, e.(db := Provisioning)) in Next(c, s, Begin(w, ToProvisioning(lost))).envHistory;
  }

  lemma {:induction false} EnteredForGood(c: Cfg, acts: seq<Action>, i: nat, j: nat, u: string)
    requires ValidRun(c, acts) && i <= j <= |acts|
    requires ValidRun(c, acts[..i]) && ValidRun(c, acts[..j])
    requires Entered(After(c, acts[..i]), u)
    ensures Entered(After(c, acts[..j]), u)
    decreases j
  {
    hide ValidRun, After, Enabled;
    if i < j {
      Prefixes(c, acts, j - 1);
      EnteredForGood(c, acts, i, j - 1, u);
    }
  }

  /** CreatePostgreSQLForTenant is entered at most once per tenant in any run. */
  lemma {:induction false} EnteredOnce(c: Cfg, acts: seq<Action>, i: nat, j: nat, u: string)
    requires ValidRun(c, acts) && i < j < |acts|
    requires ValidRun(c, acts[..i]) && ValidRun(c, acts[..j])
    requires EntersAt(c, acts, i, u)
    ensures !EntersAt(c, acts, j, u)
  {
    hide Good, ValidRun, After, BeginEnabled, Next;
    Prefixes(c, acts, i);
    Prefixes(c, acts, j);
    AlwaysGood(c, acts[..i]);
    AlwaysGood(c, acts[..j]);
    EntryRecorded(c, After(c, acts[..i]), acts[i].w, acts[i].begin.lost);
    EnteredForGood(c, acts, i + 1, j, u);
    if EntersAt(c, acts, j, u) {
      EntryRecorded(c, After(c, acts[..j]), acts[j].w, acts[j].begin.lost);
    }
  }
}
