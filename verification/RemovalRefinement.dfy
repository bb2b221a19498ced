/** The two views of removal are one: a removeTenantFromSharedInstance that reports success, call by
    call, is a sequence of deletion steps of one worker in the step system. */
module RemovalRefinement {
  import opened GoStrings
  import opened Objects
  import opened Registry
  import opened Naming
  import opened Lifecycle
  import opened History
  import opened Witness
  import opened ApiServer
  import opened SharedInstances
  import opened Refinement

  /** The run goes on with deletion steps of worker w only. */
  ghost predicate Deletes(acts: seq<Action>, more: seq<Action>, w: nat) {
    && |acts| <= |more| && more[..|acts|] == acts
    && forall i | |acts| <= i < |more| :: more[i].Delete? && more[i].w == w
  }

  lemma Step(c: Cfg, start: seq<Action>, acts: seq<Action>, w: nat, op: DeleteOp) returns (more: seq<Action>)
    requires ValidRun(c, acts) && Enabled(c, After(c, acts), Delete(w, op)) && Deletes(start, acts, w)
    ensures ValidRun(c, more) && After(c, more) == Next(c, After(c, acts), Delete(w, op)) && Deletes(start, more, w)
  {
    hide Enabled, Next, After, ValidRun;
    more := Extend(c, acts, Delete(w, op));
  }

  /** The list of x, filtered, and where that leads. */
  lemma TakesOffSteps(c: Cfg, acts: seq<Action>, w: nat, uid: string, x: string) returns (more: seq<Action>)
    requires ValidRun(c, acts) && IsAt(After(c, acts), w, uid, AtRemoveList)
    requires x in After(c, acts).sets && uid in Tenants(After(c, acts).sets[x])
    ensures ValidRun(c, more) && Deletes(acts, more, w)
    ensures var s, s' := After(c, acts), After(c, more);
            var last := |Without(Tenants(s.sets[x]), uid)| == 0;
            && x in s'.sets && s'.sets == s.sets[x := RemoveTenant(s.sets[x], uid).(rv := s'.sets[x].rv)]
            && s' == s.(rev := s'.rev, sets := s'.sets, setHistory := s'.setHistory,
                        workers := s.workers[w := Main(s.envs[uid], if last then AtCleanGet(x) else AtNsDelGet)])
  {
    hide After, ValidRun, Tenants, RemoveTenant, Good, Listing, ApiServer.Lists, Exact, Without;
    AlwaysGood(c, acts);
    var s := After(c, acts);
    SetNames(c, s);
    LiveSetOk(c, s, x);
    var items := ItemsFrom(s.sets, x);
    LiveListing(c, s, items);
    var ss := s.sets[x];
    assert Holder(items, uid) == Some(ss);
    hide Holder;
    more := Step(c, acts, acts, w, RemoveList(items));
    assert After(c, more) == Goto(s, w, Main(s.envs[uid], AtRemovePut(ss)));
    more := Step(c, acts, more, w, RemovePut(false));
    assert Tenants(RemoveTenant(ss, uid)) == Without(Tenants(ss), uid);
    assert After(c, more).workers[w] ==
           Main(s.envs[uid], if |Without(Tenants(ss), uid)| == 0 then AtCleanGet(x) else AtNsDelGet);
  }

  /** The jobs of the cleanup, each deleted or not. */
  lemma {:induction false} JobSteps(c: Cfg, start: seq<Action>, acts: seq<Action>, w: nat, uid: string, x: string,
                                    todo: set<string>, gone: set<string>)
    returns (more: seq<Action>)
    requires ValidRun(c, acts) && Deletes(start, acts, w) && IsAt(After(c, acts), w, uid, AtCleanJobs(x, todo))
    ensures ValidRun(c, more) && Deletes(start, more, w)
    ensures var s, s' := After(c, acts), After(c, more);
            s' == s.(jobs := s.jobs - (todo * gone), workers := s.workers[w := Main(s.envs[uid], AtNsDelGet)])
    decreases todo
  {
    hide After, ValidRun;
    var s := After(c, acts);
    if todo == {} {
      more := Step(c, start, acts, w, CleanDone);
      assert s.jobs - (todo * gone) == s.jobs;
    } else {
      var job :| job in todo;
      more := Step(c, start, acts, w, CleanJob(job, job in gone));
      var s1 := After(c, more);
      assert s1.workers == s.workers[w := Main(s.envs[uid], AtCleanJobs(x, todo - {job}))];
      more := JobSteps(c, start, more, w, uid, x, todo - {job}, gone);
      assert todo * gone == ((todo - {job}) * gone) + (if job in gone then {job} else {});
      assert s.jobs - (todo * gone) == s1.jobs - ((todo - {job}) * gone);
    }
  }

  lemma SetSteps(c: Cfg, start: seq<Action>, acts: seq<Action>, w: nat, uid: string, x: string, applied: bool)
    returns (more: seq<Action>)
    requires ValidRun(c, acts) && Deletes(start, acts, w) && IsAt(After(c, acts), w, uid, AtCleanGet(x))
    requires x in After(c, acts).sets
    ensures ValidRun(c, more) && Deletes(start, more, w)
    ensures var s, s' := After(c, acts), After(c, more);
            s' == s.(sets := if applied then s.sets - {x} else s.sets,
                     workers := s.workers[w := Main(s.envs[uid], AtCleanJobs(x, LabelledJobs(s.jobs, x)))])
  {
    hide After, ValidRun;
    var s := After(c, acts);
    more := Step(c, start, acts, w, CleanGet(Some(true)));
    assert After(c, more) == Goto(s, w, Main(s.envs[uid], AtCleanDelete(x)));
    more := Step(c, start, more, w, CleanDelete(applied));
    assert After(c, more).workers == s.workers[w := Main(s.envs[uid], AtCleanList(x))];
    more := Step(c, start, more, w, CleanList(true));
    assert After(c, more).workers == s.workers[w := Main(s.envs[uid], AtCleanJobs(x, LabelledJobs(s.jobs, x)))];
  }

  function LabelledJobs(jobs: map<string, DbJob>, x: string): set<string> {
    set j | j in jobs && jobs[j].ssName == x
  }

  /** A cleanup of x that deletes the set or not, and these of its jobs. */
  lemma CleanupSteps(c: Cfg, start: seq<Action>, acts: seq<Action>, w: nat, uid: string, x: string,
                     applied: bool, gone: set<string>)
    returns (more: seq<Action>)
    requires ValidRun(c, acts) && Deletes(start, acts, w) && IsAt(After(c, acts), w, uid, AtCleanGet(x))
    requires x in After(c, acts).sets
    requires forall j | j in gone :: j in After(c, acts).jobs && After(c, acts).jobs[j].ssName == x
    ensures ValidRun(c, more) && Deletes(start, more, w)
    ensures var s, s' := After(c, acts), After(c, more);
            s' == s.(sets := if applied then s.sets - {x} else s.sets, jobs := s.jobs - gone,
                     workers := s.workers[w := Main(s.envs[uid], AtNsDelGet)])
  {
    hide After, ValidRun, Deletes;
    var s := After(c, acts);
    more := SetSteps(c, start, acts, w, uid, x, applied);
    var todo := LabelledJobs(s.jobs, x);
    assert todo * gone == gone;
    var s1 := After(c, more);
    more := JobSteps(c, start, more, w, uid, x, todo, gone);
    assert After(c, more).workers == s.workers[w := Main(s.envs[uid], AtNsDelGet)];
  }

  lemma SameRemoval(a: StatefulSet, b: StatefulSet, uid: string, rv: nat, rv': nat)
    requires SameObject(a, b)
    ensures Tenants(a) == Tenants(b)
    ensures SameObject(RemoveTenant(a, uid).(rv := rv), RemoveTenant(b, uid).(rv := rv'))
  {
    hide Split, Without, Join, Itoa;
  }

  /** A removal from x that kept its list, or only added a removal job. */
  lemma KeptMatches(st: Store, st': Store, s: State, s': State, uid: string, x: string)
    requires |uid| >= 8 && |x| >= ID_LENGTH && Removed(st, st', uid, x) && !LastTenant(st, uid, x)
    requires Matches(st, s) && x in s'.sets && s'.sets == s.sets[x := RemoveTenant(s.sets[x], uid).(rv := s'.sets[x].rv)]
    requires s'.namespaces == s.namespaces && s'.secrets == s.secrets && s'.jobs == s.jobs
    requires ApiServer.Valid(st)
    ensures Matches(st', s')
  {
    hide Tenants, RemoveTenant, OnlyCleans, WithoutRemovals, RemoveJobName, MasterFromSs;
    SameRemoval(st.sets[x], s.sets[x], uid, st.rev + 1, s'.sets[x].rv);
    RemovalJobLeftOut(st.jobs, uid, DbJob(uid, x, MasterFromSs(x)));
    assert st'.sets == Stored(st, RemoveTenant(st.sets[x], uid)).sets;
  }

  lemma RemovalJobLeftOut(jobs: map<string, DbJob>, uid: string, job: DbJob)
    requires |uid| >= 8
    ensures WithoutRemovals(jobs[RemoveJobName(uid) := job]) == WithoutRemovals(jobs)
  {
  }

  /** The jobs a cleanup deleted, as the step system has them. */
  function Lost(st: Store, st': Store): set<string> {
    set j | j in WithoutRemovals(st.jobs) && j !in st'.jobs
  }

  lemma CleanedMatches(st: Store, st': Store, s: State, s1: State, s': State, uid: string, x: string)
    requires |uid| >= 8 && |x| >= ID_LENGTH && Removed(st, st', uid, x) && LastTenant(st, uid, x)
    requires Matches(st, s) && ApiServer.Valid(st)
    requires x in s1.sets && s1.sets == s.sets[x := RemoveTenant(s.sets[x], uid).(rv := s1.sets[x].rv)]
    requires s'.namespaces == s.namespaces && s'.secrets == s.secrets && s'.jobs == s.jobs - Lost(st, st')
    requires s'.sets == if x in st'.sets then s1.sets else s1.sets - {x}
    ensures Matches(st', s')
  {
    hide Tenants, RemoveTenant, OwnClaim;
    SameRemoval(st.sets[x], s.sets[x], uid, st.rev + 1, s1.sets[x].rv);
    assert s'.jobs == WithoutRemovals(st'.jobs);
  }

  lemma LostLabelled(st: Store, st': Store, s: State, uid: string, x: string)
    requires |uid| >= 8 && |x| >= ID_LENGTH && Removed(st, st', uid, x) && LastTenant(st, uid, x) && Matches(st, s)
    ensures forall j | j in Lost(st, st') :: j in s.jobs && s.jobs[j].ssName == x
  {
    hide Tenants, RemoveTenant, OwnClaim;
  }

  lemma HoldsIt(st: Store, st': Store, s: State, uid: string, x: string)
    requires |uid| >= 8 && |x| >= ID_LENGTH && Removed(st, st', uid, x) && Matches(st, s)
    ensures x in st.sets && x in s.sets && uid in Tenants(s.sets[x]) && Tenants(s.sets[x]) == Tenants(st.sets[x])
  {
    hide RemoveTenant, OnlyCleans, Split;
  }

  /** A removal that took effect is a sequence of deletion steps of the worker, whatever of the cleanup
      failed, from any state that agrees with the store to one that agrees with it afterwards. */
  lemma RemovalSteps(c: Cfg, acts: seq<Action>, w: nat, st: Store, st': Store, uid: string, x: string)
    returns (more: seq<Action>)
    requires ValidRun(c, acts) && IsAt(After(c, acts), w, uid, AtRemoveList) && Matches(st, After(c, acts))
    requires ApiServer.Valid(st) && |uid| >= 8 && |x| >= ID_LENGTH && Removed(st, st', uid, x)
    ensures ValidRun(c, more) && Deletes(acts, more, w)
    ensures Matches(st', After(c, more)) && IsAt(After(c, more), w, uid, AtNsDelGet)
  {
    hide After, ValidRun, Removed, Matches, RemoveTenant, Tenants, Without, ApiServer.Valid, Lost;
    var s := After(c, acts);
    HoldsIt(st, st', s, uid, x);
    more := TakesOffSteps(c, acts, w, uid, x);
    var s1 := After(c, more);
    if LastTenant(st, uid, x) {
      LostLabelled(st, st', s, uid, x);
      more := CleanupSteps(c, acts, more, w, uid, x, x !in st'.sets, Lost(st, st'));
      CleanedMatches(st, st', s, s1, After(c, more), uid, x);
      assert After(c, more).workers[w] == Main(s.envs[uid], AtNsDelGet);
    } else {
      KeptMatches(st, st', s, s1, uid, x);
      assert s1.workers[w] == Main(s.envs[uid], AtNsDelGet);
    }
  }

  /** A tenant listed nowhere is found nowhere. */
  lemma NothingToRemove(c: Cfg, acts: seq<Action>, w: nat, st: Store, uid: string) returns (more: seq<Action>)
    requires ValidRun(c, acts) && IsAt(After(c, acts), w, uid, AtRemoveList) && Matches(st, After(c, acts))
    requires NotListed(st, uid)
    ensures ValidRun(c, more) && Deletes(acts, more, w)
    ensures Matches(st, After(c, more)) && IsAt(After(c, more), w, uid, AtNsDelGet)
  {
    hide After, ValidRun, Good, Listing, ApiServer.Lists, Split;
    AlwaysGood(c, acts);
    var s := After(c, acts);
    SetNames(c, s);
    var items := SomeItems(s.sets);
    LiveListing(c, s, items);
    assert forall i | 0 <= i < |items| :: uid !in Tenants(items[i]) by { NoneListed(st, s, items, uid); }
    hide Tenants;
    assert Holder(items, uid) == None;
    hide Holder;
    more := Step(c, acts, acts, w, RemoveList(items));
    assert After(c, more) == Goto(s, w, Main(s.envs[uid], AtNsDelGet));
  }

  lemma NoneListed(st: Store, s: State, items: seq<StatefulSet>, uid: string)
    requires Matches(st, s) && NotListed(st, uid) && ApiServer.Lists(items, s.sets)
    ensures forall i | 0 <= i < |items| :: uid !in Tenants(items[i])
  {
    forall i | 0 <= i < |items| ensures uid !in Tenants(items[i]) {
      var x := items[i].name;
      assert SameObject(st.sets[x], s.sets[x]);
    }
  }

  /** removeTenantFromSharedInstance refines the step system: run from a store that agrees with a
      state in which worker w is about to list the instances for tenant `uid`, its success, under any
      failures, is a sequence of deletion steps of that worker, which is then about to look for the
      namespace. */
  method RemoveInSteps(api: Api, uid: string, ghost c: Cfg, ghost acts: seq<Action>, ghost w: nat)
    returns (ok: bool, ghost more: seq<Action>)
    requires Calm(api.script) && ApiServer.Valid(api.store) && OperatorNames(api.store) && ValidUid(uid)
    requires ValidRun(c, acts) && IsAt(After(c, acts), w, uid, AtRemoveList) && Matches(api.store, After(c, acts))
    modifies api
    ensures ok ==> ValidRun(c, more) && Deletes(acts, more, w)
    ensures ok ==> Matches(api.store, After(c, more)) && IsAt(After(c, more), w, uid, AtNsDelGet)
    ensures old(api.script) == [] ==> ok
  {
    hide Calm, ApiServer.Valid, OperatorNames, Removed, IsSsName, NotListed, JobLeft, Gone, ClaimsGone;
    hide After, ValidRun, Matches, IsAt;
    ghost var st := api.store;
    ok := RemoveTenantFromSharedInstance(api, uid);
    more := acts;
    if ok {
      if api.store == st {
        more := NothingToRemove(c, acts, w, st, uid);
      } else {
        ghost var x :| RemovalDone(st, api.store, uid, x, old(api.script));
        more := RemovalSteps(c, acts, w, st, api.store, uid, x);
      }
    }
  }
}
