/** The operator's work on shared PostgreSQL instances, call by call against the API server:
    registration with its retry loop, cleanup, removal and provisioning. */
module SharedInstances {
  import opened GoStrings
  import opened Objects
  import opened Registry
  import opened Naming
  import opened ApiServer

  // ---- addTenantToSharedInstance ----

  /** The calls made so far. */
  function Used(before: seq<Event>, after: seq<Event>): seq<Event>
    requires |after| <= |before|
  {
    before[..|before| - |after|]
  }

  predicate IsRest(before: seq<Event>, after: seq<Event>) {
    |after| <= |before| && after == before[|before| - |after|..]
  }

  /** One more call. */
  lemma UsedStep(st: Store, before: seq<Event>, now: seq<Event>)
    requires IsRest(before, now)
    ensures IsRest(before, Rest(now))
    ensures DisturbAll(st, Used(before, Rest(now))) == Disturb(DisturbAll(st, Used(before, now)), Head(now).others)
  {
    if now == [] {
    } else {
      var k := |before| - |now|;
      assert before[..k + 1][..k] == before[..k];
      assert now[0] == before[k];
    }
  }

  lemma UsedNothing(st: Store, script: seq<Event>)
    ensures IsRest(script, script) && DisturbAll(st, Used(script, script)) == st
  {
  }

  lemma CalmRest(script: seq<Event>)
    ensures Calm(script) ==> Calm(Rest(script)) && forall st :: Disturb(st, Head(script).others) == st
  {
  }

  lemma VersionIgnored(ss: StatefulSet, rv: nat)
    ensures Tenants(ss.(rv := rv)) == Tenants(ss) && LabelCount(ss.(rv := rv)) == LabelCount(ss)
  {
  }

  /** The store is what the others made it, or that with the tenant appended to the list. */
  predicate OnlyAdds(mid: Store, st: Store, uid: string, name: string) {
    st == mid || (name in mid.sets && st == Stored(mid, AddTenant(mid.sets[name], uid)))
  }

  /** An Update accepted from the version that was read meets the object that was read. */
  lemma AcceptedUnchanged(read: Store, others: seq<Other>, uid: string, name: string)
    requires Valid(read) && ValidUid(uid) && name in read.sets
    ensures var mid, ss := Disturb(read, others), read.sets[name];
            && Valid(mid) && ss.name == name
            && (name in mid.sets && mid.sets[name].rv == AddTenant(ss, uid).rv ==>
                  && mid.sets[name] == ss
                  && Valid(Stored(mid, AddTenant(ss, uid)))
                  && uid in Tenants(Stored(mid, AddTenant(ss, uid)).sets[name]))
  {
    hide Disturb, Tenants;
    DisturbedVersions(read, others, name);
    AddTenantLists(read.sets[name], uid);
    var added := AddTenant(read.sets[name], uid);
    VersionIgnored(added, Disturb(read, others).rev + 1);
  }

  /** Just before call k somebody else rewrites the instance. */
  predicate Meets(script: seq<Event>, k: nat, name: string) {
    k < |script| && exists o :: o in script[k].others && Rewrites(o, name)
  }

  predicate NoFailure(script: seq<Event>) {
    forall k :: 0 <= k < |script| ==> script[k].fault.Fine?
  }

  predicate NeverDeleted(script: seq<Event>, name: string) {
    forall k :: 0 <= k < |script| ==> DeletedByOther(name) !in script[k].others
  }

  /** What is left of a script after k calls. */
  function Drop(script: seq<Event>, k: nat): seq<Event> {
    if k <= |script| then script[k..] else []
  }

  lemma DropStep(script: seq<Event>, k: nat)
    ensures Rest(Drop(script, k)) == Drop(script, k + 1)
    ensures Head(Drop(script, k)) == if k < |script| then script[k] else Event([], Fine)
    ensures Drop(script, 0) == script
  {
  }

  /** The store two calls on, as the others alone would have made it. */
  function TwoCallsOn(st: Store, script: seq<Event>): Store {
    Disturb(Disturb(st, Head(script).others), Head(Rest(script)).others)
  }

  /** The retried closure: Get, edit, Update. */
  method TryToAdd(api: Api, uid: string, name: string) returns (e: Error)
    requires Valid(api.store) && ValidUid(uid)
    modifies api
    ensures Valid(api.store)
    ensures var s := old(api.script);
            || (api.script == Rest(s) && api.store == Disturb(old(api.store), Head(s).others) && !e.Conflict?)
            || (api.script == Rest(Rest(s)) && OnlyAdds(TwoCallsOn(old(api.store), s), api.store, uid, name))
    ensures e.NoError? ==> name in api.store.sets && uid in Tenants(api.store.sets[name])
    ensures e.NotFound? ==> name !in api.store.sets
    ensures e.NotFound? && name in old(api.store).sets ==>
              var s := old(api.script);
              DeletedByOther(name) in Head(s).others || DeletedByOther(name) in Head(Rest(s)).others
    ensures e.Conflict? ==> name in api.store.sets && api.store == TwoCallsOn(old(api.store), old(api.script))
    ensures e.Conflict? ==> exists o :: o in Head(Rest(old(api.script))).others && Rewrites(o, name)
    ensures e.Internal? ==> !Head(old(api.script)).fault.Fine? || !Head(Rest(old(api.script))).fault.Fine?
  {
    hide Disturb, AddTenant, Valid, Tenants;
    ghost var st := api.store;
    DisturbedVersions(api.store, Head(api.script).others, name);
    DisturbedObject(api.store, Head(api.script).others, name);
    var ok := api.Read();
    if !ok {
      return Internal;
    }
    if name !in api.store.sets {
      return NotFound;
    }
    var already, edited := Register(api.store.sets[name], uid);
    if already {
      return NoError;
    }
    DisturbedObject(api.store, Head(api.script).others, name);
    AcceptedUnchanged(api.store, Head(api.script).others, uid, name);
    e := api.UpdateSet(edited);
  }

  /** The calls made so far left what the others made of the store, up to this registration. */
  predicate AddsInRun(st0: Store, script0: seq<Event>, st: Store, script: seq<Event>, uid: string, name: string) {
    IsRest(script0, script) && OnlyAdds(DisturbAll(st0, Used(script0, script)), st, uid, name)
  }

  predicate UndoneInRun(st0: Store, script0: seq<Event>, st: Store, script: seq<Event>) {
    IsRest(script0, script) && st == DisturbAll(st0, Used(script0, script))
  }

  /** Registration under any interference and any failures: whatever the others write between the
      calls, the list that is extended is the one then stored, so that no write of theirs is lost.
      A conflict is reported only after four attempts, each of which met somebody else's write between
      its Get and its Update; as long as one of four does not, and nothing fails, the tenant gets in. */
  method AddTenantToSharedInstance(api: Api, uid: string, name: string) returns (e: Error)
    requires Valid(api.store) && ValidUid(uid)
    modifies api
    ensures IsRest(old(api.script), api.script) && Valid(api.store)
    ensures AddsInRun(old(api.store), old(api.script), api.store, api.script, uid, name)
    ensures e.NoError? ==> name in api.store.sets && uid in Tenants(api.store.sets[name])
    ensures e.NotFound? ==> name !in api.store.sets
    ensures e.Conflict? ==> UndoneInRun(old(api.store), old(api.script), api.store, api.script)
    ensures e.Conflict? ==> |old(api.script)| - |api.script| == 8
    ensures e.Conflict? ==> forall i | 0 <= i < 4 :: Meets(old(api.script), 2 * i + 1, name)
    ensures NoFailure(old(api.script)) && NeverDeleted(old(api.script), name) && name in old(api.store).sets ==>
              e.NoError? || forall i | 0 <= i < 4 :: Meets(old(api.script), 2 * i + 1, name)
    ensures Calm(old(api.script)) ==> !e.Conflict?
    ensures old(api.script) == [] ==> (e.NoError? <==> name in old(api.store).sets)
  {
    hide Disturb, DisturbAll, Used, IsRest, Valid, Tenants, NeverDeleted, Drop, NoFailure, OnlyAdds, Meets;
    hide TwoCallsOn, Rewrites, Head, Rest;
    ghost var st0, script0 := api.store, api.script;
    e := Conflict;
    var attempt := 0;
    UsedNothing(st0, script0);
    OnlyAddsFacts(st0, st0, uid, name);
    DropStep(script0, 0);
    NothingMeets(script0, name);
    while attempt < ADD_ATTEMPTS && e.Conflict?
      invariant 0 <= attempt <= ADD_ATTEMPTS
      invariant IsRest(script0, api.script) && Valid(api.store)
      invariant AddsInRun(st0, script0, api.store, api.script, uid, name)
      invariant e.Conflict? ==> UndoneInRun(st0, script0, api.store, api.script)
      invariant attempt == 0 ==> e.Conflict? && api.store == st0
      invariant e.NoError? ==> name in api.store.sets && uid in Tenants(api.store.sets[name])
      invariant e.NotFound? ==> name !in api.store.sets
      invariant e.Conflict? ==> api.script == Drop(script0, 2 * attempt)
      invariant e.Conflict? ==> forall i | 0 <= i < attempt :: Meets(script0, 2 * i + 1, name)
      invariant e.Conflict? && attempt > 0 ==> name in api.store.sets
      invariant NoFailure(script0) && NeverDeleted(script0, name) && name in st0.sets ==> e.Conflict? || e.NoError?
      invariant name !in st0.sets && script0 == [] ==> !e.NoError?
      invariant script0 == [] ==> attempt == 0 || !e.Conflict?
    {
      UsedTwice(st0, script0, api.script);
      TwoCalls(script0, attempt, name);
      QuietCalls(api.store, script0, attempt);
      ghost var before := api.store;
      ghost var now := api.script;
      e := TryToAdd(api, uid, name);
      OnlyAddsFacts(TwoCallsOn(before, now), api.store, uid, name);
      attempt := attempt + 1;
    }
    if e.Conflict? { FourMet(script0, name); }
  }

  lemma OnlyAddsFacts(mid: Store, st: Store, uid: string, name: string)
    ensures OnlyAdds(st, st, uid, name)
    ensures OnlyAdds(mid, st, uid, name) && name !in mid.sets ==> st == mid
  {
  }

  /** The next two calls, and the next one alone. */
  lemma UsedTwice(st: Store, before: seq<Event>, now: seq<Event>)
    requires IsRest(before, now)
    ensures IsRest(before, Rest(now)) && IsRest(before, Rest(Rest(now)))
    ensures DisturbAll(st, Used(before, Rest(now))) == Disturb(DisturbAll(st, Used(before, now)), Head(now).others)
    ensures DisturbAll(st, Used(before, Rest(Rest(now)))) == TwoCallsOn(DisturbAll(st, Used(before, now)), now)
  {
    UsedStep(st, before, now);
    UsedStep(st, before, Rest(now));
    hide IsRest, DisturbAll, Used, Disturb;
  }

  /** The two calls of an attempt, and what the assumptions on the script say about them. */
  lemma TwoCalls(script: seq<Event>, attempt: nat, name: string)
    ensures var rest := Drop(script, 2 * attempt);
            && Rest(Rest(rest)) == Drop(script, 2 * (attempt + 1))
            && (NoFailure(script) ==> Head(rest).fault.Fine? && Head(Rest(rest)).fault.Fine?)
            && (NeverDeleted(script, name) ==>
                  DeletedByOther(name) !in Head(rest).others && DeletedByOther(name) !in Head(Rest(rest)).others)
            && ((exists o :: o in Head(Rest(rest)).others && Rewrites(o, name)) ==> Meets(script, 2 * attempt + 1, name))
  {
    DropStep(script, 2 * attempt);
    DropStep(script, 2 * attempt + 1);
    hide Drop;
  }

  /** With no script left, nobody makes the instance appear. */
  lemma QuietCalls(st: Store, script: seq<Event>, attempt: nat)
    ensures script == [] ==> TwoCallsOn(st, Drop(script, 2 * attempt)) == st
    ensures script == [] ==> Disturb(st, Head(Drop(script, 2 * attempt)).others) == st
  {
  }

  lemma NothingMeets(script: seq<Event>, name: string)
    ensures Calm(script) ==> forall k: nat :: !Meets(script, k, name)
    ensures script == [] ==> Calm(script) && NoFailure(script) && NeverDeleted(script, name)
  {
  }

  lemma FourMet(script: seq<Event>, name: string)
    requires Meets(script, 2 * 3 + 1, name)
    ensures |Drop(script, 8)| == |script| - 8
  {
  }

  // ---- cleanupSharedPostgreSQLInstance ----

  /** The claim templates of every instance the operator makes. */
  const TEMPLATES := ["postgresql-storage"]

  /** The persistent volume claims of instance x. */
  ghost predicate OwnClaim(p: string, x: string) {
    exists number :: p == "postgresql-storage-" + x + "-" + number && IsIntegerText(number)
  }

  lemma OwnClaimMeans(p: string, x: string)
    ensures Belongs(p, TEMPLATES, x) <==> OwnClaim(p, x)
  {
    hide IsIntegerText;
    if Belongs(p, TEMPLATES, x) {
      var t :| t in TEMPLATES && ClaimOf(p, t, x);
      var number :| p == t + "-" + x + "-" + number && IsIntegerText(number);
      assert t + "-" == "postgresql-storage-";
    }
    forall number | p == "postgresql-storage-" + x + "-" + number && IsIntegerText(number)
      ensures Belongs(p, TEMPLATES, x)
    {
      assert "postgresql-storage" + "-" == "postgresql-storage-";
      assert ClaimOf(p, TEMPLATES[0], x);
    }
  }

  /** What a cleanup of instance x may do to the store, failed or not: delete its own objects. */
  ghost predicate OnlyCleans(st: Store, st': Store, x: string) {
    && st' == st.(rev := st'.rev, sets := st'.sets, services := st'.services, masters := st'.masters,
                  claims := st'.claims, jobs := st'.jobs)
    && st.rev <= st'.rev
    && (st'.sets == st.sets || st'.sets == st.sets - {x})
    && st.services - {x} <= st'.services <= st.services
    && st.masters - {MASTER_PREFIX + IdOf(x)} <= st'.masters <= st.masters
    && st'.claims <= st.claims
    && (forall p | p in st.claims && p !in st'.claims :: OwnClaim(p, x))
    && (forall j | j in st'.jobs :: j in st.jobs && st'.jobs[j] == st.jobs[j])
    && (forall j | j in st.jobs && j !in st'.jobs :: st.jobs[j].ssName == x)
  }

  /** Nothing of instance x is left. */
  ghost predicate Gone(st: Store, x: string) {
    && x !in st.sets && x !in st.services && MASTER_PREFIX + IdOf(x) !in st.masters
    && (forall j | j in st.jobs :: st.jobs[j].ssName != x)
  }

  ghost predicate ClaimsGone(st: Store, x: string) {
    forall p | p in st.claims :: !OwnClaim(p, x)
  }

  function IdOf(x: string): string {
    if CleanupId(x).Some? then CleanupId(x).value else ""
  }

  lemma ListedClaims(listing: seq<string>, pvcs: seq<string>, x: string)
    requires forall p :: p in pvcs <==> p in listing && Belongs(p, TEMPLATES, x)
    ensures forall p :: p in pvcs <==> p in listing && OwnClaim(p, x)
  {
    hide Belongs, OwnClaim;
    forall p ensures Belongs(p, TEMPLATES, x) <==> OwnClaim(p, x) {
      OwnClaimMeans(p, x);
    }
  }

  /** Step 1: the claims. Each failure is counted and the loop goes on. */
  method DeleteClaims(api: Api, x: string) returns (errors: nat)
    requires Calm(api.script)
    modifies api
    ensures Calm(api.script) && old(api.store).rev <= api.store.rev
    ensures api.store == old(api.store).(rev := api.store.rev, claims := api.store.claims)
    ensures api.store.claims <= old(api.store).claims
    ensures forall p | p in old(api.store).claims && p !in api.store.claims :: OwnClaim(p, x)
    ensures errors == 0 ==> ClaimsGone(api.store, x)
    ensures errors + Faults(api.script) <= Faults(old(api.script))
    ensures old(api.script) == [] ==> errors == 0 && api.script == []
  {
    hide Belongs, OwnClaim, ClaimOf, Naming.OwnClaims;
    errors := 0;
    ghost var st0 := api.store;
    var listed := api.Look();
    if !listed {
      return 1;
    }
    var listing := NamesOf(api.store.claims);
    var pvcs := ClaimsByName(listing, TEMPLATES, x);
    ListedClaims(listing, pvcs, x);
    for i := 0 to |pvcs|
      invariant Calm(api.script) && st0.rev <= api.store.rev
      invariant api.store == st0.(rev := api.store.rev, claims := api.store.claims)
      invariant api.store.claims <= st0.claims
      invariant forall p | p in st0.claims && p !in api.store.claims :: p in pvcs
      invariant errors == 0 ==> forall k | 0 <= k < i :: pvcs[k] !in api.store.claims
      invariant errors + Faults(api.script) <= Faults(old(api.script))
      invariant old(api.script) == [] ==> errors == 0 && api.script == []
    {
      var deleted := api.Commit(api.store.(claims := api.store.claims - {pvcs[i]}));
      if !deleted {
        errors := errors + 1;
      }
    }
  }

  /** Steps 1 and 2: the claims, then the StatefulSet, whatever became of the claims. */
  method DeleteStored(api: Api, x: string) returns (errors: nat)
    requires Calm(api.script)
    modifies api
    ensures Calm(api.script) && old(api.store).rev <= api.store.rev
    ensures api.store ==
              old(api.store).(rev := api.store.rev, claims := api.store.claims, sets := api.store.sets)
    ensures api.store.claims <= old(api.store).claims
    ensures forall p | p in old(api.store).claims && p !in api.store.claims :: OwnClaim(p, x)
    ensures api.store.sets == old(api.store).sets || api.store.sets == old(api.store).sets - {x}
    ensures errors == 0 ==> ClaimsGone(api.store, x) && x !in api.store.sets
    ensures errors == 1 ==> ClaimsGone(api.store, x) || x !in api.store.sets
    ensures errors + Faults(api.script) <= Faults(old(api.script))
    ensures old(api.script) == [] ==> errors == 0 && api.script == []
  {
    hide OwnClaim, Calm, Faults;
    errors := DeleteClaims(api, x);
    var deleted := api.Commit(api.store.(sets := api.store.sets - {x}));
    if !deleted {
      errors := errors + 1;
    }
  }

  /** Steps 3 and 4: an object that may be there. */
  method DeleteService(api: Api, name: string) returns (errors: nat)
    requires Calm(api.script)
    modifies api
    ensures Calm(api.script) && old(api.store).rev <= api.store.rev
    ensures api.store == old(api.store).(rev := api.store.rev, services := api.store.services)
    ensures old(api.store).services - {name} <= api.store.services <= old(api.store).services
    ensures errors == 0 ==> name !in api.store.services
    ensures errors + Faults(api.script) <= Faults(old(api.script))
    ensures old(api.script) == [] ==> errors == 0 && api.script == []
  {
    errors := 0;
    var got := api.Look();
    if !got {
      return 1;
    }
    if name in api.store.services {
      var deleted := api.Commit(api.store.(services := api.store.services - {name}));
      if !deleted {
        errors := 1;
      }
    }
  }

  method DeleteMaster(api: Api, name: string) returns (errors: nat)
    requires Calm(api.script)
    modifies api
    ensures Calm(api.script) && old(api.store).rev <= api.store.rev
    ensures api.store == old(api.store).(rev := api.store.rev, masters := api.store.masters)
    ensures old(api.store).masters - {name} <= api.store.masters <= old(api.store).masters
    ensures errors == 0 ==> name !in api.store.masters
    ensures errors + Faults(api.script) <= Faults(old(api.script))
    ensures old(api.script) == [] ==> errors == 0 && api.script == []
  {
    errors := 0;
    var got := api.Look();
    if !got {
      return 1;
    }
    if name in api.store.masters {
      var deleted := api.Commit(api.store.(masters := api.store.masters - {name}));
      if !deleted {
        errors := 1;
      }
    }
  }

  /** Step 5: the init and removal jobs carrying the ss-name label. */
  method DeleteJobs(api: Api, x: string) returns (errors: nat)
    requires Calm(api.script)
    modifies api
    ensures Calm(api.script) && old(api.store).rev <= api.store.rev
    ensures api.store == old(api.store).(rev := api.store.rev, jobs := api.store.jobs)
    ensures forall j | j in api.store.jobs :: j in old(api.store).jobs && api.store.jobs[j] == old(api.store).jobs[j]
    ensures forall j | j in old(api.store).jobs && j !in api.store.jobs :: old(api.store).jobs[j].ssName == x
    ensures errors == 0 ==> forall j | j in api.store.jobs :: api.store.jobs[j].ssName != x
    ensures errors + Faults(api.script) <= Faults(old(api.script))
    ensures old(api.script) == [] ==> errors == 0 && api.script == []
  {
    errors := 0;
    ghost var st0 := api.store;
    var listed := api.Look();
    if !listed {
      return 1;
    }
    var labelled := set j | j in api.store.jobs && api.store.jobs[j].ssName == x;
    var jobs := NamesOf(labelled);
    assert forall j | j in st0.jobs && st0.jobs[j].ssName == x :: j in labelled && j in jobs;
    for i := 0 to |jobs|
      invariant Calm(api.script) && st0.rev <= api.store.rev
      invariant api.store == st0.(rev := api.store.rev, jobs := api.store.jobs)
      invariant forall j | j in api.store.jobs :: j in st0.jobs && api.store.jobs[j] == st0.jobs[j]
      invariant forall j | j in st0.jobs && j !in api.store.jobs :: j in jobs
      invariant errors == 0 ==> forall k | 0 <= k < i :: jobs[k] !in api.store.jobs
      invariant errors + Faults(api.script) <= Faults(old(api.script))
      invariant old(api.script) == [] ==> errors == 0 && api.script == []
    {
      var deleted := api.Commit(api.store.(jobs := api.store.jobs - {jobs[i]}));
      if !deleted {
        errors := errors + 1;
      }
    }
  }

  /** The kinds of objects of x that are still there; its claims only if they were looked for. */
  ghost function Leftovers(st: Store, x: string, claims: bool): nat {
    (if claims && !ClaimsGone(st, x) then 1 else 0)
    + (if x in st.sets then 1 else 0)
    + (if x in st.services then 1 else 0)
    + (if MASTER_PREFIX + IdOf(x) in st.masters then 1 else 0)
    + (if exists j | j in st.jobs :: st.jobs[j].ssName == x then 1 else 0)
  }

  /** Under any failures only objects of x are deleted; when no error is reported, all of them are
      gone. Every step is tried whatever came before it: after the first Get, a failed call leaves
      at most one kind of objects behind. */
  method CleanupSharedInstance(api: Api, x: string) returns (ok: bool)
    requires Calm(api.script)
    modifies api
    ensures Calm(api.script)
    ensures OnlyCleans(old(api.store), api.store, x)
    ensures CleanupId(x).None? ==> !ok && api.store == old(api.store)
    ensures ok ==> Gone(api.store, x) && (x in old(api.store).sets ==> ClaimsGone(api.store, x))
    ensures CleanupId(x).Some? && Head(old(api.script)).fault.Fine? ==>
              Leftovers(api.store, x, x in old(api.store).sets) + Faults(api.script) <= Faults(old(api.script))
    ensures old(api.script) == [] ==> (ok <==> CleanupId(x).Some?) && api.script == []
  {
    hide OwnClaim, Calm, Faults;
    var got := api.Look();
    if !got {
      return false;
    }
    var present := x in api.store.sets;
    if !(|x| > 11 && HasPrefix(x, "postgresql-")) {
      return false;
    }
    var id := x[11..];
    var errors := 0;
    if present {
      errors := DeleteStored(api, x);
    }
    ServiceIsSet(x);
    var more := DeleteService(api, SS_PREFIX + id);
    errors := errors + more;
    more := DeleteMaster(api, MASTER_PREFIX + id);
    errors := errors + more;
    more := DeleteJobs(api, x);
    errors := errors + more;
    return errors == 0;
  }

  lemma ServiceIsSet(x: string)
    requires HasPrefix(x, SS_PREFIX)
    ensures SS_PREFIX + x[|SS_PREFIX|..] == x
  {
  }

  /** Every object of another instance survives a cleanup of x. */
  lemma OthersSurvive(st: Store, st': Store, x: string, y: string)
    requires OnlyCleans(st, st', x) && IsSsName(x) && IsSsName(y) && x != y
    ensures y in st.sets <==> y in st'.sets
    ensures y in st.sets ==> st'.sets[y] == st.sets[y]
    ensures y in st.services <==> y in st'.services
    ensures MasterFromSs(y) in st.masters <==> MasterFromSs(y) in st'.masters
    ensures forall p | OwnClaim(p, y) :: p in st.claims <==> p in st'.claims
    ensures forall j | j in st.jobs && st.jobs[j].ssName == y :: j in st'.jobs && st'.jobs[j] == st.jobs[j]
  {
    SsNameCoheres(x);
    SsNameCoheres(y);
    assert MasterFromSs(y) != MASTER_PREFIX + IdOf(x) by {
      assert LastSix(MasterFromSs(y)) == LastSix(y) && LastSix(MASTER_PREFIX + IdOf(x)) == LastSix(x);
    }
    forall p | OwnClaim(p, y) ensures p in st.claims <==> p in st'.claims {
      if p in st.claims && p !in st'.claims {
        OwnClaimMeans(p, x);
        OwnClaimMeans(p, y);
        ClaimsDisjoint(p, TEMPLATES[0], x, y);
      }
    }
  }

  // ---- removeTenantFromSharedInstance ----

  predicate OperatorNames(st: Store) {
    forall x | x in st.sets :: IsSsName(x)
  }

  predicate NotListed(st: Store, uid: string) {
    forall x | x in st.sets :: uid !in Tenants(st.sets[x])
  }

  function RemoveJobName(uid: string): string
    requires |uid| >= 8
  {
    "db-remove-" + uid[..8]
  }

  predicate LastTenant(st: Store, uid: string, x: string) {
    x in st.sets && |Without(Tenants(st.sets[x]), uid)| == 0
  }

  /** No init job is ever taken for a removal job. */
  lemma JobNamesApart(u: string, v: string)
    requires |u| >= 8 && |v| >= 8
    ensures InitJobName(u) != RemoveJobName(v)
  {
    assert InitJobName(u)[3] == 'i' && RemoveJobName(v)[3] == 'r';
  }

  /** What a removal from instance x may have done once its Update took effect: the list is
      filtered; then an emptied instance is cleaned up, another one gets a removal job. */
  ghost predicate Removed(st: Store, st': Store, uid: string, x: string)
    requires |uid| >= 8 && |x| >= ID_LENGTH
  {
    && x in st.sets && uid in Tenants(st.sets[x])
    && var mid := Stored(st, RemoveTenant(st.sets[x], uid));
       if LastTenant(st, uid, x) then OnlyCleans(mid, st', x)
       else st' == mid || (&& RemoveJobName(uid) !in st.jobs
                           && st' == mid.(rev := mid.rev + 1,
                                          jobs := st.jobs[RemoveJobName(uid) := DbJob(uid, x, MasterFromSs(x))]))
  }

  /** An instance that keeps tenants gets a removal job, unless one of that name is there. */
  ghost predicate JobLeft(st: Store, st': Store, uid: string, x: string)
    requires |uid| >= 8 && |x| >= ID_LENGTH
  {
    && "db-remove-" + uid[..8] in st'.jobs
    && ("db-remove-" + uid[..8] !in st.jobs ==>
          st'.jobs["db-remove-" + uid[..8]] == DbJob(uid, x, "postgresql-master-secret-" + x[|x| - 6..]))
  }

  /** The second half, after the Update of instance x took effect in `st`. */
  method AfterRemoval(api: Api, ghost st: Store, uid: string, x: string, remaining: nat) returns (ok: bool)
    requires Calm(api.script) && ValidUid(uid) && IsSsName(x)
    requires x in st.sets && uid in Tenants(st.sets[x]) && remaining == |Without(Tenants(st.sets[x]), uid)|
    requires api.store == Stored(st, RemoveTenant(st.sets[x], uid))
    modifies api
    ensures Calm(api.script) && api.store.rev > st.rev
    ensures Removed(st, api.store, uid, x)
    ensures old(api.script) == [] ==> ok && api.script == []
    ensures ok && !LastTenant(st, uid, x) ==> JobLeft(st, api.store, uid, x)
    ensures old(api.script) == [] && LastTenant(st, uid, x) ==> Gone(api.store, x) && ClaimsGone(api.store, x)
  {
    hide Tenants, Without, RemoveTenant, OnlyCleans, Gone, ClaimsGone, Removed, IsSsName, Calm;
    ghost var mid := api.store;
    NameLengthOf(x);
    if remaining == 0 {
      var cleaned := CleanupSharedInstance(api, x);
      OnlyCleansSets(mid, api.store, x);
      JustCleaned(st, api.store, uid, x);
      return true;
    }
    JustUpdated(st, uid, x);
    JobAdded(st, uid, x);
    var jobName := "db-remove-" + uid[..8];
    var got := api.Look();
    if !got {
      return false;
    }
    if jobName in api.store.jobs {
      return true;
    }
    var job := DbJob(uid, x, "postgresql-master-secret-" + x[|x| - 6..]);
    ok := api.Commit(api.store.(jobs := api.store.jobs[jobName := job]));
  }

  lemma NameLengthOf(x: string)
    requires IsSsName(x)
    ensures |x| >= ID_LENGTH && CleanupId(x).Some?
  {
    SsNameCoheres(x);
  }

  lemma JustCleaned(st: Store, st': Store, uid: string, x: string)
    requires |uid| >= 8 && |x| >= ID_LENGTH && x in st.sets && uid in Tenants(st.sets[x])
    requires LastTenant(st, uid, x)
    requires OnlyCleans(Stored(st, RemoveTenant(st.sets[x], uid)), st', x)
    ensures Removed(st, st', uid, x)
  {
    hide Tenants, RemoveTenant, Without, OnlyCleans;
  }

  lemma JobAdded(st: Store, uid: string, x: string)
    requires |uid| >= 8 && |x| >= ID_LENGTH && x in st.sets && uid in Tenants(st.sets[x])
    requires !LastTenant(st, uid, x)
    ensures var mid := Stored(st, RemoveTenant(st.sets[x], uid));
            var name := "db-remove-" + uid[..8];
            var jobs := st.jobs[name := DbJob(uid, x, MasterFromSs(x))];
            name !in st.jobs ==> Removed(st, mid.(rev := mid.rev + 1, jobs := jobs), uid, x)
  {
    hide Tenants, RemoveTenant, Without, OnlyCleans;
  }

  lemma OnlyCleansSets(st: Store, st': Store, x: string)
    requires OnlyCleans(st, st', x)
    ensures st.rev <= st'.rev
    ensures forall y | y in st.sets && y !in st'.sets :: y == x
  {
  }

  lemma JustUpdated(st: Store, uid: string, x: string)
    requires |uid| >= 8 && |x| >= ID_LENGTH && x in st.sets && uid in Tenants(st.sets[x])
    ensures Removed(st, Stored(st, RemoveTenant(st.sets[x], uid)), uid, x)
  {
    hide Tenants, RemoveTenant, OwnClaim;
  }

  /** What success promises of the instance x that the tenant was removed from. */
  ghost predicate RemovalDone(st: Store, st': Store, uid: string, x: string, script: seq<Event>) {
    && |uid| >= 8 && IsSsName(x) && |x| >= ID_LENGTH && Removed(st, st', uid, x)
    && (!LastTenant(st, uid, x) ==> JobLeft(st, st', uid, x))
    && (script == [] && LastTenant(st, uid, x) ==> Gone(st', x) && ClaimsGone(st', x))
  }

  /** Removal under any failures: either nothing was stored, or exactly one instance that held the
      tenant lost it; done means that an instance with tenants left has its removal job. A removal
      reported as done that stored nothing found the tenant nowhere. */
  method RemoveTenantFromSharedInstance(api: Api, uid: string) returns (ok: bool)
    requires Calm(api.script) && Valid(api.store) && OperatorNames(api.store) && ValidUid(uid)
    modifies api
    ensures Calm(api.script)
    ensures api.store == old(api.store) || exists x | IsSsName(x) :: Removed(old(api.store), api.store, uid, x)
    ensures ok && api.store == old(api.store) ==> NotListed(old(api.store), uid)
    ensures old(api.script) == [] ==> ok && api.script == []
    ensures ok && api.store != old(api.store) ==>
              exists x :: RemovalDone(old(api.store), api.store, uid, x, old(api.script))
  {
    hide Tenants, Without, RemoveTenant, Removed, Gone, ClaimsGone, IsSsName, JobLeft;
    ghost var st := api.store;
    var listed := api.Look();
    if !listed {
      return false;
    }
    var items := ItemsOf(api.store.sets);
    var holder, edited, remaining := Deregister(items, uid);
    if holder.None? {
      return true;
    }
    var x := holder.value.name;
    assert IsSsName(x) && |x| >= ID_LENGTH by { NameLength(st, x); }
    CalmRest(api.script);
    var e := api.UpdateSet(edited);
    JustUpdated(st, uid, x);
    if e != NoError {
      return false;
    }
    ghost var script := api.script;
    ok := AfterRemoval(api, st, uid, x, remaining);
    assert old(api.script) == [] ==> script == [];
    assert ok ==> RemovalDone(st, api.store, uid, x, old(api.script));
  }

  lemma NameLength(st: Store, x: string)
    requires OperatorNames(st) && x in st.sets
    ensures IsSsName(x) && |x| >= ID_LENGTH
  {
  }

  lemma SetsAfterRemoval(st: Store, st': Store, uid: string, x: string)
    requires |uid| >= 8 && |x| >= ID_LENGTH && Removed(st, st', uid, x)
    ensures x in st.sets && uid in Tenants(st.sets[x])
    ensures var sets := Stored(st, RemoveTenant(st.sets[x], uid)).sets;
            st'.sets == sets || (LastTenant(st, uid, x) && st'.sets == sets - {x})
  {
    hide Tenants, RemoveTenant, OwnClaim;
  }

  /** For a tenant in at most one list, removal leaves it in none; every other instance keeps its
      object as it was, and an instance that survives keeps the order of its other tenants. */
  lemma RemovalExact(st: Store, st': Store, uid: string, x: string)
    requires Valid(st) && IsSsName(x) && ValidUid(uid) && Removed(st, st', uid, x)
    requires Exact(st.sets[x])
    requires forall y | y in st.sets && uid in Tenants(st.sets[y]) :: y == x
    ensures NotListed(st', uid)
    ensures forall y | y in st.sets && y != x :: y in st'.sets && st'.sets[y] == st.sets[y]
    ensures x in st'.sets ==> Exact(st'.sets[x]) && Tenants(st'.sets[x]) == Without(Tenants(st.sets[x]), uid)
    ensures Tenants(st.sets[x]) != [uid] ==> x in st'.sets
  {
    hide Exact, Tenants, LabelCount, RemoveTenant, IsSsName, Without, OwnClaim, Removed;
    NameLengthOf(x);
    SetsAfterRemoval(st, st', uid, x);
    FilteredObject(st.sets[x], uid, st.rev + 1);
    assert st.sets[x].name == x;
    hide Valid;
    if LastTenant(st, uid, x) {
      assert |Tenants(st.sets[x])| == 1;
      assert Tenants(st.sets[x]) == [uid];
    }
  }

  lemma FilteredObject(ss: StatefulSet, uid: string, rv: nat)
    requires Exact(ss) && uid in Tenants(ss)
    ensures var stored := RemoveTenant(ss, uid).(rv := rv);
            Exact(stored) && Tenants(stored) == Without(Tenants(ss), uid)
    ensures |Without(Tenants(ss), uid)| == |Tenants(ss)| - 1
  {
    hide RemoveTenant;
    VersionIgnored(RemoveTenant(ss, uid), rv);
    WithoutKeepsDistinct(Tenants(ss), uid);
  }

  // ---- what is left after a removal ----

  predicate IsOther(st: Store, uid: string, y: string) {
    IsSsName(y) && !(y in st.sets && uid in Tenants(st.sets[y]))
  }

  /** Every object of instance y is as it was. */
  ghost predicate Untouched(st: Store, st': Store, y: string)
    requires |y| >= 11
  {
    && (y in st.sets <==> y in st'.sets) && (y in st.sets ==> st'.sets[y] == st.sets[y])
    && (y in st.services <==> y in st'.services)
    && ("postgresql-master-secret-" + y[11..] in st.masters <==> "postgresql-master-secret-" + y[11..] in st'.masters)
    && (forall p | OwnClaim(p, y) :: p in st.claims <==> p in st'.claims)
    && (forall j | j in st.jobs && st.jobs[j].ssName == y :: j in st'.jobs && st'.jobs[j] == st.jobs[j])
    && (forall j | j in st'.jobs && st'.jobs[j].ssName == y :: j in st.jobs && st.jobs[j] == st'.jobs[j])
  }

  /** Nothing of instance x is left. */
  ghost predicate Vanished(st: Store, x: string)
    requires |x| >= 11
  {
    && x !in st.sets && x !in st.services && "postgresql-master-secret-" + x[11..] !in st.masters
    && (forall p | p in st.claims :: !OwnClaim(p, x))
    && (forall j | j in st.jobs :: st.jobs[j].ssName != x)
  }

  /** Only instances that listed the tenant were touched. */
  ghost predicate OthersUntouched(st: Store, st': Store, uid: string) {
    forall y | IsOther(st, uid, y) :: |y| >= 11 && Untouched(st, st', y)
  }

  /** What a successful removal leaves of an instance that listed the tenant: nothing, if it was the
      last one and no call failed; otherwise the other tenants in their order, and a removal job. */
  ghost predicate TakenOff(st: Store, st': Store, uid: string, fine: bool)
    requires |uid| >= 8
  {
    forall x | x in st.sets && uid in Tenants(st.sets[x]) ::
      && |x| >= 11
      && (Tenants(st.sets[x]) == [uid] && fine ==> Vanished(st', x))
      && (Tenants(st.sets[x]) != [uid] ==>
            x in st'.sets && Tenants(st'.sets[x]) == Without(Tenants(st.sets[x]), uid) && JobLeft(st, st', uid, x))
  }

  /** No other tenant lost its place. */
  ghost predicate OthersListed(st: Store, st': Store, uid: string) {
    forall x, u | x in st.sets && u in Tenants(st.sets[x]) && u != uid :: x in st'.sets && u in Tenants(st'.sets[x])
  }

  /** The tenant is in at most one list, and that one is an exact cache. */
  ghost predicate OnceListed(st: Store, uid: string) {
    && (forall x, y | x in st.sets && y in st.sets && uid in Tenants(st.sets[x]) && uid in Tenants(st.sets[y]) :: x == y)
    && (forall x | x in st.sets && uid in Tenants(st.sets[x]) :: Exact(st.sets[x]))
  }

  lemma MasterName(x: string)
    requires IsSsName(x)
    ensures |x| >= 11 && "postgresql-master-secret-" + x[11..] == MASTER_PREFIX + IdOf(x) == MasterFromSs(x)
  {
    SsNameCoheres(x);
    assert x[11..] == LastSix(x);
  }

  lemma UpdateTouches(st: Store, uid: string, x: string, y: string)
    requires Valid(st) && x in st.sets && x != y && |y| >= 11
    ensures Untouched(st, Stored(st, RemoveTenant(st.sets[x], uid)), y)
  {
    hide OwnClaim, RemoveTenant;
  }

  lemma CleanupTouches(st: Store, st': Store, x: string, y: string)
    requires OnlyCleans(st, st', x) && IsSsName(x) && IsSsName(y) && x != y
    ensures |y| >= 11 && Untouched(st, st', y)
  {
    OthersSurvive(st, st', x, y);
    MasterName(y);
    hide OwnClaim, IsSsName;
  }

  lemma UntouchedTwice(st0: Store, st1: Store, st2: Store, y: string)
    requires |y| >= 11 && Untouched(st0, st1, y) && Untouched(st1, st2, y)
    ensures Untouched(st0, st2, y)
  {
    hide OwnClaim;
  }

  lemma RemovalJobTouches(st: Store, st': Store, uid: string, x: string, y: string)
    requires |uid| >= 8 && |x| >= ID_LENGTH && |y| >= 11 && x != y && RemoveJobName(uid) !in st.jobs
    requires st' == st.(rev := st.rev + 1, jobs := st.jobs[RemoveJobName(uid) := DbJob(uid, x, MasterFromSs(x))])
    ensures Untouched(st, st', y)
  {
    hide OwnClaim;
  }

  /** A removal from x leaves every other instance alone. */
  lemma RemovedTouches(st: Store, st': Store, uid: string, x: string, y: string)
    requires Valid(st) && |uid| >= 8 && IsSsName(x) && IsSsName(y) && x != y
    requires |x| >= ID_LENGTH && Removed(st, st', uid, x)
    ensures |y| >= 11 && Untouched(st, st', y)
  {
    MasterName(y);
    hide Untouched, OnlyCleans, Tenants, RemoveTenant, LastTenant, IsSsName, Valid;
    UpdateTouches(st, uid, x, y);
    var mid := Stored(st, RemoveTenant(st.sets[x], uid));
    if LastTenant(st, uid, x) {
      CleanupTouches(mid, st', x, y);
      UntouchedTwice(st, mid, st', y);
    } else if st' != mid {
      RemovalJobTouches(mid, st', uid, x, y);
      UntouchedTwice(st, mid, st', y);
    }
  }

  /** A removal writes nothing but the objects of shared instances. */
  predicate OnlyInstances(st: Store, st': Store) {
    st' == st.(rev := st'.rev, sets := st'.sets, services := st'.services, masters := st'.masters,
               claims := st'.claims, jobs := st'.jobs)
  }

  lemma SelfUntouched(st: Store, uid: string)
    ensures OthersUntouched(st, st, uid) && OthersListed(st, st, uid)
  {
    hide OwnClaim, Tenants;
  }

  lemma RemovedFrame(st: Store, st': Store, uid: string, x: string)
    requires |uid| >= 8 && |x| >= ID_LENGTH && Removed(st, st', uid, x)
    ensures OnlyInstances(st, st') && x in st.sets && uid in Tenants(st.sets[x])
  {
    hide OwnClaim, Tenants, RemoveTenant, LastTenant;
  }

  lemma RemovedTouchesOnly(st: Store, st': Store, uid: string, x: string)
    requires Valid(st) && |uid| >= 8 && IsSsName(x) && |x| >= ID_LENGTH && Removed(st, st', uid, x)
    ensures OthersUntouched(st, st', uid) && OnlyInstances(st, st')
  {
    RemovedFrame(st, st', uid, x);
    hide Untouched, IsSsName, Valid, Tenants, OnlyInstances, Removed;
    forall y | IsOther(st, uid, y) ensures |y| >= 11 && Untouched(st, st', y) {
      RemovedTouches(st, st', uid, x, y);
    }
  }

  lemma LastIsAlone(ss: StatefulSet, uid: string)
    requires Exact(ss) && uid in Tenants(ss)
    ensures |Without(Tenants(ss), uid)| == 0 <==> Tenants(ss) == [uid]
  {
    hide Tenants;
    WithoutKeepsDistinct(Tenants(ss), uid);
    if Tenants(ss) == [uid] { assert |Without(Tenants(ss), uid)| == 0; }
    if |Without(Tenants(ss), uid)| == 0 { assert |Tenants(ss)| == 1; }
  }

  /** What was promised of the removal from x, told of the tenant. */
  lemma RemovedTakesOff(st: Store, st': Store, uid: string, x: string, fine: bool)
    requires Valid(st) && ValidUid(uid) && IsSsName(x) && |x| >= ID_LENGTH && Removed(st, st', uid, x) && OnceListed(st, uid)
    requires !LastTenant(st, uid, x) ==> JobLeft(st, st', uid, x)
    requires fine && LastTenant(st, uid, x) ==> Gone(st', x) && ClaimsGone(st', x)
    ensures NotListed(st', uid) && TakenOff(st, st', uid, fine)
  {
    MasterName(x);
    SetsAfterRemoval(st, st', uid, x);
    RemovalExact(st, st', uid, x);
    LastIsAlone(st.sets[x], uid);
    hide Removed, Tenants, Exact, JobLeft, IsSsName, Valid, OwnClaim, ValidUid, Without;
  }

  lemma RemovalTells(st: Store, st': Store, uid: string, script: seq<Event>)
    requires Valid(st) && ValidUid(uid) && OnceListed(st, uid)
    requires (st' == st && NotListed(st, uid)) || exists x :: RemovalDone(st, st', uid, x, script)
    ensures NotListed(st', uid) && TakenOff(st, st', uid, script == [])
  {
    hide Removed, Tenants, Exact, JobLeft, Gone, ClaimsGone, IsSsName, Valid, OwnClaim, LastTenant, OnceListed, Vanished;
    if exists x :: RemovalDone(st, st', uid, x, script) {
      var x :| RemovalDone(st, st', uid, x, script);
      RemovedTakesOff(st, st', uid, x, script == []);
    }
  }

  lemma RemovedKeepsListed(st: Store, st': Store, uid: string, x: string)
    requires Valid(st) && ValidUid(uid) && IsSsName(x) && |x| >= ID_LENGTH && Removed(st, st', uid, x) && OnceListed(st, uid)
    ensures OthersListed(st, st', uid)
  {
    SetsAfterRemoval(st, st', uid, x);
    RemovalExact(st, st', uid, x);
    LastIsAlone(st.sets[x], uid);
    hide Removed, Tenants, Exact, IsSsName, Valid;
  }
}
