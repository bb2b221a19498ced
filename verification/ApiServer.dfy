/** The API server as one client sees it: a store of versioned objects, a script of what happens
    around its next calls, and the calls themselves. */
module ApiServer {
  import opened GoStrings
  import opened Objects
  import opened Registry

  type Hard = map<string, Quantity>

  datatype Deployment = Deployment(replicas: int, image: string)

  /** TenantEnvironments by name; namespaces, quotas, deployments, database secrets (their hosts)
      and dedicated instances by tenant UID; the rest lives in the shared-services namespace.
      `rev` counts the writes. */
  datatype Store = Store(
    rev: nat,
    envs: map<string, TenantEnv>,
    namespaces: map<string, NsPhase>, quotas: map<string, Option<Hard>>, deployments: map<string, Deployment>,
    secrets: map<string, string>, dedicated: set<string>,
    sets: map<string, StatefulSet>, services: set<string>, masters: set<string>, claims: set<string>,
    jobs: map<string, DbJob>)

  /** A write to the StatefulSets by somebody else. */
  datatype Other = PutByOther(ss: StatefulSet) | DeletedByOther(x: string)

  /** Refused calls have no effect; a lost reply hides a call that took effect. */
  datatype Fault = Fine | Refused | ReplyLost

  /** What happens just before a call is served, and how it ends. */
  datatype Event = Event(others: seq<Other>, fault: Fault)

  datatype Error = NoError | NotFound | Conflict | Internal

  predicate Calm(script: seq<Event>) {
    forall i :: 0 <= i < |script| ==> script[i].others == []
  }

  /** Names are keys, and no version is from the future. */
  predicate Valid(st: Store) {
    && (forall x | x in st.sets :: st.sets[x].name == x && st.sets[x].rv <= st.rev)
    && (forall n | n in st.envs :: st.envs[n].name == n && st.envs[n].rv <= st.rev)
  }

  /** The tenant's namespace takes new objects. */
  predicate Living(st: Store, uid: string) {
    uid in st.namespaces && st.namespaces[uid] == Active
  }

  function Stored(st: Store, ss: StatefulSet): Store {
    st.(rev := st.rev + 1, sets := st.sets[ss.name := ss.(rv := st.rev + 1)])
  }

  function StoredEnv(st: Store, e: TenantEnv): Store {
    st.(rev := st.rev + 1, envs := st.envs[e.name := e.(rv := st.rev + 1)])
  }

  function DisturbOne(st: Store, o: Other): Store {
    match o
    case PutByOther(ss) => Stored(st, ss)
    case DeletedByOther(x) => st.(sets := st.sets - {x})
  }

  function Disturb(st: Store, others: seq<Other>): Store {
    if others == [] then st else DisturbOne(Disturb(st, others[..|others| - 1]), others[|others| - 1])
  }

  /** The store as the others alone would have made it. */
  function DisturbAll(st: Store, events: seq<Event>): Store {
    if events == [] then st
    else Disturb(DisturbAll(st, events[..|events| - 1]), events[|events| - 1].others)
  }

  lemma OneDisturbedVersion(st: Store, o: Other, x: string)
    requires Valid(st)
    ensures Valid(DisturbOne(st, o)) && st.rev <= DisturbOne(st, o).rev
    ensures DisturbOne(st, o) == st.(rev := DisturbOne(st, o).rev, sets := DisturbOne(st, o).sets)
    ensures x in DisturbOne(st, o).sets ==>
              (x in st.sets && DisturbOne(st, o).sets[x] == st.sets[x]) || DisturbOne(st, o).sets[x].rv > st.rev
  {
  }

  /** Somebody else's write gives the object a version that nobody has read before. */
  lemma {:induction false} DisturbedVersions(st: Store, others: seq<Other>, x: string)
    requires Valid(st)
    ensures Valid(Disturb(st, others)) && st.rev <= Disturb(st, others).rev
    ensures Disturb(st, others) == st.(rev := Disturb(st, others).rev, sets := Disturb(st, others).sets)
    ensures x in Disturb(st, others).sets ==>
              (x in st.sets && Disturb(st, others).sets[x] == st.sets[x]) || Disturb(st, others).sets[x].rv > st.rev
  {
    hide DisturbOne, Valid;
    if others != [] {
      DisturbedVersions(st, others[..|others| - 1], x);
      OneDisturbedVersion(Disturb(st, others[..|others| - 1]), others[|others| - 1], x);
    }
  }

  /** Somebody else stores or deletes the object. */
  predicate Rewrites(o: Other, x: string) {
    match o
    case PutByOther(ss) => ss.name == x
    case DeletedByOther(y) => y == x
  }

  /** What others do to one object and what they leave. */
  lemma {:induction false} DisturbedObject(st: Store, others: seq<Other>, x: string)
    ensures DeletedByOther(x) !in others && x in st.sets ==> x in Disturb(st, others).sets
    ensures (forall o | o in others :: !Rewrites(o, x)) ==>
              (x in Disturb(st, others).sets <==> x in st.sets)
              && (x in st.sets ==> Disturb(st, others).sets[x] == st.sets[x])
  {
    if others != [] {
      var n := |others| - 1;
      assert others[n] in others && forall o | o in others[..n] :: o in others;
      DisturbedObject(st, others[..n], x);
    }
  }

  lemma {:induction false} CalmDisturbs(st: Store, events: seq<Event>)
    requires Calm(events)
    ensures DisturbAll(st, events) == st
  {
    if events != [] {
      CalmDisturbs(st, events[..|events| - 1]);
    }
  }

  /** How many of the calls fail, or seem to. */
  function Faults(script: seq<Event>): nat {
    if script == [] then 0 else (if script[0].fault.Fine? then 0 else 1) + Faults(script[1..])
  }

  function Head(script: seq<Event>): Event {
    if script == [] then Event([], Fine) else script[0]
  }

  function Rest(script: seq<Event>): seq<Event> {
    if script == [] then [] else script[1..]
  }

  /** The server, with the client's view of its future. An exhausted script is fault-free. */
  class Api {
    var store: Store
    var script: seq<Event>

    constructor (st: Store, future: seq<Event>)
      ensures store == st && script == future
    {
      store, script := st, future;
    }

    /** A Get or List; the caller reads the store after it. */
    method Read() returns (ok: bool)
      modifies this
      ensures store == Disturb(old(store), Head(old(script)).others) && script == Rest(old(script))
      ensures ok <==> Head(old(script)).fault.Fine?
    {
      var event := Head(script);
      script := Rest(script);
      store := Disturb(store, event.others);
      ok := event.fault.Fine?;
    }

    /** A Get or List with nobody else writing meanwhile. */
    method Look() returns (ok: bool)
      requires Calm(script)
      modifies this
      ensures store == old(store) && script == Rest(old(script)) && Calm(script)
      ensures ok <==> Head(old(script)).fault.Fine?
      ensures Faults(old(script)) == Faults(script) + if ok then 0 else 1
    {
      ok := Read();
    }

    /** A write that the server would accept, leading to `next` with a new revision. */
    method Commit(next: Store) returns (ok: bool)
      requires Calm(script)
      modifies this
      ensures Calm(script) && script == Rest(old(script))
      ensures ok <==> Head(old(script)).fault.Fine?
      ensures Faults(old(script)) == Faults(script) + if ok then 0 else 1
      ensures store == if Head(old(script)).fault.Refused? then old(store) else next.(rev := old(store).rev + 1)
    {
      var event := Head(script);
      script := Rest(script);
      if !event.fault.Refused? {
        store := next.(rev := store.rev + 1);
      }
      ok := event.fault.Fine?;
    }

    /** Update of a StatefulSet: accepted only from the stored version. */
    method UpdateSet(ss: StatefulSet) returns (e: Error)
      modifies this
      ensures script == Rest(old(script))
      ensures var event := Head(old(script));
              var mid := Disturb(old(store), event.others);
              var accepted := !event.fault.Refused? && ss.name in mid.sets && mid.sets[ss.name].rv == ss.rv;
              && store == (if accepted then Stored(mid, ss) else mid)
              && (e.NoError? <==> accepted && event.fault.Fine?)
              && (e.NotFound? <==> !event.fault.Refused? && ss.name !in mid.sets)
              && (e.Conflict? <==> !event.fault.Refused? && ss.name in mid.sets && mid.sets[ss.name].rv != ss.rv)
    {
      var event := Head(script);
      script := Rest(script);
      store := Disturb(store, event.others);
      if event.fault.Refused? {
        return Internal;
      }
      if ss.name !in store.sets {
        return NotFound;
      }
      if store.sets[ss.name].rv != ss.rv {
        return Conflict;
      }
      store := Stored(store, ss);
      e := if event.fault.Fine? then NoError else Internal;
    }

    /** Update, or status Update, of a TenantEnvironment: `next` is what it stores. */
    method PutEnv(mem: TenantEnv, next: TenantEnv) returns (ok: bool)
      requires Calm(script) && next.name == mem.name
      modifies this
      ensures Calm(script) && script == Rest(old(script))
      ensures var accepted := !Head(old(script)).fault.Refused? && mem.name in old(store).envs
                              && old(store).envs[mem.name].rv == mem.rv;
              && store == (if accepted then StoredEnv(old(store), next) else old(store))
              && (ok <==> accepted && Head(old(script)).fault.Fine?)
    {
      var event := Head(script);
      script := Rest(script);
      if event.fault.Refused? || mem.name !in store.envs || store.envs[mem.name].rv != mem.rv {
        return false;
      }
      store := StoredEnv(store, next);
      ok := event.fault.Fine?;
    }
  }

  // ---- listings, in an order of the server's choosing ----

  predicate Lists(items: seq<StatefulSet>, sets: map<string, StatefulSet>) {
    && (forall i :: 0 <= i < |items| ==> items[i].name in sets && sets[items[i].name] == items[i])
    && (forall i, j :: 0 <= i < j < |items| ==> items[i].name != items[j].name)
    && (forall x :: x in sets ==> sets[x] in items)
  }

  method ItemsOf(sets: map<string, StatefulSet>) returns (items: seq<StatefulSet>)
    requires forall x | x in sets :: sets[x].name == x
    ensures Lists(items, sets)
  {
    items := [];
    var left := sets.Keys;
    while left != {}
      invariant left <= sets.Keys
      invariant forall i :: 0 <= i < |items| ==> items[i].name in sets && sets[items[i].name] == items[i]
      invariant forall i :: 0 <= i < |items| ==> items[i].name !in left
      invariant forall i, j :: 0 <= i < j < |items| ==> items[i].name != items[j].name
      invariant forall x :: x in sets && x !in left ==> sets[x] in items
      decreases left
    {
      var x :| x in left;
      left := left - {x};
      items := items + [sets[x]];
    }
  }

  method NamesOf(names: set<string>) returns (items: seq<string>)
    ensures forall n :: n in items <==> n in names
    ensures NoDuplicates(items)
  {
    items := [];
    var left := names;
    while left != {}
      invariant left <= names && NoDuplicates(items)
      invariant forall n :: n in items <==> n in names && n !in left
      decreases left
    {
      var n :| n in left;
      left := left - {n};
      items := items + [n];
    }
  }
}
