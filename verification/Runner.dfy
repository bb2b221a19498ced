/** The benchmark runner's concurrent placement: goroutines, a one-slot semaphore, and a write of
    a list computed from a List snapshot onto a separately fetched object. */
module Runner {
  import opened GoStrings
  import opened Registry

  /** A StatefulSet of the runner; a missing annotation reads as "". */
  datatype Instance = Instance(name: string, rv: nat, list: string, count: string)

  function Placed(i: Instance): (tenants: seq<string>) {
    ParseList(Some(i.list))
  }

  function WithList(i: Instance, tenants: seq<string>): Instance {
    i.(list := Join(tenants, ','), count := Itoa(|tenants|))
  }

  /** A goroutine: the creators (index % 10 == 0) and the joiners at their next API call. */
  datatype G =
    | Creating | Created(name: string)
    | Waiting                                           // for the semaphore
    | Listing                                           // holds it, about to List
    | Getting(items: seq<Instance>, i: nat)             // about to Get items[i]
    | Putting(items: seq<Instance>, i: nat, rv: nat)    // about to Update, from version rv
    | Joined(name: string)
    | Failed

  predicate Holds(g: G) {
    g.Listing? || g.Getting? || g.Putting?
  }

  /** The runner's configuration: the tenant ids in goroutine order; whether the semaphore is
      respected; whether calls may fail; whether others write the objects' status meanwhile. */
  datatype Cfg = Cfg(ids: seq<string>, guarded: bool, faults: bool, touches: bool)

  predicate IdsOk(c: Cfg) {
    NoDuplicates(c.ids) && forall i :: 0 <= i < |c.ids| ==> ValidUid(c.ids[i])
  }

  predicate IsCreator(i: nat) {
    i % 10 == 0
  }

  datatype State = State(rev: nat, sets: map<string, Instance>, sem: Option<nat>, gs: seq<G>)

  function Init(c: Cfg): State {
    State(0, map[], None, seq(|c.ids|, i => if i % 10 == 0 then Creating else Waiting))
  }

  // ---- the scan over a snapshot ----

  datatype Scan = Present(name: string) | Candidate(i: nat) | Exhausted

  predicate Open(i: Instance) {
    Atoi(i.count).Some? && Atoi(i.count).value < 10
  }

  lemma OpenMeans(i: Instance)
    ensures Open(i) <==> BelowTen(i.count)
  {
    hide Atoi, IsNumeral;
    if Atoi(i.count).Some? { AtoiExact(i.count, Atoi(i.count).value); }
    forall count | IsNumeral(i.count, count) ensures Atoi(i.count) == Some(count) { AtoiExact(i.count, count); }
  }

  /** The next item, from position i on, that the loop acts on. */
  function ScanFrom(items: seq<Instance>, i: nat, id: string): (r: Scan)
    ensures r.Candidate? ==> i <= r.i < |items| && Open(items[r.i]) && id !in Placed(items[r.i])
    ensures r.Candidate? ==> forall j :: i <= j < r.i ==> !Open(items[j])
    ensures r.Exhausted? ==> forall j :: i <= j < |items| ==> !Open(items[j])
    ensures r.Present? ==> exists j :: i <= j < |items| && items[j].name == r.name && id in Placed(items[j])
    decreases |items| - i
  {
    if i >= |items| then Exhausted
    else if !Open(items[i]) then ScanFrom(items, i + 1, id)
    else if id in Placed(items[i]) then Present(items[i].name)
    else Candidate(i)
  }

  /** The body of that loop, up to the Get: parse the count, parse the list, look for the tenant,
      and prepare the new annotations. */
  method ScanItems(items: seq<Instance>, start: nat, id: string)
    returns (r: Scan, newList: string, newCount: string)
    ensures r == ScanFrom(items, start, id)
    ensures r.Candidate? ==>
      var edited := WithList(items[r.i], Placed(items[r.i]) + [id]); newList == edited.list && newCount == edited.count
    ensures r.Candidate? ==> BelowTen(items[r.i].count) && forall j | start <= j < r.i :: !BelowTen(items[j].count)
    ensures r.Exhausted? ==> forall j | start <= j < |items| :: !BelowTen(items[j].count)
  {
    hide Split, Join, Itoa, Atoi, BelowTen;
    forall j | 0 <= j < |items| ensures Open(items[j]) <==> BelowTen(items[j].count) {
      OpenMeans(items[j]);
    }
    var i := start;
    newList, newCount := "", "";
    while i < |items|
      invariant start <= i
      invariant ScanFrom(items, start, id) == ScanFrom(items, i, id)
    {
      var ss := items[i];
      var count := Atoi(ss.count);
      if count.None? || count.value >= 10 {
        i := i + 1;
        continue;
      }
      var tenantList: seq<string> := [];
      if ss.list != "" {
        tenantList := Split(ss.list, ',');
      }
      var j := 0;
      while j < |tenantList|
        invariant 0 <= j <= |tenantList| && id !in tenantList[..j]
      {
        if tenantList[j] == id {
          return Present(ss.name), newList, newCount;
        }
        j := j + 1;
      }
      assert tenantList == Placed(ss) && tenantList[..|tenantList|] == tenantList;
      tenantList := tenantList + [id];
      return Candidate(i), Join(tenantList, ','), Itoa(|tenantList|);
    }
    return Exhausted, newList, newCount;
  }

  // ---- steps ----

  datatype Op =
    | Create(name: string, lost: bool)
    | Acquire
    | List(items: seq<Instance>)
    | Get(ok: bool)
    | Put(lost: bool)
    | Conflict
    | Fail

  datatype Action = Touch(x: string) | Do(g: nat, op: Op)

  /** Every StatefulSet of the namespace once, in any order. */
  predicate Snapshot(s: State, items: seq<Instance>) {
    && (forall i :: 0 <= i < |items| ==> items[i].name in s.sets && s.sets[items[i].name] == items[i])
    && (forall i, j :: 0 <= i < j < |items| ==> items[i].name != items[j].name)
    && (forall x :: x in s.sets ==> s.sets[x] in items)
  }

  predicate OpEnabled(c: Cfg, s: State, g: nat, op: Op)
    requires g < |s.gs| && |s.gs| == |c.ids|
  {
    var pc := s.gs[g];
    match op
    case Create(name, lost) => pc.Creating? && name !in s.sets && (lost ==> c.faults)
    case Acquire => pc.Waiting? && (c.guarded ==> s.sem.None?)
    case List(items) => pc.Listing? && Snapshot(s, items)
    case Get(ok) =>
      pc.Getting? && pc.i < |pc.items| && (ok ==> pc.items[pc.i].name in s.sets)
      && (!ok ==> c.faults || pc.items[pc.i].name !in s.sets)
    case Put(lost) =>
      && pc.Putting? && pc.i < |pc.items| && pc.items[pc.i].name in s.sets
      && s.sets[pc.items[pc.i].name].rv == pc.rv && (lost ==> c.faults)
    case Conflict =>
      && pc.Putting? && pc.i < |pc.items| && pc.items[pc.i].name in s.sets
      && s.sets[pc.items[pc.i].name].rv != pc.rv
    case Fail => c.faults && !pc.Created? && !pc.Joined?
  }

  predicate Enabled(c: Cfg, s: State, a: Action) {
    |s.gs| == |c.ids| &&
    match a
    case Touch(x) => c.touches && x in s.sets
    case Do(g, op) => g < |s.gs| && OpEnabled(c, s, g, op)
  }

  function PutInstance(s: State, i: Instance): State {
    s.(rev := s.rev + 1, sets := s.sets[i.name := i.(rv := s.rev + 1)])
  }

  /** Move goroutine g; returning from assignSharedInstance releases the semaphore. */
  function Goto(s: State, g: nat, pc: G): State
    requires g < |s.gs|
  {
    s.(gs := s.gs[g := pc],
       sem := if Holds(pc) then Some(g) else if s.sem == Some(g) then None else s.sem)
  }

  function Follow(items: seq<Instance>, i: nat, id: string): G {
    match ScanFrom(items, i, id)
    case Present(name) => Joined(name)
    case Candidate(k) => Getting(items, k)
    case Exhausted => Listing
  }

  function Next(c: Cfg, s: State, a: Action): State
    requires Enabled(c, s, a)
  {
    match a
    case Touch(x) => PutInstance(s, s.sets[x].(name := x))
    case Do(g, op) =>
      var pc, id := s.gs[g], c.ids[g];
      match op
      case Create(name, lost) =>  // the template carries the creator as its first tenant
        Goto(PutInstance(s, Instance(name, 0, id, "1")), g, if lost then Failed else Created(name))
      case Acquire => Goto(s, g, Listing)
      case List(items) => Goto(s, g, Follow(items, 0, id))
      case Get(ok) =>
        Goto(s, g, if ok then Putting(pc.items, pc.i, s.sets[pc.items[pc.i].name].rv)
                   else Follow(pc.items, pc.i + 1, id))
      case Put(lost) =>
        // the list of the snapshot item, written onto the object fetched later
        var item := pc.items[pc.i];
        var edited := WithList(item, Placed(item) + [id]);
        var latest := s.sets[item.name];
        Goto(PutInstance(s, latest.(name := item.name, list := edited.list, count := edited.count)), g,
             if lost then Failed else Joined(item.name))
      case Conflict => Goto(s, g, Follow(pc.items, pc.i + 1, id))
      case Fail => Goto(s, g, Failed)
  }

  predicate ValidRun(c: Cfg, acts: seq<Action>)
    decreases |acts|, 0
  {
    acts == [] || (
      && ValidRun(c, acts[..|acts| - 1])
      && Enabled(c, After(c, acts[..|acts| - 1]), acts[|acts| - 1]))
  }

  function After(c: Cfg, acts: seq<Action>): State
    requires ValidRun(c, acts)
    decreases |acts|, 1
  {
    if acts == [] then Init(c) else Next(c, After(c, acts[..|acts| - 1]), acts[|acts| - 1])
  }

  // ---- safety ----

  ghost function ListsOf(sets: map<string, Instance>): map<string, seq<string>> {
    map x | x in sets :: Placed(sets[x])
  }

  /** A stored instance: distinct valid tenants, one to ten of them, and the count is their number. */
  predicate InstanceOk(i: Instance) {
    && NoDuplicates(Placed(i)) && (forall k :: 0 <= k < |Placed(i)| ==> ValidUid(Placed(i)[k]))
    && 1 <= |Placed(i)| <= 10 && Atoi(i.count) == Some(|Placed(i)|)
  }

  ghost predicate StoreOk(s: State) {
    forall x | x in s.sets :: s.sets[x].name == x && InstanceOk(s.sets[x])
  }

  /** The annotations of the snapshot item are still the stored ones. */
  predicate Current(s: State, item: Instance) {
    item.name in s.sets && s.sets[item.name].list == item.list && s.sets[item.name].count == item.count
  }

  ghost predicate GOk(c: Cfg, s: State, g: nat)
    requires g < |s.gs| == |c.ids|
  {
    var pc := s.gs[g];
    && (Holds(pc) ==> s.sem == Some(g))
    && (pc.Creating? || pc.Created? ==> IsCreator(g))
    && (pc.Waiting? || Holds(pc) || pc.Joined? ==> !IsCreator(g))
    && (pc.Getting? || pc.Putting? ==>
          && pc.i < |pc.items| && Open(pc.items[pc.i]) && c.ids[g] !in Placed(pc.items[pc.i])
          && forall k :: 0 <= k < |pc.items| ==> Current(s, pc.items[k]))
    && (pc.Created? || pc.Joined? ==> pc.name in s.sets && c.ids[g] in Placed(s.sets[pc.name]))
  }

  /** Tenants are placed by their own goroutine, which is then through, and in one list only. */
  ghost predicate PlacedOnce(c: Cfg, s: State)
    requires |s.gs| == |c.ids|
  {
    && (forall x, u | x in s.sets && u in Placed(s.sets[x]) :: u in c.ids)
    && (forall x, g | x in s.sets && 0 <= g < |s.gs| && c.ids[g] in Placed(s.sets[x]) ::
          s.gs[g].Created? || s.gs[g].Joined? || s.gs[g].Failed?)
    && (forall x, y, u | x in s.sets && y in s.sets && u in Placed(s.sets[x]) && u in Placed(s.sets[y]) :: x == y)
  }

  ghost predicate Safe(c: Cfg, s: State) {
    && |s.gs| == |c.ids| && StoreOk(s) && PlacedOnce(c, s)
    && (s.sem.Some? ==> s.sem.value < |s.gs| && Holds(s.gs[s.sem.value]))
    && forall g | 0 <= g < |s.gs| :: GOk(c, s, g)
  }

  // ---- writes ----

  /** Writing a list stores exactly it. */
  lemma WrittenList(i: Instance, tenants: seq<string>)
    requires 1 <= |tenants| <= 10 && NoDuplicates(tenants)
    requires forall k :: 0 <= k < |tenants| ==> ValidUid(tenants[k])
    ensures Placed(WithList(i, tenants)) == tenants && InstanceOk(WithList(i, tenants))
  {
    SplitJoin(tenants, ',');
    JoinNonEmpty(tenants);
    AtoiItoa(|tenants|);
  }

  lemma FirstTenant(name: string, id: string)
    requires ValidUid(id)
    ensures Placed(Instance(name, 0, id, "1")) == [id] && InstanceOk(Instance(name, 0, id, "1"))
  {
    SplitFree(id, ',');
    assert "1" == Itoa(1);
    AtoiItoa(1);
  }

  lemma OkIgnoresVersion(i: Instance, rv: nat)
    ensures Placed(i.(rv := rv)) == Placed(i) && (InstanceOk(i.(rv := rv)) <==> InstanceOk(i))
  {
  }
}
