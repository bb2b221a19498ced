/** Runner progress when no call fails, whoever else writes the objects meanwhile: enough instances
    come to exist, an unplaced joiner always has one with room, and every run can be completed, with
    each tenant placed exactly once. */
module RunnerProgress {
  import opened GoStrings
  import opened Registry
  import opened Counting
  import opened Runner
  import opened RunnerSafety

  /** No call fails. Others may write the objects at any time, and so make an Update conflict. */
  predicate FaultFree(c: Cfg) {
    c.guarded && !c.faults
  }

  // ---- sums over the goroutines ----

  function Total(w: G -> nat, gs: seq<G>): nat {
    if gs == [] then 0 else Total(w, gs[..|gs| - 1]) + w(gs[|gs| - 1])
  }

  lemma {:induction false} TotalUpdate(w: G -> nat, gs: seq<G>, i: nat, g: G)
    requires i < |gs|
    ensures Total(w, gs[i := g]) + w(gs[i]) == Total(w, gs) + w(g)
  {
    var more := gs[i := g];
    var n := |gs| - 1;
    if i == n {
      assert more[..n] == gs[..n];
    } else {
      TotalUpdate(w, gs[..n], i, g);
      assert more[..n] == gs[..n][i := g];
    }
  }

  /** The steps a goroutine has still to make when nobody else writes. */
  function Weight(g: G): nat {
    match g
    case Creating => 1
    case Waiting => 4
    case Listing => 3
    case Getting(_, _) => 2
    case Putting(_, _, _) => 1
    case _ => 0
  }

  /** The holder of the semaphore is about to Update from a version that is no longer stored. */
  predicate Outdated(s: State) {
    && s.sem.Some? && s.sem.value < |s.gs|
    && match s.gs[s.sem.value]
       case Putting(items, i, rv) => i < |items| && items[i].name in s.sets && s.sets[items[i].name].rv != rv
       case _ => false
  }

  const SETBACK := 3

  function Measure(s: State): nat {
    Total(Weight, s.gs) + if Outdated(s) then SETBACK else 0
  }

  function One(g: G): nat {
    if g.Created? then 1 else 0
  }

  predicate CreatorsThrough(s: State) {
    forall g :: 0 <= g < |s.gs| ==> !s.gs[g].Creating?
  }

  predicate AllPlaced(s: State) {
    forall g :: 0 <= g < |s.gs| ==> s.gs[g].Created? || s.gs[g].Joined?
  }

  // ---- the invariant of fault-free runs ----

  ghost predicate Smooth(c: Cfg, s: State) {
    && Safe(c, s)
    && |s.sets| == Total(One, s.gs)
    && (forall g | 0 <= g < |s.gs| :: !s.gs[g].Failed?)
  }

  lemma {:induction false} NoneCreated(gs: seq<G>)
    requires forall g | 0 <= g < |gs| :: !gs[g].Created?
    ensures Total(One, gs) == 0
  {
    if gs != [] { NoneCreated(gs[..|gs| - 1]); }
  }

  lemma TouchSmooth(c: Cfg, s: State, x: string)
    requires Smooth(c, s) && Enabled(c, s, Touch(x))
    ensures Smooth(c, Next(c, s, Touch(x)))
  {
    hide Safe, Total;
    var s' := Next(c, s, Touch(x));
    TouchSafe(c, s, x);
    assert s.sets[x].name == x by { NameIsKey(c, s, x); }
    assert s'.sets.Keys == s.sets.Keys;
    assert |s'.sets| == |s'.sets.Keys|;
  }

  lemma NameIsKey(c: Cfg, s: State, x: string)
    requires Safe(c, s) && x in s.sets
    ensures s.sets[x].name == x
  {
    hide PlacedOnce, GOk, InstanceOk;
  }

  lemma DoSmooth(c: Cfg, s: State, g: nat, op: Op)
    requires FaultFree(c) && IdsOk(c) && Smooth(c, s) && Enabled(c, s, Do(g, op))
    ensures Smooth(c, Next(c, s, Do(g, op)))
  {
    hide Placed, InstanceOk, Open, PlacedOnce, StoreOk, Total, GOk, ScanFrom, Snapshot;
    StepSafe(c, s, Do(g, op));
    var s' := Next(c, s, Do(g, op));
    TotalUpdate(One, s.gs, g, s'.gs[g]);
    if op.Put? {
      var x := PutExtends(c, s, g, op.lost);
      assert s'.sets.Keys == s.sets.Keys;
      assert |s'.sets| == |s'.sets.Keys|;
    } else if op.Create? {
      assert s'.sets.Keys == s.sets.Keys + {op.name};
      assert |s'.sets| == |s'.sets.Keys|;
    }
  }

  lemma SmoothStep(c: Cfg, s: State, a: Action)
    requires FaultFree(c) && IdsOk(c) && Smooth(c, s) && Enabled(c, s, a)
    ensures Smooth(c, Next(c, s, a))
  {
    hide Smooth, Enabled, Next;
    match a
    case Touch(x) => TouchSmooth(c, s, x);
    case Do(g, op) => DoSmooth(c, s, g, op);
  }

  lemma {:induction false} AlwaysSmooth(c: Cfg, acts: seq<Action>)
    requires FaultFree(c) && IdsOk(c) && ValidRun(c, acts)
    ensures Smooth(c, After(c, acts))
  {
    hide Next, Enabled, InstanceOk, Placed;
    if acts == [] {
      AlwaysSafe(c, acts);
      NoneCreated(Init(c).gs);
    } else {
      AlwaysSmooth(c, acts[..|acts| - 1]);
      SmoothStep(c, After(c, acts[..|acts| - 1]), acts[|acts| - 1]);
    }
  }

  // ---- counting instances and tenants ----

  lemma {:induction false} EveryTenth(gs: seq<G>)
    requires forall g | 0 <= g < |gs| :: gs[g].Created? <==> IsCreator(g)
    ensures Total(One, gs) == (|gs| + 9) / 10
  {
    if gs != [] { EveryTenth(gs[..|gs| - 1]); }
  }

  lemma InstancesMade(c: Cfg, s: State)
    requires Smooth(c, s) && CreatorsThrough(s)
    ensures |s.sets| == (|c.ids| + 9) / 10
  {
    hide Placed, InstanceOk, Open, PlacedOnce, StoreOk, Total;
    forall g | 0 <= g < |s.gs| ensures s.gs[g].Created? <==> IsCreator(g) {
      assert GOk(c, s, g);
    }
    EveryTenth(s.gs);
  }

  ghost function IdSet(c: Cfg): set<string> {
    set u | u in c.ids
  }

  lemma ListsDisjoint(c: Cfg, s: State)
    requires Safe(c, s)
    ensures Disjoint(ListsOf(s.sets)) && AllOf(ListsOf(s.sets)) <= IdSet(c)
    ensures |AllOf(ListsOf(s.sets))| == Sum(ListsOf(s.sets))
  {
    hide Placed, Open, GOk, Sum;
    SumCountsAll(ListsOf(s.sets));
  }

  lemma SubsetSize(a: set<string>, b: set<string>)
    requires a <= b
    ensures |a| <= |b|
  {
    assert b == a + (b - a);
  }

  /** The pigeonhole: an unplaced tenant leaves too few tenants to fill every instance. */
  lemma RoomForUnplaced(c: Cfg, s: State, g: nat)
    requires IdsOk(c) && Smooth(c, s) && CreatorsThrough(s) && g < |s.gs|
    requires !s.gs[g].Created? && !s.gs[g].Joined?
    ensures exists x :: x in s.sets && |Placed(s.sets[x])| < 10
  {
    hide Placed, Open, GOk, Total, Sum, PlacedOnce;
    var lists := ListsOf(s.sets);
    assert c.ids[g] in IdSet(c);
    if forall x | x in s.sets :: |Placed(s.sets[x])| >= 10 {
      NotPlaced(c, s, g);
      ListsDisjoint(c, s);
      assert forall x | x in lists :: lists[x] == Placed(s.sets[x]) && InstanceOk(s.sets[x]);
      SumOfFull(lists);
      InstancesMade(c, s);
      assert lists.Keys == s.sets.Keys;
      assert |lists| == |lists.Keys| && |s.sets| == |s.sets.Keys|;
      SubsetSize(AllOf(lists), IdSet(c) - {c.ids[g]});
      ElemsSize(c.ids);
      assert false;
    }
  }

  // ---- steps ----

  /** A write of somebody else sets the run back by three steps at most: fetch, scan, list. */
  lemma TouchSetsBack(c: Cfg, s: State, x: string)
    requires Enabled(c, s, Touch(x))
    ensures Measure(Next(c, s, Touch(x))) <= Measure(s) + SETBACK
  {
  }

  /** What a goroutine's step does to the outdated Update, if there is one. */
  lemma OutdatedStep(c: Cfg, s: State, g: nat, op: Op)
    requires FaultFree(c) && Smooth(c, s) && Enabled(c, s, Do(g, op))
    ensures op.Conflict? ==> Outdated(s)
    ensures Outdated(Next(c, s, Do(g, op))) ==> Outdated(s) && !op.Conflict?
  {
    hide Placed, InstanceOk, PlacedOnce, StoreOk, Total, Open, Atoi, Snapshot, ScanFrom, WithList;
    assert GOk(c, s, g);
    if s.sem.Some? { assert GOk(c, s, s.sem.value); }
  }

  /** Every step of a goroutine either brings the run closer to its end, a conflict included, or is a
      look at instances that are all full, which leaves the state as it was; the latter only while a
      creator is outstanding. */
  lemma StepProgresses(c: Cfg, s: State, a: Action)
    requires FaultFree(c) && IdsOk(c) && Smooth(c, s) && Enabled(c, s, a) && a.Do?
    ensures Measure(Next(c, s, a)) < Measure(s) || (Next(c, s, a) == s && a.op.List? && !CreatorsThrough(s))
  {
    hide Placed, InstanceOk, PlacedOnce, StoreOk, Total, Open, Atoi, Outdated;
    var g := a.g;
    assert GOk(c, s, g);
    var s' := Next(c, s, a);
    TotalUpdate(Weight, s.gs, g, s'.gs[g]);
    OutdatedStep(c, s, g, a.op);
    if a.op.List? {
      ListProgresses(c, s, g, a.op.items);
    }
  }

  lemma ListProgresses(c: Cfg, s: State, g: nat, items: seq<Instance>)
    requires FaultFree(c) && IdsOk(c) && Smooth(c, s) && Enabled(c, s, Do(g, List(items)))
    ensures var pc := Follow(items, 0, c.ids[g]); pc.Getting? || (pc == Listing && !CreatorsThrough(s))
  {
    hide Placed, PlacedOnce, Total, Open, Atoi, InstanceOk;
    SnapshotCurrent(s, items);
    assert GOk(c, s, g);
    FollowSafe(c, s, g, items, 0);
    var r := ScanFrom(items, 0, c.ids[g]);
    if r.Exhausted? && CreatorsThrough(s) {
      RoomForUnplaced(c, s, g);
      var x :| x in s.sets && |Placed(s.sets[x])| < 10;
      var j :| 0 <= j < |items| && items[j] == s.sets[x];
      RoomIsOpen(s.sets[x]);
      assert false;
    }
  }

  lemma RoomIsOpen(i: Instance)
    requires InstanceOk(i)
    ensures Open(i) <==> |Placed(i)| < 10
  {
  }

  lemma {:induction false} LongName(names: set<string>) returns (name: string)
    ensures forall n | n in names :: |n| < |name|
    decreases |names|
  {
    if names == {} {
      return "";
    }
    var n :| n in names;
    name := LongName(names - {n});
    name := if |n| < |name| then name else n + "x";
  }

  /** A listing in some order. */
  lemma {:induction false} SomeListing(sets: map<string, Instance>) returns (items: seq<Instance>)
    requires forall x | x in sets :: sets[x].name == x
    ensures Snapshot(State(0, sets, None, []), items)
    decreases |sets|
  {
    if sets == map[] {
      return [];
    }
    var x :| x in sets;
    var rest := sets - {x};
    assert rest.Keys == sets.Keys - {x};
    assert |rest| == |sets| - 1;
    var more := SomeListing(rest);
    items := more + [sets[x]];
    forall y | y in sets ensures sets[y] in items {
      if y != x { assert rest[y] in more; }
    }
  }

  /** No deadlock: as long as anybody is unplaced, some goroutine has a step that is progress. The
      holder of the semaphore may poll meanwhile; the creators do not need the semaphore. */
  lemma SomeProgress(c: Cfg, s: State) returns (a: Action)
    requires FaultFree(c) && IdsOk(c) && Smooth(c, s) && !AllPlaced(s)
    ensures a.Do? && Enabled(c, s, a) && Measure(Next(c, s, a)) < Measure(s)
  {
    hide Placed, InstanceOk, PlacedOnce, Total, Measure, Outdated;
    if !CreatorsThrough(s) {
      var g :| 0 <= g < |s.gs| && s.gs[g].Creating?;
      var name := LongName(s.sets.Keys);
      assert name !in s.sets.Keys;
      a := Do(g, Create(name, false));
    } else if s.sem.None? {
      var g :| 0 <= g < |s.gs| && !s.gs[g].Created? && !s.gs[g].Joined?;
      assert GOk(c, s, g);
      a := Do(g, Acquire);
    } else {
      var g := s.sem.value;
      assert GOk(c, s, g);
      match s.gs[g] {
        case Listing =>
          var items := SomeListing(s.sets);
          a := Do(g, List(items));
        case Getting(items, i) =>
          assert Current(s, items[i]);
          a := Do(g, Get(true));
        case Putting(items, i, rv) =>
          assert Current(s, items[i]);
          a := Do(g, if s.sets[items[i].name].rv == rv then Put(false) else Conflict);
      }
    }
    StepProgresses(c, s, a);
  }

  // ---- theorems ----

  /** Once the creators are through there are exactly ⌈n/10⌉ instances, and every joiner not yet
      placed finds one whose count is below ten. */
  lemma {:induction false} JoinerFindsRoom(c: Cfg, acts: seq<Action>, g: nat)
    requires FaultFree(c) && IdsOk(c) && ValidRun(c, acts)
    requires CreatorsThrough(After(c, acts)) && g < |c.ids|
    ensures var s := After(c, acts);
            && |s.sets| == (|c.ids| + 9) / 10 && |s.gs| == |c.ids|
            && (!s.gs[g].Created? && !s.gs[g].Joined? ==>
                  exists x :: x in s.sets && Atoi(s.sets[x].count).Some? && Atoi(s.sets[x].count).value < 10)
  {
    AlwaysSmooth(c, acts);
    var s := After(c, acts);
    hide After, ValidRun, GOk, Placed, PlacedOnce;
    InstancesMade(c, s);
    if !s.gs[g].Created? && !s.gs[g].Joined? {
      RoomForUnplaced(c, s, g);
      var x :| x in s.sets && |Placed(s.sets[x])| < 10;
      assert InstanceOk(s.sets[x]);
    }
  }

  /** How often others write. */
  function Touches(acts: seq<Action>): nat {
    if acts == [] then 0 else Touches(acts[..|acts| - 1]) + if acts[|acts| - 1].Touch? then 1 else 0
  }

  /** After the creators are through, a run makes at most Measure further steps, and four more for
      each write of others: the write itself and what it sets back. */
  lemma {:induction false} BoundedTail(c: Cfg, acts: seq<Action>, i: nat)
    requires FaultFree(c) && IdsOk(c) && ValidRun(c, acts) && i <= |acts|
    requires ValidRun(c, acts[..i]) && CreatorsThrough(After(c, acts[..i]))
    ensures CreatorsThrough(After(c, acts))
    ensures Measure(After(c, acts)) + (|acts| - i) <= Measure(After(c, acts[..i])) + (1 + SETBACK) * Touches(acts[i..])
  {
    hide Measure, Smooth;
    if i == |acts| {
      assert acts[..i] == acts;
    } else {
      var before := acts[..|acts| - 1];
      assert before[..i] == acts[..i] && acts[i..][..|acts[i..]| - 1] == before[i..];
      BoundedTail(c, before, i);
      AlwaysSmooth(c, before);
      var a := acts[|acts| - 1];
      if a.Touch? {
        TouchSetsBack(c, After(c, before), a.x);
      } else {
        StepProgresses(c, After(c, before), a);
      }
      StaysThrough(c, After(c, before), a);
    }
  }

  lemma StaysThrough(c: Cfg, s: State, a: Action)
    requires CreatorsThrough(s) && Enabled(c, s, a)
    ensures CreatorsThrough(Next(c, s, a))
  {
    hide ScanFrom, Placed, WithList;
  }

  /** From every point of a fault-free run the placement can be completed. */
  lemma {:induction false} CanComplete(c: Cfg, acts: seq<Action>) returns (more: seq<Action>)
    requires FaultFree(c) && IdsOk(c) && ValidRun(c, acts)
    ensures ValidRun(c, more) && acts <= more && AllPlaced(After(c, more))
    decreases Measure(After(c, acts))
  {
    hide Next, Enabled, Smooth, Measure;
    var s := After(c, acts);
    if AllPlaced(s) {
      return acts;
    }
    AlwaysSmooth(c, acts);
    var a := SomeProgress(c, s);
    more := Extend(c, acts, a);
    more := CanComplete(c, more);
  }

  /** At the end: ⌈n/10⌉ instances, the counts sum to n, and each tenant is in exactly one list. */
  lemma {:induction false} PlacementComplete(c: Cfg, acts: seq<Action>)
    requires FaultFree(c) && IdsOk(c) && ValidRun(c, acts) && AllPlaced(After(c, acts))
    ensures var sets := After(c, acts).sets;
            && |sets| == (|c.ids| + 9) / 10
            && Sum(ListsOf(sets)) == |c.ids|
            && (forall x | x in sets :: Atoi(sets[x].count) == Some(|Placed(sets[x])|))
            && (forall x, u | x in sets && u in Placed(sets[x]) :: u in c.ids)
            && (forall u | u in c.ids :: exists x :: x in sets && u in Placed(sets[x])
                                                 && forall y | y in sets && u in Placed(sets[y]) :: y == x)
  {
    AlwaysSmooth(c, acts);
    var s := After(c, acts);
    hide After, ValidRun, Placed, Sum, Total;
    InstancesMade(c, s);
    ListsDisjoint(c, s);
    forall u | u in c.ids
      ensures exists x :: x in s.sets && u in Placed(s.sets[x]) && forall y | y in s.sets && u in Placed(s.sets[y]) :: y == x
      ensures u in AllOf(ListsOf(s.sets))
    {
      var g :| 0 <= g < |c.ids| && c.ids[g] == u;
      assert GOk(c, s, g);
      var x := s.gs[g].name;
      assert x in s.sets && u in Placed(s.sets[x]);
      InAllOf(ListsOf(s.sets), x, u);
    }
    assert AllOf(ListsOf(s.sets)) == IdSet(c);
    ElemsSize(c.ids);
  }
}
