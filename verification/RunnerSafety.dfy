/** Runner safety: the blind write of a snapshot's list loses nothing, because only the holder of
    the semaphore writes lists. */
module RunnerSafety {
  import opened GoStrings
  import opened Registry
  import opened Runner

  // ---- every step keeps Safe ----

  lemma NotPlaced(c: Cfg, s: State, g: nat)
    requires Safe(c, s) && g < |s.gs|
    requires !s.gs[g].Created? && !s.gs[g].Joined? && !s.gs[g].Failed?
    ensures forall x | x in s.sets :: c.ids[g] !in Placed(s.sets[x])
  {
    hide Placed, InstanceOk, Open;
  }

  lemma TouchSafe(c: Cfg, s: State, x: string)
    requires Safe(c, s) && x in s.sets
    ensures Safe(c, PutInstance(s, s.sets[x].(name := x)))
  {
    hide Placed, InstanceOk, Open;
    var s' := PutInstance(s, s.sets[x].(name := x));
    OkIgnoresVersion(s.sets[x], s.rev + 1);
    forall h | 0 <= h < |s'.gs| ensures GOk(c, s', h) {
      assert GOk(c, s, h);
    }
  }

  /** A step that only moves goroutine g to pc. */
  lemma MoveSafe(c: Cfg, s: State, g: nat, pc: G)
    requires Safe(c, s) && g < |s.gs|
    requires Holds(pc) ==> s.sem == Some(g) || (s.sem == None && pc == Listing)
    requires GOk(c, Goto(s, g, pc), g)
    requires s.gs[g].Created? || s.gs[g].Joined? || s.gs[g].Failed? ==> pc.Created? || pc.Joined? || pc.Failed?
    ensures Safe(c, Goto(s, g, pc))
  {
    hide Placed, InstanceOk, Open;
    var s' := Goto(s, g, pc);
    forall h | 0 <= h < |s'.gs| && h != g ensures GOk(c, s', h) {
      assert GOk(c, s, h);
    }
  }

  /** Going on with a snapshot whose annotations are still the stored ones. */
  lemma FollowSafe(c: Cfg, s: State, g: nat, items: seq<Instance>, i: nat)
    requires Safe(c, s) && g < |s.gs| && Holds(s.gs[g])
    requires forall k :: 0 <= k < |items| ==> Current(s, items[k])
    ensures Safe(c, Goto(s, g, Follow(items, i, c.ids[g])))
    ensures !ScanFrom(items, i, c.ids[g]).Present?
  {
    hide Open, InstanceOk;
    assert GOk(c, s, g);
    NotPlaced(c, s, g);
    forall k | 0 <= k < |items| ensures c.ids[g] !in Placed(items[k]) {
      assert Current(s, items[k]);
    }
    hide Placed;
    var r := ScanFrom(items, i, c.ids[g]);
    MoveSafe(c, s, g, if r.Candidate? then Getting(items, r.i) else Listing);
  }

  /** A step by which the tenant of g enters the list of x, as its last member. */
  lemma PlaceSafe(c: Cfg, s: State, g: nat, stored: Instance, pc: G)
    requires IdsOk(c) && Safe(c, s) && g < |s.gs|
    requires !s.gs[g].Created? && !s.gs[g].Joined? && !s.gs[g].Failed?
    requires InstanceOk(stored)
    requires Placed(stored) == (if stored.name in s.sets then Placed(s.sets[stored.name]) else []) + [c.ids[g]]
    requires stored.name in s.sets ==> forall h | 0 <= h < |s.gs| && h != g :: !Holds(s.gs[h])
    requires match pc { case Created(x) => IsCreator(g) && x == stored.name
                        case Joined(x) => !IsCreator(g) && x == stored.name
                        case _ => pc.Failed? }
    ensures Safe(c, Goto(PutInstance(s, stored), g, pc))
  {
    hide InstanceOk, Open, Placed;
    NotPlaced(c, s, g);
    var s' := Goto(PutInstance(s, stored), g, pc);
    OkIgnoresVersion(stored, s.rev + 1);
    var x := stored.name;
    assert forall y | y in s.sets && y != x :: s'.sets[y] == s.sets[y];
    assert forall u | u in Placed(s'.sets[x]) :: u == c.ids[g] || (x in s.sets && u in Placed(s.sets[x]));
    forall h | 0 <= h < |s'.gs| && h != g ensures GOk(c, s', h) {
      assert GOk(c, s, h);
      var q := s.gs[h];
      if (q.Created? || q.Joined?) && q.name == x {
        assert c.ids[h] in Placed(s.sets[x]);
      }
    }
    assert GOk(c, s', g);
    assert PlacedOnce(c, s');
  }

  lemma CreateSafe(c: Cfg, s: State, g: nat, name: string, lost: bool)
    requires IdsOk(c) && Safe(c, s) && Enabled(c, s, Do(g, Create(name, lost)))
    ensures Safe(c, Next(c, s, Do(g, Create(name, lost))))
  {
    hide Open, Placed, InstanceOk;
    assert GOk(c, s, g);
    FirstTenant(name, c.ids[g]);
    PlaceSafe(c, s, g, Instance(name, 0, c.ids[g], "1"), if lost then Failed else Created(name));
  }

  /** What an accepted Update of the holder stores: the stored list, extended by its tenant. */
  lemma PutExtends(c: Cfg, s: State, g: nat, lost: bool) returns (x: string)
    requires IdsOk(c) && Safe(c, s) && Enabled(c, s, Do(g, Put(lost)))
    ensures x in s.sets && s.gs[g].items[s.gs[g].i].name == x
    ensures var s' := Next(c, s, Do(g, Put(lost)));
            && s'.sets == s.sets[x := s'.sets[x]]
            && Placed(s'.sets[x]) == Placed(s.sets[x]) + [c.ids[g]]
            && Safe(c, s')
  {
    hide Holds, PlacedOnce;
    assert GOk(c, s, g);
    var pc, id := s.gs[g], c.ids[g];
    var item := pc.items[pc.i];
    x := item.name;
    assert Current(s, item);
    var latest := s.sets[x];
    assert InstanceOk(latest) && Placed(latest) == Placed(item);
    assert |Placed(item)| < 10;
    var edited := WithList(item, Placed(item) + [id]);
    assert forall k :: 0 <= k < |Placed(item)| ==> Placed(item)[k] in Placed(item);
    hide Open, InstanceOk;
    PutStores(item, latest, id);
    var stored := latest.(name := x, list := edited.list, count := edited.count);
    OthersWait(c, s, g);
    OkIgnoresVersion(stored, s.rev + 1);
    hide Placed;
    PlaceSafe(c, s, g, stored, if lost then Failed else Joined(x));
  }

  lemma PutStores(item: Instance, latest: Instance, id: string)
    requires InstanceOk(latest) && Placed(latest) == Placed(item)
    requires |Placed(item)| < 10 && id !in Placed(item) && ValidUid(id)
    ensures var edited := WithList(item, Placed(item) + [id]);
            var stored := latest.(list := edited.list, count := edited.count);
            Placed(stored) == Placed(item) + [id] && InstanceOk(stored)
  {
    hide Split, Join, Atoi, Itoa;
    WrittenList(item, Placed(item) + [id]);
  }

  lemma OthersWait(c: Cfg, s: State, g: nat)
    requires Safe(c, s) && g < |s.gs| && s.gs[g].Putting?
    ensures forall h | 0 <= h < |s.gs| && h != g :: !Holds(s.gs[h])
    ensures !IsCreator(g)
  {
    hide Placed, InstanceOk, Open, Current;
    assert GOk(c, s, g);
    forall h | 0 <= h < |s.gs| && h != g ensures !Holds(s.gs[h]) {
      assert GOk(c, s, h);
    }
  }

  lemma SnapshotCurrent(s: State, items: seq<Instance>)
    requires Snapshot(s, items)
    ensures forall k :: 0 <= k < |items| ==> Current(s, items[k])
  {
  }

  lemma StepSafe(c: Cfg, s: State, a: Action)
    requires IdsOk(c) && c.guarded && Safe(c, s) && Enabled(c, s, a)
    ensures Safe(c, Next(c, s, a))
  {
    hide Placed, InstanceOk, Open, Safe, Follow, PlacedOnce, StoreOk;
    match a
    case Touch(x) => TouchSafe(c, s, x);
    case Do(g, op) =>
      match op
      case Create(name, lost) => CreateSafe(c, s, g, name, lost);
      case Put(lost) => var x := PutExtends(c, s, g, lost);
      case List(items) => SnapshotCurrent(s, items); FollowSafe(c, s, g, items, 0);
      case _ => MovesSafe(c, s, g, op);
  }

  lemma MovesSafe(c: Cfg, s: State, g: nat, op: Op)
    requires IdsOk(c) && c.guarded && Safe(c, s) && Enabled(c, s, Do(g, op))
    requires op.Acquire? || op.Get? || op.Conflict? || op.Fail?
    ensures Safe(c, Next(c, s, Do(g, op)))
  {
    hide Placed, InstanceOk, Open, PlacedOnce, StoreOk, Follow;
    assert GOk(c, s, g);
    var pc := s.gs[g];
    match op
    case Acquire => MoveSafe(c, s, g, Listing);
    case Get(ok) =>
      if ok {
        MoveSafe(c, s, g, Putting(pc.items, pc.i, s.sets[pc.items[pc.i].name].rv));
      } else {
        FollowSafe(c, s, g, pc.items, pc.i + 1);
      }
    case Conflict => FollowSafe(c, s, g, pc.items, pc.i + 1);
    case Fail => MoveSafe(c, s, g, Failed);
  }

  lemma {:induction false} AlwaysSafe(c: Cfg, acts: seq<Action>)
    requires IdsOk(c) && c.guarded && ValidRun(c, acts)
    ensures Safe(c, After(c, acts))
  {
    hide Next, Enabled, InstanceOk, Placed;
    if acts != [] {
      AlwaysSafe(c, acts[..|acts| - 1]);
      StepSafe(c, After(c, acts[..|acts| - 1]), acts[|acts| - 1]);
    }
  }

  // ---- theorems ----

  /** In every reachable state each list is free of duplicates, holds one to ten tenants and is
      counted by its annotation; no tenant is in two lists; and who was told an instance is in it. */
  lemma {:induction false} RunnerSafe(c: Cfg, acts: seq<Action>)
    requires IdsOk(c) && c.guarded && ValidRun(c, acts)
    ensures var s := After(c, acts);
            && (forall x | x in s.sets ::
                  && NoDuplicates(Placed(s.sets[x])) && 1 <= |Placed(s.sets[x])| <= 10
                  && Atoi(s.sets[x].count) == Some(|Placed(s.sets[x])|))
            && (forall x, y, u | x in s.sets && y in s.sets && u in Placed(s.sets[x]) && u in Placed(s.sets[y]) :: x == y)
            && |s.gs| == |c.ids|
            && (forall g | 0 <= g < |s.gs| && (s.gs[g].Created? || s.gs[g].Joined?) ::
                  s.gs[g].name in s.sets && c.ids[g] in Placed(s.sets[s.gs[g].name]))
  {
    AlwaysSafe(c, acts);
    var s := After(c, acts);
    hide After, ValidRun, Placed, Open;
    forall g | 0 <= g < |s.gs| && (s.gs[g].Created? || s.gs[g].Joined?)
      ensures s.gs[g].name in s.sets && c.ids[g] in Placed(s.sets[s.gs[g].name])
    {
      assert GOk(c, s, g);
    }
  }

  lemma {:induction false} Prefixes(c: Cfg, acts: seq<Action>, i: nat)
    requires ValidRun(c, acts) && i <= |acts|
    ensures ValidRun(c, acts[..i])
    ensures i < |acts| ==>
      && Enabled(c, After(c, acts[..i]), acts[i]) && ValidRun(c, acts[..i + 1])
      && After(c, acts[..i + 1]) == Next(c, After(c, acts[..i]), acts[i])
    decreases |acts| - i
  {
    hide Enabled, Next;
    if i == |acts| {
      assert acts[..i] == acts;
    } else {
      Prefixes(c, acts, i + 1);
      assert acts[..i + 1][..i] == acts[..i];
    }
  }

  /** No lost update: every accepted write of a joiner, computed from an old snapshot though it is,
      stores the list then in the object followed by its tenant, and touches no other object. */
  lemma {:induction false} NoLostUpdate(c: Cfg, acts: seq<Action>, i: nat)
    requires IdsOk(c) && c.guarded && ValidRun(c, acts)
    requires i < |acts| && acts[i].Do? && acts[i].op.Put?
    ensures ValidRun(c, acts[..i]) && ValidRun(c, acts[..i + 1])
    ensures var s, s' := After(c, acts[..i]), After(c, acts[..i + 1]);
            && acts[i].g < |c.ids|
            && exists x :: x in s.sets && x in s'.sets && s'.sets == s.sets[x := s'.sets[x]]
                        && Placed(s'.sets[x]) == Placed(s.sets[x]) + [c.ids[acts[i].g]]
  {
    hide Next, Placed, Safe;
    Prefixes(c, acts, i);
    AlwaysSafe(c, acts[..i]);
    var x := PutExtends(c, After(c, acts[..i]), acts[i].g, acts[i].op.lost);
  }

  lemma StepGrows(c: Cfg, s: State, a: Action)
    requires IdsOk(c) && c.guarded && Safe(c, s) && Enabled(c, s, a)
    ensures forall x | x in s.sets ::
              x in Next(c, s, a).sets && Placed(s.sets[x]) <= Placed(Next(c, s, a).sets[x])
  {
    hide Placed, Safe, Follow;
    var s' := Next(c, s, a);
    if a.Touch? {
      PlacedOfList(s.sets[a.x], s'.sets[a.x]);
    } else if a.op.Put? {
      var x := PutExtends(c, s, a.g, a.op.lost);
    }
  }

  /** Nothing that was placed is ever displaced: from any point of a run to any later one, every
      list is only extended. */
  lemma {:induction false} ListsOnlyGrow(c: Cfg, acts: seq<Action>, i: nat)
    requires IdsOk(c) && c.guarded && ValidRun(c, acts) && i <= |acts|
    ensures ValidRun(c, acts[..i])
    ensures var s, s' := After(c, acts[..i]), After(c, acts);
            forall x | x in s.sets :: x in s'.sets && Placed(s.sets[x]) <= Placed(s'.sets[x])
  {
    hide Next, Enabled, Placed, Safe;
    Prefixes(c, acts, i);
    if i == |acts| {
      assert acts[..i] == acts;
    } else {
      var before := acts[..|acts| - 1];
      assert before[..i] == acts[..i];
      ListsOnlyGrow(c, before, i);
      AlwaysSafe(c, before);
      StepGrows(c, After(c, before), acts[|acts| - 1]);
    }
  }

  // ---- without the semaphore ----

  lemma Extend(c: Cfg, acts: seq<Action>, a: Action) returns (more: seq<Action>)
    requires ValidRun(c, acts) && Enabled(c, After(c, acts), a)
    ensures more == acts + [a] && ValidRun(c, more) && After(c, more) == Next(c, After(c, acts), a)
  {
    hide Enabled, Next;
    more := acts + [a];
    assert more[..|more| - 1] == acts;
  }

  /** Two joiners list the same single-tenant instance before either writes. */
  lemma BothListed(ids: seq<string>, x: string) returns (acts: seq<Action>)
    requires |ids| == 3 && IdsOk(Cfg(ids, false, false, false))
    ensures var c := Cfg(ids, false, false, false);
            var i0 := Instance(x, 1, ids[0], "1");
            && ValidRun(c, acts) && After(c, acts).rev == 1 && After(c, acts).sets == map[x := i0]
            && After(c, acts).gs == [Created(x), Getting([i0], 0), Getting([i0], 0)]
  {
    var c := Cfg(ids, false, false, false);
    acts := [];
    assert After(c, acts) == Init(c);
    hide Placed, WithList, ScanFrom, Open, After, ValidRun;
    var i0 := Instance(x, 1, ids[0], "1");
    acts := Extend(c, acts, Do(0, Create(x, false)));
    assert After(c, acts).sets == map[x := i0];
    acts := Extend(c, acts, Do(1, Acquire));
    acts := Extend(c, acts, Do(2, Acquire));
    assert After(c, acts).gs == [Created(x), Listing, Listing] && After(c, acts).sets == map[x := i0];
    ScanOne(i0, ids[0], ids[1]);
    ScanOne(i0, ids[0], ids[2]);
    acts := Extend(c, acts, Do(1, List([i0])));
    acts := Extend(c, acts, Do(2, List([i0])));
  }

  /** Without the semaphore the version check alone does not save the first of two joiners that
      listed together: the second fetches the new version and writes the old list onto it. */
  lemma UnguardedLosesUpdate(ids: seq<string>, x: string) returns (acts: seq<Action>)
    requires |ids| == 3 && IdsOk(Cfg(ids, false, false, false))
    ensures var c := Cfg(ids, false, false, false);
            && ValidRun(c, acts)
            && After(c, acts).gs == [Created(x), Joined(x), Joined(x)]
            && x in After(c, acts).sets && Placed(After(c, acts).sets[x]) == [ids[0], ids[2]]
  {
    hide Placed, WithList, ScanFrom, Open, After, ValidRun;
    var c := Cfg(ids, false, false, false);
    var i0 := Instance(x, 1, ids[0], "1");
    acts := BothListed(ids, x);
    acts := Extend(c, acts, Do(1, Get(true)));
    acts := Extend(c, acts, Do(1, Put(false)));
    assert After(c, acts).gs == [Created(x), Joined(x), Getting([i0], 0)];
    acts := Extend(c, acts, Do(2, Get(true)));
    acts := Extend(c, acts, Do(2, Put(false)));
    assert Placed(i0) == [ids[0]] by { ScanOne(i0, ids[0], ids[2]); }
    assert Placed(i0) + [ids[2]] == [ids[0], ids[2]];
    var e := WithList(i0, [ids[0], ids[2]]);
    WrittenList(i0, [ids[0], ids[2]]);
    PlacedOfList(After(c, acts).sets[x], e);
  }

  lemma PlacedOfList(a: Instance, b: Instance)
    requires a.list == b.list
    ensures Placed(a) == Placed(b)
  {
  }

  lemma ScanOne(i0: Instance, first: string, id: string)
    requires i0.list == first && i0.count == "1" && ValidUid(first) && first != id
    ensures Placed(i0) == [first] && ScanFrom([i0], 0, id) == Candidate(0)
  {
    FirstTenant(i0.name, first);
    assert Placed(i0) == Placed(Instance(i0.name, 0, first, "1"));
  }
}
