/** How often the registration is tried in the step system, and what makes a try fail. */
module Retries {
  import opened Registry
  import opened Lifecycle
  import opened AtMostOne

  predicate DoneBy(a: Action, w: nat) {
    match a
    case Env(_) => false
    case Begin(v, _) => v == w
    case Alloc(v, _) => v == w
    case Delete(v, _) => v == w
  }

  /** The conflicts worker w has met in a row: only its Gets and what others do leave them in a row. */
  function InARow(acts: seq<Action>, w: nat): nat {
    if acts == [] then 0
    else
      var a, n := acts[|acts| - 1], InARow(acts[..|acts| - 1], w);
      if !DoneBy(a, w) then n
      else if a.Alloc? && a.alloc.AddConflict? then n + 1
      else if a.Alloc? && a.alloc.AddGet? then n
      else 0
  }

  /** A registering worker knows how many conflicts it has met. */
  predicate Counted(pc: Pc, n: nat) {
    pc.Main? && (pc.at.AtAddGet? || pc.at.AtAddPut?) ==> pc.at.attempt == n < 4
  }

  lemma StepCounted(c: Cfg, s: State, a: Action, w: nat, n: nat, n': nat)
    requires Enabled(c, s, a) && w < |s.workers| && Counted(s.workers[w], n)
    requires n' == if !DoneBy(a, w) then n else if a.Alloc? && a.alloc.AddConflict? then n + 1
                   else if a.Alloc? && a.alloc.AddGet? then n else 0
    ensures |Next(c, s, a).workers| == |s.workers| && Counted(Next(c, s, a).workers[w], n')
  {
    hide Tenants, Listing, EnvRead, FirstFit, NewTarget, ReuseTarget, AddTenant, RemoveTenant, Holder;
    hide EnvEnabled, BeginStore, AllocStore, DeleteStore, EnvNext;
  }

  lemma {:induction false} AlwaysCounted(c: Cfg, acts: seq<Action>, w: nat)
    requires ValidRun(c, acts) && w < c.workers
    ensures |After(c, acts).workers| == c.workers && Counted(After(c, acts).workers[w], InARow(acts, w))
  {
    hide Enabled, Next;
    if acts != [] {
      var before := acts[..|acts| - 1];
      AlwaysCounted(c, before, w);
      StepCounted(c, After(c, before), acts[|acts| - 1], w, InARow(before, w), InARow(acts, w));
    }
  }

  /** A conflict ends the provisioning exactly when it is the fourth in a row; after any other one
      the worker goes back to the Get of the same registration. */
  lemma {:induction false} FourthConflictIsFinal(c: Cfg, acts: seq<Action>, w: nat)
    requires ValidRun(c, acts + [Alloc(w, AddConflict)]) && w < c.workers
    ensures var run := acts + [Alloc(w, AddConflict)];
            && ValidRun(c, acts) && |After(c, acts).workers| == |After(c, run).workers| == c.workers
            && var pc, pc' := After(c, acts).workers[w], After(c, run).workers[w];
            && InARow(run, w) <= 4
            && (pc' == Idle <==> InARow(run, w) == 4)
            && (pc' != Idle ==> pc.Main? && pc'.Main? && pc'.env == pc.env && pc.at.AtAddPut? && pc'.at.AtAddGet?
                                && pc'.at.t == pc.at.t)
  {
    hide InARow, ValidRun;
    var run := acts + [Alloc(w, AddConflict)];
    LastStep(c, acts, w);
    AlwaysCounted(c, acts, w);
    AlwaysCounted(c, run, w);
  }

  lemma LastStep(c: Cfg, acts: seq<Action>, w: nat)
    requires ValidRun(c, acts + [Alloc(w, AddConflict)])
    ensures ValidRun(c, acts) && Enabled(c, After(c, acts), Alloc(w, AddConflict))
    ensures After(c, acts + [Alloc(w, AddConflict)]) == Next(c, After(c, acts), Alloc(w, AddConflict))
    ensures InARow(acts + [Alloc(w, AddConflict)], w) == InARow(acts, w) + 1
  {
    hide Enabled, Next;
    var run := acts + [Alloc(w, AddConflict)];
    assert run[..|run| - 1] == acts;
  }

  // ---- what a conflict takes ----

  /** The step at position k of the run rewrites or deletes the instance. */
  ghost predicate WritesAt(c: Cfg, acts: seq<Action>, k: nat, x: string)
    requires k < |acts| && ValidRun(c, acts[..k]) && ValidRun(c, acts[..k + 1])
  {
    var s, s' := After(c, acts[..k]), After(c, acts[..k + 1]);
    !(x in s'.sets <==> x in s.sets) || (x in s.sets && s'.sets[x] != s.sets[x])
  }

  /** As long as w does nothing its stage stays, and nobody writes the instance, it stays. */
  lemma {:induction false} Undisturbed(c: Cfg, acts: seq<Action>, j: nat, i: nat, w: nat, x: string)
    requires ValidRun(c, acts) && j <= i <= |acts| && w < c.workers
    requires forall k | 0 <= k <= |acts| :: ValidRun(c, acts[..k])
    requires forall k | j <= k < i :: !DoneBy(acts[k], w) && !WritesAt(c, acts, k, x)
    ensures |After(c, acts[..i]).workers| == |After(c, acts[..j]).workers| == c.workers
    ensures After(c, acts[..i]).workers[w] == After(c, acts[..j]).workers[w]
    ensures x in After(c, acts[..i]).sets <==> x in After(c, acts[..j]).sets
    ensures x in After(c, acts[..j]).sets ==> After(c, acts[..i]).sets[x] == After(c, acts[..j]).sets[x]
    decreases i
  {
    hide ValidRun, Enabled, After, Next, Counted, InARow, DoneBy;
    AlwaysCounted(c, acts[..j], w);
    if j < i {
      Undisturbed(c, acts, j, i - 1, w, x);
      Prefixes(c, acts, i - 1);
      AlwaysCounted(c, acts[..i - 1], w);
      assert !WritesAt(c, acts, i - 1, x);
      OtherWorker(c, After(c, acts[..i - 1]), acts[i - 1], w);
    }
  }

  lemma OtherWorker(c: Cfg, s: State, a: Action, w: nat)
    requires Enabled(c, s, a) && !DoneBy(a, w) && w < |s.workers|
    ensures |Next(c, s, a).workers| == |s.workers| && Next(c, s, a).workers[w] == s.workers[w]
  {
    hide EnvEnabled, BeginEnabled, AllocEnabled, DeleteEnabled, EnvNext, BeginStore, AllocStore, DeleteStore;
    hide BeginPc, AllocStage, DeleteStage;
  }

  /** With coherent reads a conflict means that somebody wrote the instance between the Get and the
      Update of this try. */
  lemma {:induction false} ConflictMeetsWrite(c: Cfg, acts: seq<Action>, j: nat, i: nat, w: nat, copy: StatefulSet)
    requires ValidRun(c, acts) && !c.stale && w < c.workers && j < i < |acts|
    requires acts[j] == Alloc(w, AddGet(copy)) && acts[i] == Alloc(w, AddConflict)
    requires forall k | j < k < i :: !DoneBy(acts[k], w)
    ensures exists k :: j < k < i && ValidRun(c, acts[..k]) && ValidRun(c, acts[..k + 1]) && WritesAt(c, acts, k, copy.name)
  {
    hide ValidRun, Tenants;
    forall k | 0 <= k <= |acts| ensures ValidRun(c, acts[..k]) { Prefixes(c, acts, k); }
    Prefixes(c, acts, j);
    Prefixes(c, acts, i);
    if forall k | j < k < i :: !WritesAt(c, acts, k, copy.name) {
      Undisturbed(c, acts, j + 1, i, w, copy.name);
      NoConflict(c, After(c, acts[..j]), After(c, acts[..i]), w, copy);
      assert false;
    }
  }

  lemma NoConflict(c: Cfg, s: State, s': State, w: nat, copy: StatefulSet)
    requires !c.stale && Enabled(c, s, Alloc(w, AddGet(copy))) && w < |s'.workers|
    requires var s1 := Next(c, s, Alloc(w, AddGet(copy)));
             w < |s1.workers| && s'.workers[w] == s1.workers[w]
             && (copy.name in s'.sets <==> copy.name in s1.sets)
             && (copy.name in s1.sets ==> s'.sets[copy.name] == s1.sets[copy.name])
    ensures !Enabled(c, s', Alloc(w, AddConflict))
  {
    hide Tenants;
  }
}
