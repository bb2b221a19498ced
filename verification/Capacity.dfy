/** How far the unchecked add step can overfill an instance: with k workers, coherent reads and
    fresh ids no list exceeds 9 + k, so exactly the declared maximum for one worker. */
module Capacity {
  import opened GoStrings
  import opened Registry
  import opened Naming
  import opened Lifecycle
  import opened History
  import opened Shapes

  /** The instance a worker has chosen and not yet added its tenant to. */
  function Chosen(pc: Pc): Option<string> {
    if pc.Main? && PreAdd(pc.at) && !pc.at.AtFind? then Some(pc.at.t.ss) else None
  }

  function Weight(pc: Pc, x: string): nat {
    if Chosen(pc) == Some(x) then 1 else 0
  }

  /** The number of workers that have chosen instance x. */
  function Choosers(workers: seq<Pc>, x: string): (n: nat)
    ensures n <= |workers|
  {
    if workers == [] then 0 else Weight(workers[0], x) + Choosers(workers[1..], x)
  }

  lemma {:induction false} ChoosersUpdate(workers: seq<Pc>, w: nat, pc: Pc, x: string)
    requires w < |workers|
    ensures Choosers(workers[w := pc], x) == Choosers(workers, x) - Weight(workers[w], x) + Weight(pc, x)
  {
    hide Weight;
    if w == 0 {
      assert workers[w := pc][1..] == workers[1..];
    } else {
      assert workers[w := pc][1..] == workers[1..][w - 1 := pc];
      ChoosersUpdate(workers[1..], w - 1, pc, x);
    }
  }

  /** Registered tenants plus tenants about to be registered. */
  ghost predicate Bounded(s: State) {
    forall x | x in Lists(s) :: |Lists(s)[x]| + Choosers(s.workers, x) < MAX_TENANTS + |s.workers|
  }

  /** A step that lengthens no list beyond what it takes from the choosers. */
  lemma TradeKeeps(s: State, s1: State, w: nat, pc: Pc)
    requires Bounded(s) && w < |s.workers| && s1.workers == s.workers
    requires forall x | x in Lists(s1) ::
               || (x in Lists(s) && |Lists(s1)[x]| + Weight(pc, x) <= |Lists(s)[x]| + Weight(s.workers[w], x))
               || |Lists(s1)[x]| < MAX_TENANTS
    ensures Bounded(Goto(s1, w, pc))
  {
    hide ListsOf, Weight;
    var s' := Goto(s1, w, pc);
    forall x | x in Lists(s') ensures |Lists(s')[x]| + Choosers(s'.workers, x) < MAX_TENANTS + |s'.workers| {
      assert x in Lists(s1);
      ChoosersUpdate(s.workers, w, pc, x);
    }
  }

  lemma BeginBounded(c: Cfg, s: State, w: nat, op: BeginOp)
    requires Good(c, s) && Bounded(s) && w < |s.workers| && BeginEnabled(c, s, w, op)
    ensures Bounded(Next(c, s, Begin(w, op)))
  {
    hide Good, ListsOf, BeginEnabled, BeginStore, BeginPc, Choosers, Bounded;
    BeginShape(c, s, w, op);
    BeginClaim(c, s, w, op);
    TradeKeeps(s, BeginStore(c, s, w, op), w, BeginPc(c, s, w, op));
  }

  /** A coherent search only picks an instance that still has room. */
  lemma FindBounded(c: Cfg, s: State, w: nat, op: AllocOp)
    requires Good(c, s) && Bounded(s) && !c.stale && c.freshIds
    requires At(s, w) && AllocEnabled(c, s, w, op) && op.Find?
    ensures Bounded(Next(c, s, Alloc(w, op)))
  {
    hide Good, Tenants, FirstFit, NewTarget, Choosers, Bounded;
    if op.listed.Some? && FirstFit(op.listed.value).Some? {
      var i := ListedFit(c, s, op.listed.value);
    }
    TradeKeeps(s, AllocStore(c, s, w, op), w, Continue(s.workers[w].env, AllocStage(c, s, w, op)));
  }

  /** After the search a worker keeps its choice until it adds. */
  lemma ChoiceKept(c: Cfg, s: State, w: nat, op: AllocOp)
    requires Good(c, s) && At(s, w) && AllocEnabled(c, s, w, op) && !op.Find?
    ensures var pc := Continue(s.workers[w].env, AllocStage(c, s, w, op));
      && (Chosen(pc).None? || Chosen(pc) == Chosen(s.workers[w]))
      && (op.AddPut? ==> Chosen(pc).None? && Chosen(s.workers[w]) == Some(s.workers[w].at.t.ss))
  {
    hide Good, Tenants, Listing, Host, ValidUid;
  }

  lemma AllocBounded(c: Cfg, s: State, w: nat, op: AllocOp)
    requires Good(c, s) && Bounded(s) && At(s, w) && AllocEnabled(c, s, w, op) && !op.Find?
    ensures Bounded(Next(c, s, Alloc(w, op)))
  {
    hide Good, ListsOf, Tenants, AllocStore, AllocStage, Choosers, Bounded, Chosen, Listing, AllocEnabled;
    ChoiceKept(c, s, w, op);
    AllocShape(c, s, w, op);
    if op.NewSetCreate? { NewSetShape(c, s, w, op.lost); }
    if op.AddPut? { AddShape(c, s, w, op.lost); }
    TradeKeeps(s, AllocStore(c, s, w, op), w, Continue(s.workers[w].env, AllocStage(c, s, w, op)));
  }

  lemma DeleteBounded(c: Cfg, s: State, w: nat, op: DeleteOp)
    requires Good(c, s) && Bounded(s) && At(s, w) && DeleteEnabled(c, s, w, op)
    ensures Bounded(Next(c, s, Delete(w, op)))
  {
    hide Good, ListsOf, DeleteEnabled, DeleteStore, DeleteStage, Choosers, Bounded, Without;
    DeleteShape(c, s, w, op);
    DeleteClaim(c, s, w, op);
    if op.RemovePut? { RemoveShape(c, s, w, op.lost); }
    TradeKeeps(s, DeleteStore(c, s, w, op), w, Continue(s.workers[w].env, DeleteStage(c, s, w, op)));
  }

  lemma StepBounded(c: Cfg, s: State, a: Action)
    requires Good(c, s) && Bounded(s) && !c.stale && c.freshIds && Enabled(c, s, a)
    ensures Bounded(Next(c, s, a))
  {
    hide Good, ListsOf, Choosers, EnvEnabled, BeginEnabled, AllocEnabled, DeleteEnabled, EnvNext, BeginStore, AllocStore;
    match a
    case Env(e) => EnvShape(c, s, e);
    case Begin(w, op) => BeginBounded(c, s, w, op);
    case Alloc(w, op) => if op.Find? { FindBounded(c, s, w, op); } else { AllocBounded(c, s, w, op); }
    case Delete(w, op) => DeleteBounded(c, s, w, op);
  }

  lemma {:induction false} AlwaysBounded(c: Cfg, acts: seq<Action>)
    requires ValidRun(c, acts) && !c.stale && c.freshIds
    ensures Bounded(After(c, acts))
  {
    hide Good, Bounded, Enabled, Next;
    if acts == [] {
      InitBounded(c);
    } else {
      var prefix := acts[..|acts| - 1];
      AlwaysGood(c, prefix);
      AlwaysBounded(c, prefix);
      StepBounded(c, After(c, prefix), acts[|acts| - 1]);
    }
  }

  lemma InitBounded(c: Cfg)
    ensures Bounded(Init(c))
  {
  }

  // ---- theorems ----

  /** List length plus pending choices never exceeds 9 + k. */
  lemma {:induction false} CapacityBound(c: Cfg, acts: seq<Action>, x: string)
    requires ValidRun(c, acts) && !c.stale && c.freshIds && x in Lists(After(c, acts))
    ensures |Lists(After(c, acts))[x]| + Choosers(After(c, acts).workers, x) <= 9 + c.workers
  {
    hide Good, ValidRun, After, ListsOf, Choosers;
    AlwaysGood(c, acts);
    AlwaysBounded(c, acts);
    WorkerCount(c, After(c, acts));
  }

  /** The configured single worker never exceeds the declared maximum. */
  lemma {:induction false} SingleWorkerCapacity(c: Cfg, acts: seq<Action>, x: string)
    requires ValidRun(c, acts) && !c.stale && c.freshIds && c.workers == 1 && x in Lists(After(c, acts))
    ensures |Lists(After(c, acts))[x]| <= 10
  {
    hide ValidRun, After, ListsOf, Choosers;
    CapacityBound(c, acts, x);
  }
}
