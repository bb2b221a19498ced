/** When a tenant is marked Ready in the step system: only by a worker that just saw its pod ready. */
module ReadyMarks {
  import opened GoStrings
  import opened Objects
  import opened Lifecycle
  import opened History
  import opened Retries

  /** What worker w did last. */
  function LastOf(acts: seq<Action>, w: nat): Option<Action> {
    if acts == [] then None
    else if DoneBy(acts[|acts| - 1], w) then Some(acts[|acts| - 1])
    else LastOf(acts[..|acts| - 1], w)
  }

  predicate SawReady(pc: Pc, last: Option<Action>, w: nat) {
    pc.PodMarking? ==> last == Some(Begin(w, PodFetch(Some(pc.env), true)))
  }

  lemma StepSaw(c: Cfg, s: State, a: Action, w: nat, last: Option<Action>)
    requires Enabled(c, s, a) && w < |s.workers| && SawReady(s.workers[w], last, w)
    ensures |Next(c, s, a).workers| == |s.workers|
    ensures SawReady(Next(c, s, a).workers[w], if DoneBy(a, w) then Some(a) else last, w)
  {
    hide EnvEnabled, AllocEnabled, DeleteEnabled, EnvNext, BeginStore, AllocStore, DeleteStore, AllocStage, DeleteStage;
    hide EnvRead;
  }

  lemma {:induction false} AlwaysSaw(c: Cfg, acts: seq<Action>, w: nat)
    requires ValidRun(c, acts) && w < c.workers
    ensures |After(c, acts).workers| == c.workers && SawReady(After(c, acts).workers[w], LastOf(acts, w), w)
  {
    hide Enabled, Next;
    if acts != [] {
      var before := acts[..|acts| - 1];
      AlwaysSaw(c, before, w);
      StepSaw(c, After(c, before), acts[|acts| - 1], w, LastOf(before, w));
    }
  }

  /** A worker stores readyAt and the phase Ready only right after it read the tenant and found a
      ready pod, in any interleaving; the tenant it marks is still stored as it was read, was not
      ready before, and nothing else about it changes. */
  lemma {:induction false} MarkedAfterReady(c: Cfg, acts: seq<Action>, w: nat, now: int)
    requires ValidRun(c, acts + [Begin(w, PodMark(now))]) && w < c.workers
    ensures ValidRun(c, acts)
    ensures exists e :: LastOf(acts, w) == Some(Begin(w, PodFetch(Some(e), true)))
              && var s, s' := After(c, acts), After(c, acts + [Begin(w, PodMark(now))]);
                 && e.uid in s.envs && s.envs[e.uid] == e && e.readyAt.None?
                 && e.uid in s'.envs && s'.envs[e.uid] == e.(rv := s.rev + 1, readyAt := Some(now), phase := Ready)
  {
    hide LastOf, ValidRun, Good;
    var run := acts + [Begin(w, PodMark(now))];
    MarkStep(c, acts, w, now);
    AlwaysSaw(c, acts, w);
    AlwaysGood(c, acts);
    var s := After(c, acts);
    WorkerOk(c, s, w);
    AcceptedIsCurrent(c, s, s.workers[w].env);
  }

  lemma MarkStep(c: Cfg, acts: seq<Action>, w: nat, now: int)
    requires ValidRun(c, acts + [Begin(w, PodMark(now))])
    ensures ValidRun(c, acts) && Enabled(c, After(c, acts), Begin(w, PodMark(now)))
    ensures After(c, acts + [Begin(w, PodMark(now))]) == Next(c, After(c, acts), Begin(w, PodMark(now)))
  {
    hide Enabled, Next;
    var run := acts + [Begin(w, PodMark(now))];
    assert run[..|run| - 1] == acts;
  }
}
