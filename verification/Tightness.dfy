/** The capacity bound is exact: for every number of workers some run of the coherent system fills
    an instance with nine more tenants than there are workers. */
module Tightness {
  import opened GoStrings
  import opened Registry
  import opened Naming
  import opened Lifecycle
  import opened Witness

  /** The configuration of the capacity bound: coherent reads, fresh ids. */
  function CoherentCfg(k: nat): Cfg {
    Cfg(k, false, true, true, false)
  }

  /** Nine tenants and one more per worker; two ids with different names. */
  ghost predicate Cast(k: nat, uids: seq<string>, id: string, id2: string) {
    && k > 0 && |uids| == 9 + k <= MAX_INT && NoDuplicates(uids)
    && (forall i :: 0 <= i < |uids| ==> ValidUid(uids[i]))
    && ValidId(id) && ValidId(id2) && NewTarget(id).ss != NewTarget(id2).ss
  }

  // ---- nine tenants, one after the other ----

  ghost predicate Filled(s: State, x: string, uids: seq<string>, n: nat)
    requires n <= |uids|
  {
    && OnlySet(s, x) && Exact(s.sets[x]) && Tenants(s.sets[x]) == uids[..n] && AllIdle(s)
    && forall i | n <= i < |uids| :: Unknown(s, uids[i])
  }

  lemma {:induction false} Fills(k: nat, uids: seq<string>, id: string, id2: string, n: nat) returns (acts: seq<Action>)
    requires Cast(k, uids, id, id2) && 1 <= n <= 9
    ensures ValidRun(CoherentCfg(k), acts) && |After(CoherentCfg(k), acts).workers| == k
    ensures Filled(After(CoherentCfg(k), acts), NewTarget(id).ss, uids, n)
  {
    hide After, ValidRun, ValidId, Tenants, Exact, LabelCount, Unknown, OnlySet;
    var c, x := CoherentCfg(k), NewTarget(id).ss;
    assert |x| >= ID_LENGTH;
    hide NewTarget;
    if n == 1 {
      acts := Registered(c, uids[0], id);
      assert uids[..1] == [uids[0]];
      forall i | 1 <= i < |uids| ensures Unknown(After(c, acts), uids[i]) {
        OthersUnknown(After(c, acts), uids[0], uids[i], x);
      }
    } else {
      acts := Fills(k, uids, id, id2, n - 1);
      var s, u := After(c, acts), uids[n - 1];
      SetThere(s, x);
      HasCount(s.sets, x);
      acts := Joins(c, acts, 0, u, x, id2);
      assert uids[..n] == uids[..n - 1] + [u];
      forall i | n <= i < |uids| ensures Unknown(After(c, acts), uids[i]) {
        StillUnknown(s, After(c, acts), 0, u, uids[i]);
      }
    }
  }

  lemma HasCount(sets: map<string, StatefulSet>, x: string)
    requires x in sets && Exact(sets[x])
    ensures LabelCount(sets[x]) == Some(|Tenants(sets[x])|)
  {
  }

  // ---- every worker chooses while there are nine ----

  /** Worker j has chosen x for the tenant after the first nine that is its own. */
  ghost predicate Waits(s: State, x: string, uids: seq<string>, j: nat)
    requires 9 + j < |uids|
  {
    IsAt(s, j, uids[9 + j], AtAddGet(ReuseTarget(x), 0))
  }

  ghost predicate Gathered(s: State, x: string, uids: seq<string>, k: nat, m: nat)
    requires |uids| == 9 + k && m <= k
  {
    && OnlySet(s, x) && Exact(s.sets[x]) && Tenants(s.sets[x]) == uids[..9] && |s.workers| == k
    && (forall j | 0 <= j < m :: Waits(s, x, uids, j))
    && (forall j | m <= j < k :: s.workers[j] == Idle)
    && (forall i | 9 + m <= i < |uids| :: Unknown(s, uids[i]))
  }

  /** One more worker onboards a tenant and chooses the instance. */
  lemma ChoosesOne(k: nat, uids: seq<string>, id: string, id2: string, m: nat, acts: seq<Action>) returns (more: seq<Action>)
    requires Cast(k, uids, id, id2) && m < k && ValidRun(CoherentCfg(k), acts)
    requires Gathered(After(CoherentCfg(k), acts), NewTarget(id).ss, uids, k, m)
    ensures ValidRun(CoherentCfg(k), more)
    ensures Gathered(After(CoherentCfg(k), more), NewTarget(id).ss, uids, k, m + 1)
  {
    hide After, ValidRun, ValidId, Tenants, Exact, LabelCount, Unknown, OnlySet;
    var c, x, u := CoherentCfg(k), NewTarget(id).ss, uids[9 + m];
    assert |x| >= ID_LENGTH;
    hide NewTarget;
    var s := After(c, acts);
    SetThere(s, x);
    HasCount(s.sets, x);
    more := Chooses(c, acts, m, u, x, id2);
    var s' := After(c, more);
    SetKept(s, s', x);
    forall i | 9 + (m + 1) <= i < |uids| ensures Unknown(s', uids[i]) {
      StillUnknown(s, s', m, u, uids[i]);
    }
    forall j | 0 <= j < m ensures Waits(s', x, uids, j) {
      assert Waits(s, x, uids, j);
    }
  }

  lemma {:induction false} Gathers(k: nat, uids: seq<string>, id: string, id2: string, m: nat) returns (acts: seq<Action>)
    requires Cast(k, uids, id, id2) && m <= k
    ensures ValidRun(CoherentCfg(k), acts)
    ensures Gathered(After(CoherentCfg(k), acts), NewTarget(id).ss, uids, k, m)
  {
    hide After, ValidRun, NewTarget, ValidId, Tenants, Exact, OnlySet, Unknown;
    if m == 0 {
      acts := Fills(k, uids, id, id2, 9);
    } else {
      acts := Gathers(k, uids, id, id2, m - 1);
      acts := ChoosesOne(k, uids, id, id2, m - 1, acts);
    }
  }

  // ---- and then every worker adds ----

  ghost predicate Added(s: State, x: string, uids: seq<string>, k: nat, m: nat)
    requires |uids| == 9 + k && m <= k
  {
    && OnlySet(s, x) && Tenants(s.sets[x]) == uids[..9 + m] && |s.workers| == k
    && (forall j | m <= j < k :: Waits(s, x, uids, j))
  }

  lemma AddsOne(k: nat, uids: seq<string>, id: string, id2: string, m: nat, acts: seq<Action>) returns (more: seq<Action>)
    requires Cast(k, uids, id, id2) && m < k && ValidRun(CoherentCfg(k), acts)
    requires Added(After(CoherentCfg(k), acts), NewTarget(id).ss, uids, k, m)
    ensures ValidRun(CoherentCfg(k), more)
    ensures Added(After(CoherentCfg(k), more), NewTarget(id).ss, uids, k, m + 1)
  {
    hide After, ValidRun, NewTarget, ValidId, Tenants, Exact, OnlySet;
    var c, x, u := CoherentCfg(k), NewTarget(id).ss, uids[9 + m];
    var s := After(c, acts);
    SetThere(s, x);
    assert Waits(s, x, uids, m);
    more := Registers(c, acts, m, u, ReuseTarget(x));
    var s' := After(c, more);
    assert uids[..9 + (m + 1)] == uids[..9 + m] + [u];
    forall j | m + 1 <= j < k ensures Waits(s', x, uids, j) {
      assert Waits(s, x, uids, j) && uids[9 + j] != u;
    }
  }

  lemma {:induction false} AddsAll(k: nat, uids: seq<string>, id: string, id2: string, m: nat) returns (acts: seq<Action>)
    requires Cast(k, uids, id, id2) && m <= k
    ensures ValidRun(CoherentCfg(k), acts)
    ensures Added(After(CoherentCfg(k), acts), NewTarget(id).ss, uids, k, m)
  {
    hide After, ValidRun, NewTarget, ValidId, Tenants, Exact, OnlySet;
    if m == 0 {
      acts := Gathers(k, uids, id, id2, k);
    } else {
      acts := AddsAll(k, uids, id, id2, m - 1);
      acts := AddsOne(k, uids, id, id2, m - 1, acts);
    }
  }

  /** k workers can bring a list to exactly 9 + k tenants. */
  lemma {:induction false} CapacityIsTight(k: nat, uids: seq<string>, id: string, id2: string) returns (acts: seq<Action>)
    requires Cast(k, uids, id, id2)
    ensures ValidRun(CoherentCfg(k), acts)
    ensures var s, x := After(CoherentCfg(k), acts), NewTarget(id).ss;
            x in s.sets && Tenants(s.sets[x]) == uids && |Tenants(s.sets[x])| == 9 + k
  {
    hide After, ValidRun, NewTarget, ValidId, Tenants, Exact;
    acts := AddsAll(k, uids, id, id2, k);
    assert uids[..9 + k] == uids;
  }
}
