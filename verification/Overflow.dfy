/** Without coherent reads, or without fresh ids, the capacity bound fails for any number of workers:
    an instance can be filled with any number of tenants, one after the other. */
module Overflow {
  import opened GoStrings
  import opened Objects
  import opened Registry
  import opened Naming
  import opened Lifecycle
  import opened Witness

  /** Any number of tenants, of distinct prefixes if the configuration asks for them. */
  ghost predicate Crowd(c: Cfg, uids: seq<string>, id: string, id2: string) {
    && c.workers > 0 && 0 < |uids| <= MAX_INT && NoDuplicates(uids)
    && (forall i :: 0 <= i < |uids| ==> ValidUid(uids[i]))
    && (c.distinct ==> forall i, j | 0 <= i < j < |uids| && |uids[i]| >= 8 && |uids[j]| >= 8 :: uids[i][..8] != uids[j][..8])
    && ValidId(id) && ValidId(id2) && NewTarget(id).ss != NewTarget(id2).ss
  }

  /** The first n tenants are in the one instance, of which the version `first` had one. */
  ghost predicate Crowded(s: State, x: string, first: StatefulSet, uids: seq<string>, n: nat)
    requires n <= |uids|
  {
    && OnlySet(s, x) && Tenants(s.sets[x]) == uids[..n] && |s.workers| > 0 && AllIdle(s)
    && first in s.setHistory && first.name == x && LabelCount(first) == Some(1)
    && (forall e | e in s.envHistory :: e.uid in uids[..n])
    && forall i | n <= i < |uids| :: Unknown(s, uids[i])
  }

  /** The search sees an outdated version with room. */
  lemma ChoosesOutdated(c: Cfg, acts: seq<Action>, uid: string, x: string, first: StatefulSet, id: string)
    returns (more: seq<Action>)
    requires ValidRun(c, acts) && c.stale && IsAt(After(c, acts), 0, uid, AtFind)
    requires first in After(c, acts).setHistory && first.name == x && LabelCount(first) == Some(1)
    requires ValidId(id) && NewTarget(id).ss !in After(c, acts).sets && |x| >= ID_LENGTH
    ensures ValidRun(c, more)
    ensures After(c, more) == Goto(After(c, acts), 0, Main(After(c, acts).envs[uid], AtSecretGet(ReuseTarget(x))))
  {
    hide After, ValidRun, NewTarget, ValidId, LabelCount;
    assert FirstFit([first]) == Some(x);
    hide FirstFit;
    more := Extend(c, acts, Alloc(0, Find(Some([first]), id)));
  }

  /** The List fails, and the generated id is that of the instance there is. */
  lemma MeetsOldId(c: Cfg, acts: seq<Action>, uid: string, id: string) returns (more: seq<Action>)
    requires ValidRun(c, acts) && !c.freshIds && IsAt(After(c, acts), 0, uid, AtFind)
    requires ValidId(id) && NewTarget(id).ss in After(c, acts).sets
    ensures ValidRun(c, more)
    ensures After(c, more) == Goto(After(c, acts), 0, Main(After(c, acts).envs[uid], AtSecretGet(NewTarget(id))))
  {
    hide After, ValidRun, NewTarget, ValidId;
    var s := After(c, acts);
    more := Extend(c, acts, Alloc(0, Find(None, id)));
    more := Extend(c, more, Alloc(0, NewSetGet(true)));
    assert After(c, more).workers == s.workers[0 := Main(s.envs[uid], AtSecretGet(NewTarget(id)))];
  }

  /** Either way the tenant goes on with the instance, full or not. */
  lemma Targets(c: Cfg, acts: seq<Action>, uid: string, x: string, first: StatefulSet, id: string, id2: string)
    returns (more: seq<Action>, t: Target)
    requires ValidRun(c, acts) && (c.stale || !c.freshIds) && IsAt(After(c, acts), 0, uid, AtFind)
    requires first in After(c, acts).setHistory && first.name == x && LabelCount(first) == Some(1)
    requires ValidId(id) && ValidId(id2)
    requires After(c, acts).sets.Keys == {x} && x == NewTarget(id).ss && NewTarget(id2).ss != x
    ensures ValidRun(c, more) && t.ss == x
    ensures After(c, more) == Goto(After(c, acts), 0, Main(After(c, acts).envs[uid], AtSecretGet(t)))
  {
    assert |x| >= ID_LENGTH;
    hide After, ValidRun, NewTarget, ValidId, LabelCount, IsAt;
    if c.stale {
      t := ReuseTarget(x);
      more := ChoosesOutdated(c, acts, uid, x, first, id2);
    } else {
      t := NewTarget(id);
      more := MeetsOldId(c, acts, uid, id);
    }
  }

  lemma AdmitsNext(c: Cfg, s: State, uids: seq<string>, n: nat, id: string, id2: string)
    requires Crowd(c, uids, id, id2) && n < |uids| && forall e | e in s.envHistory :: e.uid in uids[..n]
    ensures Admits(c, s, uids[n])
  {
    forall e | c.distinct && e in s.envHistory && |e.uid| >= 8 ensures e.uid[..8] != uids[n][..8] {
      var i :| 0 <= i < n && uids[..n][i] == e.uid;
      assert uids[i] == e.uid;
    }
  }

  /** One more tenant, up to its registration. */
  lemma Approaches(c: Cfg, acts: seq<Action>, uid: string, x: string, first: StatefulSet, id: string, id2: string)
    returns (more: seq<Action>, t: Target)
    requires ValidRun(c, acts) && (c.stale || !c.freshIds)
    requires |After(c, acts).workers| > 0 && After(c, acts).workers[0] == Idle
    requires Unknown(After(c, acts), uid) && ValidUid(uid) && Admits(c, After(c, acts), uid)
    requires first in After(c, acts).setHistory && first.name == x && LabelCount(first) == Some(1)
    requires ValidId(id) && ValidId(id2)
    requires OnlySet(After(c, acts), x) && x == NewTarget(id).ss && NewTarget(id2).ss != x
    ensures ValidRun(c, more) && t.ss == x
    ensures var s, s' := After(c, acts), After(c, more);
            && uid in s'.envs && IsAt(s', 0, uid, AtAddGet(t, 0)) && s'.envs[uid].name == uid
            && s'.workers == s.workers[0 := s'.workers[0]]
            && s'.sets == s.sets && s'.setHistory == s.setHistory
            && s'.envs == s.envs[uid := s'.envs[uid]]
            && (forall f | f in s'.envHistory :: f in s.envHistory || f.uid == uid)
            && s'.namespaces.Keys == s.namespaces.Keys + {uid} && s'.secrets.Keys == s.secrets.Keys + {uid}
  {
    hide After, ValidRun, ValidId, NewTarget, LabelCount, Unknown, Admits, Host, SsFromHost, WithJob;
    SecretUnknown(After(c, acts), uid);
    more := Onboards(c, acts, 0, uid);
    more, t := Targets(c, more, uid, x, first, id, id2);
    more := MakesCredentials(c, more, 0, uid, t);
  }

  lemma {:induction false} Crowds(c: Cfg, uids: seq<string>, id: string, id2: string, n: nat)
    returns (acts: seq<Action>, first: StatefulSet)
    requires Crowd(c, uids, id, id2) && (c.stale || !c.freshIds) && 1 <= n <= |uids|
    ensures ValidRun(c, acts) && Crowded(After(c, acts), NewTarget(id).ss, first, uids, n)
  {
    hide After, ValidRun, ValidId, NewTarget, Tenants, Exact, LabelCount, Unknown, OnlySet, Admits;
    var x := NewTarget(id).ss;
    if n == 1 {
      acts := Registered(c, uids[0], id);
      assert uids[..1] == [uids[0]];
      first := FirstVersion(After(c, acts), uids[0], x);
      forall i | 1 <= i < |uids| ensures Unknown(After(c, acts), uids[i]) {
        OthersUnknown(After(c, acts), uids[0], uids[i], x);
      }
    } else {
      acts, first := Crowds(c, uids, id, id2, n - 1);
      acts := CrowdsOne(c, uids, id, id2, n - 1, acts, first);
    }
  }

  lemma FirstVersion(s: State, u: string, x: string) returns (first: StatefulSet)
    requires Alone(s, u, x)
    ensures first in s.setHistory && first.name == x && LabelCount(first) == Some(1)
  {
    first := s.sets[x];
  }

  lemma CrowdsOne(c: Cfg, uids: seq<string>, id: string, id2: string, n: nat, acts: seq<Action>, first: StatefulSet)
    returns (more: seq<Action>)
    requires Crowd(c, uids, id, id2) && (c.stale || !c.freshIds) && n < |uids|
    requires ValidRun(c, acts) && Crowded(After(c, acts), NewTarget(id).ss, first, uids, n)
    ensures ValidRun(c, more) && Crowded(After(c, more), NewTarget(id).ss, first, uids, n + 1)
  {
    hide After, ValidRun, ValidId, NewTarget, Tenants, Exact, LabelCount, Unknown, OnlySet, Admits;
    var s, x, u := After(c, acts), NewTarget(id).ss, uids[n];
    SetThere(s, x);
    AdmitsNext(c, s, uids, n, id, id2);
    var t;
    more, t := Approaches(c, acts, u, x, first, id, id2);
    SetKept(s, After(c, more), x);
    more := Registers(c, more, 0, u, t);
    var s' := After(c, more);
    assert uids[..n + 1] == uids[..n] + [u];
    forall i | n + 1 <= i < |uids| ensures Unknown(s', uids[i]) {
      StillUnknown(s, s', 0, u, uids[i]);
    }
  }

  /** Dropping either hypothesis of the capacity bound, with any number of workers, lists of any
      length are reached. */
  lemma {:induction false} NoBound(c: Cfg, uids: seq<string>, id: string, id2: string) returns (acts: seq<Action>)
    requires Crowd(c, uids, id, id2) && (c.stale || !c.freshIds)
    ensures ValidRun(c, acts)
    ensures var s, x := After(c, acts), NewTarget(id).ss; x in s.sets && Tenants(s.sets[x]) == uids
  {
    hide After, ValidRun, ValidId, NewTarget, Tenants, LabelCount, Unknown;
    var first;
    acts, first := Crowds(c, uids, id, id2, |uids|);
    assert uids[..|uids|] == uids;
  }
}
