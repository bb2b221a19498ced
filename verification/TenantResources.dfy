/** The objects of a tenant's own namespace that every reconcile brings in line with the
    specification: the namespace, its resource quota and the backend deployment. */
module TenantResources {
  import opened GoStrings
  import opened Objects
  import opened ApiServer

  // ---- namespace ----

  /** A namespace that is already there is left alone. */
  method CreateNamespaceForTenant(api: Api, uid: string) returns (ok: bool)
    requires Calm(api.script)
    modifies api
    ensures Calm(api.script)
    ensures api.store == old(api.store) || (uid !in old(api.store).namespaces && api.store ==
              old(api.store).(rev := old(api.store).rev + 1, namespaces := old(api.store).namespaces[uid := Active]))
    ensures ok ==> uid in api.store.namespaces
    ensures old(api.script) == [] ==> ok && api.script == []
  {
    ok := api.Look();
    if ok && uid !in api.store.namespaces {
      ok := api.Commit(api.store.(namespaces := api.store.namespaces[uid := Active]));
    }
  }

  method DeleteNamespaceForTenant(api: Api, uid: string) returns (ok: bool)
    requires Calm(api.script)
    modifies api
    ensures Calm(api.script)
    ensures api.store == old(api.store) || (uid in old(api.store).namespaces && api.store ==
              old(api.store).(rev := old(api.store).rev + 1, namespaces := old(api.store).namespaces[uid := Terminating]))
    ensures ok ==> (uid in api.store.namespaces ==> api.store.namespaces[uid] == Terminating)
    ensures old(api.script) == [] ==> ok && api.script == []
  {
    ok := api.Look();
    if ok && uid in api.store.namespaces {
      ok := api.Commit(api.store.(namespaces := api.store.namespaces[uid := Terminating]));
    }
  }

  // ---- resource quota ----

  /** Quantities compare by value, however they are written. */
  function Cmp(a: Quantity, b: Quantity): int {
    if a.milli < b.milli then -1 else if a.milli > b.milli then 1 else 0
  }

  /** Go's integer division. */
  function Quo(a: int, b: int): int
    requires b > 0
  {
    if a >= 0 then a / b else -(-a / b)
  }

  /** Quantity.Value: whole units, rounded up. */
  function WholeUp(q: Quantity): int {
    -((-q.milli) / 1000)
  }

  /** Quantity.Set: whole units. */
  function SetWhole(q: Quantity, units: int): Quantity {
    q.(milli := 1000 * units)
  }

  function CpuRequest(limit: Quantity, dedicated: bool): Quantity {
    SetWhole(limit, Quo(limit.milli * (if dedicated then 500 else 750), 1000))
  }

  function MemoryRequest(limit: Quantity, dedicated: bool): Quantity {
    SetWhole(limit, Quo(WholeUp(limit) * (if dedicated then 60 else 75), 100))
  }

  /** The limits a specification asks for; a zero limit asks for none. */
  function Desired(quotas: Option<Quotas>, dedicated: bool): Hard {
    if quotas.None? then map[]
    else
      var q := quotas.value;
      (if q.cpu.milli == 0 then map[]
       else map["limits.cpu" := q.cpu, "requests.cpu" := CpuRequest(q.cpu, dedicated)])
      + (if q.memory.milli == 0 then map[]
         else map["limits.memory" := q.memory, "requests.memory" := MemoryRequest(q.memory, dedicated)])
      + (if q.storage.milli == 0 then map[] else map["requests.storage" := q.storage])
      + (if q.pods <= 0 then map[] else map["pods" := Quantity(1000 * q.pods, "DecimalSI")])
  }

  /** The CPU request is computed in thousandths but stored as whole units, so that it stays within
      a positive limit only for a limit of one thousandth; memory requests stay within theirs. */
  lemma RequestsWithinLimits(limit: Quantity, dedicated: bool)
    requires limit.milli > 0
    ensures CpuRequest(limit, dedicated).milli <= limit.milli <==> limit.milli == 1
    ensures WholeUp(MemoryRequest(limit, dedicated)) <= WholeUp(limit)
  {
  }

  /** Which limits a specification asks for, and how they follow from its quotas: for positive limits,
      half or three quarters of the thousandths of the CPU limit, and 60 or 75 percent of the started
      units of the memory limit, as whole units. */
  lemma DesiredLimits(q: Quotas, dedicated: bool)
    ensures var d := Desired(Some(q), dedicated);
            && (forall k | k in d :: k in {"limits.cpu", "requests.cpu", "limits.memory", "requests.memory",
                                           "requests.storage", "pods"})
            && ("limits.cpu" in d <==> q.cpu.milli != 0) && ("requests.cpu" in d <==> q.cpu.milli != 0)
            && ("limits.memory" in d <==> q.memory.milli != 0) && ("requests.memory" in d <==> q.memory.milli != 0)
            && ("requests.storage" in d <==> q.storage.milli != 0) && ("pods" in d <==> q.pods > 0)
            && (q.cpu.milli != 0 ==> d["limits.cpu"] == q.cpu)
            && (q.cpu.milli > 0 ==> IsCpuRequest(d["requests.cpu"].milli, q.cpu.milli, dedicated))
            && (q.memory.milli != 0 ==> d["limits.memory"] == q.memory)
            && (q.memory.milli > 0 ==> IsMemoryRequest(d["requests.memory"].milli, q.memory.milli, dedicated))
            && (q.storage.milli != 0 ==> d["requests.storage"] == q.storage)
            && (q.pods > 0 ==> d["pods"].milli == q.pods * 1000)
    ensures Desired(None, dedicated) == map[]
  {
    var d := Desired(Some(q), dedicated);
    if q.cpu.milli > 0 { CpuRequested(q.cpu, dedicated); }
    if q.memory.milli > 0 { MemoryRequested(q.memory, dedicated); }
    hide CpuRequest, MemoryRequest, IsCpuRequest, IsMemoryRequest;
  }

  /** `units` whole CPUs, as many as there are thousandths in half, or three quarters, of the limit. */
  predicate IsCpuRequest(milli: int, limit: int, dedicated: bool) {
    milli % 1000 == 0 && var units := milli / 1000;
    if dedicated then 2 * units <= limit < 2 * units + 2 else 4 * units <= 3 * limit < 4 * units + 4
  }

  /** The whole units that a limit fills or starts. */
  predicate Started(limit: int, whole: int) {
    1000 * (whole - 1) < limit <= 1000 * whole
  }

  ghost predicate IsMemoryRequest(milli: int, limit: int, dedicated: bool) {
    milli % 1000 == 0 && var units := milli / 1000;
    exists whole :: Started(limit, whole) &&
      100 * units <= whole * (if dedicated then 60 else 75) < 100 * units + 100
  }

  lemma CpuRequested(limit: Quantity, dedicated: bool)
    requires limit.milli > 0
    ensures IsCpuRequest(CpuRequest(limit, dedicated).milli, limit.milli, dedicated)
  {
  }

  lemma MemoryRequested(limit: Quantity, dedicated: bool)
    requires limit.milli > 0
    ensures IsMemoryRequest(MemoryRequest(limit, dedicated).milli, limit.milli, dedicated)
  {
    var whole := WholeUp(limit);
    WholeStarted(limit);
    Hundredths(whole * (if dedicated then 60 else 75));
    assert Started(limit.milli, whole);
    hide Quo, WholeUp, Started;
  }

  lemma WholeStarted(limit: Quantity)
    ensures Started(limit.milli, WholeUp(limit))
    ensures limit.milli > 0 ==> WholeUp(limit) > 0
  {
  }

  lemma Hundredths(a: int)
    requires a >= 0
    ensures 100 * Quo(a, 100) <= a < 100 * Quo(a, 100) + 100
  {
  }

  /** The same limits with the same values, however they are written. */
  predicate SameValues(a: Hard, b: Hard) {
    a.Keys == b.Keys && forall k | k in a :: a[k].milli == b[k].milli
  }

  function Entries(hard: Option<Hard>): Hard {
    if hard.None? then map[] else hard.value
  }

  /** A desired limit that is missing, or stored with another value. */
  predicate Differs(hard: Hard, desired: Hard, k: string)
    requires k in desired
  {
    !(k in hard && hard[k].milli == desired[k].milli)
  }

  /** The overwrite loop over the desired limits, in any order; a write into a nil map is a crash. */
  method Overwrite(hard: Option<Hard>, desired: Hard) returns (crashed: bool, h: Hard, updated: bool)
    ensures crashed <==> hard.None? && desired != map[]
    ensures !crashed ==> h.Keys == Entries(hard).Keys + desired.Keys
    ensures !crashed ==> forall k | k in desired && Differs(Entries(hard), desired, k) :: h[k] == desired[k]
    ensures !crashed ==>
              forall k | k in Entries(hard) && !(k in desired && Differs(Entries(hard), desired, k)) ::
                h[k] == Entries(hard)[k]
    ensures !crashed ==> (updated <==> exists k | k in desired :: Differs(Entries(hard), desired, k))
  {
    var h0 := Entries(hard);
    h, updated := h0, false;
    var todo := desired.Keys;
    while todo != {}
      invariant todo <= desired.Keys && (hard.None? ==> todo == desired.Keys)
      invariant h.Keys == h0.Keys + (desired.Keys - todo)
      invariant forall k | k in desired && k !in todo && Differs(h0, desired, k) :: h[k] == desired[k]
      invariant forall k | k in h0 && !(k in desired && k !in todo && Differs(h0, desired, k)) :: h[k] == h0[k]
      invariant updated <==> exists k | k in desired && k !in todo :: Differs(h0, desired, k)
      decreases todo
    {
      var key :| key in todo;
      assert key in h <==> key in h0;
      if key !in h || Cmp(h[key], desired[key]) != 0 {
        if hard.None? {
          return true, h, updated;
        }
        assert Differs(h0, desired, key);
        h := h[key := desired[key]];
        updated := true;
      }
      todo := todo - {key};
    }
    crashed := false;
  }

  /** The delete-while-ranging loop, in any order. */
  method DropUndesired(hard: Hard, desired: Hard) returns (h: Hard, dropped: bool)
    ensures h.Keys == hard.Keys * desired.Keys && forall k | k in h :: h[k] == hard[k]
    ensures dropped <==> !(hard.Keys <= desired.Keys)
  {
    h, dropped := hard, false;
    var todo := hard.Keys;
    while todo != {}
      invariant todo <= h.Keys <= hard.Keys && forall k | k in h :: h[k] == hard[k]
      invariant forall k | k in hard :: k !in h <==> k !in todo && k !in desired
      invariant dropped <==> exists k :: k in hard && k !in todo && k !in desired
      decreases todo
    {
      var key :| key in todo;
      if key !in desired {
        h := h - {key};
        dropped := true;
      }
      todo := todo - {key};
    }
  }

  /** Both loops: what is stored has the desired limits with their values, an update is called for
      exactly when it did not before, and what was equal keeps the way it was written. */
  method SyncQuota(hard: Option<Hard>, desired: Hard) returns (crashed: bool, synced: Hard, updated: bool)
    ensures crashed <==> hard.None? && desired != map[]
    ensures !crashed ==> SameValues(synced, desired)
    ensures !crashed ==> (updated <==> !SameValues(Entries(hard), desired))
    ensures !crashed && !updated ==> synced == Entries(hard)
    ensures !crashed ==> forall k | k in desired && k in Entries(hard) && Entries(hard)[k].milli == desired[k].milli ::
              synced[k] == Entries(hard)[k]
  {
    var h, dropped;
    crashed, h, updated := Overwrite(hard, desired);
    if crashed {
      return true, map[], false;
    }
    synced, dropped := DropUndesired(h, desired);
    assert synced.Keys == desired.Keys;
    updated := updated || dropped;
    if !updated {
      assert synced.Keys == Entries(hard).Keys;
    }
  }

  /** An empty map is not written out, and reads back as nil. */
  function AsStored(hard: Hard): Option<Hard> {
    if hard == map[] then None else Some(hard)
  }

  predicate QuotaMatches(st: Store, uid: string, desired: Hard) {
    uid in st.quotas && if st.quotas[uid].None? then desired == map[] else SameValues(st.quotas[uid].value, desired)
  }

  /** Crashes exactly on a quota stored without limits for which limits are wanted now; otherwise
      it writes exactly when the stored limits differ from the desired ones. */
  method CreateResourceQuotaForTenant(api: Api, uid: string, desired: Hard) returns (ok: bool, crashed: bool)
    requires Calm(api.script)
    modifies api
    ensures Calm(api.script)
    ensures api.store == old(api.store).(rev := api.store.rev, quotas := api.store.quotas)
    ensures api.store == old(api.store) || (api.store.rev == old(api.store).rev + 1 && uid in api.store.quotas
              && api.store.quotas == old(api.store).quotas[uid := api.store.quotas[uid]])
    ensures ok ==> !crashed && QuotaMatches(api.store, uid, desired)
    ensures QuotaMatches(old(api.store), uid, desired) ==> api.store == old(api.store)
    ensures ok && api.store != old(api.store) ==> (api.store.quotas[uid].None? <==> desired == map[])
    ensures uid in api.store.quotas && uid !in old(api.store).quotas ==>
              uid in old(api.store).namespaces && old(api.store).namespaces[uid] == Active
    ensures crashed ==> api.store == old(api.store)
    ensures old(api.script) == [] ==>
              && api.script == []
              && (crashed <==> uid in old(api.store).quotas && old(api.store).quotas[uid].None? && desired != map[])
              && (!crashed && (uid in old(api.store).quotas || Living(old(api.store), uid)) ==> ok)
  {
    crashed := false;
    ok := api.Look();
    if !ok {
      return;
    }
    if uid !in api.store.quotas {
      if !Living(api.store, uid) {
        return false, false;
      }
      ok := api.Commit(api.store.(quotas := api.store.quotas[uid := AsStored(desired)]));
      return;
    }
    var synced, updated;
    crashed, synced, updated := SyncQuota(api.store.quotas[uid], desired);
    if crashed {
      return false, true;
    }
    if updated {
      ok := api.Commit(api.store.(quotas := api.store.quotas[uid := AsStored(synced)]));
    }
  }

  /** Run twice with nothing failing, the second call writes nothing. */
  method SyncTwice(api: Api, uid: string, desired: Hard)
    requires api.script == [] && Living(api.store, uid)
    requires uid in api.store.quotas ==> api.store.quotas[uid].Some? || desired == map[]
    modifies api
    ensures QuotaMatches(api.store, uid, desired)
    ensures api.store.rev == old(api.store).rev + if QuotaMatches(old(api.store), uid, desired) then 0 else 1
  {
    var ok, crashed := CreateResourceQuotaForTenant(api, uid, desired);
    ok, crashed := CreateResourceQuotaForTenant(api, uid, desired);
  }

  method DeleteResourceQuotaForTenant(api: Api, uid: string) returns (ok: bool)
    requires Calm(api.script)
    modifies api
    ensures Calm(api.script)
    ensures api.store == old(api.store) || (uid in old(api.store).quotas && api.store ==
              old(api.store).(rev := old(api.store).rev + 1, quotas := old(api.store).quotas - {uid}))
    ensures ok ==> uid !in api.store.quotas
    ensures old(api.script) == [] ==> ok && api.script == []
  {
    ok := api.Look();
    if ok && uid in api.store.quotas {
      ok := api.Commit(api.store.(quotas := api.store.quotas - {uid}));
    }
  }

  // ---- backend deployment ----

  predicate DeploymentMatches(st: Store, uid: string, spec: Spec) {
    && uid in st.deployments
    && st.deployments[uid].replicas == spec.replicas
    && st.deployments[uid].image == "tenant-service:" + spec.serviceVersion
  }

  /** A new deployment starts with the latest image and is corrected in the same call. Nothing is
      written when the deployment is as wanted, and without failures it is afterwards. */
  method CreateTenantServiceDeployment(api: Api, uid: string, spec: Spec) returns (ok: bool)
    requires Calm(api.script)
    modifies api
    ensures Calm(api.script) && old(api.store).rev <= api.store.rev <= old(api.store).rev + 2
    ensures api.store == old(api.store).(rev := api.store.rev, deployments := api.store.deployments)
    ensures api.store == old(api.store) || (uid in api.store.deployments
              && api.store.deployments == old(api.store).deployments[uid := api.store.deployments[uid]])
    ensures ok ==> DeploymentMatches(api.store, uid, spec)
    ensures DeploymentMatches(old(api.store), uid, spec) ==> api.store == old(api.store)
    ensures uid in api.store.deployments && uid !in old(api.store).deployments ==>
              uid in old(api.store).namespaces && old(api.store).namespaces[uid] == Active
    ensures old(api.script) == [] ==> api.script == []
    ensures old(api.script) == [] && (uid in old(api.store).deployments || Living(old(api.store), uid)) ==> ok
  {
    ok := api.Look();
    if !ok {
      return;
    }
    if uid !in api.store.deployments {
      if !Living(api.store, uid) {
        return false;
      }
      var made := Deployment(spec.replicas, "tenant-service:latest");
      ok := api.Commit(api.store.(deployments := api.store.deployments[uid := made]));
      if !ok {
        return;
      }
    }
    var deployment := api.store.deployments[uid];
    var updated := false;
    if deployment.replicas != spec.replicas {
      deployment := deployment.(replicas := spec.replicas);
      updated := true;
    }
    var expectedImage := "tenant-service:" + spec.serviceVersion;
    if deployment.image != expectedImage {
      deployment := deployment.(image := expectedImage);
      updated := true;
    }
    if updated {
      ok := api.Commit(api.store.(deployments := api.store.deployments[uid := deployment]));
    }
  }
}
