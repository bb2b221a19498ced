/** Pod events: how a pod becomes a request, how the request is told from a tenant's own and
    decoded, and what handling it does. */
module PodEvents {
  import opened GoStrings
  import opened Objects
  import opened Registry
  import opened Naming
  import opened ApiServer
  import opened SharedInstances
  import opened Provisioning
  import opened Reconciler

  datatype Request = Request(name: string, ns: string)

  /** A condition is a type with a status, such as ("Ready", "True"). */
  datatype Pod = Pod(name: string, component: Option<string>, tenantUid: Option<string>, conditions: seq<(string, string)>)

  function EncodePodEvent(pod: string, tenant: string): (name: string) {
    "pod-event:" + pod + ":" + tenant
  }

  predicate IsPodEvent(name: string) {
    |name| >= 10 && name[..10] == "pod-event:"
  }

  /** The pod and tenant names of a request; any other number of parts is malformed. */
  function DecodePodEvent(name: string): (r: Option<(string, string)>) {
    var parts := Split(name, ':');
    if |parts| != 3 then None else Some((parts[1], parts[2]))
  }

  /** Names under section 2.1 of RFC 1123: letters and digits, hyphens and dots inside. */
  predicate IsAlnum(ch: char) {
    'a' <= ch <= 'z' || '0' <= ch <= '9'
  }

  predicate LegalName(s: string) {
    && 1 <= |s| <= 253
    && IsAlnum(s[0]) && IsAlnum(s[|s| - 1])
    && forall i :: 0 <= i < |s| ==> IsAlnum(s[i]) || s[i] == '-' || s[i] == '.'
  }

  /** Decoding undoes encoding exactly when neither name has a colon. */
  lemma PodEventRoundTrip(pod: string, tenant: string)
    ensures DecodePodEvent(EncodePodEvent(pod, tenant)) == Some((pod, tenant)) <==> Free(pod, ':') && Free(tenant, ':')
  {
    var name := EncodePodEvent(pod, tenant);
    if Free(pod, ':') && Free(tenant, ':') {
      assert name == "pod-event" + [':'] + (pod + [':'] + tenant);
      SplitHead("pod-event", pod + [':'] + tenant, ':');
      SplitHead(pod, tenant, ':');
      SplitFree(tenant, ':');
    }
    JoinSplit(name, ':');
    var parts := Split(name, ':');
    assert AllFree(parts, ':');
    assert |parts| == 3 ==> Free(parts[1], ':') && Free(parts[2], ':');
  }

  lemma PodEventHasColon(name: string)
    ensures IsPodEvent(name) ==> !Free(name, ':')
  {
    if IsPodEvent(name) {
      assert name[9] == name[..10][9] == "pod-event:"[9] == ':';
    }
  }

  /** Legal names are free of colons; so a tenant's own request is never taken for a pod event, and
      the request of a pod is decoded to that pod and that tenant and nothing else. */
  lemma RequestsTold(pod: string, tenant: string)
    requires LegalName(pod) && LegalName(tenant)
    ensures !IsPodEvent(tenant) && IsPodEvent(EncodePodEvent(pod, tenant))
    ensures DecodePodEvent(EncodePodEvent(pod, tenant)) == Some((pod, tenant))
    ensures forall p, t | LegalName(p) && LegalName(t) && EncodePodEvent(p, t) == EncodePodEvent(pod, tenant) ::
              p == pod && t == tenant
  {
    LegalIsFree(pod);
    LegalIsFree(tenant);
    PodEventHasColon(tenant);
    var name := EncodePodEvent(pod, tenant);
    assert name[..10] == "pod-event:";
    PodEventRoundTrip(pod, tenant);
    hide DecodePodEvent;
    forall p, t | LegalName(p) && LegalName(t) && EncodePodEvent(p, t) == name ensures p == pod && t == tenant {
      LegalIsFree(p);
      LegalIsFree(t);
      PodEventRoundTrip(p, t);
    }
  }

  lemma LegalIsFree(s: string)
    requires LegalName(s)
    ensures Free(s, ':')
  {
  }

  /** podToTenantEnvironment, over the listed TenantEnvironments of the default namespace. */
  method PodToTenantEnvironment(pod: Pod, listed: Option<seq<TenantEnv>>) returns (r: Option<Request>)
    ensures r.Some? ==>
              && pod.component == Some("backend-service") && listed.Some?
              && exists e :: e in listed.value && pod.tenantUid == Some(e.uid)
                          && r.value == Request(EncodePodEvent(pod.name, e.name), "default")
    ensures r.None? ==>
              pod.component != Some("backend-service") || listed.None?
              || forall e :: e in listed.value ==> pod.tenantUid != Some(e.uid)
  {
    if pod.component.None? || pod.component.value != "backend-service" {
      return None;
    }
    if pod.tenantUid.None? {
      return None;
    }
    if listed.None? {
      return None;
    }
    for i := 0 to |listed.value|
      invariant forall k :: 0 <= k < i ==> listed.value[k].uid != pod.tenantUid.value
    {
      if listed.value[i].uid == pod.tenantUid.value {
        return Some(Request("pod-event:" + pod.name + ":" + listed.value[i].name, "default"));
      }
    }
    return None;
  }

  method PodReady(pod: Pod) returns (ready: bool)
    ensures ready <==> ("Ready", "True") in pod.conditions
  {
    for i := 0 to |pod.conditions|
      invariant ("Ready", "True") !in pod.conditions[..i]
    {
      if pod.conditions[i] == ("Ready", "True") {
        return true;
      }
    }
    assert pod.conditions[..|pod.conditions|] == pod.conditions;
    return false;
  }

  /** The tenant a well-formed request is about, when its pod is there, labelled and ready and the
      tenant was not ready before. */
  predicate Marks(st: Store, pods: map<(string, string), Pod>, req: string) {
    && var names := DecodePodEvent(req);
       && names.Some? && names.value.1 in st.envs
       && var e := st.envs[names.value.1];
          && e.readyAt.None? && (e.uid, names.value.0) in pods
          && pods[(e.uid, names.value.0)].tenantUid.Some? && ("Ready", "True") in pods[(e.uid, names.value.0)].conditions
  }

  /** handlePodEventFromMapping; `pods` are keyed by tenant UID (their namespace) and name. It writes
      at most once, and only a first readyAt together with the phase Ready. */
  method HandlePodEvent(api: Api, req: string, pods: map<(string, string), Pod>) returns (ok: bool)
    requires Calm(api.script) && Valid(api.store)
    modifies api
    ensures Calm(api.script) && Valid(api.store)
    ensures api.store == old(api.store) || (
              && Marks(old(api.store), pods, req)
              && var e := old(api.store).envs[DecodePodEvent(req).value.1];
                 exists now :: api.store == StoredEnv(old(api.store), e.(readyAt := Some(now), phase := Ready)))
    ensures ok ==> !Marks(api.store, pods, req)
    ensures old(api.script) == [] ==> ok && api.script == []
  {
    hide Split;
    var parts := Split(req, ':');
    if |parts| != 3 {
      return true;
    }
    var podName, tenantName := parts[1], parts[2];
    ok := api.Look();
    if !ok || tenantName !in api.store.envs {
      return;
    }
    var mem := api.store.envs[tenantName];
    ok := api.Look();
    if !ok || (mem.uid, podName) !in pods {
      return;
    }
    var pod := pods[(mem.uid, podName)];
    if pod.tenantUid.None? {
      return true;
    }
    var podReady := PodReady(pod);
    if podReady && mem.readyAt.None? {
      var now: int := *;
      var next := mem.(readyAt := Some(now), phase := Ready);
      ok := api.PutEnv(mem, WithStatus(api.store.envs[tenantName], next));
    }
  }

  /** Reconcile as the work queue calls it: pod events by their prefix, other requests only in the
      default namespace. */
  method ReconcileRequest(api: Api, req: Request, pods: map<(string, string), Pod>, id: string)
    returns (ok: bool, crashed: bool)
    requires Calm(api.script) && Valid(api.store) && OperatorNames(api.store)
    requires req.name in api.store.envs ==> ValidUid(api.store.envs[req.name].uid)
    requires ValidId(id)
    requires req.name in api.store.envs && NotStarted(api.store.envs[req.name]) ==> SS_PREFIX + id !in api.store.sets
    modifies api
    ensures IsPodEvent(req.name) && api.store != old(api.store) ==> Marks(old(api.store), pods, req.name) && !crashed
    ensures IsPodEvent(req.name) && ok ==> !Marks(api.store, pods, req.name)
    ensures !IsPodEvent(req.name) && req.ns != "default" ==> ok && api.store == old(api.store)
    ensures !IsPodEvent(req.name) && req.name in old(api.store).envs && req.name in api.store.envs ==>
              Advances(old(api.store).envs[req.name], api.store.envs[req.name])
    ensures !IsPodEvent(req.name) ==> Parted(old(api.store), api.store, req.name, old(api.script) == [])
    ensures !IsPodEvent(req.name) && req.ns == "default" && ok && Dismissed(old(api.store), req.name) ==>
              req.name !in api.store.envs
    ensures !IsPodEvent(req.name) && req.ns == "default" && ok && Wanted(old(api.store), req.name) ==>
              req.name in api.store.envs && Converged(api.store, api.store.envs[req.name])
    ensures !IsPodEvent(req.name) && req.ns == "default" && ok && Wanted(old(api.store), req.name) ==>
              NotStarted(old(api.store).envs[req.name]) ==> api.store.envs[req.name].db == Assigned
    ensures !IsPodEvent(req.name) ==> AssignedHasDatabase(old(api.store), api.store, req.name)
    ensures !IsPodEvent(req.name) && Wanted(old(api.store), req.name) && !NotStarted(old(api.store).envs[req.name]) ==>
              SameDatabases(old(api.store), api.store) && api.store.envs == old(api.store).envs
    ensures !IsPodEvent(req.name) && Fresh(old(api.store), req.name) ==> Moved(old(api.store), api.store, req.name)
    ensures !IsPodEvent(req.name) && req.ns == "default" && ok && Fresh(old(api.store), req.name) ==>
              req.name in api.store.envs && api.store.envs[req.name].createdAt.Some?
    ensures !IsPodEvent(req.name) && req.name in old(api.store).envs ==>
              var uid := old(api.store).envs[req.name].uid;
              if Dismissed(old(api.store), req.name) then NothingElse(old(api.store), api.store, req.name, uid)
              else OnlyServes(old(api.store), api.store, req.name, old(api.store).envs[req.name], id)
    ensures !IsPodEvent(req.name) && req.ns == "default" && old(api.script) == [] ==>
              Served(old(api.store), api.store, req.name)
    ensures old(api.script) == [] && (IsPodEvent(req.name) || Dismissed(old(api.store), req.name)) ==> ok
  {
    hide Advances, Valid, Calm, DecodePodEvent, Marks, Served, Dismissed, Converged, NothingElse, OnlyServes, HasDatabase;
    ok, crashed := true, false;
    if HasPrefix(req.name, "pod-event:") {
      ok := HandlePodEvent(api, req.name, pods);
      return;
    }
    if req.ns != "default" {
      if req.name in api.store.envs { NothingDone(api.store, req.name, id); }
      return;
    }
    ok, crashed := Reconcile(api, req.name, id);
  }
}
