/** How one generated id names the StatefulSet, service, master secret, PVCs and jobs of an
    instance, and how the code recovers one name from another. */
module Naming {
  import opened GoStrings

  const SS_PREFIX := "postgresql-"
  const MASTER_PREFIX := "postgresql-master-secret-"
  const SHARED_NS := "shared-services"
  const ID_LENGTH := 6

  predicate IsLower(ch: char) {
    'a' <= ch <= 'z'
  }

  predicate ValidId(id: string) {
    |id| == ID_LENGTH && forall i :: 0 <= i < |id| ==> IsLower(id[i])
  }

  /** generateId: random bytes are mapped in place into the lower-case alphabet. */
  method GenerateId(random: seq<int>) returns (id: string)
    requires forall i :: 0 <= i < |random| ==> 0 <= random[i] < 256
    ensures |id| == |random|
    ensures forall i :: 0 <= i < |id| ==> IsLower(id[i]) && id[i] as int - 'a' as int == random[i] % 26
  {
    var charset := "abcdefghijklmnopqrstuvwxyz";
    assert forall k :: 0 <= k < 26 ==> charset[k] as int == 'a' as int + k;
    var bytes := new int[|random|](i requires 0 <= i < |random| => random[i]);
    for i := 0 to bytes.Length
      invariant forall k :: i <= k < bytes.Length ==> bytes[k] == random[k]
      invariant forall k :: 0 <= k < i ==> bytes[k] == 'a' as int + random[k] % 26
    {
      bytes[i] := charset[bytes[i] % |charset|] as int;
    }
    id := seq(bytes.Length, i requires 0 <= i < bytes.Length && 'a' as int <= bytes[i] <= 'z' as int
                              reads bytes => bytes[i] as char);
  }

  // ---- derivations, each as the code writes it ----

  /** The master secret of a newly generated id. */
  function MasterSecret(id: string): (name: string) {
    MASTER_PREFIX + id
  }

  /** The last six characters of a name. */
  function LastSix(name: string): (id: string)
    requires |name| >= ID_LENGTH
  {
    name[|name| - ID_LENGTH..]
  }

  function SsFromSecret(secret: string): (name: string)
    requires |secret| >= ID_LENGTH
  {
    SS_PREFIX + LastSix(secret)
  }

  function ServiceFromSs(ss: string): (name: string)
    requires |ss| >= ID_LENGTH
  {
    SS_PREFIX + LastSix(ss)
  }

  function MasterFromSs(ss: string): (name: string)
    requires |ss| >= ID_LENGTH
  {
    MASTER_PREFIX + LastSix(ss)
  }

  /** The id as cleanup extracts it; a malformed name is an error. */
  function CleanupId(ss: string): (id: Option<string>) {
    if |ss| > |SS_PREFIX| && HasPrefix(ss, SS_PREFIX) then Some(ss[|SS_PREFIX|..]) else None
  }

  function Host(service: string, ns: string): (host: string) {
    service + "." + ns + ".svc.cluster.local"
  }

  /** The ss-name label of an init job: the first dot component of the host. */
  function SsFromHost(host: string): (name: string) {
    Split(host, '.')[0]
  }

  /** A name that creation can give a shared StatefulSet. */
  predicate IsSsName(name: string) {
    |name| == |SS_PREFIX| + ID_LENGTH && HasPrefix(name, SS_PREFIX) && ValidId(name[|SS_PREFIX|..])
  }

  /** Every derivation from one id meets at the same StatefulSet name, so that creation, init,
      removal and cleanup address the same objects; and the id is recovered from the name. */
  lemma NamesCohere(id: string)
    requires ValidId(id)
    ensures var ss := SsFromSecret(MasterSecret(id));
            && IsSsName(ss) && ss == SS_PREFIX + id
            && ServiceFromSs(ss) == ss
            && MasterFromSs(ss) == MasterSecret(id)
            && CleanupId(ss) == Some(id)
            && SsFromHost(Host(ServiceFromSs(ss), SHARED_NS)) == ss
  {
    var secret := MasterSecret(id);
    assert LastSix(secret) == id;
    var ss := SsFromSecret(secret);
    assert ss == SS_PREFIX + id;
    assert LastSix(ss) == id;
    assert ss[|SS_PREFIX|..] == id;
    SsNameHost(ss);
  }

  /** The same, read from an existing name: what the reuse path derives is what creation used. */
  lemma SsNameCoheres(ss: string)
    requires IsSsName(ss)
    ensures ValidId(LastSix(ss)) && ss == SsFromSecret(MasterSecret(LastSix(ss)))
    ensures ServiceFromSs(ss) == ss && CleanupId(ss) == Some(LastSix(ss))
    ensures SsFromHost(Host(ss, SHARED_NS)) == ss
  {
    assert ss[|SS_PREFIX|..] == LastSix(ss);
    assert ss == ss[..|SS_PREFIX|] + ss[|SS_PREFIX|..];
    NamesCohere(LastSix(ss));
    SsNameHost(ss);
  }

  lemma FreeOfDots(ss: string)
    requires IsSsName(ss)
    ensures Free(ss, '.')
  {
    forall i | 0 <= i < |ss| ensures ss[i] != '.' {
      if i < |SS_PREFIX| {
        assert ss[i] == SS_PREFIX[i];
      } else {
        assert IsLower(ss[|SS_PREFIX|..][i - |SS_PREFIX|]);
      }
    }
  }

  lemma SsNameHost(ss: string)
    requires IsSsName(ss)
    ensures SsFromHost(Host(ss, SHARED_NS)) == ss
  {
    HostParts(ss);
  }

  lemma SplitThree(a: string, b: string, c: string)
    requires Free(a, '.') && Free(b, '.') && Free(c, '.')
    ensures Split(a + "." + b + "." + c, '.') == [a, b, c]
  {
    hide Split, Free;
    assert a + "." + b + "." + c == a + ['.'] + (b + ['.'] + c);
    SplitHead(a, b + ['.'] + c, '.');
    SplitHead(b, c, '.');
    SplitFree(c, '.');
  }

  lemma DomainParts()
    ensures Split("svc.cluster.local", '.') == ["svc", "cluster", "local"]
  {
    SplitThree("svc", "cluster", "local");
    hide Split;
    assert "svc.cluster.local" == "svc" + "." + "cluster" + "." + "local";
  }

  /** The host of an instance, part by part. */
  lemma HostParts(ss: string)
    requires IsSsName(ss)
    ensures Split(Host(ss, SHARED_NS), '.') == [ss, "shared-services", "svc", "cluster", "local"]
  {
    hide Split, IsSsName, Free;
    FreeOfDots(ss);
    var domain := "svc.cluster.local";
    assert Host(ss, SHARED_NS) == ss + ['.'] + ("shared-services" + ['.'] + domain);
    SplitHead(ss, "shared-services" + ['.'] + domain, '.');
    assert Free("shared-services", '.') by { NamespaceFree(); }
    SplitHead("shared-services", domain, '.');
    DomainParts();
  }

  lemma NamespaceFree()
    ensures Free("shared-services", '.')
  {
  }

  /** Two ids never share a StatefulSet, service or master secret name. */
  lemma NamesInjective(a: string, b: string)
    requires ValidId(a) && ValidId(b)
    requires SsFromSecret(MasterSecret(a)) == SsFromSecret(MasterSecret(b)) || MasterSecret(a) == MasterSecret(b)
    ensures a == b
  {
    assert LastSix(MasterSecret(a)) == a && LastSix(MasterSecret(b)) == b;
    NamesCohere(a);
    NamesCohere(b);
  }

  // ---- persistent volume claims ----

  /** A claim of the set: the template and the name of the set, then an integer. */
  ghost predicate ClaimOf(pvc: string, template: string, ss: string) {
    exists number :: pvc == template + "-" + ss + "-" + number && IsIntegerText(number)
  }

  ghost predicate Belongs(pvc: string, templates: seq<string>, ss: string) {
    exists t :: t in templates && ClaimOf(pvc, t, ss)
  }

  /** The test of the code, a prefix and an integer after it, is whether the claim is the set's. */
  lemma ClaimTest(pvc: string, template: string, ss: string)
    ensures ClaimOf(pvc, template, ss) <==>
              var prefix := template + "-" + ss + "-";
              HasPrefix(pvc, prefix) && Atoi(pvc[|prefix|..]).Some?
  {
    hide Atoi, IsIntegerText;
    var prefix := template + "-" + ss + "-";
    if HasPrefix(pvc, prefix) {
      assert pvc == prefix + pvc[|prefix|..];
      AtoiAccepts(pvc[|prefix|..]);
    }
    forall number | pvc == template + "-" + ss + "-" + number && IsIntegerText(number)
      ensures HasPrefix(pvc, prefix) && number == pvc[|prefix|..]
    {
    }
  }

  /** The claims of a listing that belong to the set, in listing order. */
  ghost function OwnClaims(pvcs: seq<string>, templates: seq<string>, ss: string): (own: seq<string>) {
    if pvcs == [] then []
    else
      var init := OwnClaims(pvcs[..|pvcs| - 1], templates, ss);
      if Belongs(pvcs[|pvcs| - 1], templates, ss) then init + [pvcs[|pvcs| - 1]] else init
  }

  lemma {:induction false} OwnClaimsExact(pvcs: seq<string>, templates: seq<string>, ss: string)
    ensures forall p :: p in OwnClaims(pvcs, templates, ss) <==> p in pvcs && Belongs(p, templates, ss)
    ensures multiset(OwnClaims(pvcs, templates, ss)) <= multiset(pvcs)
  {
    if pvcs != [] {
      OwnClaimsExact(pvcs[..|pvcs| - 1], templates, ss);
      assert pvcs == pvcs[..|pvcs| - 1] + [pvcs[|pvcs| - 1]];
    }
  }

  lemma OwnClaimsStep(pvcs: seq<string>, templates: seq<string>, ss: string, i: nat)
    requires i <= |pvcs|
    ensures OwnClaims(pvcs[..i], templates, ss) ==
      if i == 0 then []
      else OwnClaims(pvcs[..i - 1], templates, ss) + if Belongs(pvcs[i - 1], templates, ss) then [pvcs[i - 1]] else []
  {
    if i > 0 {
      assert pvcs[..i][..i - 1] == pvcs[..i - 1];
    }
  }

  /** getPostgreSQLPVCsByLabels: the inner loop stops at the first matching template, so a claim
      is returned at most once per listing. */
  method ClaimsByName(pvcs: seq<string>, templates: seq<string>, ss: string) returns (matching: seq<string>)
    ensures matching == OwnClaims(pvcs, templates, ss)
    ensures forall p :: p in matching <==> p in pvcs && Belongs(p, templates, ss)
    ensures multiset(matching) <= multiset(pvcs)
  {
    hide Atoi, OwnClaims, ClaimOf;
    matching := [];
    OwnClaimsStep(pvcs, templates, ss, 0);
    for i := 0 to |pvcs|
      invariant matching == OwnClaims(pvcs[..i], templates, ss)
    {
      var pvc := pvcs[i];
      OwnClaimsStep(pvcs, templates, ss, i + 1);
      var j := 0;
      while j < |templates|
        invariant 0 <= j <= |templates|
        invariant forall k :: 0 <= k < j ==> !ClaimOf(pvc, templates[k], ss)
        invariant matching == OwnClaims(pvcs[..i], templates, ss)
      {
        var expectedPrefix := templates[j] + "-" + ss + "-";
        ClaimTest(pvc, templates[j], ss);
        if HasPrefix(pvc, expectedPrefix) {
          var suffix := pvc[|expectedPrefix|..];
          if Atoi(suffix).Some? {
            assert ClaimOf(pvc, templates[j], ss);
            assert Belongs(pvc, templates, ss);
            matching := matching + [pvc];
            break;
          }
        }
        j := j + 1;
      }
      assert j == |templates| ==> !Belongs(pvc, templates, ss);
    }
    assert pvcs[..|pvcs|] == pvcs;
    OwnClaimsExact(pvcs, templates, ss);
  }

  /** Instances made by the operator use one claim template, so no claim belongs to two of them. */
  lemma ClaimsDisjoint(pvc: string, template: string, a: string, b: string)
    requires IsSsName(a) && IsSsName(b)
    requires Belongs(pvc, [template], a) && Belongs(pvc, [template], b)
    ensures a == b
  {
    hide IsIntegerText;
    assert ClaimOf(pvc, template, a) && ClaimOf(pvc, template, b) && |a| == |b|;
    hide IsSsName;
    var m :| pvc == template + "-" + a + "-" + m && IsIntegerText(m);
    var n :| pvc == template + "-" + b + "-" + n && IsIntegerText(n);
    Middle(template + "-", a, "-" + m);
    Middle(template + "-", b, "-" + n);
    assert template + "-" + a + ("-" + m) == pvc;
    assert template + "-" + b + ("-" + n) == pvc;
  }

  lemma Middle(before: string, mid: string, after: string)
    ensures (before + mid + after)[|before|..|before| + |mid|] == mid
  {
  }
}
