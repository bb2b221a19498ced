/** The tenant list of a shared PostgreSQL StatefulSet: a comma-joined annotation with
    its length cached in a label, and the loops that search, extend and filter it. */
module Registry {
  import opened GoStrings

  /** Maximum number of tenants per shared instance. */
  const MAX_TENANTS := 10

  /** How often a registration is tried, under retry.DefaultBackoff. */
  const ADD_ATTEMPTS := 4

  /** A stored StatefulSet of the shared-services namespace that carries the shared-instance
      label; `tenantList` is the annotation and `tenantCount` the label, when present. */
  datatype StatefulSet = StatefulSet(
    name: string, rv: nat, tenantList: Option<string>, tenantCount: Option<string>)

  /** What the code demands of a tenant UID: no comma, and eight characters to slice. */
  predicate ValidUid(uid: string) {
    |uid| >= 8 && Free(uid, ',')
  }

  predicate NoDuplicates(s: seq<string>) {
    forall i, j :: 0 <= i < j < |s| ==> s[i] != s[j]
  }

  /** The list as the code parses it: an absent or empty annotation is the empty list. */
  function ParseList(annotation: Option<string>): (tenants: seq<string>) {
    if annotation.None? || annotation.value == "" then [] else Split(annotation.value, ',')
  }

  function Tenants(ss: StatefulSet): (tenants: seq<string>) {
    ParseList(ss.tenantList)
  }

  /** The count as the search reads it: an absent label is "0", a malformed one is skipped. */
  function LabelCount(ss: StatefulSet): (n: Option<int>) {
    Atoi(if ss.tenantCount.None? then "0" else ss.tenantCount.value)
  }

  /** The stored form is an exact cache: distinct valid UIDs, and the label is their number. */
  predicate Exact(ss: StatefulSet) {
    && (forall i :: 0 <= i < |Tenants(ss)| ==> ValidUid(Tenants(ss)[i]))
    && NoDuplicates(Tenants(ss))
    && LabelCount(ss) == Some(|Tenants(ss)|)
  }

  function WithTenants(ss: StatefulSet, tenants: seq<string>): (r: StatefulSet) {
    ss.(tenantList := Some(Join(tenants, ',')), tenantCount := Some(Itoa(|tenants|)))
  }

  /** Rewriting annotation and label together stores exactly the given list. */
  lemma WithTenantsStores(ss: StatefulSet, tenants: seq<string>)
    requires forall i :: 0 <= i < |tenants| ==> ValidUid(tenants[i])
    ensures Tenants(WithTenants(ss, tenants)) == tenants
    ensures |tenants| <= MAX_INT ==> LabelCount(WithTenants(ss, tenants)) == Some(|tenants|)
  {
    if |tenants| > 0 {
      SplitJoin(tenants, ',');
      JoinNonEmpty(tenants);
    }
    if |tenants| <= MAX_INT {
      AtoiItoa(|tenants|);
    }
  }

  lemma JoinNonEmpty(tenants: seq<string>)
    requires |tenants| > 0 && tenants[0] != ""
    ensures Join(tenants, ',') != ""
  {
  }

  /** The list with every occurrence of `uid` left out, order kept. */
  function Without(tenants: seq<string>, uid: string): (rest: seq<string>)
    ensures uid !in rest
    ensures |rest| <= |tenants|
    ensures uid !in tenants ==> rest == tenants
    ensures uid in tenants ==> |rest| < |tenants|
    ensures forall u :: u in rest <==> u in tenants && u != uid
  {
    if tenants == [] then []
    else
      var last := tenants[|tenants| - 1];
      var init := Without(tenants[..|tenants| - 1], uid);
      assert tenants == tenants[..|tenants| - 1] + [last];
      if last == uid then init else init + [last]
  }

  lemma WithoutStep(tenants: seq<string>, uid: string, i: nat)
    requires i <= |tenants|
    ensures Without(tenants[..i], uid) ==
      if i == 0 then []
      else Without(tenants[..i - 1], uid) + if tenants[i - 1] == uid then [] else [tenants[i - 1]]
  {
    if i > 0 {
      assert tenants[..i][..i - 1] == tenants[..i - 1];
    }
  }

  lemma {:induction false} WithoutKeepsDistinct(tenants: seq<string>, uid: string)
    requires NoDuplicates(tenants)
    ensures NoDuplicates(Without(tenants, uid))
    ensures uid in tenants ==> |Without(tenants, uid)| == |tenants| - 1
  {
    if tenants != [] {
      var init := tenants[..|tenants| - 1];
      WithoutKeepsDistinct(init, uid);
      assert tenants == init + [tenants[|tenants| - 1]];
      assert tenants[|tenants| - 1] !in init;
    }
  }

  /** Of any two that `some` has, the first in it is the first in `all`. */
  predicate InOrder(some: seq<string>, all: seq<string>) {
    forall i, j, p, q | 0 <= i < j < |some| && 0 <= p < |all| && 0 <= q < |all| && some[i] == all[p] && some[j] == all[q] ::
      p < q
  }

  lemma {:induction false} WithoutInOrder(tenants: seq<string>, uid: string)
    requires NoDuplicates(tenants)
    ensures InOrder(Without(tenants, uid), tenants)
  {
    if tenants != [] {
      var init, last := tenants[..|tenants| - 1], tenants[|tenants| - 1];
      WithoutInOrder(init, uid);
      assert tenants == init + [last];
      InOrderGrows(Without(init, uid), init, last);
    }
  }

  lemma InOrderGrows(some: seq<string>, all: seq<string>, last: string)
    requires InOrder(some, all) && last !in all && forall u | u in some :: u in all
    ensures InOrder(some, all + [last]) && InOrder(some + [last], all + [last])
  {
    assert forall i | 0 <= i < |some| :: some[i] in all;
  }

  /** Registering: an already listed tenant leaves the object alone. */
  function AddTenant(ss: StatefulSet, uid: string): (r: StatefulSet)
    ensures r.name == ss.name && r.rv == ss.rv
    ensures Exact(ss) && ValidUid(uid) && |Tenants(ss)| < MAX_INT ==>
      Exact(r) && Tenants(r) == if uid in Tenants(ss) then Tenants(ss) else Tenants(ss) + [uid]
  {
    if uid in Tenants(ss) then ss
    else
      var tenants := Tenants(ss) + [uid];
      assert Exact(ss) && ValidUid(uid) && |tenants| <= MAX_INT ==>
        Tenants(WithTenants(ss, tenants)) == tenants
        && LabelCount(WithTenants(ss, tenants)) == Some(|tenants|) by {
        if Exact(ss) && ValidUid(uid) { WithTenantsStores(ss, tenants); }
      }
      WithTenants(ss, tenants)
  }

  lemma CountLabel(n: nat)
    requires n <= MAX_INT
    ensures IsNumeral(Itoa(n), n) && AllDigits(Itoa(n)) && (|Itoa(n)| > 1 ==> Itoa(n)[0] != '0')
  {
    AtoiItoa(n);
    AtoiExact(Itoa(n), n);
    ItoaCanonical(n);
  }

  lemma AppendedList(ss: StatefulSet, uid: string)
    ensures Join(Tenants(ss) + [uid], ',') ==
              if ss.tenantList.None? || ss.tenantList.value == "" then uid else ss.tenantList.value + "," + uid
  {
    if ss.tenantList.Some? && ss.tenantList.value != "" {
      JoinSplit(ss.tenantList.value, ',');
      JoinAppend(Tenants(ss), uid, ',');
    }
  }

  /** Whatever the annotation was, the tenant is listed after it was added, and nobody else moved. The
      annotation gets a comma and the UID appended, the label becomes the number of tenants. */
  lemma AddTenantLists(ss: StatefulSet, uid: string)
    requires ValidUid(uid)
    ensures Tenants(AddTenant(ss, uid)) == if uid in Tenants(ss) then Tenants(ss) else Tenants(ss) + [uid]
    ensures uid !in Tenants(ss) ==>
              AddTenant(ss, uid).tenantList ==
                Some(if ss.tenantList.None? || ss.tenantList.value == "" then uid else ss.tenantList.value + "," + uid)
    ensures uid !in Tenants(ss) && |Tenants(ss)| < MAX_INT ==>
              var text := AddTenant(ss, uid).tenantCount;
              && text.Some? && IsNumeral(text.value, |Tenants(ss)| + 1) && AllDigits(text.value)
              && (|text.value| > 1 ==> text.value[0] != '0')
  {
    AppendedList(ss, uid);
    if |Tenants(ss)| < MAX_INT { CountLabel(|Tenants(ss)| + 1); }
    hide IsNumeral, Itoa, AllDigits;
    if ss.tenantList.Some? {
      JoinSplit(ss.tenantList.value, ',');
    }
    var tenants := Tenants(ss) + [uid];
    SplitJoin(tenants, ',');
    assert |tenants| > 1 ==> Join(tenants, ',') == tenants[0] + [','] + Join(tenants[1..], ',');
  }

  /** Deregistering keeps the order of the remaining tenants. */
  function RemoveTenant(ss: StatefulSet, uid: string): (r: StatefulSet)
    ensures r.name == ss.name && r.rv == ss.rv
    ensures Exact(ss) ==> Exact(r) && Tenants(r) == Without(Tenants(ss), uid)
  {
    if uid !in Tenants(ss) then ss
    else
      var rest := Without(Tenants(ss), uid);
      assert Exact(ss) ==>
        Tenants(WithTenants(ss, rest)) == rest && NoDuplicates(rest)
        && LabelCount(WithTenants(ss, rest)) == Some(|rest|)
        && forall i :: 0 <= i < |rest| ==> ValidUid(rest[i]) by {
        if Exact(ss) {
          assert forall i :: 0 <= i < |rest| ==> rest[i] in rest;
          WithTenantsStores(ss, rest);
          WithoutKeepsDistinct(Tenants(ss), uid);
        }
      }
      WithTenants(ss, rest)
  }

  /** An instance without annotation and label is an exact cache of the empty list. */
  lemma EmptyExact(ss: StatefulSet)
    requires ss.tenantList == None && ss.tenantCount == None
    ensures Exact(ss) && Tenants(ss) == []
  {
    assert "0" == Itoa(0);
    AtoiItoa(0);
  }

  /** Adding an absent tenant and removing it again restores the list and the count, and the
      stored annotation itself when it was present before; adding twice is adding once. */
  lemma {:induction false} AddRemoveRoundTrip(ss: StatefulSet, uid: string)
    requires Exact(ss) && ValidUid(uid) && uid !in Tenants(ss) && |Tenants(ss)| < MAX_INT
    ensures Tenants(RemoveTenant(AddTenant(ss, uid), uid)) == Tenants(ss)
    ensures LabelCount(RemoveTenant(AddTenant(ss, uid), uid)) == LabelCount(ss)
    ensures ss.tenantList.Some? ==> RemoveTenant(AddTenant(ss, uid), uid).tenantList == ss.tenantList
    ensures AddTenant(AddTenant(ss, uid), uid) == AddTenant(ss, uid)
  {
    var added := AddTenant(ss, uid);
    var back := RemoveTenant(added, uid);
    assert Tenants(added)[..|Tenants(added)| - 1] == Tenants(ss);
    assert Tenants(added)[|Tenants(ss)|] == uid;
    if ss.tenantList.Some? {
      assert back.tenantList == Some(Join(Tenants(ss), ','));
      if ss.tenantList.value != "" {
        JoinSplit(ss.tenantList.value, ',');
      }
    }
  }

  // ---- first-fit search ----

  /** An instance the search may return: its true list is shorter than the maximum. */
  predicate HasRoom(ss: StatefulSet) {
    |Tenants(ss)| < 10
  }

  predicate IsFirstFit(items: seq<StatefulSet>, found: Option<string>) {
    match found
    case Some(name) => exists i :: 0 <= i < |items| && items[i].name == name && HasRoom(items[i])
                                   && forall j :: 0 <= j < i ==> !HasRoom(items[j])
    case None => forall i :: 0 <= i < |items| ==> !HasRoom(items[i])
  }

  /** The search as the code runs it, over labels; the specification side of the loop below. */
  function FirstFit(items: seq<StatefulSet>): (found: Option<string>) {
    if items == [] then None
    else if LabelCount(items[0]).Some? && LabelCount(items[0]).value < MAX_TENANTS then Some(items[0].name)
    else FirstFit(items[1..])
  }

  lemma {:induction false} FirstFitIndex(items: seq<StatefulSet>) returns (i: nat)
    requires forall j :: 0 <= j < |items| ==> Exact(items[j])
    ensures i <= |items| && forall j :: 0 <= j < i ==> !HasRoom(items[j])
    ensures i < |items| ==> HasRoom(items[i]) && FirstFit(items) == Some(items[i].name)
    ensures i == |items| ==> FirstFit(items) == None
  {
    if items == [] {
      return 0;
    }
    assert Exact(items[0]);
    if HasRoom(items[0]) {
      return 0;
    }
    i := FirstFitIndex(items[1..]);
    i := i + 1;
    assert forall j :: 1 <= j < |items| ==> items[j] == items[1..][j - 1];
  }

  /** On exact caches the label-driven search is first fit on the true list lengths, and it
      fails exactly when every listed instance is full. */
  lemma {:induction false} FirstFitIsFirstFit(items: seq<StatefulSet>)
    requires forall i :: 0 <= i < |items| ==> Exact(items[i])
    ensures IsFirstFit(items, FirstFit(items))
    ensures FirstFit(items).None? <==> forall i :: 0 <= i < |items| ==> !HasRoom(items[i])
  {
    var i := FirstFitIndex(items);
  }

  ghost predicate BelowTen(text: string) {
    exists count :: IsNumeral(text, count) && count < 10
  }

  /** What the search goes by: the label, when present, is an integer below ten. */
  ghost predicate Vacant(ss: StatefulSet) {
    match ss.tenantCount
    case None => true
    case Some(text) => BelowTen(text)
  }

  lemma VacantLabel(ss: StatefulSet)
    ensures Vacant(ss) <==> LabelCount(ss).Some? && LabelCount(ss).value < MAX_TENANTS
  {
    hide Atoi, IsNumeral;
    match ss.tenantCount {
      case None =>
        assert "0" == Itoa(0);
        AtoiItoa(0);
      case Some(text) =>
        if Atoi(text).Some? { AtoiExact(text, Atoi(text).value); }
        forall count | IsNumeral(text, count) ensures Atoi(text) == Some(count) { AtoiExact(text, count); }
    }
  }

  ghost predicate IsFirstVacant(items: seq<StatefulSet>, found: Option<string>) {
    match found
    case Some(name) => exists i :: 0 <= i < |items| && items[i].name == name && Vacant(items[i])
                                   && forall j :: 0 <= j < i ==> !Vacant(items[j])
    case None => forall i :: 0 <= i < |items| ==> !Vacant(items[i])
  }

  /** On any listing, malformed labels included, the search finds the first vacant instance. */
  lemma {:induction false} FirstFitVacant(items: seq<StatefulSet>)
    ensures IsFirstVacant(items, FirstFit(items))
  {
    hide Vacant, LabelCount;
    if items != [] {
      VacantLabel(items[0]);
      if !Vacant(items[0]) {
        FirstFitVacant(items[1..]);
        assert forall i :: 1 <= i < |items| ==> items[i] == items[1..][i - 1];
        if FirstFit(items).Some? {
          var i :| 0 <= i < |items[1..]| && items[1..][i].name == FirstFit(items).value && Vacant(items[1..][i])
                   && forall j :: 0 <= j < i ==> !Vacant(items[1..][j]);
          assert items[i + 1] == items[1..][i];
        }
      }
    }
  }

  /** The loop of findAvailableSharedInstance over a List result. */
  method FindAvailable(items: seq<StatefulSet>) returns (found: Option<string>)
    ensures found == FirstFit(items)
    ensures IsFirstVacant(items, found)
  {
    FirstFitVacant(items);
    hide IsFirstVacant;
    found := None;
    for i := 0 to |items|
      invariant FirstFit(items) == FirstFit(items[i..])
      invariant found == None
    {
      var text := if items[i].tenantCount.None? then "0" else items[i].tenantCount.value;
      var count := Atoi(text);
      assert items[i..][0] == items[i] && items[i..][1..] == items[i + 1..];
      if count.None? {
        continue;
      }
      if count.value < MAX_TENANTS {
        return Some(items[i].name);
      }
    }
  }

  // ---- in-memory edits ----

  /** The closure of addTenantToSharedInstance between its Get and its Update: parse, look for
      the tenant, otherwise append it and rewrite annotation and label. */
  method Register(ss: StatefulSet, uid: string) returns (already: bool, edited: StatefulSet)
    ensures already <==> uid in Tenants(ss)
    ensures edited == AddTenant(ss, uid)
  {
    var text := if ss.tenantList.None? then "" else ss.tenantList.value;
    var tenantList: seq<string> := [];
    if text != "" {
      tenantList := Split(text, ',');
    }
    for i := 0 to |tenantList|
      invariant uid !in tenantList[..i]
    {
      if tenantList[i] == uid {
        return true, ss;
      }
    }
    assert tenantList == Tenants(ss);
    assert tenantList[..|tenantList|] == tenantList;
    tenantList := tenantList + [uid];
    already := false;
    edited := ss.(tenantList := Some(Join(tenantList, ',')), tenantCount := Some(Itoa(|tenantList|)));
  }

  /** The first listed instance whose list holds the tenant. */
  function Holder(items: seq<StatefulSet>, uid: string): (h: Option<StatefulSet>)
    ensures h.None? ==> forall i :: 0 <= i < |items| ==> uid !in Tenants(items[i])
    ensures h.Some? ==> h.value in items && uid in Tenants(h.value)
  {
    if items == [] then None
    else if uid in Tenants(items[0]) then Some(items[0])
    else
      var h := Holder(items[1..], uid);
      assert forall i :: 1 <= i < |items| ==> items[i] == items[1..][i - 1];
      h
  }

  /** The search and filter loops of removeTenantFromSharedInstance, up to its Update. */
  method Deregister(items: seq<StatefulSet>, uid: string)
    returns (holder: Option<StatefulSet>, edited: StatefulSet, remaining: nat)
    ensures holder == Holder(items, uid)
    ensures holder.Some? ==> edited == RemoveTenant(holder.value, uid)
    ensures holder.Some? ==> remaining == |Without(Tenants(holder.value), uid)|
  {
    hide Split, Join, Itoa, Without;
    holder, edited, remaining := None, StatefulSet("", 0, None, None), 0;
    for i := 0 to |items|
      invariant Holder(items, uid) == Holder(items[i..], uid)
      invariant holder == None
    {
      var ss := items[i];
      assert items[i..][0] == ss && items[i..][1..] == items[i + 1..];
      if ss.tenantList.None? || ss.tenantList.value == "" {
        continue;
      }
      var tenantList := Split(ss.tenantList.value, ',');
      var tenantFound := false;
      var newTenantList: seq<string> := [];
      WithoutStep(tenantList, uid, 0);
      for j := 0 to |tenantList|
        invariant newTenantList == Without(tenantList[..j], uid)
        invariant tenantFound <==> uid in tenantList[..j]
      {
        WithoutStep(tenantList, uid, j + 1);
        if tenantList[j] != uid {
          newTenantList := newTenantList + [tenantList[j]];
        } else {
          tenantFound := true;
        }
      }
      assert tenantList[..|tenantList|] == tenantList == Tenants(ss);
      if tenantFound {
        edited := ss.(tenantList := Some(Join(newTenantList, ',')),
                      tenantCount := Some(Itoa(|newTenantList|)));
        return Some(ss), edited, |newTenantList|;
      }
    }
  }
}
