/** Counting the tenants spread over disjoint lists. */
module Counting {
  import opened Registry

  ghost function AllOf(lists: map<string, seq<string>>): set<string> {
    set x, u | x in lists && u in lists[x] :: u
  }

  lemma InAllOf(lists: map<string, seq<string>>, x: string, u: string)
    requires x in lists && u in lists[x]
    ensures u in AllOf(lists)
  {
  }

  lemma {:induction false} ElemsSize(list: seq<string>)
    requires NoDuplicates(list)
    ensures |set u | u in list| == |list|
  {
    if list != [] {
      var init, last := list[..|list| - 1], list[|list| - 1];
      ElemsSize(init);
      assert list == init + [last];
      assert (set u | u in list) == (set u | u in init) + {last};
    }
  }

  lemma AllOfSplit(lists: map<string, seq<string>>, x: string)
    requires x in lists
    requires forall y, u | y in lists && u in lists[x] && u in lists[y] :: x == y
    ensures AllOf(lists) == AllOf(lists - {x}) + (set u | u in lists[x])
    ensures AllOf(lists - {x}) !! (set u | u in lists[x])
  {
    var rest := lists - {x};
    forall u | u in AllOf(lists) ensures u in AllOf(rest) || u in lists[x] {
      var y :| y in lists && u in lists[y];
      if y != x { assert y in rest && u in rest[y]; }
    }
    AllOfGrows(rest, lists);
    forall u | u in lists[x] ensures u in AllOf(lists) {}
  }

  lemma AllOfGrows(lists: map<string, seq<string>>, more: map<string, seq<string>>)
    requires forall x, u | x in lists && u in lists[x] :: x in more && u in more[x]
    ensures AllOf(lists) <= AllOf(more)
  {
  }

  /** The lists are duplicate-free and share no tenant. */
  ghost predicate Disjoint(lists: map<string, seq<string>>) {
    && (forall x | x in lists :: NoDuplicates(lists[x]))
    && (forall x, y, u | x in lists && y in lists && u in lists[x] && u in lists[y] :: x == y)
  }

  /** The sum of the list lengths. */
  ghost function Sum(lists: map<string, seq<string>>): nat {
    if lists == map[] then 0
    else
      var x :| x in lists;
      |lists[x]| + Sum(lists - {x})
  }

  lemma {:induction false} SumCountsAll(lists: map<string, seq<string>>)
    requires Disjoint(lists)
    ensures |AllOf(lists)| == Sum(lists)
    decreases |lists|
  {
    if lists == map[] {
      assert AllOf(lists) == {};
    } else {
      var x :| x in lists && Sum(lists) == |lists[x]| + Sum(lists - {x});
      assert (lists - {x}).Keys == lists.Keys - {x};
      SumCountsAll(lists - {x});
      ElemsSize(lists[x]);
      AllOfSplit(lists, x);
    }
  }

  lemma {:induction false} SumOfFull(lists: map<string, seq<string>>)
    requires forall x | x in lists :: |lists[x]| == MAX_TENANTS
    ensures Sum(lists) == MAX_TENANTS * |lists|
    decreases |lists|
  {
    if lists != map[] {
      var x :| x in lists && Sum(lists) == |lists[x]| + Sum(lists - {x});
      assert (lists - {x}).Keys == lists.Keys - {x};
      assert |lists - {x}| == |lists| - 1;
      SumOfFull(lists - {x});
    }
  }
}
