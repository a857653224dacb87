/**
 Listing bills page by page: get_bills and its _pagination in
 shadowfiend/processor/service/fetcher.py.

 A resource is known by its id.  The pager walks the list once; when it runs
 off the end without having returned, it returns nothing at all, and its
 caller then fails.
 */
module Markers {
  import opened Wrappers

  type Id = string

  /** A page, whether a next page is promised, and the marker to ask for it with. */
  datatype Page = Page(items: seq<Id>, next: bool, marker: Option<Id>)

  /** Python's truth: no marker and an empty one are the same. */
  predicate Given(marker: Option<Id>) {
    marker.Some? && marker.value != ""
  }

  predicate Distinct(resources: seq<Id>) {
    forall i, j :: 0 <= i < j < |resources| ==> resources[i] != resources[j]
  }

  function IndexOf(resources: seq<Id>, id: Id): (r: Option<nat>)
    ensures r.Some? ==> r.value < |resources| && resources[r.value] == id
    ensures r.None? ==> id !in resources
  {
    if resources == [] then None
    else if resources[|resources| - 1] == id then Some(|resources| - 1)
    else IndexOf(resources[..|resources| - 1], id)
  }

  /** The index of the first item of the page: one past the marked item, and one even without a marker. */
  function FirstIndex(resources: seq<Id>, marker: Option<Id>): Option<nat> {
    if !Given(marker) then Some(1)
    else match IndexOf(resources, marker.value)
      case Some(i) => Some(i + 1)
      case None => None
  }

  /** What the pager answers, as a value. */
  function Answer(resources: seq<Id>, limit: nat, marker: Option<Id>): Option<Page> {
    if |resources| <= limit then Some(Page(resources, false, marker))
    else
      var first := FirstIndex(resources, marker);
      if first.Some? && limit > 0 && first.value + limit < |resources|
      then Some(Page(resources[first.value..first.value + limit], true, Some(resources[first.value + limit - 1])))
      else None
  }

  /**
   The walk.  It returns a page exactly when the whole list fits on one page,
   or an item is left over after a full page.
   */
  method Pagination(resources: seq<Id>, limit: nat, marker: Option<Id>) returns (r: Option<Page>)
    requires limit > 0 && Distinct(resources)
    ensures r == Answer(resources, limit, marker)
    ensures |resources| <= limit ==> r == Some(Page(resources, false, marker))
    ensures |resources| > limit ==>
      var first := FirstIndex(resources, marker);
      && r.Some? == (first.Some? && first.value + limit < |resources|)
      && (r.Some? ==> r == Some(Page(resources[first.value..first.value + limit], true,
                                     Some(resources[first.value + limit - 1]))))
  {
    if |resources| <= limit {
      return Some(Page(resources, false, marker));
    }
    var result: seq<Id> := [];
    var start: Option<nat> := None;
    var looking := true;    // the local marker has not been replaced by 1
    ghost var first := FirstIndex(resources, marker);
    for index := 0 to |resources|
      invariant looking <==> (if first.Some? then index < first.value else true)
      invariant looking ==> start.None? && result == []
      invariant !looking ==> start == Some(index) && result == resources[first.value..index]
      invariant |result| <= limit
    {
      if |result| < limit {
        if looking && (!Given(marker) || resources[index] == marker.value) {
          start := Some(index + 1);
          looking := false;
        } else if start == Some(index) {
          result := result + [resources[index]];
          start := Some(index + 1);
        }
      } else {
        return Some(Page(result, true, Some(resources[index - 1])));
      }
    }
    return None;
  }

  lemma {:induction false} IndexOfExact(resources: seq<Id>, i: nat)
    requires i < |resources| && Distinct(resources)
    ensures IndexOf(resources, resources[i]) == Some(i)
  {
  }

  /** The pages a client gets that starts without a marker and follows each marker it is given. */
  function Walk(resources: seq<Id>, limit: nat, marker: Option<Id>, first: nat): (pages: seq<seq<Id>>)
    decreases |resources| - first
  {
    match Answer(resources, limit, marker)
    case None => []
    case Some(page) =>
      if page.next && first + limit <= |resources| && limit > 0
      then [page.items] + Walk(resources, limit, page.marker, first + limit)
      else [page.items]
  }

  function Concat(pages: seq<seq<Id>>): seq<Id> {
    if pages == [] then [] else pages[0] + Concat(pages[1..])
  }

  /** Each page promised a successor is full, ends in the item it is marked by, and starts after its marker. */
  lemma PageShape(resources: seq<Id>, limit: nat, marker: Option<Id>)
    requires limit > 0 && Distinct(resources)
    requires Answer(resources, limit, marker).Some? && Answer(resources, limit, marker).value.next
    ensures var page := Answer(resources, limit, marker).value;
      && |page.items| == limit && page.marker == Some(page.items[limit - 1])
      && (Given(marker) ==> marker.value in resources && marker.value !in page.items)
  {
  }

  /** Full adjacent pages from an index on, as long as an item is left over after each. */
  function Slices(resources: seq<Id>, limit: nat, first: nat): seq<seq<Id>>
    requires limit > 0
    decreases |resources| - first
  {
    if first + limit < |resources|
    then [resources[first..first + limit]] + Slices(resources, limit, first + limit)
    else []
  }

  /** Following the marker of a page continues right after it. */
  lemma {:induction false} WalkIsSlices(resources: seq<Id>, limit: nat, marker: Option<Id>, first: nat)
    requires limit > 0 && |resources| > limit && Distinct(resources) && "" !in resources
    requires FirstIndex(resources, marker) == Some(first)
    ensures Walk(resources, limit, marker, first) == Slices(resources, limit, first)
    decreases |resources| - first
  {
    if first + limit >= |resources| {
    } else {
      var last := resources[first + limit - 1];
      assert Answer(resources, limit, marker) == Some(Page(resources[first..first + limit], true, Some(last)));
      IndexOfExact(resources, first + limit - 1);
      assert last in resources;
      WalkIsSlices(resources, limit, Some(last), first + limit);
    }
  }

  lemma {:induction false} SlicesConcat(resources: seq<Id>, limit: nat, first: nat)
    requires limit > 0 && first < |resources|
    ensures var seen := Concat(Slices(resources, limit, first));
      && first + |seen| < |resources| <= first + |seen| + limit
      && seen == resources[first..first + |seen|]
    decreases |resources| - first
  {
    if first + limit >= |resources| {
    } else {
      SlicesConcat(resources, limit, first + limit);
      var page, rest := resources[first..first + limit], Slices(resources, limit, first + limit);
      assert ([page] + rest)[1..] == rest;
    }
  }

  /**
   A client that follows the markers of a list longer than a page gets full
   adjacent pages without repetition, but never the first item, and always
   runs into the failure with between one and `limit` items still to come.
   */
  lemma FollowingMarkers(resources: seq<Id>, limit: nat)
    requires limit > 0 && Distinct(resources) && "" !in resources
    ensures var seen := Concat(Walk(resources, limit, None, 1));
      if |resources| <= limit then seen == resources
      else
        && 1 <= |resources| - (1 + |seen|) <= limit
        && seen == resources[1..1 + |seen|]
        && resources[0] !in seen
  {
    if |resources| <= limit {
      assert Walk(resources, limit, None, 1) == [resources];
    } else {
      WalkIsSlices(resources, limit, None, 1);
      SlicesConcat(resources, limit, 1);
    }
  }

  /** Every item is delivered exactly when the list fits on one page. */
  lemma AllDeliveredIff(resources: seq<Id>, limit: nat)
    requires limit > 0 && Distinct(resources) && "" !in resources
    ensures (forall id :: id in resources ==> id in Concat(Walk(resources, limit, None, 1))) <==> |resources| <= limit
  {
    FollowingMarkers(resources, limit);
    if |resources| > limit {
      assert resources[0] in resources;
    }
  }

  // ---------- The whole call ----------

  datatype Bills = Bills(totalCount: nat, orders: seq<Id>, next: bool, marker: Option<Id>)

  /**
   get_bills, given what the search found and whether each resource has
   measures: an empty search answers at once; without a limit the answer is a
   pair whose third part is asked for, which raises, as does asking nothing
   for a part.  A negative limit stops at the first item.
   */
  function GetBills(found: seq<Id>, measured: Id -> bool, limit: Option<int>, marker: Option<Id>): Option<Bills> {
    if found == [] then Some(Bills(0, [], false, None))
    else
      var resources := Keep(found, measured);
      if limit.None? || limit.value == 0 then None
      else if limit.value < 0 then
        if resources == [] then None
        else Some(Bills(|resources|, [], true, Some(resources[|resources| - 1])))
      else
        match Answer(resources, limit.value, marker)
        case None => None
        case Some(page) => Some(Bills(|resources|, page.items, page.next, page.marker))
  }

  function Keep(found: seq<Id>, measured: Id -> bool): seq<Id> {
    if found == [] then [] else
      var last := found[|found| - 1];
      Keep(found[..|found| - 1], measured) + if measured(last) then [last] else []
  }

  /**
   The call without a marker answers exactly when nothing was found, or all of
   it fits, or an item and more than a page are there, or the limit is negative
   and a resource has measures.
   */
  lemma AnswersIff(found: seq<Id>, measured: Id -> bool, limit: Option<int>)
    ensures GetBills(found, measured, limit, None).Some? <==>
      var n := |Keep(found, measured)|;
      || found == []
      || (limit.Some? && limit.value > 0 && (n <= limit.value || n > limit.value + 1))
      || (limit.Some? && limit.value < 0 && n > 0)
  {
  }

  /** Resources with measures stay, in their order, and no others. */
  lemma {:induction false} KeepExact(a: seq<Id>, b: seq<Id>, measured: Id -> bool, id: Id)
    ensures Keep(a + b, measured) == Keep(a, measured) + Keep(b, measured)
    ensures Keep([id], measured) == if measured(id) then [id] else []
    ensures id in Keep(b, measured) <==> id in b && measured(id)
  {
    assert [id][..0] == [];
    if b == [] {
      assert a + b == a;
    } else {
      var front, last := b[..|b| - 1], b[|b| - 1];
      KeepExact(a, front, measured, id);
      assert (a + b)[..|a + b| - 1] == a + front;
      assert id in b <==> id in front || id == last;
    }
  }

  /** What an answer holds: all resources if they fit, else a page, or nothing below a limit of zero. */
  lemma BillsExact(found: seq<Id>, measured: Id -> bool, limit: int, marker: Option<Id>, first: nat)
    requires found != [] && GetBills(found, measured, Some(limit), marker).Some?
    requires FirstIndex(Keep(found, measured), marker) == Some(first)
    ensures var bills, kept := GetBills(found, measured, Some(limit), marker).value, Keep(found, measured);
      && bills.totalCount == |kept| && limit != 0
      && (if limit < 0 then bills.orders == [] && bills.next && kept != [] && bills.marker == Some(kept[|kept| - 1])
          else if |kept| <= limit then bills.orders == kept && !bills.next && bills.marker == marker
          else
            && first + limit < |kept| && bills.orders == kept[first..first + limit] && bills.next
            && bills.marker == Some(kept[first + limit - 1]))
  {
  }

  /** The walk starts at the second item without a marker, and after the marked one with it. */
  lemma FirstIndexExact(resources: seq<Id>, i: nat)
    requires i < |resources| && Distinct(resources) && resources[i] != ""
    ensures FirstIndex(resources, None) == Some(1) && FirstIndex(resources, Some("")) == Some(1)
    ensures FirstIndex(resources, Some(resources[i])) == Some(i + 1)
  {
    IndexOfExact(resources, i);
  }

  /** An empty search answers at once, and no limit is an error. */
  lemma NothingFound(found: seq<Id>, measured: Id -> bool, limit: Option<int>, marker: Option<Id>)
    ensures found == [] ==> GetBills(found, measured, limit, marker) == Some(Bills(0, [], false, None))
    ensures found != [] && (limit == None || limit == Some(0)) ==> GetBills(found, measured, limit, marker) == None
  {
  }
}
