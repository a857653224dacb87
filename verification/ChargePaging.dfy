/**
 Listing charge records page by page: get_charges, get_charges_price_and_count
 and paginate_query in shadowfiend/db/sqlalchemy/api.py.

 The database orders by the given columns and is free otherwise.  A column is
 known only through the ranks of its values; the id column ranks by id.
 */
module ChargePaging {
  import opened Wrappers
  import opened Tables
  import opened LedgerLaws

  const ID := "id"

  datatype QueryError = UnknownColumn | UnknownDirection

  // ---------- Sort keys ----------

  /** Blank keys and keys already present are passed over, any other goes to the front. */
  function SortKeys(keys: seq<string>): seq<string> {
    if keys == [] then [ID] else
      var before, k := SortKeys(keys[..|keys| - 1]), keys[|keys| - 1];
      if k != "" && k !in before then [k] + before else before
  }

  /** The loop over the stripped parts of the sort_key parameter. */
  method BuildSortKeys(keys: seq<string>) returns (sortKeys: seq<string>)
    ensures sortKeys == SortKeys(keys)
  {
    sortKeys := [ID];
    for i := 0 to |keys|
      invariant sortKeys == SortKeys(keys[..i])
    {
      assert keys[..i + 1][..i] == keys[..i];
      if keys[i] != "" && keys[i] !in sortKeys {
        sortKeys := [keys[i]] + sortKeys;
      }
    }
    assert keys[..|keys|] == keys;
  }

  /** Whatever is asked for, id comes last, no column comes twice, and no requested column is missing. */
  lemma {:induction false} SortKeysEndInId(keys: seq<string>)
    ensures var sorted := SortKeys(keys);
      && sorted != [] && sorted[|sorted| - 1] == ID
      && (forall i, j :: 0 <= i < j < |sorted| ==> sorted[i] != sorted[j])
      && (forall k :: k in sorted <==> k == ID || (k in keys && k != ""))
  {
    if keys == [] {
    } else {
      var front, k := keys[..|keys| - 1], keys[|keys| - 1];
      SortKeysEndInId(front);
      assert keys == front + [k];
    }
  }

  /** Distinct requested columns come last first: the last one asked for decides before the others, and id last. */
  lemma {:induction false} SortKeysReverse(keys: seq<string>)
    requires forall i :: 0 <= i < |keys| ==> keys[i] != "" && keys[i] != "id"
    requires forall i, j :: 0 <= i < j < |keys| ==> keys[i] != keys[j]
    ensures var sorted := SortKeys(keys);
      && |sorted| == |keys| + 1 && sorted[|keys|] == "id"
      && forall i :: 0 <= i < |keys| ==> sorted[i] == keys[|keys| - 1 - i]
  {
    if keys == [] {
    } else {
      var front, k := keys[..|keys| - 1], keys[|keys| - 1];
      SortKeysReverse(front);
      SortKeysEndInId(front);
      assert k !in front;
    }
  }

  /** The keys and direction the query is ordered by, or the error it raises. */
  function Ordering(keys: seq<string>, direction: Option<string>, columns: set<string>):
    Result<(seq<string>, bool), QueryError>
  {
    var dir := if direction.Some? then direction.value else "desc";
    if dir != "asc" && dir != "desc" then Failure(UnknownDirection)
    else if exists k :: k in SortKeys(keys) && k !in columns then Failure(UnknownColumn)
    else Success((SortKeys(keys), dir == "asc"))
  }

  /**
   A query is refused exactly for a direction other than the two or a requested key
   that is no column; it is ascending exactly if that is asked for.
   */
  lemma OrderingIff(keys: seq<string>, direction: Option<string>, columns: set<string>)
    requires ID in columns
    ensures Ordering(keys, direction, columns).Success? <==>
      && direction in {None, Some("asc"), Some("desc")}
      && forall k :: k in keys && k != "" ==> k in columns
    ensures Ordering(keys, direction, columns) == Failure(UnknownDirection) <==>
      direction !in {None, Some("asc"), Some("desc")}
    ensures var r := Ordering(keys, direction, columns);
      r.Success? ==> r.value.0 == SortKeys(keys) && (r.value.1 <==> direction == Some("asc"))
  {
    SortKeysEndInId(keys);
    var dir := if direction.Some? then direction.value else "desc";
    assert direction in {None, Some("asc"), Some("desc")} <==> dir == "asc" || dir == "desc";
  }

  // ---------- The order ----------

  /** How the database compares two rows: by the first column they differ in. */
  function Compare(rank: (string, Charge) -> int, keys: seq<string>, ascending: bool, a: Charge, b: Charge): int {
    if keys == [] then 0 else
      var d := rank(keys[0], a) - rank(keys[0], b);
      if d != 0 then (if ascending then d else -d) else Compare(rank, keys[1..], ascending, a, b)
  }

  ghost predicate RanksIds(rank: (string, Charge) -> int) {
    forall c :: rank(ID, c) == c.id
  }

  lemma {:induction false} CompareAntisymmetric(rank: (string, Charge) -> int, keys: seq<string>, asc: bool,
                                                a: Charge, b: Charge)
    ensures Compare(rank, keys, asc, a, b) < 0 <==> Compare(rank, keys, asc, b, a) > 0
    ensures Compare(rank, keys, asc, a, b) == 0 <==> Compare(rank, keys, asc, b, a) == 0
  {
    if keys == [] {
    } else {
      CompareAntisymmetric(rank, keys[1..], asc, a, b);
    }
  }

  lemma {:induction false} CompareTransitive(rank: (string, Charge) -> int, keys: seq<string>, asc: bool, a: Charge,
                                             b: Charge, c: Charge)
    requires Compare(rank, keys, asc, a, b) < 0 && Compare(rank, keys, asc, b, c) < 0
    ensures Compare(rank, keys, asc, a, c) < 0
  {
    if rank(keys[0], a) == rank(keys[0], b) == rank(keys[0], c) {
      CompareTransitive(rank, keys[1..], asc, a, b, c);
    }
  }

  lemma {:induction false} CompareDecides(rank: (string, Charge) -> int, keys: seq<string>, asc: bool, a: Charge,
                                          b: Charge)
    requires RanksIds(rank) && keys != [] && keys[|keys| - 1] == ID && a.id != b.id
    ensures Compare(rank, keys, asc, a, b) != 0
  {
    if |keys| == 1 {
    } else {
      assert keys[1..][|keys[1..]| - 1] == ID;
      CompareDecides(rank, keys[1..], asc, a, b);
    }
  }

  /** The first column in which two rows differ decides: the lower value comes first when ascending, else last. */
  lemma {:induction false} FirstDifference(rank: (string, Charge) -> int, keys: seq<string>, asc: bool, a: Charge,
                                           b: Charge, i: nat)
    requires i < |keys| && rank(keys[i], a) < rank(keys[i], b)
    requires forall j :: 0 <= j < i ==> rank(keys[j], a) == rank(keys[j], b)
    ensures if asc then Compare(rank, keys, asc, a, b) < 0 else Compare(rank, keys, asc, a, b) > 0
  {
    if i == 0 {
    } else {
      FirstDifference(rank, keys[1..], asc, a, b, i - 1);
    }
  }

  type Order = (Charge, Charge) -> bool

  /** The order a query asks for. */
  function OrderOf(rank: (string, Charge) -> int, keys: seq<string>, asc: bool): Order {
    (a, b) => Compare(rank, SortKeys(keys), asc, a, b) < 0
  }

  /** Rows with different ids are ordered one way and one way only, and orders chain. */
  ghost predicate StrictTotal(less: Order) {
    && (forall a: Charge, b: Charge :: a.id != b.id ==> less(a, b) || less(b, a))
    && (forall a, b :: !(less(a, b) && less(b, a)))
    && (forall a, b, c :: less(a, b) && less(b, c) ==> less(a, c))
  }

  /** Strictly in order. */
  ghost predicate InOrder(less: Order, cs: seq<Charge>) {
    forall i, j :: 0 <= i < j < |cs| ==> less(cs[i], cs[j])
  }

  /** Because id comes last, every requested order is a strict total order. */
  lemma OrderIsStrictTotal(rank: (string, Charge) -> int, keys: seq<string>, asc: bool)
    requires RanksIds(rank)
    ensures StrictTotal(OrderOf(rank, keys, asc))
  {
    var ks, less := SortKeys(keys), OrderOf(rank, keys, asc);
    SortKeysEndInId(keys);
    forall a: Charge, b: Charge
      ensures (a.id != b.id ==> less(a, b) || less(b, a)) && !(less(a, b) && less(b, a))
    {
      CompareAntisymmetric(rank, ks, asc, a, b);
      if a.id != b.id {
        CompareDecides(rank, ks, asc, a, b);
      }
    }
    forall a: Charge, b: Charge, c: Charge | less(a, b) && less(b, c)
      ensures less(a, c)
    {
      CompareTransitive(rank, ks, asc, a, b, c);
    }
  }

  // ---------- Filters, answers and totals ----------

  /** An absent filter and an empty one are the same; a time range needs both ends. */
  datatype Filter = Filter(user: string, kind: string, startTime: Option<int>, endTime: Option<int>)

  predicate Matches(q: Filter, c: Charge) {
    && (q.user != "" ==> c.user == q.user)
    && (q.kind != "" ==> c.kind == q.kind)
    && (q.startTime.Some? && q.endTime.Some? ==> q.startTime.value <= c.chargeTime < q.endTime.value)
  }

  function Select(table: seq<Charge>, q: Filter): seq<Charge> {
    if table == [] then [] else
      var last := table[|table| - 1];
      Select(table[..|table| - 1], q) + if Matches(q, last) then [last] else []
  }

  /** A charge is selected, as often as it is there, exactly if it fits every filter that is set. */
  lemma {:induction false} SelectedIff(table: seq<Charge>, q: Filter, c: Charge)
    ensures multiset(Select(table, q))[c] ==
      if && (q.user == "" || q.user == c.user) && (q.kind == "" || q.kind == c.kind)
         && (q.startTime == None || q.endTime == None
             || (q.startTime.value <= c.chargeTime && c.chargeTime < q.endTime.value))
      then multiset(table)[c] else 0
  {
    if table == [] {
    } else {
      var front, last := table[..|table| - 1], table[|table| - 1];
      SelectedIff(front, q, c);
      assert table == front + [last];
    }
  }

  function Total(cs: seq<Charge>): int {
    if cs == [] then 0 else cs[0].value + Total(cs[1..])
  }

  lemma {:induction false} TotalSnoc(cs: seq<Charge>, c: Charge)
    ensures Total(cs + [c]) == Total(cs) + c.value
  {
    if cs == [] {
    } else {
      TotalSnoc(cs[1..], c);
      assert (cs + [c])[1..] == cs[1..] + [c];
    }
  }

  /** The price reported for a user is what the books count as charged to the account. */
  lemma {:induction false} UserTotal(table: seq<Charge>, u: string)
    requires u != ""
    ensures PriceAndCount(table, Filter(u, "", None, None)).0 == ChargeTotal(table, u)
  {
    var q := Filter(u, "", None, None);
    if table == [] {
    } else {
      var front, last := table[..|table| - 1], table[|table| - 1];
      UserTotal(front, u);
      if last.user == u {
        TotalSnoc(Select(front, q), last);
      } else {
        assert Select(front, q) + [] == Select(front, q);
      }
    }
  }

  /** get_charges_price_and_count. */
  function PriceAndCount(table: seq<Charge>, q: Filter): (int, nat) {
    (Total(Select(table, q)), |Select(table, q)|)
  }

  /** One full listing of the matching rows in the requested order. */
  ghost predicate Listing(rank: (string, Charge) -> int, keys: seq<string>, asc: bool, table: seq<Charge>, q: Filter,
                          cs: seq<Charge>)
  {
    multiset(cs) == multiset(Select(table, q)) && InOrder(OrderOf(rank, keys, asc), cs)
  }

  function Min(a: nat, b: nat): nat {
    if a < b then a else b
  }

  /** OFFSET and LIMIT. */
  function Slice(cs: seq<Charge>, offset: nat, limit: nat): seq<Charge> {
    cs[Min(offset, |cs|)..Min(offset + limit, |cs|)]
  }

  /** An answer the database may give to one page request. */
  ghost predicate Answer(rank: (string, Charge) -> int, keys: seq<string>, asc: bool, table: seq<Charge>, q: Filter,
                         offset: nat, limit: nat, page: seq<Charge>)
  {
    exists cs :: Listing(rank, keys, asc, table, q, cs) && page == Slice(cs, offset, limit)
  }

  lemma TailMultiset(a: seq<Charge>)
    requires a != []
    ensures multiset(a[1..]) == multiset(a) - multiset{a[0]}
  {
    assert a == [a[0]] + a[1..];
  }

  /** The first row of an ordered list comes before every other row of it. */
  lemma HeadIsLeast(less: Order, a: seq<Charge>, c: Charge)
    requires InOrder(less, a) && c in multiset(a)
    ensures a != [] && (c == a[0] || less(a[0], c))
  {
  }

  /** There is only one way to list the rows in order, so every request is answered from the same list. */
  lemma {:induction false} ListingUnique(less: Order, a: seq<Charge>, b: seq<Charge>)
    requires StrictTotal(less) && InOrder(less, a) && InOrder(less, b) && multiset(a) == multiset(b)
    ensures a == b
  {
    assert |a| == |multiset(a)| == |multiset(b)| == |b|;
    if a == [] {
    } else {
      SameHead(less, a, b);
      TailMultiset(a);
      TailMultiset(b);
      ListingUnique(less, a[1..], b[1..]);
      assert a == [a[0]] + a[1..] && b == [b[0]] + b[1..];
    }
  }

  lemma SameHead(less: Order, a: seq<Charge>, b: seq<Charge>)
    requires StrictTotal(less) && InOrder(less, a) && InOrder(less, b) && multiset(a) == multiset(b)
    requires a != [] && b != []
    ensures a[0] == b[0]
  {
    assert a[0] in multiset(a) && b[0] in multiset(b);
    HeadIsLeast(less, a, b[0]);
    HeadIsLeast(less, b, a[0]);
  }

  function Flatten(pages: seq<seq<Charge>>): seq<Charge> {
    if pages == [] then [] else Flatten(pages[..|pages| - 1]) + pages[|pages| - 1]
  }

  lemma PrefixGrows(cs: seq<Charge>, offset: nat, limit: nat)
    ensures cs[..Min(offset, |cs|)] + Slice(cs, offset, limit) == cs[..Min(offset + limit, |cs|)]
  {
  }

  /** Where page k starts. */
  function Offset(k: nat, limit: nat): nat {
    k * limit
  }

  lemma OffsetNext(k: nat, limit: nat)
    ensures Offset(k + 1, limit) == Offset(k, limit) + limit
  {
  }

  lemma {:induction false} SlicesFlatten(cs: seq<Charge>, limit: nat, pages: seq<seq<Charge>>)
    requires forall k :: 0 <= k < |pages| ==> pages[k] == Slice(cs, Offset(k, limit), limit)
    ensures Flatten(pages) == cs[..Min(Offset(|pages|, limit), |cs|)]
  {
    if pages == [] {
    } else {
      var n := |pages| - 1;
      SlicesFlatten(cs, limit, pages[..n]);
      PrefixGrows(cs, Offset(n, limit), limit);
      OffsetNext(n, limit);
    }
  }

  lemma {:induction false} TotalConcat(a: seq<Charge>, b: seq<Charge>)
    ensures Total(a + b) == Total(a) + Total(b)
  {
    if a == [] {
      assert a + b == b;
    } else {
      assert (a + b)[1..] == a[1..] + b;
      TotalConcat(a[1..], b);
    }
  }

  lemma TakeOut(b: seq<Charge>, i: nat)
    requires i < |b|
    ensures var rest := b[..i] + b[i + 1..];
      multiset(rest) == multiset(b) - multiset{b[i]} && Total(b) == b[i].value + Total(rest)
  {
    var tail := [b[i]] + b[i + 1..];
    assert b == b[..i] + tail;
    TotalConcat(b[..i], tail);
    TotalConcat(b[..i], b[i + 1..]);
  }

  lemma {:induction false} TotalPermutation(a: seq<Charge>, b: seq<Charge>)
    requires multiset(a) == multiset(b)
    ensures Total(a) == Total(b)
  {
    assert |multiset(a)| == |a| && |multiset(b)| == |b|;
    if a == [] {
    } else {
      assert a[0] in multiset(a);
      var i :| 0 <= i < |b| && b[i] == a[0];
      TakeOut(b, i);
      TailMultiset(a);
      TotalPermutation(a[1..], b[..i] + b[i + 1..]);
    }
  }

  /**
   Pages asked for one after the other, each answered anew, list every matching
   charge exactly once and in order, and add up to the reported totals.
   */
  lemma PagesPartition(rank: (string, Charge) -> int, keys: seq<string>, asc: bool, table: seq<Charge>, q: Filter,
                       limit: nat, pages: seq<seq<Charge>>, cs: seq<Charge>)
    requires RanksIds(rank) && Listing(rank, keys, asc, table, q, cs)
    requires forall k :: 0 <= k < |pages| ==> Answer(rank, keys, asc, table, q, Offset(k, limit), limit, pages[k])
    requires Offset(|pages|, limit) >= |cs|
    ensures Flatten(pages) == cs
    ensures (Total(Flatten(pages)), |Flatten(pages)|) == PriceAndCount(table, q)
  {
    OrderIsStrictTotal(rank, keys, asc);
    forall k | 0 <= k < |pages|
      ensures pages[k] == Slice(cs, Offset(k, limit), limit)
    {
      assert Answer(rank, keys, asc, table, q, Offset(k, limit), limit, pages[k]);
      var answered :|
        Listing(rank, keys, asc, table, q, answered) && pages[k] == Slice(answered, Offset(k, limit), limit);
      ListingUnique(OrderOf(rank, keys, asc), answered, cs);
    }
    SlicesFlatten(cs, limit, pages);
    TotalPermutation(cs, Select(table, q));
    assert |multiset(cs)| == |cs| && |multiset(Select(table, q))| == |Select(table, q)|;
  }

  // ---------- A listing exists ----------

  predicate DistinctIds(cs: seq<Charge>) {
    forall i, j :: 0 <= i < j < |cs| ==> cs[i].id != cs[j].id
  }

  /** Charge ids count up from one, so they are distinct in every reachable ledger. */
  lemma {:induction false} ReachableIdsDistinct(ops: seq<Op>)
    ensures forall i :: 0 <= i < |Run(EMPTY, ops).charges| ==> Run(EMPTY, ops).charges[i].id == i + 1
    ensures DistinctIds(Run(EMPTY, ops).charges)
  {
    if ops == [] {
    } else {
      ReachableIdsDistinct(ops[..|ops| - 1]);
    }
  }

  lemma PutFirst(less: Order, c: Charge, cs: seq<Charge>)
    requires InOrder(less, cs)
    requires forall d :: d in multiset(cs) ==> less(c, d)
    ensures InOrder(less, [c] + cs)
  {
  }

  /** A row that comes before the first one comes before all. */
  lemma BeforeAll(less: Order, cs: seq<Charge>, c: Charge)
    requires StrictTotal(less) && InOrder(less, cs) && cs != [] && less(c, cs[0])
    ensures InOrder(less, [c] + cs)
  {
  }

  /** Where a row goes in an ordered list. */
  lemma {:induction false} InsertInOrder(less: Order, cs: seq<Charge>, c: Charge) returns (r: seq<Charge>)
    requires StrictTotal(less) && InOrder(less, cs)
    requires forall i :: 0 <= i < |cs| ==> cs[i].id != c.id
    ensures multiset(r) == multiset(cs) + multiset{c} && InOrder(less, r)
  {
    if cs == [] {
      r := [c];
    } else if less(c, cs[0]) {
      BeforeAll(less, cs, c);
      r := [c] + cs;
    } else {
      var head, tail := cs[0], cs[1..];
      var rest := InsertInOrder(less, tail, c);
      AfterHead(less, cs, c, rest);
      PutFirst(less, head, rest);
      TailMultiset(cs);
      r := [head] + rest;
    }
  }

  lemma AfterHead(less: Order, cs: seq<Charge>, c: Charge, rest: seq<Charge>)
    requires StrictTotal(less) && InOrder(less, cs) && cs != [] && cs[0].id != c.id && !less(c, cs[0])
    requires multiset(rest) == multiset(cs[1..]) + multiset{c}
    ensures forall d :: d in multiset(rest) ==> less(cs[0], d)
  {
  }

  /** Over a table with distinct ids every query has a listing. */
  lemma {:induction false} ListingExists(rank: (string, Charge) -> int, keys: seq<string>, asc: bool,
                                         table: seq<Charge>, q: Filter)
    returns (cs: seq<Charge>)
    requires RanksIds(rank) && DistinctIds(table)
    ensures Listing(rank, keys, asc, table, q, cs)
    ensures forall c :: c in cs ==> c in table
  {
    if table == [] {
      cs := [];
    } else {
      var front, last := table[..|table| - 1], table[|table| - 1];
      cs := ListingExists(rank, keys, asc, front, q);
      assert table == front + [last];
      if Matches(q, last) {
        var before := cs;
        forall i | 0 <= i < |before|
          ensures before[i].id != last.id
        {
          assert before[i] in front;
        }
        OrderIsStrictTotal(rank, keys, asc);
        cs := InsertInOrder(OrderOf(rank, keys, asc), before, last);
        forall c | c in cs
          ensures c in table
        {
          assert c in multiset(cs);
          assert c == last || c in multiset(before);
        }
      }
    }
  }
}
