/**
 * The generic query helpers of app/database.py: building a filtered query from a list of
 * `DBFilter`s, and the inclusive row range a page asks the store for.
 */
module Query {
  import opened Wrappers
  import opened Records

  /** The value handed to one `.filter` call: a single string or the whole list. */
  datatype FilterValue = Single(value: string) | Several(values: seq<string>)

  /** One `.filter(column, operator, value)` applied to a query. */
  datatype Clause = Clause(column: string, operator: string, value: FilterValue)

  /** The value `makeFilter` passes for a filter: the one element when there is exactly one. */
  function ValueOf(f: DBFilter): (v: FilterValue)
    ensures v.Single? <==> |f.values| == 1
    ensures v.Single? ==> v.value == f.values[0]
    ensures v.Several? ==> v.values == f.values
  {
    if |f.values| == 1 then Single(f.values[0]) else Several(f.values)
  }

  /**
   * `makeFilter`: applies one `.filter` per `DBFilter`, in list order, on top of what
   * `query` already holds.
   */
  method MakeFilter(query: seq<Clause>, filters: seq<DBFilter>) returns (q: seq<Clause>)
    ensures |q| == |query| + |filters|
    ensures q[..|query|] == query
    ensures forall i :: 0 <= i < |filters| ==>
      q[|query| + i] == Clause(filters[i].name, filters[i].operator, ValueOf(filters[i]))
  {
    q := query;
    for k := 0 to |filters|
      invariant |q| == |query| + k
      invariant q[..|query|] == query
      invariant forall i :: 0 <= i < k ==>
        q[|query| + i] == Clause(filters[i].name, filters[i].operator, ValueOf(filters[i]))
    {
      var f := filters[k];
      var value := if |f.values| == 1 then Single(f.values[0]) else Several(f.values);
      q := q + [Clause(f.name, f.operator, value)];
    }
  }

  /** The inclusive `.range(first, last)` a page of `limit` rows from `offset` asks for. */
  function RangeOf(offset: int, limit: int): (r: (int, int))
    ensures r.0 == offset
    ensures r.1 - r.0 + 1 == limit
  {
    (offset, offset + limit - 1)
  }

  /** The rows the store returns for `RangeOf(offset, limit)`: indices `first..last`, both included. */
  function Page<T>(rows: seq<T>, offset: nat, limit: nat): (page: seq<T>)
    ensures |page| <= limit
    ensures |page| == if offset >= |rows| then 0 else Min(limit, |rows| - offset)
    ensures forall i :: 0 <= i < |page| ==> page[i] == rows[offset + i]
  {
    var (first, last) := RangeOf(offset, limit);
    if first >= |rows| then [] else rows[first..Min(last + 1, |rows|)]
  }
}
