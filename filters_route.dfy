/** `GET /api/scripts/filters` (src/app/api/scripts/filters/route.ts): the distinct industries,
    company sizes and locations of all scripts, for the filter drop-downs. */
module FiltersRoute {
  import opened Js
  import opened Store

  /** No value occurs twice. */
  predicate Distinct(xs: seq<Value>) {
    forall i, j | 0 <= i < j < |xs| :: xs[i] != xs[j]
  }

  /** The position of the first occurrence of `v` in `xs`. */
  function FirstIndex(xs: seq<Value>, v: Value): (r: nat)
    requires v in xs
    ensures r < |xs| && xs[r] == v
    ensures forall k | 0 <= k < r :: xs[k] != v
  {
    if xs[0] == v then 0 else 1 + FirstIndex(xs[1..], v)
  }

  /** `[...new Set(xs)]`: a `Set` keeps the first insertion of each value and iterates in insertion
      order. The values here are column values (strings or `null`), for which the `Set`'s
      SameValueZero comparison is equality. */
  function Dedup(xs: seq<Value>): (r: seq<Value>)
    ensures Distinct(r)
    ensures forall v :: v in r <==> v in xs
    ensures |r| <= |xs|
    decreases |xs|
  {
    if |xs| == 0 then []
    else
      var front := xs[..|xs| - 1];
      var seen := Dedup(front);
      assert xs == front + [xs[|xs| - 1]];
      if xs[|xs| - 1] in seen then seen else seen + [xs[|xs| - 1]]
  }

  /** Values come out in the order of their first occurrence. */
  lemma {:induction false} DedupOrder(xs: seq<Value>)
    ensures forall i, j | 0 <= i < j < |Dedup(xs)| :: FirstIndex(xs, Dedup(xs)[i]) < FirstIndex(xs, Dedup(xs)[j])
    decreases |xs|
  {
    if |xs| > 0 {
      var front := xs[..|xs| - 1];
      var last := xs[|xs| - 1];
      assert xs == front + [last];
      DedupOrder(front);
      var r := Dedup(xs);
      var seen := Dedup(front);
      forall v | v in front ensures FirstIndex(xs, v) == FirstIndex(front, v) {
        FirstIndexPrefix(front, last, v);
      }
      if last !in seen {
        assert last !in front;
        forall i | 0 <= i < |seen| ensures FirstIndex(xs, seen[i]) < FirstIndex(xs, last) {
          assert FirstIndex(xs, last) == |front|;
        }
      }
    }
  }

  lemma FirstIndexPrefix(front: seq<Value>, last: Value, v: Value)
    requires v in front
    ensures FirstIndex(front + [last], v) == FirstIndex(front, v)
  {
    var xs := front + [last];
    var k := FirstIndex(front, v);
    assert xs[k] == v;
    var m := FirstIndex(xs, v);
    assert m <= k;
    assert front[m] == xs[m];
  }

  /** One column of every script, in id order. */
  function ColumnValues(scripts: seq<(int, ScriptRow)>, column: ScriptRow -> Value): (r: seq<Value>)
    ensures |r| == |scripts| && forall k | 0 <= k < |r| :: r[k] == column(scripts[k].1)
  {
    seq(|scripts|, k requires 0 <= k < |scripts| => column(scripts[k].1))
  }

  function IndustryOf(s: ScriptRow): Value { s.industry }
  function CompanySizeOf(s: ScriptRow): Value { s.companySize }
  function LocationOf(s: ScriptRow): Value { s.targetLocation }

  /** The response body (src/app/api/scripts/filters/route.ts:13-21). */
  function FilterLists(scripts: seq<(int, ScriptRow)>): Value {
    Obj(map[
      "industries" := Arr(Dedup(ColumnValues(scripts, IndustryOf))),
      "company_sizes" := Arr(Dedup(ColumnValues(scripts, CompanySizeOf))),
      "locations" := Arr(Dedup(ColumnValues(scripts, LocationOf)))])
  }

  /** Each list is duplicate-free, no longer than the script list, holds a value exactly when some
      script has it in that column, and lists values in the order of their first occurrence. */
  lemma FilterList(scripts: seq<(int, ScriptRow)>, column: ScriptRow -> Value)
    ensures var list := Dedup(ColumnValues(scripts, column));
      && Distinct(list) && |list| <= |scripts|
      && (forall v :: v in list <==> exists k | 0 <= k < |scripts| :: column(scripts[k].1) == v)
      && forall i, j | 0 <= i < j < |list| ::
        FirstIndex(ColumnValues(scripts, column), list[i]) < FirstIndex(ColumnValues(scripts, column), list[j])
  {
    var values := ColumnValues(scripts, column);
    DedupOrder(values);
    forall v ensures v in values <==> exists k | 0 <= k < |scripts| :: column(scripts[k].1) == v {
      if v in values {
        var k :| 0 <= k < |values| && values[k] == v;
        assert column(scripts[k].1) == v;
      }
    }
  }

  /** `GET /api/scripts/filters` */
  method ListFilters(db: Db, user: Option<AuthUser>) returns (r: Response)
    requires db.Valid()
    ensures user.None? ==> r == Unauthorized()
    ensures user.Some? ==> r == Response(200, FilterLists(Rows(db.scripts)))
  {
    if user.None? {
      return Unauthorized();
    }
    var scripts := Rows(db.scripts);
    r := Response(200, FilterLists(scripts));
  }
}
