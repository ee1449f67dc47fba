/**
 * The part of the ORM's select query builder that the services drive: a handle that records
 * `where` clauses, one ordering, and optional `skip`/`take`, and that is executed by
 * `getManyAndCount`. What a recorded clause means to the database (SQL, `IsNull()`, a null
 * value, the search-index helpers) is not modelled: executing a query takes that meaning as
 * an uninterpreted `holds` relation.
 */
module QueryBuilder {
  import opened Wrappers

  /** A value bound to a clause's parameter. */
  datatype Value = Num(n: int) | Text(s: string) | Nums(ns: seq<int>) | Texts(ts: seq<string>) | Null

  datatype Direction = Asc | Desc

  /** One recorded `where` clause. */
  datatype Predicate =
    | Sql(condition: string, param: Value)          // andWhere('<condition>', { name: value })
    | ColumnEquals(column: string, value: Value)    // andWhere({ column: value })
    | ColumnIsNull(column: string)                  // andWhere({ column: IsNull() })
    | Filter(column: string, value: Value)          // the shared setFilter helper
    | InFilter(column: string, values: Value)       // the shared setInFilter helper
    | Search(column: string, searchValue: Option<string>, searchBy: Option<string>)  // setAlgoliaSearch

  datatype Order = Order(key: string, direction: Option<Direction>)

  /** Everything a builder has recorded. */
  datatype BuiltQuery = BuiltQuery(predicates: seq<Predicate>, order: Option<Order>, skip: Option<nat>, take: Option<nat>)

  /** A query builder over the table aliased `alias`; each call mutates it in place. */
  class SelectQueryBuilder {
    const alias: string
    var predicates: seq<Predicate>
    var order: Option<Order>
    var skip: Option<nat>
    var take: Option<nat>

    function Snapshot(): BuiltQuery
      reads this
    {
      BuiltQuery(predicates, order, skip, take)
    }

    constructor (alias: string)
      ensures this.alias == alias
      ensures Snapshot() == BuiltQuery([], None, None, None)
    {
      this.alias := alias;
      predicates, order, skip, take := [], None, None, None;
    }

    /** Adds one clause after those already recorded. */
    method AndWhere(p: Predicate)
      modifies this
      ensures Snapshot() == old(Snapshot()).(predicates := old(predicates) + [p])
      ensures predicates == old(predicates) + [p] && order == old(order) && skip == old(skip) && take == old(take)
    {
      predicates := predicates + [p];
    }

    /** Replaces the ordering. */
    method OrderBy(key: string, direction: Option<Direction>)
      modifies this
      ensures Snapshot() == old(Snapshot()).(order := Some(Order(key, direction)))
    {
      order := Some(Order(key, direction));
    }

    method Skip(n: nat)
      modifies this
      ensures Snapshot() == old(Snapshot()).(skip := Some(n))
    {
      skip := Some(n);
    }

    method Take(n: nat)
      modifies this
      ensures Snapshot() == old(Snapshot()).(take := Some(n))
    {
      take := Some(n);
    }
  }

  /** Row `r` satisfies every clause of `preds`. */
  predicate SatisfiesAll<R>(preds: seq<Predicate>, r: R, holds: (Predicate, R) -> bool) {
    forall p :: p in preds ==> holds(p, r)
  }

  /** The rows that satisfy every clause, in their order. */
  function Matching<R>(rows: seq<R>, preds: seq<Predicate>, holds: (Predicate, R) -> bool): (m: seq<R>)
    ensures |m| <= |rows|
    ensures forall i :: 0 <= i < |m| ==> m[i] in rows && SatisfiesAll(preds, m[i], holds)
    ensures forall i :: 0 <= i < |rows| && SatisfiesAll(preds, rows[i], holds) ==> rows[i] in m
  {
    if rows == [] then []
    else
      var rest := Matching(rows[1..], preds, holds);
      assert forall i :: 1 <= i < |rows| ==> rows[i] == rows[1..][i - 1];
      if SatisfiesAll(preds, rows[0], holds) then [rows[0]] + rest else rest
  }

  /** A single row is kept exactly when it satisfies every clause. */
  lemma MatchingOne<R>(r: R, preds: seq<Predicate>, holds: (Predicate, R) -> bool)
    ensures Matching([r], preds, holds) == if SatisfiesAll(preds, r, holds) then [r] else []
  {
    assert [r][1..] == [];
  }

  /**
   * Filtering distributes over concatenation: the matches keep the rows' order, and each row
   * appears as often as it does in `rows`. With `MatchingOne` this fixes the result completely.
   */
  lemma {:induction false} MatchingAppend<R>(a: seq<R>, b: seq<R>, preds: seq<Predicate>, holds: (Predicate, R) -> bool)
    ensures Matching(a + b, preds, holds) == Matching(a, preds, holds) + Matching(b, preds, holds)
    decreases |a|
  {
    if a == [] {
      assert a + b == b;
    } else {
      assert (a + b)[1..] == a[1..] + b;
      assert (a + b)[0] == a[0];
      MatchingAppend(a[1..], b, preds, holds);
    }
  }

  /** The part of `rows` that `skip` and `take` select. */
  function Window<R>(rows: seq<R>, skip: Option<nat>, take: Option<nat>): (w: seq<R>)
    ensures var from := if skip.GetOr(0) <= |rows| then skip.GetOr(0) else |rows|;
            && from + |w| <= |rows|
            && (forall i :: 0 <= i < |w| ==> w[i] == rows[from + i])
            && (take.None? ==> |w| == |rows| - from)
            && (take.Some? ==> |w| == if take.value <= |rows| - from then take.value else |rows| - from)
  {
    var from := if skip.GetOr(0) <= |rows| then skip.GetOr(0) else |rows|;
    var rest := rows[from..];
    match take
    case None => rest
    case Some(n) => if n <= |rest| then rest[..n] else rest
  }

  /** `getManyAndCount`: the selected page of matching rows and the number of all matching rows. */
  function GetManyAndCount<R>(q: BuiltQuery, rows: seq<R>, holds: (Predicate, R) -> bool): (seq<R>, nat)
  {
    var m := Matching(rows, q.predicates, holds);
    (Window(m, q.skip, q.take), |m|)
  }

  /**
   * The count never depends on `skip` or `take`; without them the page is every matching row,
   * so its length is the count.
   */
  lemma CountIgnoresPaging<R>(q: BuiltQuery, rows: seq<R>, holds: (Predicate, R) -> bool)
    ensures GetManyAndCount(q, rows, holds).1 == GetManyAndCount(q.(skip := None, take := None), rows, holds).1
    ensures q.skip.None? && q.take.None? ==>
      GetManyAndCount(q, rows, holds).0 == Matching(rows, q.predicates, holds)
      && |GetManyAndCount(q, rows, holds).0| == GetManyAndCount(q, rows, holds).1
    ensures q.take.Some? ==> |GetManyAndCount(q, rows, holds).0| <= q.take.value
  {
  }
}
