/**
 * In-memory model of a repository table: rows keyed by their auto-increment id.
 * Every key is below the table's next id, so rows can be listed in ascending id order.
 */
module Table {
  import opened Wrappers

  /** Every key of `t` is below `bound`. */
  predicate KeysBelow<R>(t: map<nat, R>, bound: nat) {
    forall k :: k in t ==> k < bound
  }

  /** The keys of `t` below `n`, in ascending order. */
  function IdsBelow<R>(t: map<nat, R>, n: nat): (ids: seq<nat>)
    ensures forall k :: k in ids <==> k in t && k < n
    ensures forall i, j :: 0 <= i < j < |ids| ==> ids[i] < ids[j]
    ensures forall i :: 0 <= i < |ids| ==> ids[i] < n
  {
    if n == 0 then []
    else
      var front := IdsBelow(t, n - 1);
      if n - 1 in t then front + [n - 1] else front
  }

  /** The rows of `t`, in ascending id order. */
  function Rows<R>(t: map<nat, R>, bound: nat): (rows: seq<R>)
    requires KeysBelow(t, bound)
    ensures |rows| == |IdsBelow(t, bound)| == |t|
    ensures forall i :: 0 <= i < |rows| ==> rows[i] == t[IdsBelow(t, bound)[i]]
  {
    var ids := IdsBelow(t, bound);
    IdsCoverKeys(t, bound);
    seq(|ids|, i requires 0 <= i < |ids| => t[ids[i]])
  }

  /** The ascending id listing holds each key exactly once, so it is as long as the table. */
  lemma IdsCoverKeys<R>(t: map<nat, R>, bound: nat)
    requires KeysBelow(t, bound)
    ensures |IdsBelow(t, bound)| == |t|
  {
    DistinctSeqSize(IdsBelow(t, bound), t.Keys);
  }

  /** A strictly increasing sequence whose elements are exactly `s` has `|s|` elements. */
  lemma {:induction false} DistinctSeqSize(ids: seq<nat>, s: set<nat>)
    requires forall i, j :: 0 <= i < j < |ids| ==> ids[i] < ids[j]
    requires forall k :: k in ids <==> k in s
    ensures |ids| == |s|
  {
    if ids != [] {
      var last := ids[|ids| - 1];
      var front := ids[..|ids| - 1];
      assert forall i :: 0 <= i < |front| ==> front[i] < last;
      forall k ensures k in front <==> k in s - {last} {
        if k in front {
          var i :| 0 <= i < |front| && front[i] == k;
        }
        if k in s - {last} {
          assert k in ids;
          var i :| 0 <= i < |ids| && ids[i] == k;
          assert i != |ids| - 1;
          assert front[i] == k;
        }
      }
      DistinctSeqSize(front, s - {last});
    }
  }

  /** The rows of `t` that `keep` accepts, with their ids. */
  function Restrict<R>(t: map<nat, R>, keep: R -> bool): (m: map<nat, R>)
    ensures forall k :: k in m <==> k in t && keep(t[k])
    ensures forall k :: k in m ==> m[k] == t[k]
  {
    map k | k in t && keep(t[k]) :: t[k]
  }

  /** The row with the smallest id that `keep` accepts, as a `getOne` without an order returns it. */
  function First<R>(t: map<nat, R>, bound: nat, keep: R -> bool): (r: Option<nat>)
    requires KeysBelow(t, bound)
    ensures r.Some? ==> r.value in t && keep(t[r.value])
    ensures r.Some? ==> forall k :: k in t && keep(t[k]) ==> r.value <= k
    ensures r.None? <==> forall k :: k in t ==> !keep(t[k])
  {
    FirstFrom(t, 0, bound, keep)
  }

  function FirstFrom<R>(t: map<nat, R>, from: nat, bound: nat, keep: R -> bool): (r: Option<nat>)
    requires KeysBelow(t, bound)
    ensures r.Some? ==> r.value in t && keep(t[r.value]) && from <= r.value
    ensures r.Some? ==> forall k :: from <= k && k in t && keep(t[k]) ==> r.value <= k
    ensures r.None? <==> forall k :: from <= k && k in t ==> !keep(t[k])
    decreases bound - from
  {
    if from >= bound then None
    else if from in t && keep(t[from]) then Some(from)
    else FirstFrom(t, from + 1, bound, keep)
  }

  /** No two rows of `t` agree on `key`: a unique constraint on that column. */
  ghost predicate UniqueBy<R, K>(t: map<nat, R>, key: R -> K) {
    forall a, b :: a in t && b in t && key(t[a]) == key(t[b]) ==> a == b
  }
}
