/** Shared vocabulary of the route handlers: optional JSON fields, the JSON
    reply of a handler, the ordered read of a table (`findMany` with an
    `orderBy` clause) and the `Array.prototype.filter` the handlers apply
    to what they read. */
module Common {

  /** An optional JSON field: `None` stands for `undefined`. */
  datatype Option<T> = None | Some(value: T)

  /** What a route handler answers: status 200 with a payload, or an error
      status with the `error` text of the JSON body. */
  datatype Reply<T> = Ok(payload: T) | Fail(status: nat, error: string)

  /** The error text of every admin handler's 401. */
  const Unauthorized := "Unauthorized"

  /** JavaScript truthiness of an optional string field: `undefined` and
      the empty string are falsy, every other string is truthy. */
  predicate Truthy(s: Option<string>) {
    s.Some? && s.value != ""
  }

  /** The direction of an `orderBy` clause. */
  datatype Direction = Asc | Desc

  predicate InOrder(a: int, b: int, dir: Direction) {
    match dir
    case Asc => a <= b
    case Desc => a >= b
  }

  /** `s` is ordered by `key` in direction `dir`. */
  predicate SortedBy<T>(s: seq<T>, key: T -> int, dir: Direction) {
    forall i, j :: 0 <= i < j < |s| ==> InOrder(key(s[i]), key(s[j]), dir)
  }

  /** Inserts `x` into an ordered sequence, in front of the first element
      that `x` may precede. */
  function InsertBy<T>(s: seq<T>, x: T, key: T -> int, dir: Direction): (r: seq<T>)
    requires SortedBy(s, key, dir)
    ensures SortedBy(r, key, dir)
    ensures multiset(r) == multiset(s) + multiset{x}
  {
    if s == [] || InOrder(key(x), key(s[0]), dir) then
      [x] + s
    else
      var rest := InsertBy(s[1..], x, key, dir);
      assert s == [s[0]] + s[1..];
      forall y | y in rest ensures InOrder(key(s[0]), key(y), dir) {
        assert y in multiset(rest);
      }
      [s[0]] + rest
  }

  /** The rows of `table` as a sequence ordered by `key` in direction `dir`:
      every row once, and nothing else. */
  method Query<T(==)>(table: map<string, T>, key: T -> int, dir: Direction) returns (r: seq<T>)
    ensures |r| == |table|
    ensures forall x :: x in r <==> x in table.Values
    ensures SortedBy(r, key, dir)
  {
    var todo := table.Keys;
    r := [];
    while todo != {}
      invariant todo <= table.Keys
      invariant |r| + |todo| == |table.Keys|
      invariant forall x :: x in r ==> x in table.Values
      invariant forall k :: k in table.Keys - todo ==> table[k] in r
      invariant SortedBy(r, key, dir)
      decreases todo
    {
      var k :| k in todo;
      var row := table[k];
      ghost var before := r;
      r := InsertBy(r, row, key, dir);
      assert row in table.Values;
      forall x | x in r ensures x in before || x == row {
        assert x in multiset(r);
      }
      forall x | x in before ensures x in r {
        assert x in multiset(before);
        assert x in multiset(r);
      }
      assert row in multiset(r);
      todo := todo - {k};
    }
  }

  /** `Array.prototype.filter` with the predicate `keep`. */
  function Filter<T>(s: seq<T>, keep: T -> bool): (r: seq<T>)
    ensures |r| <= |s|
    ensures forall i :: 0 <= i < |r| ==> r[i] in s && keep(r[i])
    ensures forall i :: 0 <= i < |s| && keep(s[i]) ==> s[i] in r
  {
    if s == [] then []
    else if keep(s[0]) then [s[0]] + Filter(s[1..], keep)
    else Filter(s[1..], keep)
  }

  /** Filtering keeps the order of what it keeps. */
  lemma {:induction false} FilterKeepsOrder<T>(s: seq<T>, keep: T -> bool, key: T -> int, dir: Direction)
    requires SortedBy(s, key, dir)
    ensures SortedBy(Filter(s, keep), key, dir)
  {
    if s != [] {
      FilterKeepsOrder(s[1..], keep, key, dir);
    }
  }

  /** What the filter keeps is exactly what passes the predicate. */
  lemma FilterMembers<T>(s: seq<T>, keep: T -> bool)
    ensures forall x :: x in Filter(s, keep) <==> x in s && keep(x)
  {
  }

  /** Splitting by a predicate and by its negation loses and duplicates nothing. */
  lemma {:induction false} FilterSplits<T>(s: seq<T>, keep: T -> bool, drop: T -> bool)
    requires forall x :: drop(x) <==> !keep(x)
    ensures multiset(Filter(s, keep)) + multiset(Filter(s, drop)) == multiset(s)
  {
    if s != [] {
      FilterSplits(s[1..], keep, drop);
      assert s == [s[0]] + s[1..];
    }
  }
}
