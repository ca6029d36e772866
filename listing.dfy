/** Lists of rows: `Array.prototype.filter`, the stable newest-first sort the
    pages apply, and the store's `select … order("created_at", { ascending: false })`. */
module Listing {

  /** Every row is at least as new as every row after it. */
  predicate NewestFirst<T>(s: seq<T>, at: T -> int) {
    forall i, j :: 0 <= i < j < |s| ==> at(s[i]) >= at(s[j])
  }

  /** `s.filter(p)`: the rows that satisfy `p`, each as often as in `s`, in their order. */
  function Filter<T(!new)>(s: seq<T>, p: T -> bool): (r: seq<T>)
    ensures |r| <= |s|
    ensures forall x :: x in r <==> x in s && p(x)
    ensures forall x :: multiset(r)[x] == if p(x) then multiset(s)[x] else 0
  {
    if s == [] then []
    else
      assert s == [s[0]] + s[1..];
      (if p(s[0]) then [s[0]] else []) + Filter(s[1..], p)
  }

  /** Places `x` before the first row that is not newer than it. */
  function InsertNewest<T>(x: T, s: seq<T>, at: T -> int): (r: seq<T>)
    requires NewestFirst(s, at)
    ensures NewestFirst(r, at)
    ensures multiset(r) == multiset(s) + multiset{x}
    ensures |r| == |s| + 1 && (r[0] == x || (s != [] && r[0] == s[0]))
  {
    if s == [] || at(s[0]) <= at(x) then
      ConsNewestFirst(x, s, at);
      [x] + s
    else
      var rest := InsertNewest(x, s[1..], at);
      assert s == [s[0]] + s[1..];
      ConsNewestFirst(s[0], rest, at);
      [s[0]] + rest
  }

  lemma ConsNewestFirst<T>(x: T, s: seq<T>, at: T -> int)
    requires NewestFirst(s, at)
    requires s == [] || at(x) >= at(s[0])
    ensures NewestFirst([x] + s, at)
  {
    var r := [x] + s;
    forall i, j | 0 <= i < j < |r| ensures at(r[i]) >= at(r[j]) {
      if i == 0 && j > 1 {
        assert at(s[0]) >= at(s[j - 1]);
      }
    }
  }

  /** `list.sort((a, b) => at(b) - at(a))`: newest first; rows with equal times
      keep their relative order, as JavaScript's stable sort does (`SortIsStable`). */
  function SortNewestFirst<T>(s: seq<T>, at: T -> int): (r: seq<T>)
    ensures NewestFirst(r, at)
    ensures multiset(r) == multiset(s)
  {
    if s == [] then []
    else
      assert s == [s[0]] + s[1..];
      InsertNewest(s[0], SortNewestFirst(s[1..], at), at)
  }

  /** The keys of a table that hold the row `v`. */
  ghost function KeysHolding<V>(m: map<string, V>, v: V): set<string> {
    set k | k in m && m[k] == v
  }

  /** The rows of a table, in the unspecified order the store keeps them:
      each stored row once per key that holds it. */
  ghost function RowsOf<V(!new)>(m: map<string, V>): (r: seq<V>)
    ensures |r| == |m.Keys|
    ensures forall k :: k in m ==> m[k] in r
    ensures forall v :: v in r ==> v in m.Values
    ensures forall v :: multiset(r)[v] == |KeysHolding(m, v)|
    decreases |m.Keys|
  {
    if m.Keys == {} then
      assert forall v :: KeysHolding(m, v) == {};
      []
    else
      var k :| k in m;
      var rest := m - {k};
      assert rest.Keys == m.Keys - {k};
      var r := [m[k]] + RowsOf(rest);
      forall k' | k' in m ensures m[k'] in r {
        if k' != k { assert rest[k'] == m[k']; }
      }
      forall v | v in r ensures v in m.Values {
        if v != m[k] {
          var k' :| k' in rest && rest[k'] == v;
          assert m[k'] == v;
        }
      }
      forall v ensures multiset(r)[v] == |KeysHolding(m, v)| {
        HoldingSplit(m, k, v);
      }
      r
  }

  /** Splitting one key off a table splits the keys holding each row. */
  lemma HoldingSplit<V>(m: map<string, V>, k: string, v: V)
    requires k in m
    ensures |KeysHolding(m, v)| == |KeysHolding(m - {k}, v)| + (if m[k] == v then 1 else 0)
  {
    var a, b := KeysHolding(m, v), KeysHolding(m - {k}, v);
    if m[k] == v {
      assert a == b + {k};
      assert k !in b;
    } else {
      assert a == b;
    }
  }

  /** `select … where p order by at desc`: exactly the rows satisfying `p`,
      newest first. */
  ghost function SelectNewestFirst<V(!new)>(m: map<string, V>, p: V -> bool, at: V -> int): (r: seq<V>)
    ensures NewestFirst(r, at)
    ensures forall v :: v in r ==> v in m.Values && p(v)
    ensures forall k :: k in m && p(m[k]) ==> m[k] in r
    ensures forall v :: multiset(r)[v] == if p(v) then |KeysHolding(m, v)| else 0
  {
    var rows := Filter(RowsOf(m), p);
    var r := SortNewestFirst(rows, at);
    assert forall v :: v in r <==> v in rows by {
      forall v ensures v in r <==> v in rows {
        assert v in r <==> v in multiset(r);
        assert v in rows <==> v in multiset(rows);
      }
    }
    r
  }

  // ---------------------------------------------------------------- lemmas

  /** In a table keyed by the rows' own ids, a select lists each row it
      lists exactly once. */
  lemma KeyedSelectOnce<V(!new)>(m: map<string, V>, p: V -> bool, at: V -> int, id: V -> string)
    requires forall k :: k in m ==> id(m[k]) == k
    ensures forall v :: v in SelectNewestFirst(m, p, at) ==> multiset(SelectNewestFirst(m, p, at))[v] == 1
  {
    var r := SelectNewestFirst(m, p, at);
    forall v | v in r ensures multiset(r)[v] == 1 {
      var k :| k in m && m[k] == v;
      assert KeysHolding(m, v) == {k};
    }
  }

  /** Filtering keeps the order of what it keeps: a newest-first list stays newest first. */
  lemma {:induction false} FilterKeepsNewestFirst<T(!new)>(s: seq<T>, p: T -> bool, at: T -> int)
    requires NewestFirst(s, at)
    ensures NewestFirst(Filter(s, p), at)
  {
    if s != [] {
      FilterKeepsNewestFirst(s[1..], p, at);
      var rest := Filter(s[1..], p);
      assert forall j :: 0 <= j < |rest| ==> at(s[0]) >= at(rest[j]) by {
        forall j | 0 <= j < |rest| ensures at(s[0]) >= at(rest[j]) {
          assert rest[j] in s[1..];
        }
      }
    }
  }

  /** The rows created at time `t`, in their order. */
  function Ties<T>(s: seq<T>, at: T -> int, t: int): seq<T> {
    if s == [] then [] else (if at(s[0]) == t then [s[0]] else []) + Ties(s[1..], at, t)
  }

  lemma TiesCons<T>(x: T, s: seq<T>, at: T -> int, t: int)
    ensures Ties([x] + s, at, t) == (if at(x) == t then [x] else []) + Ties(s, at, t)
  {
    assert ([x] + s)[0] == x && ([x] + s)[1..] == s;
  }

  /** Inserting `x` leaves the rows of every time in their order, with `x`
      ahead of the rows of its own time. */
  lemma {:induction false} InsertKeepsTies<T>(x: T, s: seq<T>, at: T -> int, t: int)
    requires NewestFirst(s, at)
    ensures Ties(InsertNewest(x, s, at), at, t) == (if at(x) == t then [x] else []) + Ties(s, at, t)
  {
    if s == [] || at(s[0]) <= at(x) {
      assert InsertNewest(x, s, at) == [x] + s;
      TiesCons(x, s, at, t);
    } else {
      var rest := InsertNewest(x, s[1..], at);
      assert InsertNewest(x, s, at) == [s[0]] + rest;
      InsertKeepsTies(x, s[1..], at, t);
      TiesCons(s[0], rest, at, t);
      assert s == [s[0]] + s[1..];
      TiesCons(s[0], s[1..], at, t);
    }
  }

  /** The sort is stable: for every time, the rows created at that time come
      out in the order they came in. */
  lemma {:induction false} SortIsStable<T>(s: seq<T>, at: T -> int, t: int)
    ensures Ties(SortNewestFirst(s, at), at, t) == Ties(s, at, t)
  {
    if s != [] {
      SortIsStable(s[1..], at, t);
      InsertKeepsTies(s[0], SortNewestFirst(s[1..], at), at, t);
      assert s == [s[0]] + s[1..];
      TiesCons(s[0], s[1..], at, t);
    }
  }

  /** Lists filtered by exclusive conditions share no row. */
  lemma FiltersDisjoint<T(!new)>(s: seq<T>, p: T -> bool, q: T -> bool)
    requires forall x :: !(p(x) && q(x))
    ensures forall x :: !(x in Filter(s, p) && x in Filter(s, q))
  {
  }
}
