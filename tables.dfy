/** Queries over a table kept as a sequence of rows: a `WHERE` filter and
    the first row a condition accepts, with the facts about them the
    tables' operations rely on. */
module Tables {
  import opened Wrappers

  /** The rows of `s` that `keep` accepts, in their order (a `WHERE`). */
  function Filter<T(!new)>(s: seq<T>, keep: T -> bool): (r: seq<T>)
    ensures |r| <= |s|
    ensures forall x :: x in r <==> x in s && keep(x)
  {
    if s == [] then []
    else
      assert s == [s[0]] + s[1..];
      (if keep(s[0]) then [s[0]] else []) + Filter(s[1..], keep)
  }

  /** Filtering twice by the same condition filters once. */
  lemma {:induction false} FilterIdempotent<T(!new)>(s: seq<T>, keep: T -> bool)
    ensures Filter(Filter(s, keep), keep) == Filter(s, keep)
  {
    if s != [] {
      FilterIdempotent(s[1..], keep);
      var f := Filter(s, keep);
      if keep(s[0]) {
        assert f == [s[0]] + Filter(s[1..], keep);
        assert f[1..] == Filter(s[1..], keep);
        assert Filter(f, keep) == [f[0]] + Filter(f[1..], keep);
      } else {
        assert f == [] + Filter(s[1..], keep) == Filter(s[1..], keep);
      }
    }
  }

  /** A condition every row meets removes nothing. */
  lemma {:induction false} FilterKeepsAll<T(!new)>(s: seq<T>, keep: T -> bool)
    requires forall x :: x in s ==> keep(x)
    ensures Filter(s, keep) == s
  {
    if s != [] {
      FilterKeepsAll(s[1..], keep);
      assert s == [s[0]] + s[1..];
    }
  }

  lemma {:induction false} FilterAppend<T(!new)>(s: seq<T>, t: seq<T>, keep: T -> bool)
    ensures Filter(s + t, keep) == Filter(s, keep) + Filter(t, keep)
  {
    if s == [] {
      assert s + t == t;
    } else {
      assert (s + t)[1..] == s[1..] + t;
      FilterAppend(s[1..], t, keep);
    }
  }

  /** The first row the condition accepts (what `db.get` returns), if any. */
  function FirstWhere<T(!new)>(rows: seq<T>, accept: T -> bool): (found: Option<T>)
    ensures found.None? <==> forall r :: r in rows ==> !accept(r)
    ensures found.Some? ==> found.value in rows && accept(found.value)
  {
    if rows == [] then None
    else if accept(rows[0]) then Some(rows[0])
    else FirstWhere(rows[1..], accept)
  }
}
