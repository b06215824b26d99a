/**
 * Table semantics shared by every relational table of the storage layer:
 * a table is a sequence of rows in insertion order, a column is a function
 * from a row to its value, and the queries the storage layer issues
 * (`WHERE column = value`, `ORDER BY created_at DESC`, unique constraints)
 * are defined here once.
 */
module Tables {
  import opened Wrappers

  /** Some row of `s` has `key` equal to `k`: `SELECT ... WHERE key = k` is non-empty. */
  predicate HasKey<T, K(==)>(s: seq<T>, key: T -> K, k: K)
  {
    exists i :: 0 <= i < |s| && key(s[i]) == k
  }

  /** No two rows of `s` share a value of column `key`: a primary key or `UNIQUE NOT NULL` column. */
  ghost predicate UniqueKey<T, K>(s: seq<T>, key: T -> K)
  {
    forall i, j :: 0 <= i < j < |s| ==> key(s[i]) != key(s[j])
  }

  /**
   * No two rows share a non-null value of the nullable column `key`:
   * a `UNIQUE` column, which admits any number of nulls.
   */
  ghost predicate UniqueWhenPresent<T, K>(s: seq<T>, key: T -> Option<K>)
  {
    forall i, j :: 0 <= i < j < |s| && key(s[i]).Some? ==> key(s[i]) != key(s[j])
  }

  /** Position of the first row, in insertion order, whose column `key` equals `k`. */
  function FirstWithKey<T, K(==)>(s: seq<T>, key: T -> K, k: K): (r: Option<nat>)
    ensures r.None? <==> !HasKey(s, key, k)
    ensures r.Some? ==> r.value < |s| && key(s[r.value]) == k
    ensures r.Some? ==> forall j :: 0 <= j < r.value ==> key(s[j]) != k
    decreases |s|
  {
    if s == [] then None
    else if key(s[0]) == k then Some(0)
    else
      match FirstWithKey(s[1..], key, k)
      case None =>
        assert forall i :: 0 < i < |s| ==> s[i] == s[1..][i - 1];
        None
      case Some(i) => Some(i + 1)
  }

  /**
   * `const [row] = await db.select().from(t).where(eq(t.key, k)); return row || undefined`:
   * the first matching row, or nothing.
   */
  function LookupByKey<T, K(==)>(s: seq<T>, key: T -> K, k: K): (r: Option<T>)
    ensures r.None? <==> !HasKey(s, key, k)
    ensures r.Some? ==> key(r.value) == k
    ensures r.Some? ==> exists i :: 0 <= i < |s| && s[i] == r.value && forall j :: 0 <= j < i ==> key(s[j]) != k
  {
    match FirstWithKey(s, key, k)
    case None => None
    case Some(i) => Some(s[i])
  }

  /** Under a unique key, the row a lookup returns is the only row with that key. */
  lemma LookupUnique<T, K>(s: seq<T>, key: T -> K, k: K, i: nat)
    requires UniqueKey(s, key)
    requires i < |s| && key(s[i]) == k
    ensures LookupByKey(s, key, k) == Some(s[i])
  {
    var p := FirstWithKey(s, key, k);
    assert p.Some?;
  }

  /** Appending a row whose key is new keeps the key unique. */
  lemma UniqueKeyAppend<T, K>(s: seq<T>, key: T -> K, x: T)
    requires !HasKey(s, key, key(x))
    ensures UniqueKey(s, key) ==> UniqueKey(s + [x], key)
  {
    var t := s + [x];
    forall i, j | 0 <= i < j < |t| && UniqueKey(s, key)
      ensures key(t[i]) != key(t[j])
    {
      if j == |s| {
        assert t[i] == s[i];
      } else {
        assert t[i] == s[i] && t[j] == s[j];
      }
    }
  }

  /** The rows of `s` whose column `key` equals `k`, in insertion order. */
  function WithKey<T(==,!new), K(==)>(s: seq<T>, key: T -> K, k: K): (r: seq<T>)
    ensures forall x :: multiset(r)[x] == if key(x) == k then multiset(s)[x] else 0
    ensures forall x :: x in r ==> key(x) == k
  {
    if s == [] then []
    else
      var rest := WithKey(s[1..], key, k);
      assert s == [s[0]] + s[1..];
      if key(s[0]) == k then [s[0]] + rest else rest
  }

  /** `s` is ordered by `stamp`, largest first: `ORDER BY stamp DESC`. */
  ghost predicate NewestFirst<T>(s: seq<T>, stamp: T -> int)
  {
    forall i, j :: 0 <= i < j < |s| ==> stamp(s[i]) >= stamp(s[j])
  }

  /** Places `x` into the newest-first sequence `s`. */
  function InsertNewestFirst<T>(x: T, s: seq<T>, stamp: T -> int): seq<T>
  {
    if s == [] || stamp(x) >= stamp(s[0]) then [x] + s
    else [s[0]] + InsertNewestFirst(x, s[1..], stamp)
  }

  /** The rows of `s` reordered newest first; the order of equal stamps is the database's choice. */
  function SortNewestFirst<T>(s: seq<T>, stamp: T -> int): seq<T>
  {
    if s == [] then [] else InsertNewestFirst(s[0], SortNewestFirst(s[1..], stamp), stamp)
  }

  lemma {:induction false} InsertNewestFirstCorrect<T>(x: T, s: seq<T>, stamp: T -> int)
    requires NewestFirst(s, stamp)
    ensures |InsertNewestFirst(x, s, stamp)| == |s| + 1
    ensures InsertNewestFirst(x, s, stamp)[0] == x || InsertNewestFirst(x, s, stamp)[0] == s[0]
    ensures multiset(InsertNewestFirst(x, s, stamp)) == multiset(s) + multiset{x}
    ensures NewestFirst(InsertNewestFirst(x, s, stamp), stamp)
  {
    if s == [] || stamp(x) >= stamp(s[0]) {
    } else {
      var tail := s[1..];
      assert s == [s[0]] + tail;
      assert NewestFirst(tail, stamp) by {
        forall i, j | 0 <= i < j < |tail| ensures stamp(tail[i]) >= stamp(tail[j]) {
          assert tail[i] == s[i + 1] && tail[j] == s[j + 1];
        }
      }
      InsertNewestFirstCorrect(x, tail, stamp);
      var rest := InsertNewestFirst(x, tail, stamp);
      var r := [s[0]] + rest;
      assert stamp(s[0]) >= stamp(rest[0]) by {
        if rest[0] != x {
          assert rest[0] == s[1];
        }
      }
      forall i, j | 0 <= i < j < |r|
        ensures stamp(r[i]) >= stamp(r[j])
      {
        if i == 0 {
          assert r[j] == rest[j - 1];
          if j > 1 {
            assert stamp(rest[0]) >= stamp(rest[j - 1]);
          }
        } else {
          assert r[i] == rest[i - 1] && r[j] == rest[j - 1];
        }
      }
    }
  }

  /** Sorting newest first is a permutation that leaves the rows ordered by `stamp`. */
  lemma {:induction false} SortNewestFirstCorrect<T>(s: seq<T>, stamp: T -> int)
    ensures multiset(SortNewestFirst(s, stamp)) == multiset(s)
    ensures NewestFirst(SortNewestFirst(s, stamp), stamp)
  {
    if s != [] {
      SortNewestFirstCorrect(s[1..], stamp);
      InsertNewestFirstCorrect(s[0], SortNewestFirst(s[1..], stamp), stamp);
      assert s == [s[0]] + s[1..];
    }
  }
}
