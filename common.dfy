/**
 * Shared vocabulary of the food-hub model: optional values, results carrying
 * an error message, left-to-right sums (JavaScript's `reduce`), key-based
 * selection and the partition law that ties per-key sums to a whole sum,
 * `Array.prototype.indexOf`, and `String.prototype.split(c)[0]`.
 */
module Common {

  datatype Option<T> = None | Some(value: T)

  /** A store or query outcome: a value, or the error message it reported. */
  datatype Result<T> = Ok(value: T) | Err(message: string)

  /** A signed-in user as the authentication layer reports it; "" stands for a missing field. */
  datatype User = User(id: string, email: string)

  predicate NoDuplicates<T(==)>(s: seq<T>)
  {
    forall i, j :: 0 <= i < j < |s| ==> s[i] != s[j]
  }

  // ---------------------------------------------------------------------
  // Sums
  // ---------------------------------------------------------------------

  /** `s.reduce((acc, x) => acc + f(x), 0)`, folded from the left as JavaScript does. */
  function SumBy<T>(s: seq<T>, f: T -> int): int
  {
    if |s| == 0 then 0 else SumBy(s[..|s| - 1], f) + f(s[|s| - 1])
  }

  lemma {:induction false} SumByAppend<T>(a: seq<T>, b: seq<T>, f: T -> int)
    ensures SumBy(a + b, f) == SumBy(a, f) + SumBy(b, f)
    decreases |b|
  {
    if |b| == 0 {
      assert a + b == a;
    } else {
      var b' := b[..|b| - 1];
      assert (a + b)[..|a + b| - 1] == a + b';
      assert (a + b)[|a + b| - 1] == b[|b| - 1];
      SumByAppend(a, b', f);
    }
  }

  /** A sum of terms that are never negative is never negative. */
  lemma {:induction false} SumByNonNegative<T>(s: seq<T>, f: T -> int)
    requires forall i :: 0 <= i < |s| ==> f(s[i]) >= 0
    ensures SumBy(s, f) >= 0
    decreases |s|
  {
    if |s| > 0 {
      var s' := s[..|s| - 1];
      assert forall i :: 0 <= i < |s'| ==> s'[i] == s[i];
      SumByNonNegative(s', f);
    }
  }

  // ---------------------------------------------------------------------
  // Selection by key and the partition law
  // ---------------------------------------------------------------------

  /** The elements of `s` whose key is `k`, in their original order. */
  function Select<T, K(==)>(s: seq<T>, key: T -> K, k: K): (r: seq<T>)
    ensures |r| <= |s|
    ensures forall x :: x in r ==> x in s && key(x) == k
    ensures forall x :: x in s && key(x) == k ==> x in r
  {
    if |s| == 0 then []
    else
      var rest := Select(s[..|s| - 1], key, k);
      assert forall x :: x in s ==> x in s[..|s| - 1] || x == s[|s| - 1];
      if key(s[|s| - 1]) == k then rest + [s[|s| - 1]] else rest
  }

  /**
   * Selection keeps order and multiplicity: it distributes over concatenation,
   * and on one element it keeps that element exactly when its key matches.
   */
  lemma {:induction false} SelectAppend<T, K>(a: seq<T>, b: seq<T>, key: T -> K, k: K)
    ensures Select(a + b, key, k) == Select(a, key, k) + Select(b, key, k)
    decreases |b|
  {
    if |b| > 0 {
      var b' := b[..|b| - 1];
      assert (a + b)[..|a + b| - 1] == a + b';
      assert (a + b)[|a + b| - 1] == b[|b| - 1];
      SelectAppend(a, b', key, k);
    } else {
      assert a + b == a;
    }
  }

  lemma SelectOne<T, K>(x: T, key: T -> K, k: K)
    ensures Select([x], key, k) == if key(x) == k then [x] else []
  {
    assert [x][..0] == [];
  }

  /** The elements of `s` whose key is one of `ks`, in their original order. */
  function SelectIn<T, K(==)>(s: seq<T>, key: T -> K, ks: seq<K>): seq<T>
  {
    if |s| == 0 then []
    else
      var rest := SelectIn(s[..|s| - 1], key, ks);
      if key(s[|s| - 1]) in ks then rest + [s[|s| - 1]] else rest
  }

  /** The sum, over the keys `ks`, of the `f`-sum of the elements selected by each key. */
  function SumOverKeys<T, K(==)>(s: seq<T>, key: T -> K, ks: seq<K>, f: T -> int): int
  {
    if |ks| == 0 then 0
    else SumOverKeys(s, key, ks[..|ks| - 1], f) + SumBy(Select(s, key, ks[|ks| - 1]), f)
  }

  /** Appending one element adds its `f` once to the per-key sums when its key is listed once. */
  lemma {:induction false} SumOverKeysSnoc<T, K>(s: seq<T>, x: T, key: T -> K, ks: seq<K>, f: T -> int)
    requires NoDuplicates(ks)
    ensures SumOverKeys(s + [x], key, ks, f)
         == SumOverKeys(s, key, ks, f) + (if key(x) in ks then f(x) else 0)
    decreases |ks|
  {
    if |ks| > 0 {
      var ks' := ks[..|ks| - 1];
      var k := ks[|ks| - 1];
      assert NoDuplicates(ks');
      SumOverKeysSnoc(s, x, key, ks', f);
      assert (s + [x])[..|s + [x]| - 1] == s;
      if key(x) == k {
        assert Select(s + [x], key, k) == Select(s, key, k) + [x];
        SumByAppend(Select(s, key, k), [x], f);
        assert [x][..0] == [];
        assert key(x) !in ks' by {
          forall i | 0 <= i < |ks'| ensures ks'[i] != k { assert ks[i] == ks'[i]; }
        }
      } else {
        assert Select(s + [x], key, k) == Select(s, key, k);
      }
      assert key(x) in ks <==> key(x) in ks' || key(x) == k by {
        assert ks == ks' + [k];
      }
    }
  }

  /**
   * The partition law: when each key is listed once, the per-key sums add up
   * to the sum over every element whose key is listed.
   */
  lemma {:induction false} PartitionSum<T, K>(s: seq<T>, key: T -> K, ks: seq<K>, f: T -> int)
    requires NoDuplicates(ks)
    ensures SumOverKeys(s, key, ks, f) == SumBy(SelectIn(s, key, ks), f)
    decreases |s|
  {
    if |s| == 0 {
      SumOverKeysEmpty(key, ks, f);
    } else {
      var s' := s[..|s| - 1];
      var x := s[|s| - 1];
      assert s == s' + [x];
      PartitionSum(s', key, ks, f);
      SumOverKeysSnoc(s', x, key, ks, f);
      if key(x) in ks {
        SumByAppend(SelectIn(s', key, ks), [x], f);
        assert [x][..0] == [];
      }
    }
  }

  lemma {:induction false} SumOverKeysEmpty<T, K>(key: T -> K, ks: seq<K>, f: T -> int)
    ensures SumOverKeys([], key, ks, f) == 0
    decreases |ks|
  {
    if |ks| > 0 {
      SumOverKeysEmpty(key, ks[..|ks| - 1], f);
    }
  }

  /** Selecting by a key list that covers every element's key keeps everything. */
  lemma {:induction false} SelectInCovering<T, K>(s: seq<T>, key: T -> K, ks: seq<K>)
    requires forall x :: x in s ==> key(x) in ks
    ensures SelectIn(s, key, ks) == s
    decreases |s|
  {
    if |s| > 0 {
      var s' := s[..|s| - 1];
      assert forall x :: x in s' ==> x in s;
      SelectInCovering(s', key, ks);
      assert s == s' + [s[|s| - 1]];
    }
  }

  /** `SelectIn` only looks at which of the elements' keys are listed. */
  lemma {:induction false} SelectInSameMembership<T, K>(s: seq<T>, key: T -> K, ks: seq<K>, ks': seq<K>)
    requires forall x :: x in s ==> (key(x) in ks <==> key(x) in ks')
    ensures SelectIn(s, key, ks) == SelectIn(s, key, ks')
    decreases |s|
  {
    if |s| > 0 {
      var s' := s[..|s| - 1];
      assert forall x :: x in s' ==> x in s;
      SelectInSameMembership(s', key, ks, ks');
    }
  }

  // ---------------------------------------------------------------------
  // Searching
  // ---------------------------------------------------------------------

  /** `s.indexOf(x)`: the position of the first occurrence of `x`, or -1 when there is none. */
  function IndexOf<T(==)>(s: seq<T>, x: T): (r: int)
    ensures -1 <= r < |s|
    ensures r == -1 <==> x !in s
    ensures 0 <= r ==> s[r] == x && x !in s[..r]
  {
    if |s| == 0 then -1
    else if s[0] == x then 0
    else
      var k := IndexOf(s[1..], x);
      assert s == [s[0]] + s[1..];
      if k == -1 then -1
      else
        assert s[..k + 1] == [s[0]] + s[1..][..k];
        k + 1
  }

  /** An occurrence of `x` with no earlier one is the position `indexOf` reports. */
  lemma IndexOfFirst<T>(s: seq<T>, i: int, x: T)
    requires 0 <= i < |s| && s[i] == x && x !in s[..i]
    ensures IndexOf(s, x) == i
  {
    assert s[..i + 1] == s[..i] + [x];
  }

  /** In a list without repetitions, `indexOf` finds every entry at its own position. */
  lemma IndexOfDistinct<T>(s: seq<T>, i: int)
    requires NoDuplicates(s) && 0 <= i < |s|
    ensures IndexOf(s, s[i]) == i
  {
    forall j | 0 <= j < i ensures s[..i][j] != s[i] {
    }
    IndexOfFirst(s, i, s[i]);
  }

  /** `s.split(c)[0]`: the text before the first `c`, or all of `s` when it has none. */
  function BeforeFirst(s: string, c: char): (r: string)
    ensures r <= s
    ensures c !in r
    ensures |r| < |s| ==> s[|r|] == c
  {
    if |s| == 0 then ""
    else if s[0] == c then ""
    else
      var rest := BeforeFirst(s[1..], c);
      assert s == [s[0]] + s[1..];
      [s[0]] + rest
  }

  /** `s.slice(0, n)`. */
  function Take(s: string, n: nat): (r: string)
    ensures r <= s
    ensures |r| == if |s| < n then |s| else n
  {
    if |s| < n then s else s[..n]
  }
}
