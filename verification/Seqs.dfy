/** Powers of two, sequences without repetitions and sums over finite maps, shared by the
    other modules. */
module Seqs {

  datatype Option<+T> = None | Some(value: T)

  function Pow2(n: nat): (r: nat)
    ensures r > 0
  {
    if n == 0 then 1 else 2 * Pow2(n - 1)
  }

  ghost predicate NoDup<T>(s: seq<T>) {
    forall i, j :: 0 <= i < j < |s| ==> s[i] != s[j]
  }

  /** The first position of x in s. */
  function IndexOf<T(==)>(s: seq<T>, x: T): (i: nat)
    requires x in s
    ensures i < |s| && s[i] == x && x !in s[..i]
  {
    if s[0] == x then 0 else
      var i := 1 + IndexOf(s[1..], x);
      assert s[..i] == [s[0]] + s[1..][..i - 1];
      i
  }

  /** s with the first occurrence of x cut out. */
  function Without<T(==)>(s: seq<T>, x: T): (r: seq<T>)
    ensures x !in s ==> r == s
    ensures x in s ==> |r| == |s| - 1
  {
    if x in s then var i := IndexOf(s, x); s[..i] + s[i + 1..] else s
  }

  lemma WithoutNoDup<T>(s: seq<T>, x: T)
    requires NoDup(s)
    ensures NoDup(Without(s, x))
    ensures forall y :: y in Without(s, x) <==> y in s && y != x
  {
    if x in s {
      var i := IndexOf(s, x);
      var r := s[..i] + s[i + 1..];
      assert Without(s, x) == r;
      forall y
        ensures y in r <==> y in s && y != x
      {
        if y in s && y != x {
          var j :| 0 <= j < |s| && s[j] == y;
          assert y == r[if j < i then j else j - 1];
        }
      }
    }
  }

  /** The place in s an element of the shorter sequence comes from. */
  ghost function From<T>(s: seq<T>, x: T, j: nat): (k: nat)
    ensures j <= k <= j + 1
  {
    if x in s && j >= IndexOf(s, x) then j + 1 else j
  }

  lemma WithoutFrom<T>(s: seq<T>, x: T, j: nat)
    requires j < |Without(s, x)|
    ensures From(s, x, j) < |s| && Without(s, x)[j] == s[From(s, x, j)]
    ensures forall k :: 0 <= k < j ==> From(s, x, k) < From(s, x, j)
  {
  }

  lemma WithoutHead<T>(s: seq<T>)
    requires s != []
    ensures Without(s, s[0]) == s[1..]
  {
  }

  /** Sum of the values of a finite map. */
  ghost function Total<T>(m: map<T, nat>): nat {
    if m == map[] then 0 else
      var x :| x in m;
      m[x] + Total(m - {x})
  }

  lemma {:induction false} TotalRemove<T>(m: map<T, nat>, x: T)
    requires x in m
    ensures Total(m) == m[x] + Total(m - {x})
    decreases |m|
  {
    var y :| y in m && Total(m) == m[y] + Total(m - {y});
    if y != x {
      TotalRemove(m - {y}, x);
      TotalRemove(m - {x}, y);
      assert m - {y} - {x} == m - {x} - {y};
    }
  }
}
