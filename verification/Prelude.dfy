/** Small shared vocabulary: optional values, results and sequence helpers. */
module Prelude {

  datatype Option<+T> = None | Some(value: T) {
    /** The value, or `default` when there is none. */
    function GetOr(default: T): T {
      match this
      case Some(v) => v
      case None => default
    }

    /** This option when it holds a value, else `other`. */
    function Or(other: Option<T>): Option<T> {
      if Some? then this else other
    }
  }

  datatype Result<+T> = Ok(value: T) | Err(error: string)

  /** The last `n` elements of `s`, or all of `s` when it is shorter than that. */
  function Suffix<T>(s: seq<T>, n: nat): seq<T> {
    if n <= |s| then s[|s| - n..] else s
  }

  /** `s` without the element at position `i`. */
  function RemoveAt<T>(s: seq<T>, i: nat): seq<T>
    requires i < |s|
  {
    s[..i] + s[i + 1..]
  }

  /** `s` without any occurrence of `x`, order kept. */
  function Without<T(==)>(s: seq<T>, x: T): seq<T> {
    if s == [] then [] else
    if s[0] == x then Without(s[1..], x) else [s[0]] + Without(s[1..], x)
  }

  /** True when the two sequences have no element in common. */
  ghost predicate Disjoint<T>(a: seq<T>, b: seq<T>) {
    forall x :: x in a ==> x !in b
  }

  lemma {:induction false} WithoutConcat<T>(a: seq<T>, b: seq<T>, x: T)
    ensures Without(a + b, x) == Without(a, x) + Without(b, x)
  {
    if a == [] {
      assert a + b == b;
    } else {
      assert (a + b)[1..] == a[1..] + b;
      WithoutConcat(a[1..], b, x);
    }
  }

  lemma {:induction false} WithoutAbsent<T>(s: seq<T>, x: T)
    ensures Without(s, x) == s <==> x !in s
    ensures |Without(s, x)| <= |s|
    ensures |Without(s, x)| == |s| <==> x !in s
  {
    if s != [] {
      WithoutAbsent(s[1..], x);
      assert s == [s[0]] + s[1..];
    }
  }

  lemma {:induction false} WithoutElements<T>(s: seq<T>, x: T)
    ensures forall y :: y in Without(s, x) <==> y in s && y != x
  {
    if s != [] {
      WithoutElements(s[1..], x);
      assert forall y :: y in s <==> y == s[0] || y in s[1..];
    }
  }
}
