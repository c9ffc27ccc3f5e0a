/** Small shared vocabulary: an optional value and a filter-map over sequences. */
module Wrappers {

  datatype Option<+T> = None | Some(value: T)

  /** The payload of an option, as a sequence of length at most one. */
  function AsSeq<T>(o: Option<T>): seq<T> {
    match o
    case Some(v) => [v]
    case None => []
  }

  /** Keeps, in order, the payload of every element that `f` selects. */
  function Pick<T, U>(s: seq<T>, f: T -> Option<U>): (r: seq<U>)
    ensures |r| <= |s|
  {
    if s == [] then [] else AsSeq(f(s[0])) + Pick(s[1..], f)
  }

  lemma PickCons<T, U>(x: T, s: seq<T>, f: T -> Option<U>)
    ensures Pick([x] + s, f) == AsSeq(f(x)) + Pick(s, f)
  {
    assert ([x] + s)[1..] == s;
  }

  /** Nothing selected, nothing kept. */
  lemma {:induction false} PickNone<T, U>(s: seq<T>, f: T -> Option<U>)
    requires forall i :: 0 <= i < |s| ==> f(s[i]).None?
    ensures Pick(s, f) == []
  {
    if s != [] {
      PickNone(s[1..], f);
    }
  }

  /** `n` copies of `x`. */
  function Repeat<T>(x: T, n: nat): (r: seq<T>)
    ensures |r| == n
    ensures forall i :: 0 <= i < n ==> r[i] == x
  {
    if n == 0 then [] else [x] + Repeat(x, n - 1)
  }

  lemma RepeatSnoc<T>(x: T, n: nat)
    ensures Repeat(x, n + 1) == Repeat(x, n) + [x]
  {
    assert Repeat(x, n + 1) == Repeat(x, n) + [x] by {
      var a, b := Repeat(x, n + 1), Repeat(x, n) + [x];
      assert |a| == |b|;
      forall i | 0 <= i < |a| ensures a[i] == b[i] {}
    }
  }

  lemma {:induction false} RepeatConcat<T>(x: T, m: nat, n: nat)
    ensures Repeat(x, m + n) == Repeat(x, m) + Repeat(x, n)
    decreases m
  {
    if m > 0 {
      RepeatConcat(x, m - 1, n);
    }
  }

  /** A non-empty prefix is its first element followed by a prefix of the rest. */
  lemma TakeCons<T>(s: seq<T>, n: nat)
    requires 0 < n <= |s|
    ensures s[..n] == [s[0]] + s[1..][..n - 1]
  {
    assert s[..n] == [s[0]] + s[1..][..n - 1] by {
      var a, b := s[..n], [s[0]] + s[1..][..n - 1];
      assert |a| == |b|;
      forall i | 0 <= i < |a| ensures a[i] == b[i] {
        if i > 0 {
          assert b[i] == s[1..][i - 1];
        }
      }
    }
  }

  /** A prefix grows by one element at a time. */
  lemma TakeSnoc<T>(s: seq<T>, i: nat)
    requires i < |s|
    ensures s[..i + 1] == s[..i] + [s[i]]
  {
    assert s[..i + 1] == s[..i] + [s[i]] by {
      var a, b := s[..i + 1], s[..i] + [s[i]];
      assert |a| == |b|;
      forall j | 0 <= j < |a| ensures a[j] == b[j] {}
    }
  }

  /** Filtering distributes over concatenation. */
  lemma {:induction false} PickConcat<T, U>(a: seq<T>, b: seq<T>, f: T -> Option<U>)
    ensures Pick(a + b, f) == Pick(a, f) + Pick(b, f)
  {
    if a == [] {
      assert a + b == b;
    } else {
      assert (a + b)[1..] == a[1..] + b;
      PickConcat(a[1..], b, f);
    }
  }
}
