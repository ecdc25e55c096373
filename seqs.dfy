/** A value that may be absent: JavaScript's `undefined`/`null` for an optional field. */
module Optional {

  datatype Option<T> = None | Some(value: T) {

    /** The value, or `default` when absent (the `x ?? default` idiom). */
    function GetOr(default: T): T {
      match this
      case Some(v) => v
      case None => default
    }
  }
}

/**
 * The array combinators the store and the views are built from:
 * `filter`, and `map` that rewrites only the elements whose id matches.
 */
module Seqs {
  import opened Optional

  /** `s.filter(p)`: the elements of `s` satisfying `p`, in their original order. */
  function Filter<T>(s: seq<T>, p: T -> bool): (r: seq<T>)
    ensures |r| <= |s|
  {
    if |s| == 0 then []
    else Filter(s[..|s| - 1], p) + (if p(s[|s| - 1]) then [s[|s| - 1]] else [])
  }

  /** An element survives a filter exactly when it is in the input and passes. */
  lemma {:induction false} FilterMembers<T>(s: seq<T>, p: T -> bool, x: T)
    ensures x in Filter(s, p) <==> x in s && p(x)
  {
    if |s| > 0 {
      FilterMembers(s[..|s| - 1], p, x);
      assert s == s[..|s| - 1] + [s[|s| - 1]];
    }
  }

  /** The negation of a predicate (`x => !p(x)`). */
  function Not<T>(p: T -> bool): T -> bool {
    x => !p(x)
  }

  /** The predicate `x => key(x) !== id` used by every delete action. */
  function KeyIsNot<T>(key: T -> string, id: string): T -> bool {
    x => key(x) != id
  }

  /** `s.filter(x => key(x) !== id)`: everything except the elements with that id. */
  function Without<T>(s: seq<T>, key: T -> string, id: string): seq<T> {
    Filter(s, KeyIsNot(key, id))
  }

  /** `s.map(x => key(x) === id ? f(x) : x)`. */
  function UpdateWhere<T>(s: seq<T>, key: T -> string, id: string, f: T -> T): (r: seq<T>)
    ensures |r| == |s|
    ensures forall i :: 0 <= i < |s| && key(s[i]) != id ==> r[i] == s[i]
    ensures forall i :: 0 <= i < |s| && key(s[i]) == id ==> r[i] == f(s[i])
  {
    seq(|s|, i requires 0 <= i < |s| => if key(s[i]) == id then f(s[i]) else s[i])
  }

  /** Number of elements of `s` with the given id. */
  function CountKey<T>(s: seq<T>, key: T -> string, id: string): (n: nat)
    ensures n <= |s|
    ensures n == 0 <==> forall i :: 0 <= i < |s| ==> key(s[i]) != id
  {
    if |s| == 0 then 0
    else CountKey(s[..|s| - 1], key, id) + (if key(s[|s| - 1]) == id then 1 else 0)
  }

  /** Filtering distributes over concatenation, so it keeps relative order. */
  lemma {:induction false} FilterConcat<T>(a: seq<T>, b: seq<T>, p: T -> bool)
    ensures Filter(a + b, p) == Filter(a, p) + Filter(b, p)
  {
    if |b| == 0 {
      assert a + b == a;
    } else {
      var b' := b[..|b| - 1];
      assert (a + b)[..|a + b| - 1] == a + b';
      assert (a + b)[|a + b| - 1] == b[|b| - 1];
      FilterConcat(a, b', p);
    }
  }

  /** A filter and its complement together account for every element. */
  lemma {:induction false} FilterComplement<T>(s: seq<T>, p: T -> bool)
    ensures |Filter(s, p)| + |Filter(s, Not(p))| == |s|
  {
    if |s| > 0 {
      FilterComplement(s[..|s| - 1], p);
      assert Not(p)(s[|s| - 1]) == !p(s[|s| - 1]);
    }
  }

  /** The same, counting every element with its multiplicity. */
  lemma {:induction false} FilterComplementMultiset<T>(s: seq<T>, p: T -> bool)
    ensures multiset(Filter(s, p)) + multiset(Filter(s, Not(p))) == multiset(s)
  {
    if |s| > 0 {
      var s', x := s[..|s| - 1], s[|s| - 1];
      FilterComplementMultiset(s', p);
      assert s == s' + [x];
      FilterStep(s, p);
      FilterStep(s, Not(p));
      assert Not(p)(x) == !p(x);
    }
  }

  /** One unfolding of Filter, stated on multisets. */
  lemma FilterStep<T>(s: seq<T>, p: T -> bool)
    requires |s| > 0
    ensures multiset(Filter(s, p)) ==
      multiset(Filter(s[..|s| - 1], p)) + (if p(s[|s| - 1]) then multiset{s[|s| - 1]} else multiset{})
  {
  }

  /** A filter that every element passes returns its input. */
  lemma {:induction false} FilterAll<T>(s: seq<T>, p: T -> bool)
    requires forall i :: 0 <= i < |s| ==> p(s[i])
    ensures Filter(s, p) == s
  {
    if |s| > 0 {
      FilterAll(s[..|s| - 1], p);
      assert s[..|s| - 1] + [s[|s| - 1]] == s;
    }
  }

  /** A filter that no element passes returns nothing. */
  lemma {:induction false} FilterNone<T>(s: seq<T>, p: T -> bool)
    requires forall i :: 0 <= i < |s| ==> !p(s[i])
    ensures Filter(s, p) == []
  {
    if |s| > 0 {
      FilterNone(s[..|s| - 1], p);
    }
  }

  /**
   * Filtering keeps relative order: the result is `s` read at strictly
   * increasing positions, each of which passes `p`.
   */
  lemma {:induction false} FilterIndices<T>(s: seq<T>, p: T -> bool) returns (idx: seq<nat>)
    ensures |idx| == |Filter(s, p)|
    ensures forall k :: 0 <= k < |idx| ==> idx[k] < |s| && s[idx[k]] == Filter(s, p)[k] && p(s[idx[k]])
    ensures forall k, l :: 0 <= k < l < |idx| ==> idx[k] < idx[l]
  {
    if |s| == 0 {
      idx := [];
    } else {
      var s' := s[..|s| - 1];
      var prev := FilterIndices(s', p);
      idx := if p(s[|s| - 1]) then prev + [|s| - 1] else prev;
    }
  }

  /** `s.map(f).filter(x => x !== null)`: the present results of `f`, in order. */
  function FilterMap<A, B>(s: seq<A>, f: A -> Option<B>): (r: seq<B>)
    ensures |r| <= |s|
  {
    if |s| == 0 then []
    else
      var last := f(s[|s| - 1]);
      FilterMap(s[..|s| - 1], f) + (if last.Some? then [last.value] else [])
  }

  /** When `f` yields a value at every position, those values are the result. */
  lemma {:induction false} FilterMapAll<A, B>(s: seq<A>, f: A -> Option<B>, r: seq<B>)
    requires |s| == |r|
    requires forall i :: 0 <= i < |s| ==> f(s[i]) == Some(r[i])
    ensures FilterMap(s, f) == r
  {
    if |s| > 0 {
      var n := |s| - 1;
      FilterMapAll(s[..n], f, r[..n]);
      assert r == r[..n] + [r[n]];
    }
  }

  /** A delete keeps exactly the elements whose id differs, and loses one element per match. */
  lemma {:induction false} WithoutCount<T>(s: seq<T>, key: T -> string, id: string)
    ensures |Without(s, key, id)| + CountKey(s, key, id) == |s|
  {
    if |s| > 0 {
      WithoutCount(s[..|s| - 1], key, id);
    }
  }

  /** The loop behind every delete action: `s.filter(x => key(x) !== id)`. */
  method RemoveById<T>(s: seq<T>, key: T -> string, id: string) returns (r: seq<T>)
    ensures r == Without(s, key, id)
  {
    r := [];
    var i := 0;
    while i < |s|
      invariant 0 <= i <= |s|
      invariant r == Without(s[..i], key, id)
    {
      assert s[..i + 1][..i] == s[..i];
      if key(s[i]) != id {
        r := r + [s[i]];
      }
      i := i + 1;
    }
    assert s[..|s|] == s;
  }

  /** The loop behind every toggle/update action: `s.map(x => key(x) === id ? f(x) : x)`. */
  method UpdateById<T>(s: seq<T>, key: T -> string, id: string, f: T -> T) returns (r: seq<T>)
    ensures r == UpdateWhere(s, key, id, f)
  {
    r := [];
    var i := 0;
    while i < |s|
      invariant 0 <= i <= |s|
      invariant |r| == i
      invariant forall k :: 0 <= k < i ==> r[k] == if key(s[k]) == id then f(s[k]) else s[k]
    {
      r := r + [if key(s[i]) == id then f(s[i]) else s[i]];
      i := i + 1;
    }
  }

  /** `s` is in ascending order of `key`. */
  predicate SortedBy<T>(s: seq<T>, key: T -> int) {
    forall i, j :: 0 <= i < j < |s| ==> key(s[i]) <= key(s[j])
  }

  /** Insert `x` before the first element whose key is not smaller. */
  function InsertBy<T>(x: T, s: seq<T>, key: T -> int): (r: seq<T>)
    requires SortedBy(s, key)
    ensures SortedBy(r, key)
    ensures multiset(r) == multiset{x} + multiset(s)
  {
    if |s| == 0 then [x]
    else if key(x) <= key(s[0]) then
      assert s == [s[0]] + s[1..];
      [x] + s
    else
      var t := InsertBy(x, s[1..], key);
      InsertBehindHead(x, s, t, key);
      [s[0]] + t
  }

  /** The step of InsertBy that keeps the head in front. */
  lemma InsertBehindHead<T>(x: T, s: seq<T>, t: seq<T>, key: T -> int)
    requires |s| > 0 && SortedBy(s, key) && key(s[0]) < key(x)
    requires SortedBy(t, key) && multiset(t) == multiset{x} + multiset(s[1..])
    ensures SortedBy([s[0]] + t, key)
    ensures multiset([s[0]] + t) == multiset{x} + multiset(s)
  {
    assert s == [s[0]] + s[1..];
    forall j | 0 <= j < |t| ensures key(s[0]) <= key(t[j]) {
      assert t[j] in multiset(t);
      if t[j] != x {
        assert t[j] in multiset(s[1..]);
        var k :| 0 <= k < |s[1..]| && s[1..][k] == t[j];
        assert s[k + 1] == t[j];
      }
    }
  }

  /**
   * `s.sort((a, b) => key(a) - key(b))`, here insertion of each element into the
   * sorted rest.  The result is ordered by key and holds the same elements.
   */
  function SortBy<T>(s: seq<T>, key: T -> int): (r: seq<T>)
    ensures SortedBy(r, key)
    ensures multiset(r) == multiset(s)
  {
    if |s| == 0 then []
    else
      assert s == [s[0]] + s[1..];
      InsertBy(s[0], SortBy(s[1..], key), key)
  }
}
