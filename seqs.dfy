/**
 * The two array searches the storefront relies on, written once:
 * `Array.prototype.find` (as the index of the first match) and
 * `Array.prototype.filter`. Both take the element test as a total function.
 */
module Seqs {
  import opened Wrappers

  /** `i` is the position of the first element of `s` that passes `p`. */
  ghost predicate FirstMatch<T>(s: seq<T>, p: T -> bool, i: int) {
    0 <= i < |s| && p(s[i]) && forall j :: 0 <= j < i ==> !p(s[j])
  }

  /** No element of `s` passes `p`. */
  ghost predicate NoMatch<T>(s: seq<T>, p: T -> bool) {
    forall j :: 0 <= j < |s| ==> !p(s[j])
  }

  /** The position `find` stops at: the first match, or None when nothing matches. */
  function FindIndex<T>(s: seq<T>, p: T -> bool): (r: Option<nat>)
    ensures r.Some? ==> FirstMatch(s, p, r.value)
    ensures r.None? <==> NoMatch(s, p)
  {
    if |s| == 0 then None
    else if p(s[0]) then Some(0)
    else match FindIndex(s[1..], p)
      case None => None
      case Some(i) => Some(i + 1)
  }

  /** The elements of `s` that pass `p`, in the order they occur in `s`. */
  function Filter<T>(s: seq<T>, p: T -> bool): (r: seq<T>)
    ensures |r| <= |s|
    ensures forall i :: 0 <= i < |r| ==> p(r[i])
  {
    if |s| == 0 then []
    else (if p(s[0]) then [s[0]] else []) + Filter(s[1..], p)
  }

  /** A search that misses a prefix is decided by what follows it. */
  lemma {:induction false} FindIndexAppend<T>(s: seq<T>, x: T, p: T -> bool)
    requires NoMatch(s, p)
    ensures FindIndex(s + [x], p) == if p(x) then Some(|s|) else None
  {
    if p(x) {
      assert FirstMatch(s + [x], p, |s|);
    }
    forall j | 0 <= j < |s| ensures (s + [x])[j] == s[j] { }
  }

  /** Extending a sequence whose first match is already known does not move that match. */
  lemma FindIndexExtend<T>(s: seq<T>, t: seq<T>, p: T -> bool, i: nat)
    requires FirstMatch(s, p, i)
    ensures FindIndex(s + t, p) == Some(i)
  {
    forall j | 0 <= j <= i ensures (s + t)[j] == s[j] { }
    assert FirstMatch(s + t, p, i);
  }

  /** Filtering distributes over concatenation: the survivors keep their relative order. */
  lemma {:induction false} FilterConcat<T>(a: seq<T>, b: seq<T>, p: T -> bool)
    ensures Filter(a + b, p) == Filter(a, p) + Filter(b, p)
  {
    if |a| == 0 {
      assert a + b == b;
    } else {
      assert (a + b)[0] == a[0];
      assert (a + b)[1..] == a[1..] + b;
      FilterConcat(a[1..], b, p);
    }
  }

  /** Appending one element adds it at the end of the filtered result exactly when it passes. */
  lemma FilterAppend<T>(s: seq<T>, x: T, p: T -> bool)
    ensures Filter(s + [x], p) == Filter(s, p) + (if p(x) then [x] else [])
  {
    FilterConcat(s, [x], p);
    assert [x][1..] == [];
  }

  /** An element survives the filter exactly when it occurs in the input and passes the test. */
  lemma {:induction false} FilterMembership<T>(s: seq<T>, p: T -> bool, x: T)
    ensures x in Filter(s, p) <==> x in s && p(x)
  {
    if |s| > 0 {
      FilterMembership(s[1..], p, x);
      assert s == [s[0]] + s[1..];
    }
  }

  /**
   * Replacing one element by another that the test judges alike keeps the
   * filtered result in step: same length, and each survivor is unchanged or
   * is the replaced element turned into its replacement.
   */
  lemma {:induction false} FilterUpdate<T>(s: seq<T>, k: nat, y: T, p: T -> bool)
    requires k < |s| && p(y) == p(s[k])
    ensures |Filter(s[k := y], p)| == |Filter(s, p)|
    ensures forall i :: 0 <= i < |Filter(s, p)| ==>
      Filter(s[k := y], p)[i] == Filter(s, p)[i] || (Filter(s, p)[i] == s[k] && Filter(s[k := y], p)[i] == y)
  {
    var t := s[k := y];
    if k == 0 {
      assert t[1..] == s[1..];
    } else {
      assert t[1..] == s[1..][k - 1 := y];
      FilterUpdate(s[1..], k - 1, y, p);
    }
  }
}
