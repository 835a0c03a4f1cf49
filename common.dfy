/** Shared building blocks: an Option type for the `None` values Python
    passes around, and the order-preserving filter that every Django
    `queryset.filter(...)` step amounts to once a queryset is a sequence. */
module Common {

  datatype Option<+T> = None | Some(value: T)

  /** How a view request ends: the object was saved or deleted, the form is
      shown again with its errors, a 404, or an exception escaping the view
      (a server error). */
  datatype Outcome = Saved | Deleted | Invalid | NotFound | ServerError

  /** `Keep(s, p)` is `s` restricted to the elements satisfying `p`, in the
      original order: one `.filter(...)` step of a queryset. */
  function Keep<T(!new)>(s: seq<T>, p: T -> bool): (r: seq<T>)
    ensures |r| <= |s|
    ensures forall x :: x in r <==> x in s && p(x)
    ensures forall i :: 0 <= i < |r| ==> p(r[i])
  {
    if s == [] then []
    else (if p(s[0]) then [s[0]] else []) + Keep(s[1..], p)
  }

  /** Filters commute: chaining `.filter(p).filter(q)` or `.filter(q).filter(p)`
      gives the same sequence, in the same order. */
  lemma {:induction false} KeepCommutes<T(!new)>(s: seq<T>, p: T -> bool, q: T -> bool)
    ensures Keep(Keep(s, p), q) == Keep(Keep(s, q), p)
  {
    if s != [] {
      KeepCommutes(s[1..], p, q);
      KeepAppend([s[0]], Keep(s[1..], p), q);
      KeepAppend([s[0]], Keep(s[1..], q), p);
      KeepAppend(if p(s[0]) then [s[0]] else [], Keep(s[1..], p), q);
      KeepAppend(if q(s[0]) then [s[0]] else [], Keep(s[1..], q), p);
    }
  }

  /** Two chained filters are one filter by the conjunction. */
  lemma {:induction false} KeepFuse<T(!new)>(s: seq<T>, p: T -> bool, q: T -> bool)
    ensures Keep(Keep(s, p), q) == Keep(s, x => p(x) && q(x))
  {
    if s != [] {
      KeepFuse(s[1..], p, q);
      KeepAppend(if p(s[0]) then [s[0]] else [], Keep(s[1..], p), q);
    }
  }

  /** A filter that every element passes changes nothing. */
  lemma {:induction false} KeepAll<T(!new)>(s: seq<T>, p: T -> bool)
    requires forall i :: 0 <= i < |s| ==> p(s[i])
    ensures Keep(s, p) == s
  {
    if s != [] {
      KeepAll(s[1..], p);
    }
  }

  lemma {:induction false} KeepAppend<T(!new)>(a: seq<T>, b: seq<T>, p: T -> bool)
    ensures Keep(a + b, p) == Keep(a, p) + Keep(b, p)
  {
    if a == [] {
      assert a + b == b;
    } else {
      assert (a + b)[1..] == a[1..] + b;
      KeepAppend(a[1..], b, p);
    }
  }

  /** Sum of `f` over the elements of `s`: Python's `sum(f(x) for x in s)`,
      and an SQL `SUM` when `s` is not empty. */
  function SumOf<T>(s: seq<T>, f: T -> int): int
  {
    if s == [] then 0 else f(s[0]) + SumOf(s[1..], f)
  }

  lemma {:induction false} SumOfAppend<T>(a: seq<T>, b: seq<T>, f: T -> int)
    ensures SumOf(a + b, f) == SumOf(a, f) + SumOf(b, f)
  {
    if a == [] {
      assert a + b == b;
    } else {
      assert (a + b)[1..] == a[1..] + b;
      SumOfAppend(a[1..], b, f);
    }
  }

  /** Summing only the elements that satisfy `p` is summing `f` with the
      other elements counted as zero. */
  lemma {:induction false} SumOfKeep<T(!new)>(s: seq<T>, p: T -> bool, f: T -> int)
    ensures SumOf(Keep(s, p), f) == SumOf(s, x => if p(x) then f(x) else 0)
  {
    if s != [] {
      SumOfKeep(s[1..], p, f);
      SumOfAppend(if p(s[0]) then [s[0]] else [], Keep(s[1..], p), f);
    }
  }

  /** Sums of non-negative terms are non-negative. */
  lemma {:induction false} SumOfNonNegative<T>(s: seq<T>, f: T -> int)
    requires forall i :: 0 <= i < |s| ==> f(s[i]) >= 0
    ensures SumOf(s, f) >= 0
  {
    if s != [] {
      SumOfNonNegative(s[1..], f);
    }
  }

  /** A sum does not depend on the order of its terms. */
  lemma {:induction false} SumOfPermutation<T>(a: seq<T>, b: seq<T>, f: T -> int)
    requires multiset(a) == multiset(b)
    ensures SumOf(a, f) == SumOf(b, f)
    decreases |a|
  {
    if a != [] {
      assert a[0] in multiset(b);
      var j :| 0 <= j < |b| && b[j] == a[0];
      var rest := b[..j] + b[j + 1..];
      assert b == b[..j] + [b[j]] + b[j + 1..];
      assert a == [a[0]] + a[1..];
      calc {
        multiset(a[1..]);
        multiset(a) - multiset{a[0]};
        multiset(b) - multiset{b[j]};
        multiset(b[..j]) + multiset(b[j + 1..]);
        multiset(rest);
      }
      SumOfPermutation(a[1..], rest, f);
      SumOfAppend(b[..j] + [b[j]], b[j + 1..], f);
      SumOfAppend(b[..j], [b[j]], f);
      SumOfAppend(b[..j], b[j + 1..], f);
    }
  }

  /** The first `n` elements, or all of them when there are fewer:
      Python's `s[:n]`. */
  function Take<T>(s: seq<T>, n: nat): (r: seq<T>)
    ensures |r| == if |s| < n then |s| else n
    ensures r == s[..|r|]
  {
    if |s| <= n then s else s[..n]
  }
}
