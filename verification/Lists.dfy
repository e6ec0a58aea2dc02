/** Lists as the dispatch rule uses them: comprehension filters over cards,
    `[:n]` slices and duplicate-free lists. */
module Lists {

  datatype Option<+T> = None | Some(value: T)

  /** Every element once. */
  predicate NoDup<T(==)>(s: seq<T>) {
    forall i, j :: 0 <= i < j < |s| ==> s[i] != s[j]
  }

  /** No element in common. */
  predicate Apart<T(==, !new)>(a: seq<T>, b: seq<T>) {
    forall c :: c in a ==> c !in b
  }

  function Elems<T>(s: seq<T>): set<T> {
    set x | x in s
  }

  /** `s[:n]` for a non-negative `n`. */
  function First<T>(s: seq<T>, n: nat): (r: seq<T>)
    ensures |r| == if |s| <= n then |s| else n
    ensures r <= s
  {
    if |s| <= n then s else s[..n]
  }

  /** `[c for c in s if c not in x]` */
  function Without<T(==, !new)>(s: seq<T>, x: set<T>): (r: seq<T>)
    ensures forall c :: c in r <==> c in s && c !in x
    ensures |r| <= |s|
  {
    if s == [] then []
    else if s[0] in x then Without(s[1..], x)
    else [s[0]] + Without(s[1..], x)
  }

  /** `[c for c in s if c in x]` */
  function Within<T(==, !new)>(s: seq<T>, x: set<T>): (r: seq<T>)
    ensures forall c :: c in r <==> c in s && c in x
    ensures |r| <= |s|
  {
    if s == [] then []
    else if s[0] in x then [s[0]] + Within(s[1..], x)
    else Within(s[1..], x)
  }

  lemma {:induction false} WithoutNoDup<T(!new)>(s: seq<T>, x: set<T>)
    requires NoDup(s)
    ensures NoDup(Without(s, x))
  {
    if s != [] {
      WithoutNoDup(s[1..], x);
      assert forall c :: c in s[1..] ==> c != s[0];
    }
  }

  lemma {:induction false} WithinNoDup<T(!new)>(s: seq<T>, x: set<T>)
    requires NoDup(s)
    ensures NoDup(Within(s, x))
  {
    if s != [] {
      WithinNoDup(s[1..], x);
      assert forall c :: c in s[1..] ==> c != s[0];
    }
  }

  lemma {:induction false} WithoutTwice<T(!new)>(s: seq<T>, x: set<T>, y: set<T>)
    ensures Without(Without(s, x), y) == Without(s, x + y)
  {
    if s != [] {
      WithoutTwice(s[1..], x, y);
      if s[0] !in x {
        assert Without(s, x)[1..] == Without(s[1..], x);
      }
    }
  }

  /** Filtering out more never leaves more. */
  lemma {:induction false} WithoutShrinks<T(!new)>(s: seq<T>, x: set<T>, y: set<T>)
    requires forall c :: c in s && c in x ==> c in y
    ensures |Without(s, y)| <= |Without(s, x)|
  {
    if s != [] {
      WithoutShrinks(s[1..], x, y);
    }
  }

  /** Only what is in the list matters to the filter. */
  lemma {:induction false} WithoutSame<T(!new)>(s: seq<T>, x: set<T>, y: set<T>)
    requires forall c :: c in s ==> (c in x <==> c in y)
    ensures Without(s, x) == Without(s, y)
  {
    if s != [] {
      WithoutSame(s[1..], x, y);
    }
  }

  lemma {:induction false} WithoutNothing<T(!new)>(s: seq<T>, x: set<T>)
    requires forall c :: c in s ==> c !in x
    ensures Without(s, x) == s
  {
    if s != [] {
      WithoutNothing(s[1..], x);
    }
  }

  lemma {:induction false} SplitCount<T(!new)>(s: seq<T>, x: set<T>)
    ensures |Without(s, x)| + |Within(s, x)| == |s|
  {
    if s != [] {
      SplitCount(s[1..], x);
    }
  }

  lemma {:induction false} NoDupCount<T(!new)>(s: seq<T>)
    requires NoDup(s)
    ensures |Elems(s)| == |s|
  {
    if s != [] {
      NoDupCount(s[1..]);
      assert Elems(s) == {s[0]} + Elems(s[1..]);
      assert s[0] !in Elems(s[1..]);
    }
  }

  /** The elements of the list outside `x`, counted. */
  lemma {:induction false} WithoutCount<T(!new)>(s: seq<T>, x: set<T>)
    requires NoDup(s)
    ensures |Without(s, x)| == |Elems(s) - x|
  {
    WithoutNoDup(s, x);
    NoDupCount(Without(s, x));
    assert Elems(Without(s, x)) == Elems(s) - x;
  }

  lemma {:induction false} NoDupPrefix<T(!new)>(s: seq<T>, n: nat)
    requires NoDup(s)
    ensures NoDup(First(s, n))
  {
  }

  lemma {:induction false} NoDupAppend<T(!new)>(a: seq<T>, b: seq<T>)
    requires NoDup(a) && NoDup(b) && Apart(a, b)
    ensures NoDup(a + b)
  {
    forall i, j | 0 <= i < j < |a + b|
      ensures (a + b)[i] != (a + b)[j]
    {
      if i < |a| <= j {
        assert (a + b)[i] in a && (a + b)[j] in b;
      }
    }
  }

  lemma {:induction false} SubsetCount<T(!new)>(a: set<T>, b: set<T>)
    requires a <= b
    ensures |a| <= |b|
  {
    assert b == a + (b - a);
    assert |b| == |a| + |b - a|;
  }

  lemma {:induction false} UnionCount<T(!new)>(a: set<T>, b: set<T>)
    requires a !! b
    ensures |a + b| == |a| + |b|
  {
  }

  lemma {:induction false} NoElements<T(!new)>(s: seq<T>)
    ensures s == [] <==> forall c :: c !in s
  {
    if s != [] {
      assert s[0] in s;
    }
  }

  lemma {:induction false} ApartBoth<T(!new)>(a: seq<T>, b: seq<T>)
    ensures Apart(a, b) <==> Apart(b, a)
  {
  }

  /** Apart lists have apart elements, whatever is taken out of both. */
  lemma {:induction false} ApartCount<T(!new)>(a: seq<T>, b: seq<T>, x: set<T>)
    requires Apart(a, b)
    ensures |(Elems(a) + Elems(b)) - x| == |Elems(a) - x| + |Elems(b) - x|
  {
    var c, d := Elems(a) - x, Elems(b) - x;
    assert (Elems(a) + Elems(b)) - x == c + d;
    assert c !! d;
    UnionCount(c, d);
  }

  /** The next entry of a listing, where the order does not matter. */
  method OneOf<T>(rest: set<T>) returns (one: T)
    requires |rest| > 0
    ensures one in rest
  {
    one :| one in rest;
  }
}
