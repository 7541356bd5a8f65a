/** Sequence combinators the client uses through `Array.prototype`
    (`filter(..).length`, `slice`) and through its first-occurrence
    de-duplication idiom (a `Set` of seen keys and an output array). */
module Seqs {

  /** `s.filter(p).length`. */
  function Count<T>(s: seq<T>, p: T -> bool): (n: nat)
    ensures n <= |s|
  {
    if s == [] then 0 else (if p(s[0]) then 1 else 0) + Count(s[1..], p)
  }

  lemma {:induction false} CountAppend<T>(a: seq<T>, b: seq<T>, p: T -> bool)
    ensures Count(a + b, p) == Count(a, p) + Count(b, p)
  {
    if a == [] {
      assert a + b == b;
    } else {
      assert (a + b)[1..] == a[1..] + b;
      CountAppend(a[1..], b, p);
    }
  }

  /** Two predicates that no element satisfies together count at most the
      whole sequence; when every element satisfies one of them, exactly. */
  lemma {:induction false} CountSplit<T>(s: seq<T>, p: T -> bool, q: T -> bool)
    requires forall i :: 0 <= i < |s| ==> !(p(s[i]) && q(s[i]))
    ensures Count(s, p) + Count(s, q) <= |s|
    ensures (forall i :: 0 <= i < |s| ==> p(s[i]) || q(s[i])) ==> Count(s, p) + Count(s, q) == |s|
  {
    if s != [] {
      assert forall i :: 0 <= i < |s[1..]| ==> s[1..][i] == s[i + 1];
      CountSplit(s[1..], p, q);
    }
  }

  /** `s.filter(p)`. */
  function Filter<T>(s: seq<T>, p: T -> bool): (r: seq<T>)
    ensures |r| == Count(s, p)
    ensures forall i :: 0 <= i < |r| ==> p(r[i])
    ensures forall x :: x in r ==> x in s
  {
    if s == [] then [] else (if p(s[0]) then [s[0]] else []) + Filter(s[1..], p)
  }

  /** Every element that satisfies the predicate survives the filter. */
  lemma {:induction false} FilterKeeps<T>(s: seq<T>, p: T -> bool, x: T)
    requires x in s && p(x)
    ensures x in Filter(s, p)
  {
    if s[0] != x {
      FilterKeeps(s[1..], p, x);
    }
  }

  /** `s.filter(p).map(f)` for an `f` defined wherever `p` holds. */
  function FilterMap<T(!new), U>(s: seq<T>, p: T -> bool, f: T --> U): (r: seq<U>)
    requires forall x :: p(x) ==> f.requires(x)
    ensures var kept := Filter(s, p);
            |r| == |kept| && forall k :: 0 <= k < |kept| ==> r[k] == f(kept[k])
  {
    if s == [] then []
    else
      var rest := FilterMap(s[1..], p, f);
      if p(s[0]) then
        assert Filter(s, p) == [s[0]] + Filter(s[1..], p);
        [f(s[0])] + rest
      else
        assert Filter(s, p) == Filter(s[1..], p);
        rest
  }

  /** `s.map(f)`. */
  function Map<T, U>(s: seq<T>, f: T -> U): (r: seq<U>)
    ensures |r| == |s|
    ensures forall i :: 0 <= i < |s| ==> r[i] == f(s[i])
  {
    seq(|s|, i requires 0 <= i < |s| => f(s[i]))
  }

  /** `s.map(f).filter(Boolean)` for a function into strings: the
      non-empty images, in order. */
  function NonEmptyImages<T>(s: seq<T>, f: T -> string): (r: seq<string>)
    ensures |r| <= |s|
    ensures forall n :: n in r ==> n != ""
  {
    if s == [] then [] else (if f(s[0]) != "" then [f(s[0])] else []) + NonEmptyImages(s[1..], f)
  }

  /** Every non-empty image appears. */
  lemma {:induction false} NonEmptyImagesCover<T>(s: seq<T>, f: T -> string, i: int)
    requires 0 <= i < |s| && f(s[i]) != ""
    ensures f(s[i]) in NonEmptyImages(s, f)
  {
    if i > 0 {
      assert s[1..][i - 1] == s[i];
      NonEmptyImagesCover(s[1..], f, i - 1);
    }
  }

  /** Every element is the image of some element of `s`. */
  lemma {:induction false} NonEmptyImagesFrom<T>(s: seq<T>, f: T -> string, n: string)
    requires n in NonEmptyImages(s, f)
    ensures exists i :: 0 <= i < |s| && f(s[i]) == n
  {
    if n != f(s[0]) || f(s[0]) == "" {
      NonEmptyImagesFrom(s[1..], f, n);
      var i :| 0 <= i < |s[1..]| && f(s[1..][i]) == n;
      assert s[1..][i] == s[i + 1];
    }
  }

  /** The non-empty images keep the order of the elements they come from. */
  lemma {:induction false} NonEmptyImagesInOrder<T>(s: seq<T>, f: T -> string)
    ensures IsSubseq(NonEmptyImages(s, f), Map(s, f))
    decreases |s|
  {
    if s != [] {
      NonEmptyImagesInOrder(s[1..], f);
      var m := Map(s, f);
      var rest := NonEmptyImages(s[1..], f);
      assert m[0] == f(s[0]);
      assert m[1..] == Map(s[1..], f);
      if f(s[0]) != "" {
        assert NonEmptyImages(s, f) == [f(s[0])] + rest;
        assert ([f(s[0])] + rest)[1..] == rest;
      } else {
        assert NonEmptyImages(s, f) == rest;
      }
    }
  }

  /** One element is kept per element whose image is non-empty. */
  lemma {:induction false} NonEmptyImagesCount<T>(s: seq<T>, f: T -> string, p: T -> bool)
    requires forall x :: p(x) == (f(x) != "")
    ensures |NonEmptyImages(s, f)| == Count(s, p)
  {
    if s != [] {
      NonEmptyImagesCount(s[1..], f, p);
    }
  }

  /** What `NonEmptyImages` keeps: exactly the non-empty images, in order. */
  lemma NonEmptyImagesShape<T>(s: seq<T>, f: T -> string)
    ensures forall n :: n in NonEmptyImages(s, f) ==> exists i :: 0 <= i < |s| && f(s[i]) == n
    ensures forall i :: 0 <= i < |s| && f(s[i]) != "" ==> f(s[i]) in NonEmptyImages(s, f)
    ensures IsSubseq(NonEmptyImages(s, f), Map(s, f))
  {
    forall n | n in NonEmptyImages(s, f) ensures exists i :: 0 <= i < |s| && f(s[i]) == n {
      NonEmptyImagesFrom(s, f, n);
    }
    forall i | 0 <= i < |s| && f(s[i]) != "" ensures f(s[i]) in NonEmptyImages(s, f) {
      NonEmptyImagesCover(s, f, i);
    }
    NonEmptyImagesInOrder(s, f);
  }

  /** `s.slice(0, n)`. */
  function Take<T>(s: seq<T>, n: nat): (r: seq<T>)
    ensures |r| <= n && |r| <= |s|
    ensures |s| >= n ==> |r| == n
    ensures r == s[..|r|]
  {
    if |s| <= n then s else s[..n]
  }

  /** `a` is `b` with some elements left out, order kept. */
  predicate IsSubseq<T(==)>(a: seq<T>, b: seq<T>)
    decreases |b|
  {
    if a == [] then true
    else if b == [] then false
    else (a[0] == b[0] && IsSubseq(a[1..], b[1..])) || IsSubseq(a, b[1..])
  }

  lemma {:induction false} SubseqRefl<T>(a: seq<T>)
    ensures IsSubseq(a, a)
    decreases |a|
  {
    if a != [] {
      SubseqRefl(a[1..]);
    }
  }

  /** A subsequence is no longer than the sequence, and one of the same
      length is the sequence itself. */
  lemma {:induction false} SubseqLength<T>(a: seq<T>, b: seq<T>)
    requires IsSubseq(a, b)
    ensures |a| <= |b|
    ensures |a| == |b| ==> a == b
    decreases |b|
  {
    if a != [] {
      if a[0] == b[0] && IsSubseq(a[1..], b[1..]) {
        SubseqLength(a[1..], b[1..]);
        if |a| == |b| {
          assert a == [a[0]] + a[1..] && b == [b[0]] + b[1..];
        }
      } else {
        SubseqLength(a, b[1..]);
      }
    }
  }

  /** The set of keys of the elements of `s`. */
  function Keys<T, K>(s: seq<T>, key: T -> K): set<K> {
    set i | 0 <= i < |s| :: key(s[i])
  }

  /** No two elements of `s` share a key. */
  predicate DistinctKeys<T, K(==)>(s: seq<T>, key: T -> K) {
    forall i, j :: 0 <= i < j < |s| ==> key(s[i]) != key(s[j])
  }

  /** `s[i]` is the first element of `s` with its key. */
  predicate FirstOfKey<T, K(==)>(s: seq<T>, key: T -> K, i: int)
    requires 0 <= i < |s|
  {
    forall j :: 0 <= j < i ==> key(s[j]) != key(s[i])
  }

  /** First-occurrence de-duplication: walk `s` in order, keep an element
      when its key is not among the keys `seen` so far, and add the key. */
  function DedupBy<T, K(==)>(s: seq<T>, key: T -> K, seen: set<K>): seq<T>
  {
    if s == [] then []
    else if key(s[0]) in seen then DedupBy(s[1..], key, seen)
    else [s[0]] + DedupBy(s[1..], key, seen + {key(s[0])})
  }

  /** The walk's first step. */
  lemma DedupByCons<T, K>(x: T, s: seq<T>, key: T -> K, seen: set<K>)
    ensures DedupBy([x] + s, key, seen)
         == if key(x) in seen then DedupBy(s, key, seen) else [x] + DedupBy(s, key, seen + {key(x)})
  {
    assert ([x] + s)[1..] == s;
  }

  /** Extending the walk by one element. */
  lemma {:induction false} DedupBySnoc<T, K>(s: seq<T>, x: T, key: T -> K, seen: set<K>)
    ensures DedupBy(s + [x], key, seen)
         == DedupBy(s, key, seen) + (if key(x) in seen + Keys(s, key) then [] else [x])
  {
    if s == [] {
      assert [x][1..] == [];
      assert Keys(s, key) == {};
    } else {
      assert (s + [x])[1..] == s[1..] + [x];
      var seen' := if key(s[0]) in seen then seen else seen + {key(s[0])};
      DedupBySnoc(s[1..], x, key, seen');
      assert Keys(s, key) == {key(s[0])} + Keys(s[1..], key) by {
        forall k | k in Keys(s, key) ensures k in {key(s[0])} + Keys(s[1..], key) {
          var i :| 0 <= i < |s| && key(s[i]) == k;
          if i > 0 { assert key(s[1..][i - 1]) == k; }
        }
        forall k | k in Keys(s[1..], key) ensures k in Keys(s, key) {
          var i :| 0 <= i < |s[1..]| && key(s[1..][i]) == k;
          assert key(s[i + 1]) == k;
        }
      }
    }
  }

  /** What the walk keeps: a subsequence of `s`, keys pairwise distinct and
      disjoint from `seen`, covering exactly the keys of `s` not in `seen`. */
  lemma {:induction false} DedupByShape<T, K>(s: seq<T>, key: T -> K, seen: set<K>)
    ensures IsSubseq(DedupBy(s, key, seen), s)
    ensures DistinctKeys(DedupBy(s, key, seen), key)
    ensures Keys(DedupBy(s, key, seen), key) == Keys(s, key) - seen
  {
    var r := DedupBy(s, key, seen);
    if s != [] {
      var seen' := if key(s[0]) in seen then seen else seen + {key(s[0])};
      var t := DedupBy(s[1..], key, seen');
      DedupByShape(s[1..], key, seen');
      assert Keys(s, key) == {key(s[0])} + Keys(s[1..], key) by {
        forall k | k in Keys(s, key) ensures k in {key(s[0])} + Keys(s[1..], key) {
          var i :| 0 <= i < |s| && key(s[i]) == k;
          if i > 0 { assert key(s[1..][i - 1]) == k; }
        }
        forall k | k in Keys(s[1..], key) ensures k in Keys(s, key) {
          var i :| 0 <= i < |s[1..]| && key(s[1..][i]) == k;
          assert key(s[i + 1]) == k;
        }
      }
      if key(s[0]) in seen {
        assert r == t;
      } else {
        assert r == [s[0]] + t;
        assert r[1..] == t;
        forall j | 0 <= j < |t| ensures key(t[j]) != key(s[0]) {
          assert key(t[j]) in Keys(t, key);
        }
        forall i, j | 0 <= i < j < |r| ensures key(r[i]) != key(r[j]) {
          if i > 0 { assert r[i] == t[i - 1] && r[j] == t[j - 1]; }
          else { assert r[j] == t[j - 1]; }
        }
        assert Keys(r, key) == {key(s[0])} + Keys(t, key) by {
          assert key(r[0]) in Keys(r, key);
          forall k | k in Keys(r, key) ensures k in {key(s[0])} + Keys(t, key) {
            var i :| 0 <= i < |r| && key(r[i]) == k;
            if i > 0 { assert key(t[i - 1]) == k; }
          }
          forall k | k in Keys(t, key) ensures k in Keys(r, key) {
            var i :| 0 <= i < |t| && key(t[i]) == k;
            assert key(r[i + 1]) == k;
          }
        }
      }
    } else {
      assert Keys(s, key) == {};
      assert Keys(r, key) == {};
    }
  }

  /** The walk keeps every element that is the first of its key and whose
      key was not seen before. */
  lemma {:induction false} DedupByKeepsFirst<T, K>(s: seq<T>, key: T -> K, seen: set<K>, i: int)
    requires 0 <= i < |s| && FirstOfKey(s, key, i) && key(s[i]) !in seen
    ensures s[i] in DedupBy(s, key, seen)
  {
    if i > 0 {
      assert key(s[0]) != key(s[i]);
      var seen' := if key(s[0]) in seen then seen else seen + {key(s[0])};
      assert FirstOfKey(s[1..], key, i - 1) by {
        forall j | 0 <= j < i - 1 ensures key(s[1..][j]) != key(s[1..][i - 1]) {
          assert s[1..][j] == s[j + 1];
        }
      }
      DedupByKeepsFirst(s[1..], key, seen', i - 1);
    }
  }

  /** A walk over a sequence whose keys are distinct and all unseen keeps
      everything. */
  lemma {:induction false} DedupByDistinct<T, K>(s: seq<T>, key: T -> K, seen: set<K>)
    requires DistinctKeys(s, key) && Keys(s, key) !! seen
    ensures DedupBy(s, key, seen) == s
  {
    if s != [] {
      assert key(s[0]) in Keys(s, key);
      var seen' := seen + {key(s[0])};
      assert DistinctKeys(s[1..], key) by {
        forall i, j | 0 <= i < j < |s[1..]| ensures key(s[1..][i]) != key(s[1..][j]) {
          assert s[1..][i] == s[i + 1] && s[1..][j] == s[j + 1];
        }
      }
      assert Keys(s[1..], key) !! seen' by {
        forall k | k in Keys(s[1..], key) ensures k !in seen' {
          var i :| 0 <= i < |s[1..]| && key(s[1..][i]) == k;
          assert key(s[i + 1]) == k && k in Keys(s, key);
          assert key(s[0]) != key(s[i + 1]);
        }
      }
      DedupByDistinct(s[1..], key, seen');
    }
  }

  /** De-duplicating twice is de-duplicating once. */
  lemma DedupByIdempotent<T, K>(s: seq<T>, key: T -> K)
    ensures DedupBy(DedupBy(s, key, {}), key, {}) == DedupBy(s, key, {})
  {
    DedupByShape(s, key, {});
    DedupByDistinct(DedupBy(s, key, {}), key, {});
  }
}
