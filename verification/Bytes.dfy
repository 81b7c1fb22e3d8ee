/**
 Byte strings and their comparisons (curve.c, device_consistency.c, signal_protocol.c),
 and what sorting by them determines.
 */
module Bytes {
  type byte = n: nat | n < 256

  type Data = seq<byte>

  /** The sign of `memcmp` on two buffers of the same length. */
  function Memcmp(a: Data, b: Data): (r: int)
    requires |a| == |b|
    ensures -1 <= r <= 1
  {
    if a == [] then 0
    else if a[0] < b[0] then -1
    else if a[0] > b[0] then 1
    else Memcmp(a[1..], b[1..])
  }

  /** Byte comparison is a strict total order: exactly one of less, equal and greater, swapped when the arguments
      are. */
  lemma {:induction false} MemcmpIsTotal(a: Data, b: Data)
    requires |a| == |b|
    ensures Memcmp(a, b) == -Memcmp(b, a)
    ensures Memcmp(a, b) == 0 <==> a == b
  {
    if a != [] && a[0] == b[0] {
      MemcmpIsTotal(a[1..], b[1..]);
      assert a == [a[0]] + a[1..] && b == [b[0]] + b[1..];
    }
  }

  lemma {:induction false} MemcmpIsTransitive(a: Data, b: Data, c: Data)
    requires |a| == |b| == |c| && Memcmp(a, b) <= 0 && Memcmp(b, c) <= 0
    ensures Memcmp(a, c) <= 0
  {
    if a != [] && a[0] == b[0] == c[0] {
      MemcmpIsTransitive(a[1..], b[1..], c[1..]);
    }
  }

  /** At the first place where they differ, `a` has the smaller byte. */
  predicate Precedes(a: Data, b: Data) {
    exists i :: 0 <= i < |a| && i < |b| && a[..i] == b[..i] && a[i] < b[i]
  }

  /** What `memcmp` decides: the first byte in which the buffers differ. */
  lemma {:induction false} MemcmpDecides(a: Data, b: Data)
    requires |a| == |b|
    ensures Memcmp(a, b) < 0 <==> Precedes(a, b)
    ensures Memcmp(a, b) > 0 <==> Precedes(b, a)
  {
    if a != [] {
      assert a == [a[0]] + a[1..] && b == [b[0]] + b[1..];
      if a[0] == b[0] {
        MemcmpDecides(a[1..], b[1..]);
        PrecedesInTail(a, b);
        PrecedesInTail(b, a);
      } else {
        assert a[..0] == b[..0];
      }
    }
  }

  lemma PrecedesInTail(a: Data, b: Data)
    requires a != [] && b != [] && a[0] == b[0]
    ensures Precedes(a, b) <==> Precedes(a[1..], b[1..])
  {
    if Precedes(a, b) {
      var i :| 0 <= i < |a| && i < |b| && a[..i] == b[..i] && a[i] < b[i];
      assert a[1..][..i - 1] == a[..i][1..] && b[1..][..i - 1] == b[..i][1..];
      assert a[1..][i - 1] < b[1..][i - 1];
    }
    if Precedes(a[1..], b[1..]) {
      var i :| 0 <= i < |a| - 1 && i < |b| - 1 && a[1..][..i] == b[1..][..i] && a[1..][i] < b[1..][i];
      assert a[..i + 1] == [a[0]] + a[1..][..i] && b[..i + 1] == [b[0]] + b[1..][..i];
    }
  }

  /** The comparator of both sorted lists: shorter first, then `memcmp`. Public keys all have the same length. */
  function Order(a: Data, b: Data): int {
    if |a| == |b| then Memcmp(a, b) else if |a| < |b| then -1 else 1
  }

  predicate Sorted(s: seq<Data>) {
    forall i, j :: 0 <= i < j < |s| ==> Order(s[i], s[j]) <= 0
  }

  /** What any sort, stable or not, may return for a list. */
  predicate SortOf(sorted: seq<Data>, list: seq<Data>) {
    Sorted(sorted) && multiset(sorted) == multiset(list)
  }

  /** Among keys of one length, sorting puts first what has the smaller byte at the first difference. */
  lemma SortedAscends(s: seq<Data>, i: nat, j: nat)
    requires Sorted(s) && i < j < |s| && |s[i]| == |s[j]|
    ensures s[i] == s[j] || Precedes(s[i], s[j])
  {
    MemcmpIsTotal(s[i], s[j]);
    MemcmpDecides(s[i], s[j]);
  }

  lemma OrderIsAntisymmetric(a: Data, b: Data)
    requires Order(a, b) <= 0 && Order(b, a) <= 0
    ensures a == b
  {
    if |a| == |b| {
      MemcmpIsTotal(a, b);
    }
  }

  lemma FirstIsSmallest(s: seq<Data>, x: Data)
    requires Sorted(s) && x in s
    ensures Order(s[0], x) <= 0
  {
    if x == s[0] {
      MemcmpIsTotal(x, x);
    } else {
      var i :| 0 <= i < |s| && s[i] == x;
    }
  }

  /** The first elements of two sorted lists with the same elements are the same. */
  lemma SameHead(s: seq<Data>, t: seq<Data>)
    requires Sorted(s) && Sorted(t) && multiset(s) == multiset(t) && s != []
    ensures t != [] && s[0] == t[0]
  {
    assert s[0] in multiset(s);
    assert s[0] in t;
    assert t[0] in multiset(t);
    assert t[0] in s;
    FirstIsSmallest(s, t[0]);
    FirstIsSmallest(t, s[0]);
    OrderIsAntisymmetric(s[0], t[0]);
  }

  lemma TailMultiset(s: seq<Data>)
    requires s != []
    ensures multiset(s[1..]) == multiset(s) - multiset{s[0]} && s == [s[0]] + s[1..]
  {
    assert s == [s[0]] + s[1..];
  }

  /** A sorted list is determined by its elements and how often each occurs. */
  lemma {:induction false} SortedIsCanonical(s: seq<Data>, t: seq<Data>)
    requires Sorted(s) && Sorted(t) && multiset(s) == multiset(t)
    ensures s == t
  {
    hide Order;
    if s == [] {
      assert |multiset(t)| == |t|;
    } else {
      SameHead(s, t);
      TailMultiset(s);
      TailMultiset(t);
      SortedIsCanonical(s[1..], t[1..]);
    }
  }

  /** Whatever order a list came in and however equal elements were placed, its sorted form is the same. */
  lemma SortsAgree(s: seq<Data>, t: seq<Data>, xs: seq<Data>, ys: seq<Data>)
    requires SortOf(s, xs) && SortOf(t, ys) && multiset(xs) == multiset(ys)
    ensures s == t
  {
    SortedIsCanonical(s, t);
  }

  /** `signal_constant_memcmp`: looks at every byte and is zero exactly when all of them agree. */
  method ConstantMemcmp(s1: seq<bv8>, s2: seq<bv8>, n: nat) returns (r: bv8)
    requires n <= |s1| && n <= |s2|
    ensures r == 0 <==> s1[..n] == s2[..n]
  {
    r := 0;
    var i := 0;
    while i < n
      invariant 0 <= i <= n
      invariant r == 0 <==> s1[..i] == s2[..i]
    {
      assert s1[..i + 1] == s1[..i] + [s1[i]] && s2[..i + 1] == s2[..i] + [s2[i]];
      OrOfXor(r, s1[i], s2[i]);
      r := r | (s1[i] ^ s2[i]);
      i := i + 1;
    }
  }

  lemma OrOfXor(r: bv8, x: bv8, y: bv8)
    ensures r | (x ^ y) == 0 <==> r == 0 && x == y
  {
  }

  /** The concatenation of all elements. */
  function Concat(s: seq<Data>): Data {
    if s == [] then [] else Concat(s[..|s| - 1]) + s[|s| - 1]
  }

  predicate AllOfLength(s: seq<Data>, length: nat) {
    forall i :: 0 <= i < |s| ==> |s[i]| == length
  }

  lemma {:induction false} ConcatLength(s: seq<Data>, length: nat)
    requires AllOfLength(s, length)
    ensures |Concat(s)| == |s| * length
  {
    if s != [] {
      ConcatLength(s[..|s| - 1], length);
      assert (|s| - 1) * length + length == |s| * length;
    }
  }

  /** Elements of one length can be told from their concatenation. */
  lemma {:induction false} ConcatDeterminesElements(s: seq<Data>, t: seq<Data>, length: nat)
    requires AllOfLength(s, length) && AllOfLength(t, length) && length > 0 && Concat(s) == Concat(t)
    ensures s == t
  {
    ConcatLength(s, length);
    ConcatLength(t, length);
    SameFactor(|s|, |t|, length);
    if s != [] {
      var (s', t') := (s[..|s| - 1], t[..|t| - 1]);
      ConcatLength(s', length);
      ConcatLength(t', length);
      assert Concat(s)[..|Concat(s')|] == Concat(s') && Concat(t)[..|Concat(t')|] == Concat(t');
      assert Concat(s)[|Concat(s')|..] == s[|s| - 1] && Concat(t)[|Concat(t')|..] == t[|t| - 1];
      ConcatDeterminesElements(s', t', length);
      assert s == s' + [s[|s| - 1]] && t == t' + [t[|t| - 1]];
    }
  }

  lemma SameFactor(m: nat, n: nat, k: nat)
    requires m * k == n * k && k > 0
    ensures m == n
  {
  }

  /** The number whose bytes these are, the highest first. */
  function Number(b: Data): nat {
    if b == [] then 0 else 256 * Number(b[..|b| - 1]) + b[|b| - 1]
  }
}
