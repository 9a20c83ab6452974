/**
 Which combinations of sources a piece is tried with: first the rotations of
 every segment's own list, then the cartesian product, without repetition, up
 to a limit.  ai2apps/checkpoint_distribution.py.
 */
module Attempts {
  import opened Base

  type Vector = seq<nat>

  /** One source index per segment, each within that segment's candidates. */
  predicate InRange(counts: seq<nat>, v: Vector) {
    |v| == |counts| && forall i :: 0 <= i < |v| ==> v[i] < counts[i]
  }

  function Product(counts: seq<nat>): nat {
    if counts == [] then 1 else counts[0] * Product(counts[1..])
  }

  /** All vectors whose first component is below n, in lexicographic order. */
  function Headed(n: nat, tails: seq<Vector>): seq<Vector> {
    if n == 0 then [] else Headed(n - 1, tails) + Prefixed(n - 1, tails)
  }

  function Prefixed(head: nat, tails: seq<Vector>): (r: seq<Vector>)
    ensures |r| == |tails|
    ensures forall i :: 0 <= i < |r| ==> r[i] == [head] + tails[i]
  {
    seq(|tails|, i requires 0 <= i < |tails| => [head] + tails[i])
  }

  /** itertools.product over the index ranges. */
  function AllVectors(counts: seq<nat>): seq<Vector> {
    if counts == [] then [[]] else Headed(counts[0], AllVectors(counts[1..]))
  }

  lemma {:induction false} HeadedMembers(n: nat, tails: seq<Vector>, v: Vector)
    ensures |Headed(n, tails)| == n * |tails|
    ensures v in Headed(n, tails) <==> v != [] && v[0] < n && v[1..] in tails
  {
    if n > 0 {
      HeadedMembers(n - 1, tails, v);
      assert n * |tails| == (n - 1) * |tails| + |tails|;
      var added := Prefixed(n - 1, tails);
      if v in added {
        var i :| 0 <= i < |added| && added[i] == v;
        assert v[1..] == tails[i];
      }
      if v != [] && v[0] == n - 1 && v[1..] in tails {
        var i :| 0 <= i < |tails| && tails[i] == v[1..];
        assert added[i] == [v[0]] + v[1..] == v;
      }
    }
  }

  lemma {:induction false} HeadedDistinct(n: nat, tails: seq<Vector>)
    requires NoDuplicates(tails)
    ensures NoDuplicates(Headed(n, tails))
  {
    if n > 0 {
      HeadedDistinct(n - 1, tails);
      var before, added := Headed(n - 1, tails), Prefixed(n - 1, tails);
      var all := before + added;
      forall i, j | 0 <= i < j < |all|
        ensures all[i] != all[j]
      {
        if i < |before| <= j {
          HeadedMembers(n - 1, tails, before[i]);
        } else if |before| <= i {
          assert added[i - |before|][1..] == tails[i - |before|];
          assert added[j - |before|][1..] == tails[j - |before|];
        }
      }
    }
  }

  /** The product enumerates every in-range vector exactly once. */
  lemma {:induction false} ProductIsExact(counts: seq<nat>, v: Vector)
    ensures v in AllVectors(counts) <==> InRange(counts, v)
    ensures NoDuplicates(AllVectors(counts))
    ensures |AllVectors(counts)| == Product(counts)
  {
    if counts != [] {
      var tail := if v == [] then [] else v[1..];
      ProductIsExact(counts[1..], tail);
      HeadedMembers(counts[0], AllVectors(counts[1..]), v);
      HeadedDistinct(counts[0], AllVectors(counts[1..]));
      if v != [] {
        assert v == [v[0]] + v[1..];
      }
    } else {
      assert AllVectors(counts) == [[]];
    }
  }

  /** Distinct members of one list are at most as many as the list holds. */
  lemma {:induction false} DistinctSize<T>(a: seq<T>, b: seq<T>)
    requires NoDuplicates(a) && forall x :: x in a ==> x in b
    ensures |a| <= |b|
    decreases |a|
  {
    if a != [] {
      var last := a[|a| - 1];
      assert last in b;
      var k :| 0 <= k < |b| && b[k] == last;
      var b' := b[..k] + b[k + 1..];
      forall x | x in a[..|a| - 1] ensures x in b' {
        var i :| 0 <= i < |a| - 1 && a[i] == x;
        assert x in b;
        var m :| 0 <= m < |b| && b[m] == x;
        if m < k { assert b'[m] == x; } else { assert b'[m - 1] == x; }
      }
      DistinctSize(a[..|a| - 1], b');
    }
  }

  ghost predicate IsMaximum(counts: seq<nat>, most: nat) {
    most in counts && forall c :: c in counts ==> c <= most
  }

  function Rotation(counts: seq<nat>, k: nat): (v: Vector)
    requires forall i :: 0 <= i < |counts| ==> counts[i] > 0
    ensures |v| == |counts|
  {
    if counts == [] then [] else [k % counts[0]] + Rotation(counts[1..], k)
  }

  lemma {:induction false} RotationIs(counts: seq<nat>, k: nat)
    requires forall i :: 0 <= i < |counts| ==> counts[i] > 0
    ensures InRange(counts, Rotation(counts, k))
    ensures forall i :: 0 <= i < |counts| && k < counts[i] ==> Rotation(counts, k)[i] == k
  {
    if counts != [] {
      RotationIs(counts[1..], k);
      Remainder(k, counts[0]);
      FrontRotation(counts, k, k % counts[0], Rotation(counts[1..], k));
    }
  }

  lemma Remainder(k: nat, n: nat)
    requires n > 0
    ensures 0 <= k % n < n && (k < n ==> k % n == k)
  {
  }

  lemma FrontRotation(counts: seq<nat>, k: nat, first: nat, rest: Vector)
    requires counts != [] && first < counts[0] && (k < counts[0] ==> first == k)
    requires InRange(counts[1..], rest) && forall i :: 0 <= i < |counts| - 1 && k < counts[1..][i] ==> rest[i] == k
    ensures InRange(counts, [first] + rest)
    ensures forall i :: 0 <= i < |counts| && k < counts[i] ==> ([first] + rest)[i] == k
  {
    forall i | 0 <= i < |counts|
      ensures ([first] + rest)[i] < counts[i] && (k < counts[i] ==> ([first] + rest)[i] == k)
    {
      if i > 0 { assert counts[1..][i - 1] == counts[i] && rest[i - 1] < counts[1..][i - 1]; }
    }
  }

  /** Source c of segment i is used by one of the first n vectors. */
  ghost predicate HasTurn(vectors: seq<Vector>, n: nat, i: nat, c: nat) {
    exists k :: 0 <= k < n && k < |vectors| && i < |vectors[k]| && vectors[k][i] == c
  }

  /** Among the first `n` vectors, every source of every segment has its turn. */
  ghost predicate UsesEverySource(counts: seq<nat>, vectors: seq<Vector>, n: nat) {
    forall i: nat, c: nat :: i < |counts| && c < counts[i] ==> HasTurn(vectors, n, i, c)
  }

  method SourceAttempts(counts: seq<nat>, limit: nat) returns (attempts: seq<Vector>, ghost most: nat)
    requires counts != [] && limit >= 1 && forall c :: c in counts ==> c > 0
    ensures NoDuplicates(attempts)
    ensures forall v :: v in attempts ==> InRange(counts, v)
    ensures |attempts| == Min(limit, Product(counts))
    ensures IsMaximum(counts, most)
    ensures most <= limit ==> UsesEverySource(counts, attempts, most)
  {
    var rotations := counts[0];
    for i := 0 to |counts|
      invariant rotations in counts && forall n :: 0 <= n < i ==> counts[n] <= rotations
    {
      if counts[i] > rotations { rotations := counts[i]; }
    }
    most := rotations;
    var vectors := Rotations(counts, rotations);
    var seen := set v | v in vectors;
    var all := AllVectors(counts);
    var next := 0;
    while next < |all| && |vectors| < limit
      invariant 0 <= next <= |all|
      invariant NoDuplicates(vectors) && seen == set v | v in vectors
      invariant forall v :: v in vectors ==> InRange(counts, v)
      invariant forall k :: 0 <= k < next ==> all[k] in vectors
      invariant |vectors| >= rotations && UsesEverySource(counts, vectors, rotations)
      invariant |vectors| <= Max(limit, rotations)
    {
      ProductIsExact(counts, all[next]);
      assert all[next] in all;
      if all[next] !in seen {
        ExtendKeepsUse(counts, vectors, all[next], rotations);
        seen := seen + {all[next]};
        vectors := vectors + [all[next]];
      }
      next := next + 1;
    }
    forall v | v in vectors ensures v in all { ProductIsExact(counts, v); }
    ProductIsExact(counts, []);
    DistinctSize(vectors, all);
    if next == |all| {
      DistinctSize(all, vectors);
    }
    attempts := vectors[..Min(limit, |vectors|)];
    if most <= limit {
      TruncateKeepsUse(counts, vectors, attempts, rotations);
    }
  }

  ghost predicate AreRotations(counts: seq<nat>, vectors: seq<Vector>)
    requires forall i :: 0 <= i < |counts| ==> counts[i] > 0
  {
    forall k :: 0 <= k < |vectors| ==> vectors[k] == Rotation(counts, k)
  }

  /** No rotation below the largest count repeats an earlier one: component `widest` tells them apart. */
  lemma RotationsDiffer(counts: seq<nat>, vectors: seq<Vector>, widest: nat)
    requires forall i :: 0 <= i < |counts| ==> counts[i] > 0
    requires AreRotations(counts, vectors) && widest < |counts| && |vectors| < counts[widest]
    ensures Rotation(counts, |vectors|) !in vectors
  {
    hide Rotation;
    RotationIs(counts, |vectors|);
    forall k | 0 <= k < |vectors| ensures vectors[k][widest] == k { RotationIs(counts, k); }
  }

  lemma RotationsUseEverySource(counts: seq<nat>, vectors: seq<Vector>)
    requires forall i :: 0 <= i < |counts| ==> counts[i] > 0
    requires AreRotations(counts, vectors) && IsMaximum(counts, |vectors|)
    ensures UsesEverySource(counts, vectors, |vectors|)
    ensures forall v :: v in vectors ==> InRange(counts, v)
  {
    hide Rotation, InRange;
    forall i: nat, c: nat | i < |counts| && c < counts[i]
      ensures HasTurn(vectors, |vectors|, i, c)
    {
      assert counts[i] in counts;
      RotationIs(counts, c);
      assert vectors[c][i] == c;
    }
    forall k | 0 <= k < |vectors| ensures InRange(counts, vectors[k]) { RotationIs(counts, k); }
  }

  /** The first loop: the first `n` rotations. */
  method Rotations(counts: seq<nat>, n: nat) returns (vectors: seq<Vector>)
    requires counts != [] && (forall c :: c in counts ==> c > 0) && IsMaximum(counts, n)
    ensures |vectors| == n && NoDuplicates(vectors)
    ensures forall v :: v in vectors ==> InRange(counts, v)
    ensures UsesEverySource(counts, vectors, n)
  {
    hide Rotation, InRange, UsesEverySource;
    forall i | 0 <= i < |counts| ensures counts[i] > 0 { assert counts[i] in counts; }
    ghost var widest :| 0 <= widest < |counts| && counts[widest] == n;
    vectors := [];
    var seen: set<Vector> := {};
    for k := 0 to n
      invariant |vectors| == k && NoDuplicates(vectors) && AreRotations(counts, vectors)
      invariant forall v :: v in seen <==> v in vectors
    {
      var v := Rotation(counts, k);
      RotationsDiffer(counts, vectors, widest);
      if v !in seen {
        seen := seen + {v};
        vectors := vectors + [v];
      }
    }
    RotationsUseEverySource(counts, vectors);
  }

  lemma ExtendKeepsUse(counts: seq<nat>, vectors: seq<Vector>, v: Vector, n: nat)
    requires UsesEverySource(counts, vectors, n)
    ensures UsesEverySource(counts, vectors + [v], n)
  {
    forall i: nat, c: nat | i < |counts| && c < counts[i]
      ensures HasTurn(vectors + [v], n, i, c)
    {
      assert HasTurn(vectors, n, i, c);
      var k :| 0 <= k < n && k < |vectors| && i < |vectors[k]| && vectors[k][i] == c;
      assert (vectors + [v])[k] == vectors[k];
    }
  }

  lemma TruncateKeepsUse(counts: seq<nat>, vectors: seq<Vector>, cut: seq<Vector>, n: nat)
    requires UsesEverySource(counts, vectors, n) && n <= |cut| <= |vectors| && cut == vectors[..|cut|]
    ensures UsesEverySource(counts, cut, n)
  {
    forall i: nat, c: nat | i < |counts| && c < counts[i]
      ensures HasTurn(cut, n, i, c)
    {
      assert HasTurn(vectors, n, i, c);
      var k :| 0 <= k < n && k < |vectors| && i < |vectors[k]| && vectors[k][i] == c;
      assert cut[k] == vectors[k];
    }
  }
}
