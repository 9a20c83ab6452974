/** Shared vocabulary: optional values, error returns and raw bytes. */
module Base {

  datatype Option<+T> = None | Some(value: T)

  /** A raised exception becomes Err with the text of the message. */
  datatype Result<+T> = Ok(value: T) | Err(message: string)

  type Byte = b: int | 0 <= b < 256

  /** SHA-256 is an uninterpreted function from contents to a digest text. */
  type Hash = seq<Byte> -> string

  ghost predicate CollisionFree(hash: Hash) {
    forall a, b :: hash(a) == hash(b) ==> a == b
  }

  function Min(a: int, b: int): (r: int)
    ensures r <= a && r <= b && (r == a || r == b)
  {
    if a <= b then a else b
  }

  function Max(a: int, b: int): (r: int)
    ensures r >= a && r >= b && (r == a || r == b)
  {
    if a >= b then a else b
  }

  ghost predicate NoDuplicates<T>(s: seq<T>) {
    forall i, j :: 0 <= i < j < |s| ==> s[i] != s[j]
  }

  /** The elements of a set, each once, in some order. */
  ghost predicate Lists<T>(items: seq<T>, all: set<T>) {
    NoDuplicates(items) && (forall x :: x in all ==> x in items) && (forall x :: x in items ==> x in all)
  }

  lemma KeysSize<K, V>(m: map<K, V>)
    ensures |m.Keys| == |m|
  {
  }

  /** A slice of a slice is a slice. */
  lemma SliceOfSlice<T>(s: seq<T>, a: nat, b: nat, c: nat, d: nat)
    requires a <= b <= |s| && c <= d <= b - a
    ensures s[a..b][c..d] == s[a + c..a + d]
  {
    var left, right := s[a..b][c..d], s[a + c..a + d];
    forall i | 0 <= i < |left| ensures left[i] == right[i] {
      assert left[i] == s[a..b][c + i] == s[a + c + i];
    }
  }

  lemma SliceBehind<T>(head: seq<T>, s: seq<T>, c: nat, d: nat)
    requires c <= d <= |s|
    ensures (head + s)[|head| + c..|head| + d] == s[c..d]
  {
    var left, right := (head + s)[|head| + c..|head| + d], s[c..d];
    forall i | 0 <= i < |left| ensures left[i] == right[i] {
      assert left[i] == (head + s)[|head| + c + i] == s[c + i];
    }
  }

  lemma Successor(q: int, size: int)
    ensures (q + 1) * size == q * size + size
    ensures (q - 1) * size == q * size - size
  {
  }

  lemma Ordered(a: int, b: int, size: nat)
    requires a <= b
    ensures a * size <= b * size
  {
  }

  lemma Quotient(a: int, size: int)
    requires size > 0
    ensures a / size * size <= a < a / size * size + size
  {
  }
}
