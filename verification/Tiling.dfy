/**
 Consequences of a plan: the pieces are an exact tiling of the files, reading
 a piece's segments gives the stream's window, and each file's bytes are
 counted exactly once.
 */
module Tiling {
  import opened Base
  import opened Pieces

  /** Reading a list of file ranges one after the other. */
  ghost function ReadSegments<T>(segments: seq<Segment>, data: map<string, seq<T>>): seq<T>
    requires Readable(segments, data)
  {
    if segments == [] then []
    else
      var last := segments[|segments| - 1];
      ReadSegments(segments[..|segments| - 1], data) + data[last.path][last.offset..last.offset + last.length]
  }

  ghost predicate Readable<T>(segments: seq<Segment>, data: map<string, seq<T>>) {
    forall s :: s in segments ==> s.path in data && s.offset + s.length <= |data[s.path]|
  }

  lemma TilesPrefix(files: seq<CheckpointFile>, segments: seq<Segment>, lo: nat, hi: nat)
    requires Tiles(files, segments, lo, hi) && segments != []
    ensures Tiles(files, segments[..|segments| - 1], lo, hi - segments[|segments| - 1].length)
  {
    var init := segments[..|segments| - 1];
    forall j | 0 <= j < |init|
      ensures InPlace(files, init, lo, j) && Maximal(files, init, j)
    {
      assert init[..j] == segments[..j];
      assert InPlace(files, segments, lo, j) && Maximal(files, segments, j);
    }
  }

  lemma TilesReadable<T>(files: seq<CheckpointFile>, segments: seq<Segment>, lo: nat, hi: nat,
                         data: map<string, seq<T>>)
    requires Tiles(files, segments, lo, hi) && Sized(files, data)
    ensures Readable(segments, data)
  {
    forall s | s in segments
      ensures s.path in data && s.offset + s.length <= |data[s.path]|
    {
      var j :| 0 <= j < |segments| && segments[j] == s;
      assert InPlace(files, segments, lo, j);
      var k: nat :| InFile(files, s, k, lo + LengthSum(segments[..j]));
      assert files[k] in files;
    }
  }

  /** A placed segment's bytes are the stream's bytes at its place. */
  lemma SegmentRead<T>(files: seq<CheckpointFile>, s: Segment, at: nat, data: map<string, seq<T>>)
    requires Placed(files, s, at) && Sized(files, data)
    ensures s.path in data && s.offset + s.length <= |data[s.path]|
    ensures at + s.length <= TotalSize(files) == |Stream(files, data)|
    ensures data[s.path][s.offset..s.offset + s.length] == Stream(files, data)[at..at + s.length]
  {
    var k: nat :| InFile(files, s, k, at);
    assert files[k] in files;
    StreamOfFile(files, data, k);
    var start, stream := FileStart(files, k), Stream(files, data);
    SliceOfSlice(stream, start, start + files[k].size, s.offset, s.offset + s.length);
  }

  /** Reading the segments of a window returns exactly the stream's bytes in that window. */
  lemma {:induction false} WindowRead<T>(files: seq<CheckpointFile>, segments: seq<Segment>, lo: nat, hi: nat,
                                         data: map<string, seq<T>>)
    requires Tiles(files, segments, lo, hi) && Sized(files, data) && lo <= TotalSize(files)
    ensures Readable(segments, data)
    ensures hi <= TotalSize(files) == |Stream(files, data)|
    ensures ReadSegments(segments, data) == Stream(files, data)[lo..hi]
  {
    hide Stream, TotalSize, Sized;
    TilesReadable(files, segments, lo, hi, data);
    StreamLength(files, data);
    if segments != [] {
      var n := |segments| - 1;
      var mid := hi - segments[n].length;
      TilesPrefix(files, segments, lo, hi);
      WindowRead(files, segments[..n], lo, mid, data);
      assert InPlace(files, segments, lo, n);
      SegmentRead(files, segments[n], mid, data);
      ReadLast(segments, data, Stream(files, data), lo, mid, hi);
    }
  }

  lemma ReadLast<T>(segments: seq<Segment>, data: map<string, seq<T>>, stream: seq<T>, lo: nat, mid: nat, hi: nat)
    requires segments != [] && Readable(segments, data) && lo <= mid <= hi <= |stream|
    requires ReadSegments(segments[..|segments| - 1], data) == stream[lo..mid]
    requires var s := segments[|segments| - 1]; data[s.path][s.offset..s.offset + s.length] == stream[mid..hi]
    ensures ReadSegments(segments, data) == stream[lo..hi]
  {
    assert stream[lo..mid] + stream[mid..hi] == stream[lo..hi];
  }

  /******* Pieces follow one another *******/

  /** Stream position where piece i begins, or where the stream ends. */
  ghost function Boundary(m: Manifest, pieces: seq<Piece>, i: nat): nat {
    if i < |pieces| then pieces[i].streamOffset else TotalSize(m.files)
  }

  ghost predicate Adjacent(m: Manifest, pieces: seq<Piece>, i: nat)
    requires i < |pieces|
  {
    pieces[i].length > 0 && pieces[i].streamOffset + pieces[i].length == Boundary(m, pieces, i + 1)
  }

  ghost predicate Consecutive(m: Manifest, pieces: seq<Piece>) {
    Boundary(m, pieces, 0) == 0 && forall i :: 0 <= i < |pieces| ==> Adjacent(m, pieces, i)
  }

  /** The windows of an accepted manifest's plan follow one another from 0 to the last byte. */
  lemma PiecesConsecutive(m: Manifest, pieces: seq<Piece>)
    requires Acceptable(m) && Planned(m, pieces)
    ensures Consecutive(m, pieces)
  {
    var p := m.pieceSize;
    PiecesReachEnd(m.estimatedSize, p);
    forall i | 0 <= i < |pieces|
      ensures Adjacent(m, pieces, i)
    {
      assert PlannedPiece(m, pieces[i], i);
      assert (i + 1) * p == i * p + p;
      if i + 1 < |pieces| {
        assert PlannedPiece(m, pieces[i + 1], i + 1);
        PieceStartsInside(m.estimatedSize, p, i + 1);
      } else {
        assert i + 1 == |pieces|;
      }
    }
    if pieces != [] {
      assert PlannedPiece(m, pieces[0], 0);
    }
  }

  lemma {:induction false} PiecesAscend(m: Manifest, pieces: seq<Piece>, i: nat, j: nat)
    requires Consecutive(m, pieces) && i < j <= |pieces|
    ensures pieces[i].streamOffset + pieces[i].length <= Boundary(m, pieces, j)
    decreases j
  {
    if i + 1 < j {
      PiecesAscend(m, pieces, i, j - 1);
      assert Adjacent(m, pieces, j - 1);
    } else {
      assert Adjacent(m, pieces, i);
    }
  }

  ghost predicate InPiece(piece: Piece, x: nat) {
    piece.streamOffset <= x < piece.streamOffset + piece.length
  }

  /** Some piece holds every position below the end of piece n - 1. */
  lemma {:induction false} SomePieceHolds(m: Manifest, pieces: seq<Piece>, n: nat, x: nat) returns (i: nat)
    requires Consecutive(m, pieces) && n <= |pieces|
    requires x < Boundary(m, pieces, n)
    ensures i < n && InPiece(pieces[i], x)
  {
    assert n > 0;
    assert Adjacent(m, pieces, n - 1);
    if x < pieces[n - 1].streamOffset {
      i := SomePieceHolds(m, pieces, n - 1, x);
    } else {
      i := n - 1;
    }
  }

  /** Some segment of a window holds every position of the window. */
  lemma {:induction false} SomeSegmentHolds(segments: seq<Segment>, n: nat, y: nat) returns (j: nat)
    requires n <= |segments| && y < LengthSum(segments[..n])
    ensures j < n && LengthSum(segments[..j]) <= y < LengthSum(segments[..j]) + segments[j].length
  {
    if n > 0 {
      LengthSumNext(segments, n - 1);
      if y < LengthSum(segments[..n - 1]) {
        j := SomeSegmentHolds(segments, n - 1, y);
      } else {
        j := n - 1;
      }
    }
  }

  /******* Every byte belongs to exactly one segment of exactly one piece *******/

  ghost predicate Owns(pieces: seq<Piece>, i: nat, j: nat, path: string, offset: nat) {
    && i < |pieces| && j < |pieces[i].segments|
    && pieces[i].segments[j].path == path
    && pieces[i].segments[j].offset <= offset < pieces[i].segments[j].offset + pieces[i].segments[j].length
  }

  /** Distinct files never share a stream position. */
  lemma PositionNamesFile(files: seq<CheckpointFile>, k: nat, k': nat, x: nat)
    requires k < |files| && k' < |files|
    requires FileStart(files, k) <= x < FileStart(files, k) + files[k].size
    requires FileStart(files, k') <= x < FileStart(files, k') + files[k'].size
    ensures k == k'
  {
    if k < k' {
      FileStartMonotone(files, k, k');
    } else if k' < k {
      FileStartMonotone(files, k', k);
    }
  }

  /** Owning a byte of file k means covering that byte's stream position. */
  lemma OwnsPosition(m: Manifest, pieces: seq<Piece>, i: nat, j: nat, k: nat, offset: nat)
    requires Planned(m, pieces) && DistinctPaths(m.files) && k < |m.files| && offset < m.files[k].size
    requires i < |pieces| && j < |pieces[i].segments|
    ensures Owns(pieces, i, j, m.files[k].path, offset) <==>
            var at := pieces[i].streamOffset + LengthSum(pieces[i].segments[..j]);
            at <= FileStart(m.files, k) + offset < at + pieces[i].segments[j].length
  {
    var segments := pieces[i].segments;
    assert PlannedPiece(m, pieces[i], i);
    var at := pieces[i].streamOffset + LengthSum(segments[..j]);
    assert InPlace(m.files, segments, pieces[i].streamOffset, j);
    var k': nat :| InFile(m.files, segments[j], k', at);
    var x := FileStart(m.files, k) + offset;
    if at <= x < at + segments[j].length {
      PositionNamesFile(m.files, k, k', x);
    }
    if Owns(pieces, i, j, m.files[k].path, offset) {
      assert k == k';
    }
  }

  /** Two owners of one byte are the same segment of the same piece. */
  lemma OwnerIsUnique(m: Manifest, pieces: seq<Piece>, k: nat, offset: nat, i: nat, j: nat, i': nat, j': nat)
    requires Acceptable(m) && Planned(m, pieces)
    requires k < |m.files| && offset < m.files[k].size
    requires Owns(pieces, i, j, m.files[k].path, offset) && Owns(pieces, i', j', m.files[k].path, offset)
    ensures i == i' && j == j'
  {
    PiecesConsecutive(m, pieces);
    OwnsPosition(m, pieces, i, j, k, offset);
    OwnsPosition(m, pieces, i', j', k, offset);
    SegmentInsidePiece(m, pieces, i, j);
    SegmentInsidePiece(m, pieces, i', j');
    if i < i' {
      PiecesAscend(m, pieces, i, i');
    } else if i' < i {
      PiecesAscend(m, pieces, i', i);
    } else if j < j' {
      LengthSumMonotone(pieces[i].segments, j, j');
    } else if j' < j {
      LengthSumMonotone(pieces[i].segments, j', j);
    }
  }

  lemma SegmentInsidePiece(m: Manifest, pieces: seq<Piece>, i: nat, j: nat)
    requires Planned(m, pieces) && i < |pieces| && j < |pieces[i].segments|
    ensures LengthSum(pieces[i].segments[..j]) + pieces[i].segments[j].length <= pieces[i].length
  {
    var segments := pieces[i].segments;
    assert PlannedPiece(m, pieces[i], i);
    LengthSumMonotone(segments, j, |segments|);
    assert segments[..|segments|] == segments;
  }

  /** The plan of an accepted manifest is an exact tiling of the files' bytes. */
  lemma ExactTiling(m: Manifest, pieces: seq<Piece>, k: nat, offset: nat) returns (i: nat, j: nat)
    requires Acceptable(m) && Planned(m, pieces)
    requires k < |m.files| && offset < m.files[k].size
    ensures Owns(pieces, i, j, m.files[k].path, offset)
    ensures forall i', j' :: Owns(pieces, i', j', m.files[k].path, offset) ==> i' == i && j' == j
  {
    PiecesConsecutive(m, pieces);
    FileStartMonotone(m.files, k, k + 1);
    FileStartNext(m.files, k);
    var x := FileStart(m.files, k) + offset;
    i := SomePieceHolds(m, pieces, |pieces|, x);
    var segments := pieces[i].segments;
    assert PlannedPiece(m, pieces[i], i);
    assert segments[..|segments|] == segments;
    j := SomeSegmentHolds(segments, |segments|, x - pieces[i].streamOffset);
    OwnsPosition(m, pieces, i, j, k, offset);
    forall i', j' | Owns(pieces, i', j', m.files[k].path, offset)
      ensures i' == i && j' == j
    {
      OwnerIsUnique(m, pieces, k, offset, i, j, i', j');
    }
  }

  /******* Per-file byte counts *******/

  /** How many of the listed bytes belong to one file. */
  function BytesOf(segments: seq<Segment>, path: string): nat {
    if segments == [] then 0
    else
      var last := segments[|segments| - 1];
      BytesOf(segments[..|segments| - 1], path) + (if last.path == path then last.length else 0)
  }

  function Overlap(lo: int, hi: int, start: int, end: int): nat {
    Max(0, Min(hi, end) - Max(lo, start))
  }

  /** A window holds of a file exactly the overlap of their stream intervals. */
  lemma {:induction false} WindowBytesOf(files: seq<CheckpointFile>, segments: seq<Segment>, lo: nat, hi: nat, k: nat)
    requires Tiles(files, segments, lo, hi) && DistinctPaths(files) && k < |files|
    ensures BytesOf(segments, files[k].path)
            == Overlap(lo, hi, FileStart(files, k), FileStart(files, k) + files[k].size)
  {
    if segments != [] {
      var n := |segments| - 1;
      TilesPrefix(files, segments, lo, hi);
      WindowBytesOf(files, segments[..n], lo, hi - segments[n].length, k);
      assert InPlace(files, segments, lo, n);
      var k': nat :| InFile(files, segments[n], k', lo + LengthSum(segments[..n]));
      if k < k' {
        FileStartMonotone(files, k, k');
      } else if k' < k {
        FileStartMonotone(files, k', k);
      }
    }
  }

  /** Bytes of one file over the chosen pieces among the first n. */
  ghost function ChosenBytes(pieces: seq<Piece>, chosen: set<nat>, path: string, n: nat): nat
    requires n <= |pieces|
  {
    if n == 0 then 0
    else ChosenBytes(pieces, chosen, path, n - 1)
         + (if n - 1 in chosen then BytesOf(pieces[n - 1].segments, path) else 0)
  }

  /** Choosing one more piece adds exactly that piece's bytes of the file. */
  lemma {:induction false} ChosenBytesAdd(pieces: seq<Piece>, chosen: set<nat>, path: string, n: nat, i: nat)
    requires n <= |pieces| && i !in chosen
    ensures ChosenBytes(pieces, chosen + {i}, path, n)
         == ChosenBytes(pieces, chosen, path, n) + (if i < n then BytesOf(pieces[i].segments, path) else 0)
  {
    if n > 0 {
      ChosenBytesAdd(pieces, chosen, path, n - 1, i);
    }
  }

  lemma {:induction false} PrefixBytes(m: Manifest, pieces: seq<Piece>, chosen: set<nat>, k: nat, n: nat)
    requires Planned(m, pieces) && Consecutive(m, pieces) && DistinctPaths(m.files)
    requires k < |m.files| && n <= |pieces| && (forall i :: 0 <= i < n ==> i in chosen)
    ensures ChosenBytes(pieces, chosen, m.files[k].path, n)
         == Overlap(0, Boundary(m, pieces, n), FileStart(m.files, k), FileStart(m.files, k) + m.files[k].size)
  {
    hide BytesOf, TotalSize, DistinctPaths, FileStart, Overlap, Planned, Consecutive, Boundary;
    if n == 0 {
      NothingOverlaps(m, pieces, FileStart(m.files, k), FileStart(m.files, k) + m.files[k].size);
    } else {
      PrefixBytes(m, pieces, chosen, k, n - 1);
      PieceEnds(m, pieces, n - 1);
      PieceBytesOf(m, pieces, n - 1, k);
      OverlapJoins(Boundary(m, pieces, n - 1), Boundary(m, pieces, n), FileStart(m.files, k),
                   FileStart(m.files, k) + m.files[k].size);
    }
  }

  lemma NothingOverlaps(m: Manifest, pieces: seq<Piece>, start: nat, end: nat)
    requires Consecutive(m, pieces)
    ensures Overlap(0, Boundary(m, pieces, 0), start, end) == 0
  {
  }

  lemma PieceEnds(m: Manifest, pieces: seq<Piece>, i: nat)
    requires Consecutive(m, pieces) && i < |pieces|
    ensures pieces[i].streamOffset == Boundary(m, pieces, i)
    ensures pieces[i].streamOffset + pieces[i].length == Boundary(m, pieces, i + 1)
  {
    assert Adjacent(m, pieces, i);
  }

  lemma OverlapJoins(mid: nat, hi: nat, start: nat, end: nat)
    requires mid <= hi && start <= end
    ensures Overlap(0, mid, start, end) + Overlap(mid, hi, start, end) == Overlap(0, hi, start, end)
  {
  }

  lemma PieceBytesOf(m: Manifest, pieces: seq<Piece>, i: nat, k: nat)
    requires Planned(m, pieces) && DistinctPaths(m.files) && i < |pieces| && k < |m.files|
    ensures BytesOf(pieces[i].segments, m.files[k].path)
         == Overlap(pieces[i].streamOffset, pieces[i].streamOffset + pieces[i].length,
                    FileStart(m.files, k), FileStart(m.files, k) + m.files[k].size)
  {
    assert PlannedPiece(m, pieces[i], i);
    WindowBytesOf(m.files, pieces[i].segments, pieces[i].streamOffset, pieces[i].streamOffset + pieces[i].length, k);
  }

  /** Once every piece is chosen, each file's count has reached the file's size. */
  lemma AllPiecesFillEveryFile(m: Manifest, pieces: seq<Piece>, chosen: set<nat>, k: nat)
    requires Acceptable(m) && Planned(m, pieces)
    requires k < |m.files| && (forall i :: 0 <= i < |pieces| ==> i in chosen)
    ensures ChosenBytes(pieces, chosen, m.files[k].path, |pieces|) == m.files[k].size
  {
    PiecesConsecutive(m, pieces);
    PrefixBytes(m, pieces, chosen, k, |pieces|);
    FileStartMonotone(m.files, k, k + 1);
    FileStartNext(m.files, k);
  }
}
