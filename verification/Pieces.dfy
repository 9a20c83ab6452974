/**
 The manifest's view of a checkpoint: files laid end to end form one byte
 stream, and the stream is cut into pieces of `pieceSize` bytes.  The planner
 maps every piece onto file-local ranges.  ai2apps/checkpoint_distribution.py.
 */
module Pieces {
  import opened Base

  datatype CheckpointFile = CheckpointFile(path: string, size: nat, sha256: string)

  /** A file entry as the manifest gives it, before any check. */
  datatype RawFile = RawFile(path: string, size: int, sha256: string)

  datatype Manifest = Manifest(files: seq<CheckpointFile>, estimatedSize: nat,
                               pieceSize: nat, pieceHashes: seq<string>)

  datatype Segment = Segment(path: string, offset: nat, length: nat)

  datatype Piece = Piece(index: nat, streamOffset: nat, length: nat, sha256: string,
                         segments: seq<Segment>)

  /******* The stream and its coordinates *******/

  function TotalSize(files: seq<CheckpointFile>): nat {
    if files == [] then 0 else files[0].size + TotalSize(files[1..])
  }

  ghost predicate DistinctPaths(files: seq<CheckpointFile>) {
    forall i, j :: 0 <= i < j < |files| ==> files[i].path != files[j].path
  }

  /** Where file number k begins in the stream. */
  function FileStart(files: seq<CheckpointFile>, k: nat): nat
    requires k <= |files|
  {
    TotalSize(files[..k])
  }

  lemma {:induction false} TotalSizeAppend(a: seq<CheckpointFile>, b: seq<CheckpointFile>)
    ensures TotalSize(a + b) == TotalSize(a) + TotalSize(b)
  {
    if a == [] {
      assert a + b == b;
    } else {
      assert (a + b)[1..] == a[1..] + b;
      TotalSizeAppend(a[1..], b);
    }
  }

  lemma FileStartNext(files: seq<CheckpointFile>, k: nat)
    requires k < |files|
    ensures FileStart(files, k + 1) == FileStart(files, k) + files[k].size
  {
    assert files[..k + 1] == files[..k] + [files[k]];
    TotalSizeAppend(files[..k], [files[k]]);
    assert TotalSize([files[k]]) == files[k].size + TotalSize([]);
  }

  lemma FileStartEnd(files: seq<CheckpointFile>)
    ensures FileStart(files, |files|) == TotalSize(files)
  {
    assert files[..|files|] == files;
  }

  /** Files occupy disjoint, ascending intervals of the stream. */
  lemma {:induction false} FileStartMonotone(files: seq<CheckpointFile>, i: nat, j: nat)
    requires i <= j <= |files|
    ensures FileStart(files, i) <= FileStart(files, j) <= TotalSize(files)
    ensures i < j ==> FileStart(files, i) + files[i].size <= FileStart(files, j)
    decreases |files| - i
  {
    if i < j {
      FileStartNext(files, i);
      FileStartMonotone(files, i + 1, j);
    } else {
      FileStartEnd(files);
      if i < |files| {
        FileStartNext(files, i);
        FileStartMonotone(files, i + 1, |files|);
      }
    }
  }

  /** A path-to-contents table holds each listed file at its listed size. */
  ghost predicate Sized<T>(files: seq<CheckpointFile>, data: map<string, seq<T>>) {
    forall f :: f in files ==> f.path in data && |data[f.path]| == f.size
  }

  /** The files' contents laid end to end. */
  ghost function Stream<T>(files: seq<CheckpointFile>, data: map<string, seq<T>>): seq<T>
    requires Sized(files, data)
  {
    if files == [] then [] else data[files[0].path] + Stream(files[1..], data)
  }

  lemma {:induction false} StreamLength<T>(files: seq<CheckpointFile>, data: map<string, seq<T>>)
    requires Sized(files, data)
    ensures |Stream(files, data)| == TotalSize(files)
  {
    if files != [] {
      StreamLength(files[1..], data);
    }
  }

  lemma StartShift(files: seq<CheckpointFile>, k: nat)
    requires 0 < k <= |files|
    ensures FileStart(files, k) == files[0].size + FileStart(files[1..], k - 1)
  {
    assert files[..k][1..] == files[1..][..k - 1];
  }

  /** A file's own bytes are the stream's bytes in that file's interval. */
  lemma {:induction false} StreamOfFile<T>(files: seq<CheckpointFile>, data: map<string, seq<T>>, k: nat)
    requires Sized(files, data) && k < |files|
    ensures |Stream(files, data)| == TotalSize(files)
    ensures FileStart(files, k) + files[k].size <= TotalSize(files)
    ensures Stream(files, data)[FileStart(files, k)..FileStart(files, k) + files[k].size] == data[files[k].path]
  {
    hide Stream, TotalSize, FileStart, Sized;
    StreamLength(files, data);
    FileStartMonotone(files, k, k + 1);
    FileStartNext(files, k);
    SizedRest(files, data);
    if k == 0 {
      FirstFile(files, data);
    } else {
      StreamOfFile(files[1..], data, k - 1);
      StartShift(files, k);
      BehindFirst(files, data, FileStart(files[1..], k - 1), files[k].size);
    }
  }

  lemma SizedRest<T>(files: seq<CheckpointFile>, data: map<string, seq<T>>)
    requires Sized(files, data) && files != []
    ensures Sized(files[1..], data) && forall f :: f in files ==> f.path in data
  {
  }

  lemma FirstFile<T>(files: seq<CheckpointFile>, data: map<string, seq<T>>)
    requires Sized(files, data) && files != [] && files[0].size <= |Stream(files, data)|
    ensures FileStart(files, 0) == 0 && files[0].path in data
    ensures Stream(files, data)[..files[0].size] == data[files[0].path]
  {
    assert files[0] in files;
  }

  lemma BehindFirst<T>(files: seq<CheckpointFile>, data: map<string, seq<T>>, a: nat, n: nat)
    requires Sized(files, data) && files != [] && a + n <= |Stream(files[1..], data)|
    ensures files[0].size + a + n <= |Stream(files, data)|
    ensures Stream(files, data)[files[0].size + a..files[0].size + a + n] == Stream(files[1..], data)[a..a + n]
  {
    assert files[0] in files;
    SliceBehind(data[files[0].path], Stream(files[1..], data), a, a + n);
  }

  /** Equal streams of equally sized files come from equal files. */
  lemma StreamDeterminesFiles<T>(files: seq<CheckpointFile>, a: map<string, seq<T>>, b: map<string, seq<T>>)
    requires Sized(files, a) && Sized(files, b) && Stream(files, a) == Stream(files, b)
    ensures forall f :: f in files ==> a[f.path] == b[f.path]
  {
    forall f | f in files
      ensures a[f.path] == b[f.path]
    {
      var k :| 0 <= k < |files| && files[k] == f;
      StreamOfFile(files, a, k);
      StreamOfFile(files, b, k);
    }
  }

  /******* What a set of segments means *******/

  function LengthSum(segments: seq<Segment>): nat {
    if segments == [] then 0 else LengthSum(segments[..|segments| - 1]) + segments[|segments| - 1].length
  }

  lemma LengthSumNext(segments: seq<Segment>, j: nat)
    requires j < |segments|
    ensures LengthSum(segments[..j + 1]) == LengthSum(segments[..j]) + segments[j].length
  {
    assert segments[..j + 1][..j] == segments[..j];
  }

  lemma {:induction false} LengthSumMonotone(segments: seq<Segment>, i: nat, j: nat)
    requires i <= j <= |segments|
    ensures LengthSum(segments[..i]) <= LengthSum(segments[..j])
    ensures i < j ==> LengthSum(segments[..i]) + segments[i].length <= LengthSum(segments[..j])
    decreases j
  {
    if i < j {
      LengthSumNext(segments, j - 1);
      LengthSumMonotone(segments, i, j - 1);
    }
  }

  /** The segment lies in file k and starts at stream position `at`. */
  ghost predicate InFile(files: seq<CheckpointFile>, s: Segment, k: nat, at: nat) {
    && k < |files|
    && s.path == files[k].path
    && s.offset + s.length <= files[k].size
    && FileStart(files, k) + s.offset == at
  }

  /** The segment names a range of some file, and that range starts at stream position `at`. */
  ghost predicate Placed(files: seq<CheckpointFile>, s: Segment, at: nat) {
    exists k :: InFile(files, s, k, at)
  }

  /** Segment j covers the stream from lo plus the earlier lengths onwards. */
  ghost predicate InPlace(files: seq<CheckpointFile>, segments: seq<Segment>, lo: nat, j: nat)
    requires j < |segments|
  {
    Placed(files, segments[j], lo + LengthSum(segments[..j]))
  }

  ghost predicate ReachesEnd(files: seq<CheckpointFile>, s: Segment) {
    exists k :: 0 <= k < |files| && files[k].path == s.path && s.offset + s.length == files[k].size
  }

  /** A segment is cut short only at the window's end; only the first starts inside a file. */
  ghost predicate Maximal(files: seq<CheckpointFile>, segments: seq<Segment>, j: nat)
    requires j < |segments|
  {
    && (j > 0 ==> segments[j].offset == 0)
    && (j + 1 < |segments| ==> ReachesEnd(files, segments[j]))
  }

  /** The segments are exactly the stream window [lo, hi), in order, without gap or overlap. */
  ghost predicate Tiles(files: seq<CheckpointFile>, segments: seq<Segment>, lo: nat, hi: nat) {
    && lo + LengthSum(segments) == hi
    && (forall j :: 0 <= j < |segments| ==> segments[j].length > 0)
    && (forall j :: 0 <= j < |segments| ==> InPlace(files, segments, lo, j))
    && (forall j :: 0 <= j < |segments| ==> Maximal(files, segments, j))
  }

  function WindowEnd(m: Manifest, lo: nat): (hi: nat) {
    Min(lo + m.pieceSize, m.estimatedSize)
  }

  /** Piece number i of the plan is the stream window [i * pieceSize, ...). */
  ghost predicate PlannedPiece(m: Manifest, piece: Piece, i: nat)
    requires i < |m.pieceHashes|
  {
    && piece.index == i
    && piece.streamOffset == i * m.pieceSize
    && piece.sha256 == m.pieceHashes[i]
    && piece.streamOffset + piece.length == WindowEnd(m, piece.streamOffset)
    && piece.length > 0
    && Tiles(m.files, piece.segments, piece.streamOffset, piece.streamOffset + piece.length)
  }

  ghost predicate Planned(m: Manifest, pieces: seq<Piece>) {
    && |pieces| == |m.pieceHashes|
    && (forall i :: 0 <= i < |pieces| ==> PlannedPiece(m, pieces[i], i))
  }

  /******* What the parser accepts *******/

  /** All that the planner needs of a manifest; every accepted manifest has it. */
  ghost predicate Acceptable(m: Manifest) {
    && (forall f :: f in m.files ==> f.size > 0)
    && DistinctPaths(m.files)
    && m.estimatedSize == TotalSize(m.files)
    && m.pieceSize > 0
    && |m.pieceHashes| == PieceCount(m.estimatedSize, m.pieceSize)
  }

  function PieceCount(total: nat, pieceSize: nat): nat
    requires pieceSize > 0
  {
    (total + pieceSize - 1) / pieceSize
  }

  predicate IsPowerOfTwo(n: nat) {
    n == 1 || (n > 0 && n % 2 == 0 && IsPowerOfTwo(n / 2))
  }

  function Power(e: nat): nat {
    if e == 0 then 1 else 2 * Power(e - 1)
  }

  lemma {:induction false} PowersAreGreater(e: nat, f: nat)
    requires e < f
    ensures Power(e) < Power(f)
    decreases f
  {
    if e > 0 { PowersAreGreater(e - 1, f - 1); } else if f > 1 { PowersAreGreater(0, f - 1); }
  }

  lemma {:induction false} IsPower(n: nat) returns (e: nat)
    requires IsPowerOfTwo(n)
    ensures n == Power(e)
  {
    if n == 1 {
      e := 0;
    } else {
      e := IsPower(n / 2);
      e := e + 1;
    }
  }

  lemma SmallPowers()
    ensures Power(20) == 0x100000 && Power(21) == 0x200000 && Power(22) == 0x400000 && Power(23) == 0x800000
    ensures Power(24) == 0x1000000 && Power(25) == 0x2000000 && Power(26) == 0x4000000
  {
    assert Power(4) == 16;
    assert Power(8) == 256;
    assert Power(12) == 4096;
    assert Power(16) == 65536;
  }

  lemma {:induction false} PowerIsOne(e: nat)
    ensures IsPowerOfTwo(Power(e))
  {
    if e > 0 { PowerIsOne(e - 1); }
  }

  /** The piece sizes that pass. */
  lemma PieceSizes(n: nat)
    ensures MINIMUM_PIECE <= n <= MAXIMUM_PIECE && IsPowerOfTwo(n) <==>
            n in {0x100000, 0x200000, 0x400000, 0x800000, 0x1000000, 0x2000000, 0x4000000}
  {
    SmallPowers();
    if MINIMUM_PIECE <= n <= MAXIMUM_PIECE && IsPowerOfTwo(n) {
      var e := IsPower(n);
      if e < 20 { PowersAreGreater(e, 20); }
      if e > 26 { PowersAreGreater(26, e); }
    }
    for e := 20 to 27
      invariant forall k :: 20 <= k < e ==> IsPowerOfTwo(Power(k))
    {
      PowerIsOne(e);
    }
    hide Power, IsPowerOfTwo;
  }

  const MINIMUM_PIECE := 1024 * 1024
  const MAXIMUM_PIECE := 64 * 1024 * 1024

  /** The loop over the listed files. */
  method ParseFiles(entries: seq<RawFile>) returns (r: Result<seq<CheckpointFile>>)
    ensures r.Ok? <==> (&& (forall i :: 0 <= i < |entries| ==> entries[i].size > 0)
                        && (forall i, j :: 0 <= i < j < |entries| ==> entries[i].path != entries[j].path))
    ensures r.Ok? ==>
              && |r.value| == |entries|
              && forall i :: 0 <= i < |entries| ==>
                   RawFile(r.value[i].path, r.value[i].size, r.value[i].sha256) == entries[i]
  {
    var files: seq<CheckpointFile> := [];
    var seen: set<string> := {};
    for index := 0 to |entries|
      invariant |files| == index
      invariant forall path :: path in seen <==> exists i :: 0 <= i < index && entries[i].path == path
      invariant forall i :: 0 <= i < index ==> RawFile(files[i].path, files[i].size, files[i].sha256) == entries[i]
      invariant forall i :: 0 <= i < index ==> entries[i].size > 0
      invariant forall i, j :: 0 <= i < j < index ==> entries[i].path != entries[j].path
    {
      var RawFile(path, size, sha256) := entries[index];
      if size <= 0 {
        return Err("files size is invalid");
      }
      if path in seen {
        return Err("checkpoint file paths must be unique");
      }
      seen := seen + {path};
      files := files + [CheckpointFile(path, size, sha256)];
    }
    r := Ok(files);
  }

  /** The size, uniqueness and count checks of the manifest parser; a raw size may be any integer. */
  method ParseManifest(entries: seq<RawFile>, estimatedSize: int, pieceSize: int, hashes: seq<string>)
    returns (r: Result<Manifest>)
    ensures r.Ok? ==> Acceptable(r.value) && r.value.files != []
    ensures r.Ok? ==>
              && |r.value.files| == |entries| && r.value.pieceHashes == hashes && r.value.pieceSize == pieceSize
              && forall i :: 0 <= i < |entries| ==>
                   RawFile(r.value.files[i].path, r.value.files[i].size, r.value.files[i].sha256) == entries[i]
    ensures r.Ok? <==> (&& entries != []
                        && (forall i :: 0 <= i < |entries| ==> entries[i].size > 0)
                        && (forall i, j :: 0 <= i < j < |entries| ==> entries[i].path != entries[j].path)
                        && estimatedSize == SizeSum(entries)
                        && pieceSize in {0x100000, 0x200000, 0x400000, 0x800000, 0x1000000, 0x2000000, 0x4000000}
                        && estimatedSize >= 0
                        && |hashes| * pieceSize - pieceSize < estimatedSize <= |hashes| * pieceSize)
  {
    hide IsPowerOfTwo, TotalSize, SizeSum, PieceCount;
    if pieceSize >= 0 { PieceSizes(pieceSize); }
    if entries == [] {
      return Err("files must be a non-empty array");
    }
    var parsed := ParseFiles(entries);
    if parsed.Err? {
      return Err(parsed.message);
    }
    var files := parsed.value;
    SizeSumIsTotal(entries, files);
    if estimatedSize != TotalSize(files) {
      return Err("estimatedSizeBytes must equal the verified file size total");
    }
    if !(MINIMUM_PIECE <= pieceSize <= MAXIMUM_PIECE && IsPowerOfTwo(pieceSize)) {
      return Err("pieceSize must be a power of two between 1 MiB and 64 MiB");
    }
    PieceCountIs(estimatedSize, pieceSize, |hashes|);
    if |hashes| != PieceCount(estimatedSize, pieceSize) {
      return Err("pieceHashes count does not match file bytes");
    }
    return Ok(Manifest(files, estimatedSize, pieceSize, hashes));
  }

  /** So many pieces cover the total and one fewer does not. */
  lemma PieceCountIs(total: nat, pieceSize: nat, count: nat)
    requires pieceSize > 0
    ensures count == PieceCount(total, pieceSize) <==> count * pieceSize - pieceSize < total <= count * pieceSize
  {
    var q := PieceCount(total, pieceSize);
    Quotient(total + pieceSize - 1, pieceSize);
    Successor(q, pieceSize);
    if count < q {
      Ordered(count + 1, q, pieceSize);
      Successor(count, pieceSize);
    } else if count > q {
      Ordered(q + 1, count, pieceSize);
    }
  }

  function SizeSum(entries: seq<RawFile>): int {
    if entries == [] then 0 else entries[0].size + SizeSum(entries[1..])
  }

  lemma {:induction false} SizeSumIsTotal(entries: seq<RawFile>, files: seq<CheckpointFile>)
    requires |files| == |entries| && forall i :: 0 <= i < |files| ==> files[i].size == entries[i].size
    ensures TotalSize(files) == SizeSum(entries)
  {
    if files != [] {
      SizeSumIsTotal(entries[1..], files[1..]);
    }
  }

  /******* The planner *******/

  /** Every piece number below the count starts strictly inside the stream. */
  lemma PieceStartsInside(total: nat, size: nat, i: nat)
    requires size > 0 && i < (total + size - 1) / size
    ensures i * size < total
  {
    var q := (total + size - 1) / size;
    Quotient(total + size - 1, size);
    Ordered(i + 1, q, size);
    Successor(i, size);
  }

  /** The last piece reaches the end of the stream. */
  lemma PiecesReachEnd(total: nat, size: nat)
    requires size > 0
    ensures total <= (total + size - 1) / size * size
  {
    var q := (total + size - 1) / size;
    Quotient(total + size - 1, size);
    Successor(q, size);
  }

  /**
   The inner loop of the planner: cut the window [lo, hi) into file ranges,
   starting at file `index`, whose first byte is stream position `start`.
   */
  method CutWindow(files: seq<CheckpointFile>, index: nat, start: nat, lo: nat, hi: nat)
    returns (r: Result<seq<Segment>>)
    requires index <= |files| && start == FileStart(files, index) <= lo
    ensures r.Ok? ==> r.value != [] && Tiles(files, r.value, lo, hi)
    ensures (&& lo < hi <= TotalSize(files)
             && (forall f :: f in files ==> f.size > 0)
             && (index < |files| ==> lo < start + files[index].size)) ==> r.Ok?
  {
    hide Tiles, ReachesEnd, FileStart, TotalSize;
    var cursor, currentIndex, currentStart := lo, index, start;
    var segments: seq<Segment> := [];
    NothingTiles(files, lo);
    while cursor < hi && currentIndex < |files|
      invariant 0 <= currentIndex <= |files| && currentStart == FileStart(files, currentIndex) <= cursor
      invariant lo <= cursor && (cursor <= hi || segments == [])
      invariant Tiles(files, segments, lo, cursor)
      invariant segments == [] ==> cursor == lo && currentIndex == index
      invariant segments != [] && cursor < hi ==>
                  && cursor == currentStart
                  && ReachesEnd(files, segments[|segments| - 1])
      decreases hi - cursor
    {
      var file := files[currentIndex];
      var offset := cursor - currentStart;
      var length := Min(hi - cursor, file.size - offset);
      if length <= 0 {
        return Err("piece plan does not cover file bytes");
      }
      OneMoreTile(files, segments, Segment(file.path, offset, length), lo, cursor, currentIndex);
      segments := segments + [Segment(file.path, offset, length)];
      cursor := cursor + length;
      FileStartNext(files, currentIndex);
      if offset + length == file.size {
        currentStart := currentStart + file.size;
        currentIndex := currentIndex + 1;
      }
    }
    if cursor != hi || segments == [] {
      FileStartEnd(files);
      return Err("piece plan does not cover manifest bytes");
    }
    return Ok(segments);
  }

  lemma NothingTiles(files: seq<CheckpointFile>, lo: nat)
    ensures Tiles(files, [], lo, lo)
  {
  }

  /** A range of a file behind the others extends the window by its length; it reaches the file's end or not. */
  lemma OneMoreTile(files: seq<CheckpointFile>, before: seq<Segment>, s: Segment, lo: nat, at: nat, k: nat)
    requires Tiles(files, before, lo, at) && InFile(files, s, k, at) && s.length > 0
    requires before != [] ==> s.offset == 0 && ReachesEnd(files, before[|before| - 1])
    ensures Tiles(files, before + [s], lo, at + s.length)
    ensures s.offset + s.length == files[k].size ==> ReachesEnd(files, s)
  {
    hide FileStart, LengthSum, InPlace, Maximal, ReachesEnd;
    TilesExtend(files, before, s, lo, k);
    EndReached(files, s, k);
  }

  lemma EndReached(files: seq<CheckpointFile>, s: Segment, k: nat)
    requires k < |files| && files[k].path == s.path && s.offset + s.length <= files[k].size
    ensures s.offset + s.length == files[k].size ==> ReachesEnd(files, s)
  {
  }

  /** Appending one placed segment keeps the earlier segments' facts. */
  lemma {:induction false} TilesExtend(files: seq<CheckpointFile>, before: seq<Segment>, s: Segment, lo: nat, k: nat)
    requires InFile(files, s, k, lo + LengthSum(before))
    requires forall j :: 0 <= j < |before| ==> InPlace(files, before, lo, j)
    requires forall j :: 0 <= j < |before| ==> Maximal(files, before, j)
    requires before != [] ==> s.offset == 0 && ReachesEnd(files, before[|before| - 1])
    ensures LengthSum(before + [s]) == LengthSum(before) + s.length
    ensures forall j :: 0 <= j <= |before| ==> InPlace(files, before + [s], lo, j)
    ensures forall j :: 0 <= j <= |before| ==> Maximal(files, before + [s], j)
  {
    var after := before + [s];
    assert after[..|before|] == before;
    forall j | 0 <= j <= |before|
      ensures InPlace(files, after, lo, j)
      ensures Maximal(files, after, j)
    {
      assert after[..j] == before[..j];
      if j < |before| {
        assert InPlace(files, before, lo, j) && Maximal(files, before, j);
      } else {
        assert before[..|before|] == before;
        assert InFile(files, after[j], k, lo + LengthSum(before));
      }
    }
  }

  /** One round of the outer loop: skip finished files, then cut this piece's window. */
  method PlanPiece(m: Manifest, pieceIndex: nat, streamOffset: nat, index: nat, start: nat)
    returns (r: Result<Piece>, fileIndex: nat, fileStreamStart: nat)
    requires pieceIndex < |m.pieceHashes| && streamOffset == pieceIndex * m.pieceSize
    requires index <= |m.files| && start == FileStart(m.files, index) <= streamOffset
    ensures r.Ok? ==> PlannedPiece(m, r.value, pieceIndex)
    ensures fileIndex <= |m.files| && fileStreamStart == FileStart(m.files, fileIndex) <= streamOffset
    ensures (&& (forall f :: f in m.files ==> f.size > 0)
             && m.estimatedSize == TotalSize(m.files)
             && m.pieceSize > 0 && streamOffset < m.estimatedSize) ==> r.Ok?
  {
    fileIndex, fileStreamStart := index, start;
    var pieceEnd := Min(streamOffset + m.pieceSize, m.estimatedSize);
    while fileIndex < |m.files| && streamOffset >= fileStreamStart + m.files[fileIndex].size
      invariant fileIndex <= |m.files| && fileStreamStart == FileStart(m.files, fileIndex) <= streamOffset
    {
      FileStartNext(m.files, fileIndex);
      fileStreamStart := fileStreamStart + m.files[fileIndex].size;
      fileIndex := fileIndex + 1;
    }
    var cut := CutWindow(m.files, fileIndex, fileStreamStart, streamOffset, pieceEnd);
    if cut.Err? {
      r := Err(cut.message);
      return;
    }
    LengthSumMonotone(cut.value, 0, |cut.value|);
    assert cut.value[..|cut.value|] == cut.value;
    r := Ok(Piece(pieceIndex, streamOffset, pieceEnd - streamOffset, m.pieceHashes[pieceIndex], cut.value));
  }

  lemma NothingBeforeFirst(files: seq<CheckpointFile>)
    ensures FileStart(files, 0) == 0
  {
  }

  method PlanCheckpointPieces(m: Manifest) returns (r: Result<seq<Piece>>)
    ensures r.Ok? ==> Planned(m, r.value)
    ensures Acceptable(m) ==> r.Ok?
  {
    hide PlannedPiece, FileStart, TotalSize;
    var plans: seq<Piece> := [];
    var fileIndex, fileStreamStart := 0, 0;
    NothingBeforeFirst(m.files);
    var pieceIndex := 0;
    while pieceIndex < |m.pieceHashes|
      invariant 0 <= pieceIndex == |plans| <= |m.pieceHashes|
      invariant 0 <= fileIndex <= |m.files| && fileStreamStart == FileStart(m.files, fileIndex)
      invariant fileStreamStart <= pieceIndex * m.pieceSize
      invariant forall i :: 0 <= i < pieceIndex ==> PlannedPiece(m, plans[i], i)
    {
      var streamOffset := pieceIndex * m.pieceSize;
      if Acceptable(m) {
        PieceStartsInside(m.estimatedSize, m.pieceSize, pieceIndex);
      }
      var planned;
      planned, fileIndex, fileStreamStart := PlanPiece(m, pieceIndex, streamOffset, fileIndex, fileStreamStart);
      if planned.Err? {
        return Err(planned.message);
      }
      plans := plans + [planned.value];
      Successor(pieceIndex, m.pieceSize);
      pieceIndex := pieceIndex + 1;
    }
    r := Ok(plans);
  }
}
