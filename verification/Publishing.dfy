/**
 The publisher: files are read in chunks, and one rolling buffer carries bytes
 over chunk and file boundaries to hash the concatenated stream piece by
 piece.  ai2apps/checkpoint_publishing.py.
 */
module Publishing {
  import opened Base
  import opened Pieces
  import opened Tiling

  datatype Published = Published(rows: seq<CheckpointFile>, pieceHashes: seq<string>)

  /******* Reference: hash the whole stream in cuts of `size` bytes *******/

  function PieceHashes(hash: Hash, stream: seq<Byte>, size: nat): seq<string>
    requires size > 0
  {
    if stream == [] then []
    else
      var take := Min(size, |stream|);
      [hash(stream[..take])] + PieceHashes(hash, stream[take..], size)
  }

  /** The reference list has ceil(total / size) entries. */
  lemma {:induction false} PieceHashCount(hash: Hash, stream: seq<Byte>, size: nat)
    requires size > 0
    ensures |PieceHashes(hash, stream, size)| == PieceCount(|stream|, size)
  {
    CountStep(|stream|, size);
    if stream != [] {
      PieceHashCount(hash, stream[Min(size, |stream|)..], size);
    }
  }

  /** Entry i of the reference list hashes the i-th window of the stream. */
  lemma {:induction false} PieceHashAt(hash: Hash, stream: seq<Byte>, size: nat, i: nat, at: nat)
    requires size > 0 && at == i * size < |stream|
    ensures i < |PieceHashes(hash, stream, size)|
    ensures PieceHashes(hash, stream, size)[i] == hash(stream[at..Min(at + size, |stream|)])
  {
    if i > 0 {
      Successor(i, size);
      var rest := stream[size..];
      Scale(0, i, size);
      PieceHashAt(hash, rest, size, i - 1, at - size);
      var a, b := at - size, Min(at, |rest|);
      assert b + size == Min(at + size, |stream|);
      assert stream[size..] == stream[size..|stream|];
      SliceOfSlice(stream, size, |stream|, a, b);
    } else {
      assert stream[0..Min(size, |stream|)] == stream[..Min(size, |stream|)];
    }
  }

  lemma Scale(a: nat, b: nat, size: nat)
    requires a < b
    ensures a * size + size <= b * size
  {
    Successor(a, size);
    Ordered(a + 1, b, size);
  }

  lemma CountStep(total: nat, size: nat)
    requires size > 0
    ensures total == 0 ==> PieceCount(0, size) == 0
    ensures total > 0 ==> PieceCount(total, size) == 1 + PieceCount(total - Min(size, total), size)
  {
    QuotientIs(size - 1, size, 0);
    if 0 < total <= size {
      assert 1 * size == size;
      QuotientIs(total + size - 1, size, 1);
    } else if total > size {
      var q := (total - 1) / size;
      Quotient(total - 1, size);
      Successor(q, size);
      QuotientIs(total + size - 1, size, q + 1);
    }
  }

  lemma QuotientIs(a: nat, size: nat, q: nat)
    requires size > 0 && q * size <= a < q * size + size
    ensures a / size == q
  {
    var d := a / size;
    Quotient(a, size);
    if d < q {
      Scale(d, q, size);
    } else if q < d {
      Scale(q, d, size);
    }
  }

  /** A full buffer is the next entry; a short one with nothing behind it is the last. */
  lemma HashesOfFullBuffer(hash: Hash, piece: seq<Byte>, rest: seq<Byte>, size: nat)
    requires size > 0 && |piece| == size
    ensures PieceHashes(hash, piece + rest, size) == [hash(piece)] + PieceHashes(hash, rest, size)
  {
    assert (piece + rest)[..size] == piece;
    assert (piece + rest)[size..] == rest;
  }

  lemma HashesOfShortBuffer(hash: Hash, piece: seq<Byte>, size: nat)
    requires size > 0 && |piece| < size
    ensures PieceHashes(hash, piece, size) == if piece == [] then [] else [hash(piece)]
  {
    if piece != [] {
      assert piece[..|piece|] == piece;
      assert piece[|piece|..] == [];
    }
  }

  /******* The rolling buffer *******/

  /** What the hashes so far, the buffer and the unread bytes together determine. */
  ghost function Outcome(hash: Hash, hashes: seq<string>, piece: seq<Byte>, unread: seq<Byte>, size: nat): seq<string>
    requires size > 0
  {
    hashes + PieceHashes(hash, piece + unread, size)
  }

  /** Move one read chunk into the buffer, emitting a hash each time it fills. */
  method FeedChunk(hash: Hash, size: nat, chunk: seq<Byte>, piece0: seq<Byte>, hashes0: seq<string>,
                   ghost unread: seq<Byte>)
    returns (piece: seq<Byte>, hashes: seq<string>)
    requires |piece0| < size
    ensures |piece| < size
    ensures Outcome(hash, hashes, piece, unread, size) == Outcome(hash, hashes0, piece0, chunk + unread, size)
  {
    piece, hashes := piece0, hashes0;
    var cursor := 0;
    assert chunk[0..] == chunk;
    while cursor < |chunk|
      invariant 0 <= cursor <= |chunk| && |piece| < size
      invariant Outcome(hash, hashes, piece, chunk[cursor..] + unread, size)
             == Outcome(hash, hashes0, piece0, chunk + unread, size)
    {
      var take := Min(size - |piece|, |chunk| - cursor);
      ghost var before := piece + (chunk[cursor..] + unread);
      piece := piece + chunk[cursor..cursor + take];
      cursor := cursor + take;
      assert piece + (chunk[cursor..] + unread) == before;
      if |piece| == size {
        HashesOfFullBuffer(hash, piece, chunk[cursor..] + unread, size);
        ghost var rest := chunk[cursor..] + unread;
        assert hashes + ([hash(piece)] + PieceHashes(hash, rest, size))
               == (hashes + [hash(piece)]) + PieceHashes(hash, rest, size);
        hashes := hashes + [hash(piece)];
        piece := [];
        assert [] + rest == rest;
      }
    }
    assert chunk[|chunk|..] + unread == unread;
  }

  /** Read one file to its end in chunks of at most readSize bytes. */
  method FeedFile(hash: Hash, size: nat, readSize: nat, content: seq<Byte>, piece0: seq<Byte>, hashes0: seq<string>,
                  ghost unread: seq<Byte>)
    returns (piece: seq<Byte>, hashes: seq<string>, digest: string)
    requires |piece0| < size && readSize > 0
    ensures |piece| < size && digest == hash(content)
    ensures Outcome(hash, hashes, piece, unread, size) == Outcome(hash, hashes0, piece0, content + unread, size)
  {
    piece, hashes := piece0, hashes0;
    var position, fed := 0, [];
    assert content[0..] == content;
    while position < |content|
      invariant 0 <= position <= |content| && fed == content[..position] && |piece| < size
      invariant Outcome(hash, hashes, piece, content[position..] + unread, size)
             == Outcome(hash, hashes0, piece0, content + unread, size)
    {
      var end := Min(position + readSize, |content|);
      var chunk := content[position..end];
      fed := fed + chunk;
      assert chunk + (content[end..] + unread) == content[position..] + unread;
      piece, hashes := FeedChunk(hash, size, chunk, piece, hashes, content[end..] + unread);
      position := end;
    }
    assert content[|content|..] + unread == unread;
    assert fed == content;
    digest := hash(fed);
  }

  /** The trailing `if piece:` after the last file. */
  method FlushPiece(hash: Hash, size: nat, piece: seq<Byte>, hashes0: seq<string>) returns (hashes: seq<string>)
    requires |piece| < size
    ensures hashes == Outcome(hash, hashes0, piece, [], size)
  {
    HashesOfShortBuffer(hash, piece, size);
    assert piece + [] == piece;
    hashes := if piece != [] then hashes0 + [hash(piece)] else hashes0;
  }

  /******* Both publisher variants *******/

  /** A file's bytes; one that is not there counts as empty. */
  function BytesAt(data: map<string, seq<Byte>>, path: string): seq<Byte> {
    if path in data then data[path] else []
  }

  function RowOf(hash: Hash, path: string, data: map<string, seq<Byte>>): CheckpointFile {
    CheckpointFile(path, |BytesAt(data, path)|, hash(BytesAt(data, path)))
  }

  function RowsOf(hash: Hash, paths: seq<string>, data: map<string, seq<Byte>>): seq<CheckpointFile> {
    seq(|paths|, i requires 0 <= i < |paths| => RowOf(hash, paths[i], data))
  }

  function StreamOf(paths: seq<string>, data: map<string, seq<Byte>>): seq<Byte> {
    if paths == [] then [] else BytesAt(data, paths[0]) + StreamOf(paths[1..], data)
  }

  /** The local copy has the size and digest the other Hub's metadata gives. */
  ghost predicate MatchesMetadata(hash: Hash, path: string, local: map<string, seq<Byte>>,
                                  metadata: map<string, (nat, string)>)
  {
    path in local && path in metadata && (|local[path]|, hash(local[path])) == metadata[path]
  }

  /** The two Hub copies of a file are interchangeable and not empty. */
  ghost predicate SourcesAgree(hash: Hash, path: string, a: map<string, seq<Byte>>, b: map<string, seq<Byte>>) {
    path in a && path in b && |a[path]| == |b[path]| > 0 && hash(a[path]) == hash(b[path])
  }

  /** How far the loop over the files has come. */
  ghost predicate Progress(hash: Hash, paths: seq<string>, data: map<string, seq<Byte>>, size: nat, i: nat,
                           rows: seq<CheckpointFile>, hashes: seq<string>, piece: seq<Byte>)
    requires size > 0 && i <= |paths|
  {
    && |piece| < size && rows == RowsOf(hash, paths[..i], data)
    && Outcome(hash, hashes, piece, StreamOf(paths[i..], data), size) == PieceHashes(hash, StreamOf(paths, data), size)
  }

  lemma NothingRead(hash: Hash, paths: seq<string>, data: map<string, seq<Byte>>, size: nat)
    requires size > 0
    ensures Progress(hash, paths, data, size, 0, [], [], [])
  {
    assert paths[0..] == paths && [] + StreamOf(paths, data) == StreamOf(paths, data);
  }

  lemma OneMoreFile(hash: Hash, paths: seq<string>, data: map<string, seq<Byte>>, size: nat, i: nat,
                    rows: seq<CheckpointFile>, hashes: seq<string>, piece: seq<Byte>, hashes': seq<string>,
                    piece': seq<Byte>)
    requires size > 0 && i < |paths| && Progress(hash, paths, data, size, i, rows, hashes, piece) && |piece'| < size
    requires Outcome(hash, hashes', piece', StreamOf(paths[i + 1..], data), size)
             == Outcome(hash, hashes, piece, BytesAt(data, paths[i]) + StreamOf(paths[i + 1..], data), size)
    ensures Progress(hash, paths, data, size, i + 1, rows + [RowOf(hash, paths[i], data)], hashes', piece')
  {
    hide Outcome, PieceHashes, RowOf;
    assert paths[i..][0] == paths[i] && paths[i..][1..] == paths[i + 1..];
  }

  lemma AllRead(hash: Hash, paths: seq<string>, data: map<string, seq<Byte>>, size: nat, rows: seq<CheckpointFile>,
                hashes: seq<string>, piece: seq<Byte>)
    requires size > 0 && Progress(hash, paths, data, size, |paths|, rows, hashes, piece)
    ensures rows == RowsOf(hash, paths, data)
            && Outcome(hash, hashes, piece, [], size) == PieceHashes(hash, StreamOf(paths, data), size)
  {
    hide Outcome, PieceHashes, RowOf;
    assert paths[|paths|..] == [] && paths[..|paths|] == paths;
  }

  /** Both Hub copies are local: compare them and hash the canonical (Hugging Face) bytes. */
  method VerifyFilesAndPieces(hash: Hash, paths: seq<string>, huggingface: map<string, seq<Byte>>,
                              modelscope: map<string, seq<Byte>>, size: nat, readSize: nat)
    returns (r: Result<Published>)
    requires size > 0 && readSize > 0
    ensures r.Ok? <==> forall p :: p in paths ==> SourcesAgree(hash, p, huggingface, modelscope)
    ensures r.Ok? ==> r.value.rows == RowsOf(hash, paths, huggingface)
    ensures r.Ok? ==> r.value.pieceHashes == PieceHashes(hash, StreamOf(paths, huggingface), size)
  {
    hide Progress, Outcome, PieceHashes, StreamOf, RowsOf;
    var rows: seq<CheckpointFile>, hashes: seq<string>, piece: seq<Byte> := [], [], [];
    NothingRead(hash, paths, huggingface, size);
    for i := 0 to |paths|
      invariant |piece| < size && Progress(hash, paths, huggingface, size, i, rows, hashes, piece)
      invariant forall j :: 0 <= j < i ==> SourcesAgree(hash, paths[j], huggingface, modelscope)
    {
      var path := paths[i];
      assert path in paths;
      if path !in huggingface || path !in modelscope {
        return Err("missing source file");
      }
      if |huggingface[path]| != |modelscope[path]| {
        return Err("Hub source sizes differ");
      }
      if |huggingface[path]| == 0 {
        return Err("checkpoint files must be non-empty");
      }
      var nextPiece, nextHashes, digest := FeedFile(hash, size, readSize, huggingface[path], piece, hashes,
                                                    StreamOf(paths[i + 1..], huggingface));
      if digest != hash(modelscope[path]) {
        return Err("Hub source hashes differ");
      }
      OneMoreFile(hash, paths, huggingface, size, i, rows, hashes, piece, nextHashes, nextPiece);
      rows := rows + [CheckpointFile(path, |huggingface[path]|, digest)];
      piece, hashes := nextPiece, nextHashes;
    }
    AllRead(hash, paths, huggingface, size, rows, hashes, piece);
    hashes := FlushPiece(hash, size, piece, hashes);
    r := Ok(Published(rows, hashes));
  }

  /** Only the Hugging Face copy is local: check it against ModelScope's size and digest metadata. */
  method VerifyLocalFilesAgainstMetadata(hash: Hash, paths: seq<string>, local: map<string, seq<Byte>>,
                                         metadata: map<string, (nat, string)>, size: nat, readSize: nat)
    returns (r: Result<Published>)
    requires size > 0 && readSize > 0
    ensures r.Ok? <==> forall p :: p in paths ==> MatchesMetadata(hash, p, local, metadata)
    ensures r.Ok? ==> r.value.rows == RowsOf(hash, paths, local)
    ensures r.Ok? ==> r.value.pieceHashes == PieceHashes(hash, StreamOf(paths, local), size)
  {
    hide Progress, Outcome, PieceHashes, StreamOf, RowsOf;
    var rows: seq<CheckpointFile>, hashes: seq<string>, piece: seq<Byte> := [], [], [];
    NothingRead(hash, paths, local, size);
    for i := 0 to |paths|
      invariant |piece| < size && Progress(hash, paths, local, size, i, rows, hashes, piece)
      invariant forall j :: 0 <= j < i ==> MatchesMetadata(hash, paths[j], local, metadata)
    {
      var path := paths[i];
      assert path in paths;
      if path !in metadata {
        return Err("no ModelScope metadata");
      }
      if path !in local || |local[path]| != metadata[path].0 {
        return Err("Hugging Face bytes differ from ModelScope metadata");
      }
      var nextPiece, nextHashes, digest := FeedFile(hash, size, readSize, local[path], piece, hashes,
                                                    StreamOf(paths[i + 1..], local));
      if digest != metadata[path].1 {
        return Err("Hugging Face SHA-256 differs from ModelScope metadata");
      }
      OneMoreFile(hash, paths, local, size, i, rows, hashes, piece, nextHashes, nextPiece);
      rows := rows + [CheckpointFile(path, metadata[path].0, digest)];
      piece, hashes := nextPiece, nextHashes;
    }
    AllRead(hash, paths, local, size, rows, hashes, piece);
    hashes := FlushPiece(hash, size, piece, hashes);
    r := Ok(Published(rows, hashes));
  }

  /******* Publisher and downloader agree *******/

  ghost function PublishedManifest(p: Published, size: nat): Manifest {
    Manifest(p.rows, TotalSize(p.rows), size, p.pieceHashes)
  }

  lemma {:induction false} RowsDescribeStream(hash: Hash, paths: seq<string>, data: map<string, seq<Byte>>)
    requires forall p :: p in paths ==> p in data
    ensures Sized(RowsOf(hash, paths, data), data)
    ensures Stream(RowsOf(hash, paths, data), data) == StreamOf(paths, data)
  {
    var rows := RowsOf(hash, paths, data);
    if paths != [] {
      RowsDescribeStream(hash, paths[1..], data);
      assert rows[1..] == RowsOf(hash, paths[1..], data);
    }
  }

  /** What both publisher variants return for a list of files. */
  ghost function Publish(hash: Hash, paths: seq<string>, data: map<string, seq<Byte>>, size: nat): Published
    requires size > 0 && forall p :: p in paths ==> p in data
  {
    Published(RowsOf(hash, paths, data), PieceHashes(hash, StreamOf(paths, data), size))
  }

  /** What is published is always plannable: the planner's two errors cannot occur on it. */
  lemma PublishedIsAcceptable(hash: Hash, paths: seq<string>, data: map<string, seq<Byte>>, size: nat)
    requires size > 0 && NoDuplicates(paths)
    requires forall p :: p in paths ==> p in data && data[p] != []
    ensures Acceptable(PublishedManifest(Publish(hash, paths, data, size), size))
  {
    var rows := RowsOf(hash, paths, data);
    RowsDescribeStream(hash, paths, data);
    StreamLength(rows, data);
    PieceHashCount(hash, StreamOf(paths, data), size);
    forall i, j | 0 <= i < j < |rows| ensures rows[i].path != rows[j].path {
      assert paths[i] != paths[j];
    }
  }

  /**
   For every list of non-empty files, every piece size and every read size, the
   downloader plans one piece per published hash, and the i-th published hash is the
   hash of the bytes that the i-th planned piece reads from its segments.
   */
  lemma PublisherAndDownloaderAgree(hash: Hash, paths: seq<string>, data: map<string, seq<Byte>>, size: nat,
                                    pieces: seq<Piece>, i: nat)
    requires size > 0 && NoDuplicates(paths)
    requires forall p :: p in paths ==> p in data && data[p] != []
    requires Planned(PublishedManifest(Publish(hash, paths, data, size), size), pieces)
    requires i < |pieces|
    ensures |pieces| == PieceCount(|StreamOf(paths, data)|, size)
    ensures Readable(pieces[i].segments, data)
    ensures Publish(hash, paths, data, size).pieceHashes[i] == pieces[i].sha256
    ensures pieces[i].sha256 == hash(ReadSegments(pieces[i].segments, data))
  {
    var rows := RowsOf(hash, paths, data);
    var stream := StreamOf(paths, data);
    var m := PublishedManifest(Publish(hash, paths, data, size), size);
    PublishedIsAcceptable(hash, paths, data, size);
    RowsDescribeStream(hash, paths, data);
    StreamLength(rows, data);
    PieceHashCount(hash, stream, size);
    assert PlannedPiece(m, pieces[i], i);
    PieceHashAt(hash, stream, size, i, pieces[i].streamOffset);
    WindowRead(rows, pieces[i].segments, pieces[i].streamOffset, pieces[i].streamOffset + pieces[i].length, data);
  }
}
