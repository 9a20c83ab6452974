/**
 One download run over partial files: workers fetch pieces, write them with
 partial `pwrite`s in any interleaving and mark them; a crash leaves whatever
 is on disk, and the next run starts from there.
 ai2apps/checkpoint_distribution.py.
 */
module Download {
  import opened Base
  import opened Pieces
  import opened Tiling

  /** The completion map's file: missing, unreadable or of another manifest, or a set of piece numbers. */
  datatype MapFile = Absent | Unusable | Marks(completed: set<nat>)

  /** What survives a crash. Blobs are named by their digest. */
  datatype Disk = Disk(partials: map<string, seq<Byte>>, pieceMap: MapFile, blobs: map<string, seq<Byte>>)

  /** One worker inside `_write_piece`: `done` bytes of segment number `segment` are written. */
  datatype Writer = Writer(payload: seq<Byte>, segment: nat, done: nat)

  datatype Run = Run(disk: Disk, writers: map<nat, Writer>, completed: set<nat>, bytes: map<string, nat>)

  /** A fixed job: the manifest, its plan and the digest function. */
  datatype Job = Job(m: Manifest, pieces: seq<Piece>, hash: Hash)

  ghost predicate ValidJob(j: Job) {
    Acceptable(j.m) && Planned(j.m, j.pieces)
  }

  /******* Stream coordinates of a write *******/

  function Overwrite(s: seq<Byte>, at: nat, bytes: seq<Byte>): (r: seq<Byte>)
    requires at + |bytes| <= |s|
    ensures |r| == |s|
  {
    s[..at] + bytes + s[at + |bytes|..]
  }

  /** The overwritten range holds the new bytes, and windows beside it read as before. */
  lemma OverwriteFrame(s: seq<Byte>, at: nat, bytes: seq<Byte>, lo: nat, hi: nat)
    requires at + |bytes| <= |s| && lo <= hi <= |s|
    ensures Overwrite(s, at, bytes)[at..at + |bytes|] == bytes
    ensures hi <= at || at + |bytes| <= lo ==> Overwrite(s, at, bytes)[lo..hi] == s[lo..hi]
  {
  }

  lemma OverwriteBehind(head: seq<Byte>, s: seq<Byte>, at: nat, bytes: seq<Byte>)
    requires at + |bytes| <= |s|
    ensures Overwrite(head + s, |head| + at, bytes) == head + Overwrite(s, at, bytes)
  {
  }

  lemma OverwriteBefore(s: seq<Byte>, tail: seq<Byte>, at: nat, bytes: seq<Byte>)
    requires at + |bytes| <= |s|
    ensures Overwrite(s + tail, at, bytes) == Overwrite(s, at, bytes) + tail
  {
  }

  /** Overwrite a range of one file. */
  function Put(data: map<string, seq<Byte>>, path: string, offset: nat, bytes: seq<Byte>): map<string, seq<Byte>>
    requires path in data && offset + |bytes| <= |data[path]|
  {
    data[path := Overwrite(data[path], offset, bytes)]
  }

  /** Writing into one file at an offset is writing into the stream at that file's start plus the offset. */
  lemma {:induction false} StreamOverwrite(files: seq<CheckpointFile>, data: map<string, seq<Byte>>, k: nat,
                                           offset: nat, bytes: seq<Byte>)
    requires Sized(files, data) && DistinctPaths(files)
    requires k < |files| && offset + |bytes| <= files[k].size
    ensures files[k] in files
    ensures Sized(files, Put(data, files[k].path, offset, bytes))
    ensures FileStart(files, k) + offset + |bytes| <= |Stream(files, data)|
    ensures Stream(files, Put(data, files[k].path, offset, bytes))
         == Overwrite(Stream(files, data), FileStart(files, k) + offset, bytes)
  {
    hide Overwrite;
    assert files[k] in files;
    PutKeepsSizes(files, data, k, offset, bytes);
    StreamOfFile(files, data, k);
    if k == 0 {
      OverwriteFirst(files, data, offset, bytes);
    } else {
      StreamOverwrite(files[1..], data, k - 1, offset, bytes);
      StartShift(files, k);
      OverwriteLater(files, data, k, offset, bytes);
    }
  }

  lemma PutKeepsSizes(files: seq<CheckpointFile>, data: map<string, seq<Byte>>, k: nat, offset: nat, bytes: seq<Byte>)
    requires Sized(files, data) && DistinctPaths(files) && k < |files| && offset + |bytes| <= files[k].size
    ensures files[k] in files && Sized(files, Put(data, files[k].path, offset, bytes))
  {
    assert files[k] in files;
    var data' := Put(data, files[k].path, offset, bytes);
    forall f | f in files ensures f.path in data' && |data'[f.path]| == f.size {
      if f.path == files[k].path { assert f == files[k]; }
    }
  }

  lemma OverwriteFirst(files: seq<CheckpointFile>, data: map<string, seq<Byte>>, offset: nat, bytes: seq<Byte>)
    requires Sized(files, data) && DistinctPaths(files) && files != [] && offset + |bytes| <= files[0].size
    requires Sized(files, Put(data, files[0].path, offset, bytes))
    ensures FileStart(files, 0) + offset + |bytes| <= |Stream(files, data)|
    ensures Stream(files, Put(data, files[0].path, offset, bytes))
            == Overwrite(Stream(files, data), FileStart(files, 0) + offset, bytes)
  {
    hide Overwrite;
    assert files[0] in files;
    var path := files[0].path;
    UntouchedStream(files[1..], data, Put(data, path, offset, bytes), path);
    OverwriteBefore(data[path], Stream(files[1..], data), offset, bytes);
  }

  lemma OverwriteLater(files: seq<CheckpointFile>, data: map<string, seq<Byte>>, k: nat, offset: nat, bytes: seq<Byte>)
    requires Sized(files, data) && DistinctPaths(files) && 0 < k < |files| && offset + |bytes| <= files[k].size
    requires files[k] in files && Sized(files, Put(data, files[k].path, offset, bytes))
    requires FileStart(files[1..], k - 1) + offset + |bytes| <= |Stream(files[1..], data)|
    requires FileStart(files, k) == files[0].size + FileStart(files[1..], k - 1)
    requires Stream(files[1..], Put(data, files[k].path, offset, bytes))
             == Overwrite(Stream(files[1..], data), FileStart(files[1..], k - 1) + offset, bytes)
    ensures FileStart(files, k) + offset + |bytes| <= |Stream(files, data)|
    ensures Stream(files, Put(data, files[k].path, offset, bytes))
            == Overwrite(Stream(files, data), FileStart(files, k) + offset, bytes)
  {
    hide Overwrite, FileStart;
    assert files[0] in files && files[0].path != files[k].path;
    var data' := Put(data, files[k].path, offset, bytes);
    assert data'[files[0].path] == data[files[0].path];
    assert Stream(files, data) == data[files[0].path] + Stream(files[1..], data);
    assert Stream(files, data') == data[files[0].path] + Stream(files[1..], data');
    hide Stream, Put;
    OverwriteBehind(data[files[0].path], Stream(files[1..], data), FileStart(files[1..], k - 1) + offset, bytes);
  }

  lemma {:induction false} UntouchedStream(files: seq<CheckpointFile>, a: map<string, seq<Byte>>,
                                           b: map<string, seq<Byte>>, path: string)
    requires Sized(files, a) && Sized(files, b)
    requires forall f :: f in files ==> f.path != path
    requires forall p :: p in a && p in b && p != path ==> a[p] == b[p]
    ensures Stream(files, a) == Stream(files, b)
  {
    if files != [] {
      UntouchedStream(files[1..], a, b, path);
    }
  }

  /******* Steps of the run *******/

  datatype Event =
    | Fetched(piece: nat, payload: seq<Byte>)   // all segments fetched and the digest matched
    | Wrote(piece: nat, count: nat)             // one pwrite accepted `count` bytes
    | Marked(piece: nat)                        // map stored, counters advanced

  ghost function Window(j: Job, partials: map<string, seq<Byte>>, i: nat): (w: seq<Byte>)
    requires ValidJob(j) && Sized(j.m.files, partials) && i < |j.pieces|
    ensures |w| == j.pieces[i].length
  {
    WindowInside(j, partials, i);
    Stream(j.m.files, partials)[j.pieces[i].streamOffset..j.pieces[i].streamOffset + j.pieces[i].length]
  }

  lemma WindowInside<T>(j: Job, partials: map<string, seq<T>>, i: nat)
    requires ValidJob(j) && Sized(j.m.files, partials) && i < |j.pieces|
    ensures |Stream(j.m.files, partials)| == TotalSize(j.m.files)
    ensures j.pieces[i].streamOffset + j.pieces[i].length <= TotalSize(j.m.files)
  {
    StreamLength(j.m.files, partials);
    PiecesConsecutive(j.m, j.pieces);
    PiecesAscend(j.m, j.pieces, i, |j.pieces|);
  }

  /** Payload bytes of its piece that a writer has put on disk. */
  function Written(piece: Piece, w: Writer): nat
    requires w.segment <= |piece.segments|
  {
    LengthSum(piece.segments[..w.segment]) + w.done
  }

  ghost predicate WriterInside(piece: Piece, w: Writer) {
    && w.segment <= |piece.segments|
    && (if w.segment < |piece.segments| then w.done < piece.segments[w.segment].length else w.done == 0)
    && |w.payload| == piece.length == LengthSum(piece.segments)
    && Written(piece, w) <= |w.payload|
  }

  /** The next pwrite of a writer may take `count` bytes, and its file is there. */
  ghost predicate CanWrite(piece: Piece, w: Writer, partials: map<string, seq<Byte>>, count: nat) {
    && WriterInside(piece, w)
    && w.segment < |piece.segments|
    && 0 < count <= piece.segments[w.segment].length - w.done
    && Written(piece, w) + count <= |w.payload|
    && piece.segments[w.segment].path in partials
    && piece.segments[w.segment].offset + piece.segments[w.segment].length <= |partials[piece.segments[w.segment].path]|
  }

  ghost function WritePartials(piece: Piece, w: Writer, partials: map<string, seq<Byte>>, count: nat)
    : map<string, seq<Byte>>
    requires CanWrite(piece, w, partials, count)
  {
    var s, at := piece.segments[w.segment], Written(piece, w);
    Put(partials, s.path, s.offset + w.done, w.payload[at..at + count])
  }

  function AdvanceWriter(piece: Piece, w: Writer, count: nat): Writer
    requires w.segment < |piece.segments|
  {
    if w.done + count == piece.segments[w.segment].length then Writer(w.payload, w.segment + 1, 0)
    else w.(done := w.done + count)
  }

  ghost predicate Enabled(j: Job, r: Run, e: Event) {
    match e
    case Fetched(i, payload) =>
      && i < |j.pieces| && i !in r.completed && i !in r.writers
      && |payload| == j.pieces[i].length && j.hash(payload) == j.pieces[i].sha256
    case Wrote(i, count) =>
      i < |j.pieces| && i in r.writers && CanWrite(j.pieces[i], r.writers[i], r.disk.partials, count)
    case Marked(i) =>
      i < |j.pieces| && i in r.writers && r.writers[i].segment == |j.pieces[i].segments|
  }

  ghost function Apply(j: Job, r: Run, e: Event): Run
    requires Enabled(j, r, e)
  {
    match e
    case Fetched(i, payload) => r.(writers := r.writers[i := Writer(payload, 0, 0)])
    case Wrote(i, count) =>
      r.(disk := r.disk.(partials := WritePartials(j.pieces[i], r.writers[i], r.disk.partials, count)),
         writers := r.writers[i := AdvanceWriter(j.pieces[i], r.writers[i], count)])
    case Marked(i) =>
      var completed := r.completed + {i};
      Run(r.disk.(pieceMap := Marks(completed)), r.writers - {i}, completed,
          map p | p in r.bytes :: r.bytes[p] + BytesOf(j.pieces[i].segments, p))
  }

  ghost predicate Executes(j: Job, r: Run, events: seq<Event>, r': Run)
    decreases |events|
  {
    if events == [] then r' == r
    else Enabled(j, r, events[0]) && Executes(j, Apply(j, r, events[0]), events[1..], r')
  }

  /******* What every reachable run state keeps *******/

  /** The blobs named by the manifest's digests, as verified when the run began. */
  ghost predicate BlobsVerified(j: Job, blobs: map<string, seq<Byte>>) {
    forall f :: f in j.m.files && f.sha256 in blobs ==>
      |blobs[f.sha256]| == f.size && j.hash(blobs[f.sha256]) == f.sha256
  }

  /** Contents of the files that were cloned from verified blobs. */
  ghost function Clones(files: seq<CheckpointFile>, blobs: map<string, seq<Byte>>): map<string, seq<Byte>> {
    if files == [] then map[]
    else
      var rest := Clones(files[1..], blobs);
      if files[0].sha256 in blobs then rest[files[0].path := blobs[files[0].sha256]] else rest
  }

  /** The piece reads exactly what the clones of verified blobs hold. */
  ghost predicate ReadsClones(j: Job, disk: Disk, i: nat)
    requires ValidJob(j) && Sized(j.m.files, disk.partials) && i < |j.pieces|
  {
    var clones := Clones(j.m.files, disk.blobs);
    && Readable(j.pieces[i].segments, clones)
    && Window(j, disk.partials, i) == ReadSegments(j.pieces[i].segments, clones)
  }

  ghost predicate Genuine(j: Job, disk: Disk, i: nat)
    requires ValidJob(j) && Sized(j.m.files, disk.partials) && i < |j.pieces|
  {
    j.hash(Window(j, disk.partials, i)) == j.pieces[i].sha256 || ReadsClones(j, disk, i)
  }

  /** The piece's window starts with what the writer has written so far of a genuine payload. */
  ghost predicate WriterSound(j: Job, partials: map<string, seq<Byte>>, i: nat, w: Writer)
    requires ValidJob(j) && Sized(j.m.files, partials) && i < |j.pieces|
  {
    && WriterInside(j.pieces[i], w)
    && j.hash(w.payload) == j.pieces[i].sha256
    && Window(j, partials, i)[..Written(j.pieces[i], w)] == w.payload[..Written(j.pieces[i], w)]
  }

  ghost predicate Sound(j: Job, r: Run) {
    && ValidJob(j)
    && Sized(j.m.files, r.disk.partials)
    && BlobsVerified(j, r.disk.blobs)
    && r.disk.pieceMap == Marks(r.completed)
    && (forall i :: i in r.writers ==>
          i < |j.pieces| && i !in r.completed && WriterSound(j, r.disk.partials, i, r.writers[i]))
    && (forall i :: i in r.completed ==> i < |j.pieces| && Genuine(j, r.disk, i))
    && (forall f :: f in j.m.files ==> f.path in r.bytes)
    && (forall p :: p in r.bytes ==> r.bytes[p] == ChosenBytes(j.pieces, r.completed, p, |j.pieces|))
  }

  lemma PieceLengths(j: Job, i: nat)
    requires ValidJob(j) && i < |j.pieces|
    ensures j.pieces[i].length == LengthSum(j.pieces[i].segments) > 0
    ensures Tiles(j.m.files, j.pieces[i].segments, j.pieces[i].streamOffset,
                  j.pieces[i].streamOffset + j.pieces[i].length)
  {
    assert PlannedPiece(j.m, j.pieces[i], i);
  }

  /** A writer that may write stays inside its piece and advances by the bytes written. */
  lemma WriterAdvances(j: Job, i: nat, w: Writer, partials: map<string, seq<Byte>>, count: nat)
    requires ValidJob(j) && i < |j.pieces| && CanWrite(j.pieces[i], w, partials, count)
    ensures WriterInside(j.pieces[i], AdvanceWriter(j.pieces[i], w, count))
    ensures Written(j.pieces[i], AdvanceWriter(j.pieces[i], w, count)) == Written(j.pieces[i], w) + count
  {
    var segments := j.pieces[i].segments;
    PieceLengths(j, i);
    LengthSumNext(segments, w.segment);
  }

  /** In stream coordinates a pwrite replaces exactly the next unwritten bytes of its own piece's window. */
  lemma WriteInStream(j: Job, i: nat, w: Writer, partials: map<string, seq<Byte>>, count: nat)
    requires ValidJob(j) && Sized(j.m.files, partials) && i < |j.pieces| && CanWrite(j.pieces[i], w, partials, count)
    ensures Sized(j.m.files, WritePartials(j.pieces[i], w, partials, count))
    ensures j.pieces[i].streamOffset + Written(j.pieces[i], w) + count <= |Stream(j.m.files, partials)|
    ensures Stream(j.m.files, WritePartials(j.pieces[i], w, partials, count))
         == Overwrite(Stream(j.m.files, partials), j.pieces[i].streamOffset + Written(j.pieces[i], w),
                      w.payload[Written(j.pieces[i], w)..Written(j.pieces[i], w) + count])
  {
    hide Overwrite, Stream, Sized;
    var s, at := j.pieces[i].segments[w.segment], Written(j.pieces[i], w);
    PieceLengths(j, i);
    assert InPlace(j.m.files, j.pieces[i].segments, j.pieces[i].streamOffset, w.segment);
    var k: nat :| InFile(j.m.files, s, k, j.pieces[i].streamOffset + LengthSum(j.pieces[i].segments[..w.segment]));
    StreamOverwrite(j.m.files, partials, k, s.offset + w.done, w.payload[at..at + count]);
  }

  lemma DisjointWindows(j: Job, i: nat, i': nat)
    requires ValidJob(j) && i < |j.pieces| && i' < |j.pieces| && i != i'
    ensures j.pieces[i].streamOffset + j.pieces[i].length <= j.pieces[i'].streamOffset
         || j.pieces[i'].streamOffset + j.pieces[i'].length <= j.pieces[i].streamOffset
  {
    PiecesConsecutive(j.m, j.pieces);
    PiecesAscend(j.m, j.pieces, Min(i, i'), Max(i, i'));
  }

  /** A write of one piece never changes what another piece reads. */
  lemma WriteKeepsOthers(j: Job, i: nat, w: Writer, partials: map<string, seq<Byte>>, count: nat, i': nat)
    requires ValidJob(j) && Sized(j.m.files, partials) && i < |j.pieces| && CanWrite(j.pieces[i], w, partials, count)
    requires i' < |j.pieces| && i' != i
    ensures Sized(j.m.files, WritePartials(j.pieces[i], w, partials, count))
    ensures Window(j, WritePartials(j.pieces[i], w, partials, count), i') == Window(j, partials, i')
  {
    hide Overwrite, Stream, Sized, Planned;
    WriteInStream(j, i, w, partials, count);
    DisjointWindows(j, i, i');
    WindowInside(j, partials, i');
    var at := Written(j.pieces[i], w);
    OverwriteFrame(Stream(j.m.files, partials), j.pieces[i].streamOffset + at, w.payload[at..at + count],
                   j.pieces[i'].streamOffset, j.pieces[i'].streamOffset + j.pieces[i'].length);
  }

  lemma PrefixGrows(s: seq<Byte>, s': seq<Byte>, lo: nat, at: nat, count: nat, payload: seq<Byte>)
    requires lo + at + count <= |s| == |s'| && at + count <= |payload|
    requires s' == Overwrite(s, lo + at, payload[at..at + count])
    requires s[lo..lo + at] == payload[..at]
    ensures s'[lo..lo + at + count] == payload[..at + count]
  {
    OverwriteFrame(s, lo + at, payload[at..at + count], lo, lo + at);
    assert s'[lo..lo + at + count] == s'[lo..lo + at] + s'[lo + at..lo + at + count];
    assert payload[..at + count] == payload[..at] + payload[at..at + count];
  }

  /** A write of a piece extends the payload prefix its own window holds. */
  lemma WriteExtendsOwn(j: Job, i: nat, w: Writer, partials: map<string, seq<Byte>>, count: nat)
    requires ValidJob(j) && Sized(j.m.files, partials) && i < |j.pieces| && CanWrite(j.pieces[i], w, partials, count)
    requires WriterSound(j, partials, i, w)
    ensures Sized(j.m.files, WritePartials(j.pieces[i], w, partials, count))
    ensures WriterSound(j, WritePartials(j.pieces[i], w, partials, count), i, AdvanceWriter(j.pieces[i], w, count))
  {
    hide Stream, Sized, Overwrite, CanWrite, WriterInside, WritePartials, AdvanceWriter, Written, Planned;
    WriterAdvances(j, i, w, partials, count);
    WriteInStream(j, i, w, partials, count);
    WindowInside(j, partials, i);
    WriterFitsPiece(j.pieces[i], w, partials, count);
    var partials' := WritePartials(j.pieces[i], w, partials, count);
    var lo, at := j.pieces[i].streamOffset, Written(j.pieces[i], w);
    var s, s' := Stream(j.m.files, partials), Stream(j.m.files, partials');
    SliceOfSlice(s, lo, lo + j.pieces[i].length, 0, at);
    PrefixGrows(s, s', lo, at, count, w.payload);
    SliceOfSlice(s', lo, lo + j.pieces[i].length, 0, at + count);
  }

  lemma WriterFitsPiece(piece: Piece, w: Writer, partials: map<string, seq<Byte>>, count: nat)
    requires CanWrite(piece, w, partials, count)
    ensures w.segment <= |piece.segments| && w.segment < |piece.segments|
    ensures Written(piece, w) + count <= |w.payload| == piece.length
    ensures AdvanceWriter(piece, w, count).payload == w.payload
  {
  }

  lemma WroteKeepsSound(j: Job, r: Run, i: nat, count: nat)
    requires Sound(j, r) && Enabled(j, r, Wrote(i, count))
    ensures Sound(j, Apply(j, r, Wrote(i, count)))
  {
    var r', w := Apply(j, r, Wrote(i, count)), r.writers[i];
    WriteExtendsOwn(j, i, w, r.disk.partials, count);
    forall i' | i' in r'.writers
      ensures i' < |j.pieces| && i' !in r'.completed && WriterSound(j, r'.disk.partials, i', r'.writers[i'])
    {
      if i' != i {
        WriteKeepsOthers(j, i, w, r.disk.partials, count, i');
      }
    }
    forall i' | i' in r'.completed
      ensures i' < |j.pieces| && Genuine(j, r'.disk, i')
    {
      WriteKeepsOthers(j, i, w, r.disk.partials, count, i');
    }
  }

  /** A fully written piece reads back its payload. */
  lemma ReadBack(j: Job, r: Run, i: nat)
    requires Sound(j, r) && i in r.writers && i < |j.pieces| && r.writers[i].segment == |j.pieces[i].segments|
    ensures Readable(j.pieces[i].segments, r.disk.partials)
    ensures ReadSegments(j.pieces[i].segments, r.disk.partials) == Window(j, r.disk.partials, i) == r.writers[i].payload
  {
    hide Stream, Sized, Readable, Planned, BlobsVerified, Genuine;
    PieceLengths(j, i);
    WindowInside(j, r.disk.partials, i);
    var segments := j.pieces[i].segments;
    assert segments[..|segments|] == segments;
    WindowRead(j.m.files, segments, j.pieces[i].streamOffset, j.pieces[i].streamOffset + j.pieces[i].length,
               r.disk.partials);
    assert r.writers[i].payload[..j.pieces[i].length] == r.writers[i].payload;
    assert Window(j, r.disk.partials, i)[..j.pieces[i].length] == Window(j, r.disk.partials, i);
  }

  lemma MarkedIsGenuine(j: Job, r: Run, i: nat)
    requires Sound(j, r) && Enabled(j, r, Marked(i))
    ensures j.hash(Window(j, r.disk.partials, i)) == j.pieces[i].sha256
  {
    hide Window, Stream, Sized, Planned;
    ReadBack(j, r, i);
  }

  lemma MarkedKeepsSound(j: Job, r: Run, i: nat)
    requires Sound(j, r) && Enabled(j, r, Marked(i))
    ensures Sound(j, Apply(j, r, Marked(i)))
  {
    hide Window, Stream, Sized, Planned, WriterSound, Readable;
    var r' := Apply(j, r, Marked(i));
    MarkedIsGenuine(j, r, i);
    forall i' | i' in r'.completed
      ensures i' < |j.pieces| && Genuine(j, r'.disk, i')
    {
      if i' != i { assert Genuine(j, r.disk, i'); }
    }
    forall p | p in r'.bytes
      ensures r'.bytes[p] == ChosenBytes(j.pieces, r'.completed, p, |j.pieces|)
    {
      ChosenBytesAdd(j.pieces, r.completed, p, |j.pieces|, i);
    }
  }

  lemma FetchedKeepsSound(j: Job, r: Run, i: nat, payload: seq<Byte>)
    requires Sound(j, r) && Enabled(j, r, Fetched(i, payload))
    ensures Sound(j, Apply(j, r, Fetched(i, payload)))
  {
    var r' := Apply(j, r, Fetched(i, payload));
    PieceLengths(j, i);
    forall i' | i' in r'.writers
      ensures i' < |j.pieces| && i' !in r'.completed && WriterSound(j, r'.disk.partials, i', r'.writers[i'])
    {
      if i' == i {
        var segments := j.pieces[i].segments;
        if segments != [] { LengthSumNext(segments, 0); assert segments[0].length > 0; }
        assert segments[..0] == [];
      }
    }
    forall i' | i' in r'.completed
      ensures i' < |j.pieces| && Genuine(j, r'.disk, i')
    {
      assert Genuine(j, r.disk, i');
    }
  }

  lemma StepKeepsSound(j: Job, r: Run, e: Event)
    requires Sound(j, r) && Enabled(j, r, e)
    ensures Sound(j, Apply(j, r, e))
  {
    match e {
      case Fetched(i, payload) => FetchedKeepsSound(j, r, i, payload);
      case Wrote(i, count) => WroteKeepsSound(j, r, i, count);
      case Marked(i) => MarkedKeepsSound(j, r, i);
    }
  }

  /** Under every interleaving of fetches, partial writes and marks, the run stays sound. */
  lemma {:induction false} EveryInterleavingIsSound(j: Job, r: Run, events: seq<Event>, r': Run)
    requires Sound(j, r) && Executes(j, r, events, r')
    ensures Sound(j, r')
    decreases |events|
  {
    if events != [] {
      StepKeepsSound(j, r, events[0]);
      EveryInterleavingIsSound(j, Apply(j, r, events[0]), events[1..], r');
    }
  }
}
