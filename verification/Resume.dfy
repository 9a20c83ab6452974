/**
 How a run begins on whatever a crash left behind, and how it ends: resumed
 pieces are genuine, progress is kept, and an honest manifest always promotes.
 ai2apps/checkpoint_distribution.py.
 */
module Resume {
  import opened Base
  import opened Pieces
  import opened Tiling
  import opened Download

  /******* Beginning a run *******/

  /** Piece numbers the map file contributes; a map of another shape counts as empty. */
  ghost function Loaded(f: MapFile, count: nat): set<nat> {
    if f.Marks? && (forall i :: i in f.completed ==> i < count) then f.completed else {}
  }

  ghost predicate NeedsReset(j: Job, before: Disk, f: CheckpointFile) {
    f.sha256 !in before.blobs && f.path in before.partials && |before.partials[f.path]| != f.size
  }

  ghost predicate PreparedFile(before: Disk, partials: map<string, seq<Byte>>, f: CheckpointFile) {
    && f.path in partials
    && (if f.sha256 in before.blobs then partials[f.path] == before.blobs[f.sha256]
        else if f.path in before.partials && |before.partials[f.path]| == f.size
        then partials[f.path] == before.partials[f.path]
        else partials[f.path] == Zeros(f.size))
  }

  function Zeros(n: nat): seq<Byte> {
    seq(n, i => 0)
  }

  ghost predicate AllCloned(j: Job, blobs: map<string, seq<Byte>>, i: nat)
    requires i < |j.pieces|
  {
    forall s :: s in j.pieces[i].segments ==> s.path in Clones(j.m.files, blobs)
  }

  /** The map as it stands after the partial files were prepared. */
  ghost function MapAfterPrepare(j: Job, before: Disk): MapFile {
    if exists f :: f in j.m.files && NeedsReset(j, before, f) then Absent else before.pieceMap
  }

  /** A run that has just begun on the given disk. */
  ghost predicate Resumed(j: Job, before: Disk, r: Run) {
    && ValidJob(j)
    && r.disk.blobs == before.blobs && BlobsVerified(j, before.blobs)
    && (forall f :: f in j.m.files ==> PreparedFile(before, r.disk.partials, f))
    && Sized(j.m.files, r.disk.partials)
    && r.writers == map[]
    && (forall i: nat :: i in r.completed <==>
          && i < |j.pieces|
          && (|| AllCloned(j, before.blobs, i)
              || (i in Loaded(MapAfterPrepare(j, before), |j.pieces|)
                  && j.hash(Window(j, r.disk.partials, i)) == j.pieces[i].sha256)))
    && r.disk.pieceMap == Marks(r.completed)
    && (forall f :: f in j.m.files ==> f.path in r.bytes)
    && (forall p :: p in r.bytes ==> r.bytes[p] == ChosenBytes(j.pieces, r.completed, p, |j.pieces|))
  }

  lemma {:induction false} ClonesAt(files: seq<CheckpointFile>, blobs: map<string, seq<Byte>>, f: CheckpointFile)
    requires DistinctPaths(files) && f in files
    ensures f.path in Clones(files, blobs) <==> f.sha256 in blobs
    ensures f.sha256 in blobs ==> Clones(files, blobs)[f.path] == blobs[f.sha256]
  {
    if f != files[0] {
      ClonesAt(files[1..], blobs, f);
    } else {
      forall g | g in files[1..] ensures g.path != f.path {
        var k :| 0 <= k < |files| - 1 && files[1..][k] == g;
        assert files[k + 1] == g;
      }
      ClonesOnlyListed(files[1..], blobs, f.path);
    }
  }

  lemma {:induction false} ClonesOnlyListed(files: seq<CheckpointFile>, blobs: map<string, seq<Byte>>, path: string)
    requires forall g :: g in files ==> g.path != path
    ensures path !in Clones(files, blobs)
  {
    if files != [] {
      ClonesOnlyListed(files[1..], blobs, path);
    }
  }

  /** Every segment of a plan names a listed file and a range inside it. */
  lemma SegmentFile(j: Job, i: nat, s: Segment) returns (f: CheckpointFile)
    requires ValidJob(j) && i < |j.pieces| && s in j.pieces[i].segments
    ensures f in j.m.files && f.path == s.path && s.offset + s.length <= f.size
  {
    PieceLengths(j, i);
    var n :| 0 <= n < |j.pieces[i].segments| && j.pieces[i].segments[n] == s;
    assert InPlace(j.m.files, j.pieces[i].segments, j.pieces[i].streamOffset, n);
    var k: nat :| InFile(j.m.files, s, k, j.pieces[i].streamOffset + LengthSum(j.pieces[i].segments[..n]));
    f := j.m.files[k];
  }

  /** A segment's range lies in its file and in the payload. */
  lemma SegmentFits(j: Job, i: nat, n: nat, partials: map<string, seq<Byte>>)
    requires ValidJob(j) && Sized(j.m.files, partials) && i < |j.pieces| && n < |j.pieces[i].segments|
    ensures var s := j.pieces[i].segments[n];
            && s.length > 0 && s.path in partials && s.offset + s.length <= |partials[s.path]|
            && LengthSum(j.pieces[i].segments[..n]) + s.length <= j.pieces[i].length
  {
    PieceLengths(j, i);
    assert j.pieces[i].segments[n] in j.pieces[i].segments;
    var f := SegmentFile(j, i, j.pieces[i].segments[n]);
    SegmentInsidePiece(j.m, j.pieces, i, n);
  }

  lemma WriterFits(j: Job, r: Run, i: nat)
    requires Sound(j, r) && i in r.writers
    ensures i < |j.pieces| && WriterInside(j.pieces[i], r.writers[i])
  {
  }

  /** A sound writer inside segment n may write any part of what is left of it. */
  lemma WriterCanStep(j: Job, r: Run, i: nat, count: nat)
    requires Sound(j, r) && i in r.writers && i < |j.pieces| && r.writers[i].segment < |j.pieces[i].segments|
    requires 0 < count <= j.pieces[i].segments[r.writers[i].segment].length - r.writers[i].done
    ensures Enabled(j, r, Wrote(i, count))
  {
    WriterFits(j, r, i);
    SegmentFits(j, i, r.writers[i].segment, r.disk.partials);
  }

  ghost function Slice<T>(s: Segment, data: map<string, seq<T>>): seq<T>
    requires s.path in data && s.offset + s.length <= |data[s.path]|
  {
    data[s.path][s.offset..s.offset + s.length]
  }

  /** Reads agree exactly when every single range agrees. */
  lemma {:induction false} ReadsAgree<T>(segments: seq<Segment>, a: map<string, seq<T>>, b: map<string, seq<T>>)
    requires Readable(segments, a) && Readable(segments, b)
    ensures |ReadSegments(segments, a)| == LengthSum(segments) == |ReadSegments(segments, b)|
    ensures ReadSegments(segments, a) == ReadSegments(segments, b)
            <==> forall s :: s in segments ==> Slice(s, a) == Slice(s, b)
  {
    if segments != [] {
      var n := |segments| - 1;
      var init, last := segments[..n], segments[n];
      ReadsAgree(init, a, b);
      assert segments == init + [last];
      var x, y, u, v := ReadSegments(init, a), ReadSegments(init, b), Slice(last, a), Slice(last, b);
      assert ReadSegments(segments, a) == x + u && ReadSegments(segments, b) == y + v;
      if x + u == y + v {
        assert x == (x + u)[..|x|] && y == (y + v)[..|x|];
        assert u == (x + u)[|x|..] && v == (y + v)[|x|..];
      }
    }
  }

  /** A window is what reading its piece's segments returns. */
  lemma WindowIsRead(j: Job, data: map<string, seq<Byte>>, i: nat)
    requires ValidJob(j) && Sized(j.m.files, data) && i < |j.pieces|
    ensures Readable(j.pieces[i].segments, data)
    ensures Window(j, data, i) == ReadSegments(j.pieces[i].segments, data)
  {
    PieceLengths(j, i);
    WindowInside(j, data, i);
    WindowRead(j.m.files, j.pieces[i].segments, j.pieces[i].streamOffset,
               j.pieces[i].streamOffset + j.pieces[i].length, data);
  }

  /** Whatever was on disk, everything a new run takes as completed is genuine. */
  lemma ResumedIsSound(j: Job, before: Disk, r: Run)
    requires Resumed(j, before, r)
    ensures Sound(j, r)
  {
    forall i | i in r.completed
      ensures i < |j.pieces| && Genuine(j, r.disk, i)
    {
      if AllCloned(j, before.blobs, i) {
        var clones := Clones(j.m.files, r.disk.blobs);
        WindowIsRead(j, r.disk.partials, i);
        forall s | s in j.pieces[i].segments
          ensures s.path in clones && s.offset + s.length <= |clones[s.path]|
                  && Slice(s, clones) == Slice(s, r.disk.partials)
        {
          var f := SegmentFile(j, i, s);
          ClonesAt(j.m.files, r.disk.blobs, f);
          assert PreparedFile(before, r.disk.partials, f);
        }
        ReadsAgree(j.pieces[i].segments, r.disk.partials, clones);
      }
    }
  }

  /******* Honest manifests *******/

  /** The manifest describes real contents: file digests and piece hashes are theirs. */
  ghost predicate Honest(j: Job, data: map<string, seq<Byte>>) {
    && ValidJob(j) && Sized(j.m.files, data)
    && (forall f :: f in j.m.files ==> f.sha256 == j.hash(data[f.path]))
    && (forall i :: 0 <= i < |j.pieces| ==> j.pieces[i].sha256 == j.hash(Window(j, data, i)))
  }

  /** A verified blob of an honest manifest is the real file. */
  lemma BlobIsReal(j: Job, data: map<string, seq<Byte>>, blobs: map<string, seq<Byte>>, f: CheckpointFile)
    requires Honest(j, data) && CollisionFree(j.hash) && BlobsVerified(j, blobs) && f in j.m.files && f.sha256 in blobs
    ensures blobs[f.sha256] == data[f.path]
  {
    assert j.hash(blobs[f.sha256]) == j.hash(data[f.path]);
  }

  /** Every completed piece of a sound run holds the real bytes. */
  lemma CompletedIsReal(j: Job, data: map<string, seq<Byte>>, r: Run, i: nat)
    requires Honest(j, data) && CollisionFree(j.hash) && Sound(j, r) && i in r.completed
    ensures i < |j.pieces| && Window(j, r.disk.partials, i) == Window(j, data, i)
  {
    assert Genuine(j, r.disk, i);
    if ReadsClones(j, r.disk, i) {
      var clones := Clones(j.m.files, r.disk.blobs);
      WindowIsRead(j, data, i);
      forall s | s in j.pieces[i].segments
        ensures Slice(s, clones) == Slice(s, data)
      {
        var f := SegmentFile(j, i, s);
        ClonesAt(j.m.files, r.disk.blobs, f);
        BlobIsReal(j, data, r.disk.blobs, f);
      }
      ReadsAgree(j.pieces[i].segments, clones, data);
    } else {
      assert j.hash(Window(j, r.disk.partials, i)) == j.hash(Window(j, data, i));
    }
  }

  /** Piece windows cover the stream, so equal windows mean equal files. */
  lemma WindowsDetermineFiles(j: Job, a: map<string, seq<Byte>>, b: map<string, seq<Byte>>)
    requires ValidJob(j) && Sized(j.m.files, a) && Sized(j.m.files, b)
    requires forall i :: 0 <= i < |j.pieces| ==> Window(j, a, i) == Window(j, b, i)
    ensures forall f :: f in j.m.files ==> a[f.path] == b[f.path]
  {
    StreamLength(j.m.files, a);
    StreamLength(j.m.files, b);
    PiecesConsecutive(j.m, j.pieces);
    var s, t := Stream(j.m.files, a), Stream(j.m.files, b);
    forall x | 0 <= x < |s|
      ensures s[x] == t[x]
    {
      var i := SomePieceHolds(j.m, j.pieces, |j.pieces|, x);
      WindowInside(j, a, i);
      var lo := j.pieces[i].streamOffset;
      assert s[x] == Window(j, a, i)[x - lo];
      assert t[x] == Window(j, b, i)[x - lo];
    }
    StreamDeterminesFiles(j.m.files, a, b);
  }

  /** When every piece is completed, each partial file is its slice of the real stream. */
  lemma FinishedFilesAreReal(j: Job, data: map<string, seq<Byte>>, r: Run)
    requires Honest(j, data) && CollisionFree(j.hash) && Sound(j, r)
    requires forall i :: 0 <= i < |j.pieces| ==> i in r.completed
    ensures forall f :: f in j.m.files ==> r.disk.partials[f.path] == data[f.path]
    ensures forall f :: f in j.m.files ==> r.bytes[f.path] == f.size
  {
    forall i | 0 <= i < |j.pieces|
      ensures Window(j, r.disk.partials, i) == Window(j, data, i)
    {
      CompletedIsReal(j, data, r, i);
    }
    WindowsDetermineFiles(j, r.disk.partials, data);
    forall f | f in j.m.files ensures r.bytes[f.path] == f.size {
      var k :| 0 <= k < |j.m.files| && j.m.files[k] == f;
      AllPiecesFillEveryFile(j.m, j.pieces, r.completed, k);
    }
  }

  /** A crash loses nothing that was completed: the next run takes every such piece as completed again. */
  lemma ResumeKeepsProgress(j: Job, data: map<string, seq<Byte>>, r: Run, r': Run)
    requires Honest(j, data) && CollisionFree(j.hash) && Sound(j, r) && Resumed(j, r.disk, r')
    ensures r.completed <= r'.completed
  {
    forall i | i in r.completed
      ensures i in r'.completed
    {
      CompletedIsReal(j, data, r, i);
      WindowIsRead(j, r.disk.partials, i);
      WindowIsRead(j, r'.disk.partials, i);
      WindowIsRead(j, data, i);
      ReadsAgree(j.pieces[i].segments, r.disk.partials, data);
      forall s | s in j.pieces[i].segments
        ensures Slice(s, r'.disk.partials) == Slice(s, data)
      {
        var f := SegmentFile(j, i, s);
        assert PreparedFile(r.disk, r'.disk.partials, f);
        if f.sha256 in r.disk.blobs {
          BlobIsReal(j, data, r.disk.blobs, f);
        }
      }
      ReadsAgree(j.pieces[i].segments, r'.disk.partials, data);
      assert forall f :: f in j.m.files ==> !NeedsReset(j, r.disk, f);
      assert Loaded(MapAfterPrepare(j, r.disk), |j.pieces|) == r.completed;
    }
  }

  /******* Promotion *******/

  function PromoteFile(hash: Hash, disk: Disk, f: CheckpointFile): Result<Disk> {
    if f.path !in disk.partials || |disk.partials[f.path]| != f.size then
      Err("partial file size does not match manifest")
    else if hash(disk.partials[f.path]) != f.sha256 then
      Err("partial file digest does not match manifest")
    else if f.sha256 in disk.blobs then
      if |disk.blobs[f.sha256]| != f.size || hash(disk.blobs[f.sha256]) != f.sha256 then
        Err("verified cache blob is corrupt")
      else
        Ok(disk.(partials := disk.partials - {f.path}))
    else
      Ok(disk.(partials := disk.partials - {f.path}, blobs := disk.blobs[f.sha256 := disk.partials[f.path]]))
  }

  function PromoteFiles(hash: Hash, disk: Disk, files: seq<CheckpointFile>): Result<Disk>
    decreases |files|
  {
    if files == [] then Ok(disk)
    else
      match PromoteFile(hash, disk, files[0])
      case Err(message) => Err(message)
      case Ok(disk') => PromoteFiles(hash, disk', files[1..])
  }

  /** A blob, once under its digest, only ever holds bytes with that digest. */
  lemma {:induction false} PromotionSucceeds(j: Job, data: map<string, seq<Byte>>, disk: Disk, n: nat)
    requires Honest(j, data) && CollisionFree(j.hash) && BlobsVerified(j, disk.blobs) && n <= |j.m.files|
    requires forall k :: n <= k < |j.m.files| ==>
               j.m.files[k].path in disk.partials && disk.partials[j.m.files[k].path] == data[j.m.files[k].path]
    requires forall k :: 0 <= k < n ==>
               j.m.files[k].sha256 in disk.blobs && disk.blobs[j.m.files[k].sha256] == data[j.m.files[k].path]
    ensures PromoteFiles(j.hash, disk, j.m.files[n..]).Ok?
    ensures var done := PromoteFiles(j.hash, disk, j.m.files[n..]).value;
            && BlobsVerified(j, done.blobs)
            && forall f :: f in j.m.files ==> f.sha256 in done.blobs && done.blobs[f.sha256] == data[f.path]
    decreases |j.m.files| - n
  {
    if n < |j.m.files| {
      var f := j.m.files[n];
      assert f in j.m.files;
      var step := PromoteFile(j.hash, disk, f);
      assert step.Ok?;
      assert BlobsVerified(j, step.value.blobs) by {
        forall g | g in j.m.files && g.sha256 == f.sha256 ensures data[g.path] == data[f.path] {
          assert j.hash(data[g.path]) == j.hash(data[f.path]);
        }
      }
      BlobIsReal(j, data, step.value.blobs, f);
      assert j.m.files[n..][1..] == j.m.files[n + 1..];
      PromotionSucceeds(j, data, step.value, n + 1);
    } else {
      assert j.m.files[n..] == [];
    }
  }

  /** An honest manifest with every piece completed promotes every file to the real blob. */
  lemma HonestRunPromotes(j: Job, data: map<string, seq<Byte>>, r: Run)
    requires Honest(j, data) && CollisionFree(j.hash) && Sound(j, r)
    requires forall i :: 0 <= i < |j.pieces| ==> i in r.completed
    ensures PromoteFiles(j.hash, r.disk, j.m.files).Ok?
    ensures forall f :: f in j.m.files ==>
              && f.sha256 in PromoteFiles(j.hash, r.disk, j.m.files).value.blobs
              && PromoteFiles(j.hash, r.disk, j.m.files).value.blobs[f.sha256] == data[f.path]
  {
    FinishedFilesAreReal(j, data, r);
    assert j.m.files[0..] == j.m.files;
    PromotionSucceeds(j, data, r.disk, 0);
  }

  /******* A crash while files are promoted *******/

  /**
   All pieces were completed: each file is a verified blob or still complete, and the map stays till all are blobs.
   */
  ghost predicate Promoting(j: Job, data: map<string, seq<Byte>>, disk: Disk)
    requires Sized(j.m.files, data)
  {
    && BlobsVerified(j, disk.blobs)
    && (forall f :: f in j.m.files ==>
          f.sha256 in disk.blobs || (f.path in disk.partials && disk.partials[f.path] == data[f.path]))
    && ((forall f :: f in j.m.files ==> f.sha256 in disk.blobs)
        || AllMarked(disk.pieceMap, |j.pieces|))
  }

  ghost predicate AllMarked(f: MapFile, count: nat) {
    f.Marks? && forall i: nat :: i in f.completed <==> i < count
  }

  lemma FinishedIsPromoting(j: Job, data: map<string, seq<Byte>>, r: Run)
    requires Honest(j, data) && CollisionFree(j.hash) && Sound(j, r)
    requires forall i :: 0 <= i < |j.pieces| ==> i in r.completed
    ensures Promoting(j, data, r.disk)
  {
    FinishedFilesAreReal(j, data, r);
  }

  /** Promoting one file keeps that, also when another file has the same digest. */
  lemma PromotionKeeps(j: Job, data: map<string, seq<Byte>>, disk: Disk, f: CheckpointFile)
    requires Honest(j, data) && CollisionFree(j.hash) && Promoting(j, data, disk) && f in j.m.files
    requires PromoteFile(j.hash, disk, f).Ok?
    ensures Promoting(j, data, PromoteFile(j.hash, disk, f).value)
  {
    var disk' := PromoteFile(j.hash, disk, f).value;
    forall g | g in j.m.files && g.sha256 in disk'.blobs
      ensures |disk'.blobs[g.sha256]| == g.size && j.hash(disk'.blobs[g.sha256]) == g.sha256
    {
      if g.sha256 !in disk.blobs {
        assert j.hash(data[g.path]) == j.hash(disk.partials[f.path]);
      }
    }
    forall g | g in j.m.files
      ensures g.sha256 in disk'.blobs || (g.path in disk'.partials && disk'.partials[g.path] == data[g.path])
    {
      if g.path == f.path { SamePathSameFile(j, f, g); }
    }
  }

  lemma SamePathSameFile(j: Job, f: CheckpointFile, g: CheckpointFile)
    requires ValidJob(j) && f in j.m.files && g in j.m.files && f.path == g.path
    ensures f == g
  {
    var a :| 0 <= a < |j.m.files| && j.m.files[a] == f;
    var b :| 0 <= b < |j.m.files| && j.m.files[b] == g;
  }

  lemma {:induction false} PromotionsKeep(j: Job, data: map<string, seq<Byte>>, disk: Disk, files: seq<CheckpointFile>)
    requires Honest(j, data) && CollisionFree(j.hash) && Promoting(j, data, disk)
    requires forall f :: f in files ==> f in j.m.files
    requires PromoteFiles(j.hash, disk, files).Ok?
    ensures Promoting(j, data, PromoteFiles(j.hash, disk, files).value)
    decreases |files|
  {
    if files != [] {
      PromotionKeeps(j, data, disk, files[0]);
      hide Honest, Promoting, CollisionFree;
      PromotionsKeep(j, data, PromoteFile(j.hash, disk, files[0]).value, files[1..]);
    }
  }

  /** Whatever succeeds as a whole also succeeds when it is cut off after n files. */
  lemma {:induction false} PromotePrefix(hash: Hash, disk: Disk, files: seq<CheckpointFile>, n: nat)
    requires n <= |files| && PromoteFiles(hash, disk, files).Ok?
    ensures PromoteFiles(hash, disk, files[..n]).Ok?
    decreases n
  {
    hide PromoteFile;
    if n > 0 {
      PromotePrefix(hash, PromoteFile(hash, disk, files[0]).value, files[1..], n - 1);
      assert files[..n][1..] == files[1..][..n - 1];
    }
  }

  /** A run that begins on such a disk has nothing left to fetch. */
  lemma PromotingResumesFinished(j: Job, data: map<string, seq<Byte>>, disk: Disk, r: Run)
    requires Honest(j, data) && CollisionFree(j.hash) && Promoting(j, data, disk) && Resumed(j, disk, r)
    ensures forall i :: 0 <= i < |j.pieces| ==> i in r.completed
  {
    forall i | 0 <= i < |j.pieces| ensures i in r.completed {
      if forall f :: f in j.m.files ==> f.sha256 in disk.blobs {
        AllFilesCloned(j, disk.blobs, i);
      } else {
        PromotingIsReal(j, data, disk, r);
        WindowsAgree(j, r.disk.partials, data, i);
        assert forall f :: f in j.m.files ==> !NeedsReset(j, disk, f);
        assert Loaded(MapAfterPrepare(j, disk), |j.pieces|) == disk.pieceMap.completed;
      }
    }
  }

  lemma AllFilesCloned(j: Job, blobs: map<string, seq<Byte>>, i: nat)
    requires ValidJob(j) && i < |j.pieces| && forall f :: f in j.m.files ==> f.sha256 in blobs
    ensures AllCloned(j, blobs, i)
  {
    forall s | s in j.pieces[i].segments ensures s.path in Clones(j.m.files, blobs) {
      var f := SegmentFile(j, i, s);
      ClonesAt(j.m.files, blobs, f);
    }
  }

  lemma PromotingIsReal(j: Job, data: map<string, seq<Byte>>, disk: Disk, r: Run)
    requires Honest(j, data) && CollisionFree(j.hash) && Promoting(j, data, disk) && Resumed(j, disk, r)
    ensures forall f :: f in j.m.files ==> r.disk.partials[f.path] == data[f.path]
  {
    forall f | f in j.m.files ensures r.disk.partials[f.path] == data[f.path] {
      assert PreparedFile(disk, r.disk.partials, f);
      if f.sha256 in disk.blobs { BlobIsReal(j, data, disk.blobs, f); }
    }
  }

  /** Equal files have equal windows. */
  lemma WindowsAgree(j: Job, a: map<string, seq<Byte>>, b: map<string, seq<Byte>>, i: nat)
    requires ValidJob(j) && Sized(j.m.files, a) && Sized(j.m.files, b) && i < |j.pieces|
    requires forall f :: f in j.m.files ==> a[f.path] == b[f.path]
    ensures Window(j, a, i) == Window(j, b, i)
  {
    WindowIsRead(j, a, i);
    WindowIsRead(j, b, i);
    forall s | s in j.pieces[i].segments ensures Slice(s, a) == Slice(s, b) {
      var f := SegmentFile(j, i, s);
    }
    ReadsAgree(j.pieces[i].segments, a, b);
  }

  /** A crash after any number of promotions loses nothing: the next run has nothing to fetch and promotes the rest. */
  lemma PromotionCrashKeepsProgress(j: Job, data: map<string, seq<Byte>>, r: Run, n: nat, r': Run)
    requires Honest(j, data) && CollisionFree(j.hash) && Sound(j, r) && n <= |j.m.files|
    requires forall i :: 0 <= i < |j.pieces| ==> i in r.completed
    ensures PromoteFiles(j.hash, r.disk, j.m.files[..n]).Ok?
    ensures Resumed(j, PromoteFiles(j.hash, r.disk, j.m.files[..n]).value, r') ==>
              && (forall i :: 0 <= i < |j.pieces| ==> i in r'.completed)
              && PromoteFiles(j.hash, r'.disk, j.m.files).Ok?
              && (forall f :: f in j.m.files ==>
                    && f.sha256 in PromoteFiles(j.hash, r'.disk, j.m.files).value.blobs
                    && PromoteFiles(j.hash, r'.disk, j.m.files).value.blobs[f.sha256] == data[f.path])
  {
    hide Sound, Resumed, Honest, Promoting, PromoteFiles;
    HonestRunPromotes(j, data, r);
    PromotePrefix(j.hash, r.disk, j.m.files, n);
    FinishedIsPromoting(j, data, r);
    PromotionsKeep(j, data, r.disk, j.m.files[..n]);
    var left := PromoteFiles(j.hash, r.disk, j.m.files[..n]).value;
    if Resumed(j, left, r') {
      PromotingResumesFinished(j, data, left, r');
      ResumedIsSound(j, left, r');
      HonestRunPromotes(j, data, r');
    }
  }

  /**
   From whatever a crash left on disk: if the new run, under any interleaving of its workers, gets all
   pieces, then every file is promoted and holds the real bytes.
   */
  lemma DownloadAfterAnyCrash(j: Job, data: map<string, seq<Byte>>, before: Disk, r: Run, events: seq<Event>, r': Run)
    requires Honest(j, data) && CollisionFree(j.hash) && Resumed(j, before, r) && Executes(j, r, events, r')
    requires forall i :: 0 <= i < |j.pieces| ==> i in r'.completed
    ensures PromoteFiles(j.hash, r'.disk, j.m.files).Ok?
    ensures forall f :: f in j.m.files ==>
              && f.sha256 in PromoteFiles(j.hash, r'.disk, j.m.files).value.blobs
              && PromoteFiles(j.hash, r'.disk, j.m.files).value.blobs[f.sha256] == data[f.path]
  {
    hide Sound, Resumed, Honest, PromoteFiles;
    ResumedIsSound(j, before, r);
    EveryInterleavingIsSound(j, r, events, r');
    HonestRunPromotes(j, data, r');
  }
}
