/**
 The scheduler object itself: its methods work on the partial files, the
 completion map, the blobs and the byte counters, and are proved against the
 run states of the two modules above it.  ai2apps/checkpoint_distribution.py.
 */
module Downloader {
  import opened Base
  import opened Pieces
  import opened Tiling
  import opened Download
  import opened Resume
  import opened Delivery

  class PieceDownloadScheduler {
    const j: Job
    var partials: map<string, seq<Byte>>
    var pieceMap: MapFile
    var blobs: map<string, seq<Byte>>
    var completed: set<nat>
    var bytes: map<string, nat>

    constructor (j: Job, disk: Disk)
      requires ValidJob(j)
      ensures this.j == j && OnDisk() == disk
    {
      this.j := j;
      partials, pieceMap, blobs := disk.partials, disk.pieceMap, disk.blobs;
      completed, bytes := {}, map[];
    }

    function OnDisk(): Disk
      reads this
    {
      Disk(partials, pieceMap, blobs)
    }

    /** The run state between pieces of one worker: nobody is writing. */
    function Now(): Run
      reads this
    {
      Run(OnDisk(), map[], completed, bytes)
    }

    /** The run state while several workers write. */
    function With(writers: map<nat, Writer>): Run
      reads this
    {
      Run(OnDisk(), writers, completed, bytes)
    }

    /** Blobs already in the cache under a listed digest; any that does not verify stops the run. */
    method VerifiedBlobs() returns (r: Result<map<string, seq<Byte>>>)
      requires ValidJob(j)
      ensures r.Ok? <==> BlobsVerified(j, blobs)
      ensures r.Ok? ==> forall f :: f in j.m.files ==>
                (f.path in r.value <==> f.sha256 in blobs)
                && (f.path in r.value ==> r.value[f.path] == blobs[f.sha256])
    {
      var found: map<string, seq<Byte>> := map[];
      for n := 0 to |j.m.files|
        invariant forall k :: 0 <= k < n && j.m.files[k].sha256 in blobs ==>
                    && |blobs[j.m.files[k].sha256]| == j.m.files[k].size
                    && j.hash(blobs[j.m.files[k].sha256]) == j.m.files[k].sha256
        invariant forall k :: 0 <= k < n ==>
                    (j.m.files[k].path in found <==> j.m.files[k].sha256 in blobs)
                    && (j.m.files[k].path in found ==> found[j.m.files[k].path] == blobs[j.m.files[k].sha256])
        invariant forall k :: n <= k < |j.m.files| ==> j.m.files[k].path !in found
      {
        var f := j.m.files[n];
        assert f in j.m.files;
        if f.sha256 in blobs {
          if |blobs[f.sha256]| != f.size || j.hash(blobs[f.sha256]) != f.sha256 {
            return Err("verified cache blob is corrupt");
          }
          found := found[f.path := blobs[f.sha256]];
        }
      }
      r := Ok(found);
    }

    /** Clone cached files, drop partial files of a wrong size, create missing ones. */
    method PreparePartialFiles(cached: map<string, seq<Byte>>)
      requires ValidJob(j) && BlobsVerified(j, blobs)
      requires forall f :: f in j.m.files ==>
                 (f.path in cached <==> f.sha256 in blobs) && (f.path in cached ==> cached[f.path] == blobs[f.sha256])
      modifies this`partials, this`pieceMap, this`completed
      ensures forall f :: f in j.m.files ==> PreparedFile(old(OnDisk()), partials, f)
      ensures Sized(j.m.files, partials)
      ensures pieceMap == MapAfterPrepare(j, old(OnDisk()))
    {
      hide PreparedFirst, NeedsReset, PreparedFile, BlobsVerified;
      ghost var before := OnDisk();
      var resetMap := false;
      NothingPrepared(j, before);
      for n := 0 to |j.m.files|
        invariant PreparedFirst(j, before, partials, n, resetMap) && pieceMap == before.pieceMap
      {
        ghost var partials0 := partials;
        var reset := PreparePartialFile(j.m.files[n], cached);
        OneMorePrepared(j, before, cached, partials0, n, resetMap, reset, partials);
        resetMap := resetMap || reset;
      }
      AllPrepared(j, before, partials, resetMap);
      if resetMap {
        completed := {};
        pieceMap := Absent;
      }
    }

    /** One file of the loop above; tells whether a partial file of a wrong size was dropped. */
    method PreparePartialFile(f: CheckpointFile, cached: map<string, seq<Byte>>) returns (reset: bool)
      modifies this`partials
      ensures reset <==> f.path !in cached && f.path in old(partials) && |old(partials)[f.path]| != f.size
      ensures partials == old(partials)[f.path :=
                if f.path in cached then cached[f.path]
                else if f.path in old(partials) && !reset then old(partials)[f.path]
                else Zeros(f.size)]
      ensures f.path !in cached && (f.path !in old(partials) || reset) ==>
                |partials[f.path]| == f.size && forall k :: 0 <= k < f.size ==> partials[f.path][k] == 0
    {
      reset := false;
      if f.path in cached {
        partials := partials[f.path := cached[f.path]];
        return;
      }
      if f.path in partials && |partials[f.path]| != f.size {
        partials := partials - {f.path};
        reset := true;
      }
      if f.path !in partials {
        partials := partials[f.path := Zeros(f.size)];
      }
    }

    /** Read a piece's segments from the partial files; None when a range is missing. */
    method ReadPiece(i: nat) returns (payload: Option<seq<Byte>>)
      requires ValidJob(j) && i < |j.pieces|
      ensures payload.Some? <==> Readable(j.pieces[i].segments, partials)
      ensures payload.Some? ==> payload.value == ReadSegments(j.pieces[i].segments, partials)
    {
      hide ReadSegments, Readable;
      var segments, read: seq<Byte> := j.pieces[i].segments, [];
      NothingRead(segments, partials);
      for n := 0 to |segments|
        invariant Readable(segments[..n], partials) && read == ReadSegments(segments[..n], partials)
      {
        var s := segments[n];
        OneMoreRead(segments, partials, n);
        if s.path !in partials || s.offset + s.length > |partials[s.path]| {
          return None;
        }
        read := read + partials[s.path][s.offset..s.offset + s.length];
      }
      assert segments[..|segments|] == segments;
      payload := Some(read);
    }

    /** Load the completion map, discarding one that does not fit this manifest. */
    method LoadMap() returns (marks: set<nat>)
      modifies this`pieceMap, this`completed
      ensures marks == Loaded(old(pieceMap), |j.pieces|)
      ensures pieceMap == if old(pieceMap).Marks? && marks == old(pieceMap).completed then old(pieceMap) else Absent
    {
      if pieceMap.Absent? {
        return {};
      }
      if pieceMap.Unusable? || exists i :: i in pieceMap.completed && i >= |j.pieces| {
        completed := {};
        pieceMap := Absent;
        return {};
      }
      completed := pieceMap.completed;
      marks := completed;
    }

    /** Keep only the marked pieces whose bytes still hash to the manifest's digest. */
    method ValidatedCompletedPieces() returns (valid: set<nat>)
      requires ValidJob(j) && Sized(j.m.files, partials)
      modifies this`pieceMap, this`completed
      ensures forall i: nat :: i in valid <==>
                && i < |j.pieces| && i in Loaded(old(pieceMap), |j.pieces|)
                && j.hash(Window(j, partials, i)) == j.pieces[i].sha256
    {
      var marks := LoadMap();
      var todo := marks;
      valid := {};
      while todo != {}
        invariant todo <= marks
        invariant forall i: nat :: i in valid <==>
                    i in marks - todo && i < |j.pieces| && j.hash(Window(j, partials, i)) == j.pieces[i].sha256
        decreases |todo|
      {
        var i :| i in todo;
        WindowIsRead(j, partials, i);
        var payload := ReadPiece(i);
        if payload.Some? && j.hash(payload.value) == j.pieces[i].sha256 {
          valid := valid + {i};
        }
        todo := todo - {i};
      }
    }

    /** The piece numbers lying wholly in cached files. */
    method ClonedPieces(cached: map<string, seq<Byte>>) returns (whole: set<nat>)
      requires ValidJob(j)
      requires forall f :: f in j.m.files ==> (f.path in cached <==> f.sha256 in blobs)
      ensures forall i: nat :: i in whole <==> i < |j.pieces| && AllCloned(j, blobs, i)
    {
      whole := {};
      for n := 0 to |j.pieces|
        invariant forall i: nat :: i in whole <==> i < n && AllCloned(j, blobs, i)
      {
        forall s | s in j.pieces[n].segments
          ensures s.path in cached <==> s.path in Clones(j.m.files, blobs)
        {
          var f := SegmentFile(j, n, s);
          ClonesAt(j.m.files, blobs, f);
        }
        if forall s :: s in j.pieces[n].segments ==> s.path in cached {
          whole := whole + {n};
        }
      }
    }

    /** Everything `download` does before the workers start. */
    method Begin() returns (r: Result<()>)
      requires ValidJob(j)
      modifies this
      ensures r.Ok? <==> BlobsVerified(j, old(blobs))
      ensures r.Ok? ==> Resumed(j, old(OnDisk()), Now()) && Sound(j, Now()) && blobs == old(blobs)
      ensures r.Err? ==> OnDisk() == old(OnDisk())
    {
      hide Sound, PreparedFile, MapAfterPrepare, AllCloned, Loaded, BlobsVerified, ChosenBytes;
      var verified := VerifiedBlobs();
      if verified.Err? {
        return Err(verified.message);
      }
      PreparePartialFiles(verified.value);
      var valid := ValidatedCompletedPieces();
      var whole := ClonedPieces(verified.value);
      completed := valid + whole;
      pieceMap := Marks(completed);
      CountBytes();
      ResumedIsSound(j, old(OnDisk()), Now());
      r := Ok(());
    }

    /** Recount the verified bytes of every file from the completed pieces. */
    method CountBytes()
      requires ValidJob(j) && forall i :: i in completed ==> i < |j.pieces|
      modifies this`bytes
      ensures bytes.Keys == set f | f in j.m.files :: f.path
      ensures forall p :: p in bytes ==> bytes[p] == ChosenBytes(j.pieces, completed, p, |j.pieces|)
    {
      hide ChosenBytes, BytesOf;
      var paths := set f | f in j.m.files :: f.path;
      bytes := map p | p in paths :: 0;
      var todo := completed;
      ghost var done: set<nat> := {};
      NothingCounted(j.pieces, bytes);
      while todo != {}
        invariant done + todo == completed && done !! todo
        invariant bytes.Keys == paths && Counted(j.pieces, bytes, done)
        decreases |todo|
      {
        var i :| i in todo;
        CountOne(j.pieces, bytes, done, i);
        bytes := map p | p in bytes :: bytes[p] + BytesOf(j.pieces[i].segments, p);
        done := done + {i};
        todo := todo - {i};
      }
      assert done == completed;
    }

    /** The run state while one worker has still to write the segments of piece i from number n on. */
    ghost function Writing(i: nat, payload: seq<Byte>, n: nat): Run
      reads this
    {
      Run(OnDisk(), map[i := Writer(payload, n, 0)], completed, bytes)
    }

    /**
     Write a verified payload, segment after segment, accepting short writes.
     Every intermediate state is a sound state of the run.
     */
    method WritePiece(i: nat, payload: seq<Byte>)
      requires Sound(j, Now()) && i < |j.pieces| && i !in completed
      requires |payload| == j.pieces[i].length && j.hash(payload) == j.pieces[i].sha256
      modifies this`partials
      ensures Sound(j, Writing(i, payload, |j.pieces[i].segments|))
    {
      hide Sound, LengthSum;
      WriterBegins(j, Now(), i, payload);
      NothingBefore(j.pieces[i].segments);
      var segments, cursor := j.pieces[i].segments, 0;
      for n := 0 to |segments|
        invariant cursor == LengthSum(segments[..n])
        invariant Sound(j, Writing(i, payload, n))
      {
        LengthSumNext(segments, n);
        partials := WriteSegment(j, Writing(i, payload, n), i, payload, n, cursor, partials);
        cursor := cursor + segments[n].length;
      }
    }

    /** Fetching is an oracle: the piece's payload arrives verified, or the piece fails. */
    method CompletePiece(i: nat, payload: seq<Byte>)
      requires Sound(j, Now()) && i < |j.pieces| && i !in completed
      requires |payload| == j.pieces[i].length && j.hash(payload) == j.pieces[i].sha256
      modifies this
      ensures Sound(j, Now()) && completed == old(completed) + {i} && blobs == old(blobs)
      ensures Readable(j.pieces[i].segments, partials) && ReadSegments(j.pieces[i].segments, partials) == payload
    {
      hide Sound, Readable, ReadSegments, BytesOf;
      WritePiece(i, payload);
      WriterDone(j, Writing(i, payload, |j.pieces[i].segments|), i, payload);
      completed := completed + {i};
      pieceMap := Marks(completed);
      bytes := map p | p in bytes :: bytes[p] + BytesOf(j.pieces[i].segments, p);
    }

    /** Move a verified partial file to its digest's place, or drop it when a verified blob is there already. */
    method PromoteVerified(f: CheckpointFile) returns (r: Result<()>)
      modifies this`partials, this`blobs
      ensures match PromoteFile(j.hash, old(OnDisk()), f)
              case Ok(disk) => r.Ok? && OnDisk() == disk
              case Err(message) => r == Err(message) && OnDisk() == old(OnDisk())
    {
      if f.path !in partials || |partials[f.path]| != f.size {
        return Err("partial file size does not match manifest");
      }
      if j.hash(partials[f.path]) != f.sha256 {
        return Err("partial file digest does not match manifest");
      }
      if f.sha256 in blobs {
        if |blobs[f.sha256]| != f.size || j.hash(blobs[f.sha256]) != f.sha256 {
          return Err("verified cache blob is corrupt");
        }
      } else {
        blobs := blobs[f.sha256 := partials[f.path]];
      }
      partials := partials - {f.path};
      r := Ok(());
    }

    /**
     Promote the partial files one after the other; the first failure stops, with the n files before it promoted.
     */
    method PromoteAll() returns (r: Result<()>, ghost n: nat)
      modifies this`partials, this`blobs
      ensures n <= |j.m.files| && PromoteFiles(j.hash, old(OnDisk()), j.m.files[..n]) == Ok(OnDisk())
      ensures r.Ok? ==> n == |j.m.files|
      ensures r.Err? ==> n < |j.m.files| && PromoteFile(j.hash, OnDisk(), j.m.files[n]) == Err(r.message)
      ensures r.Ok? <==> PromoteFiles(j.hash, old(OnDisk()), j.m.files).Ok?
    {
      hide PromoteFile;
      n := 0;
      assert j.m.files[..|j.m.files|] == j.m.files;
      for k := 0 to |j.m.files|
        invariant n == k && pieceMap == old(pieceMap)
        invariant PromoteFiles(j.hash, old(OnDisk()), j.m.files[..k]) == Ok(OnDisk())
      {
        PromoteOneMore(j.hash, old(OnDisk()), j.m.files, k);
        ghost var before := OnDisk();
        var step := PromoteVerified(j.m.files[k]);
        if step.Err? {
          PromotionStops(j.hash, old(OnDisk()), j.m.files, k);
          return Err(step.message), k;
        }
        PromoteKeepsMap(j.hash, before, j.m.files[k]);
        n := k + 1;
      }
      r := Ok(());
    }

    /** One step of the worker that has piece i: one pwrite of any non-empty part of its segment, or the mark. */
    method StepWorker(writers: map<nat, Writer>, i: nat) returns (left: map<nat, Writer>, ghost e: Event)
      requires Sound(j, With(writers)) && i in writers
      modifies this`partials, this`pieceMap, this`completed, this`bytes
      ensures Enabled(j, old(With(writers)), e) && With(left) == Apply(j, old(With(writers)), e)
      ensures !e.Fetched? && e.piece == i
    {
      hide Sound, Overwrite, LengthSum, BytesOf, CanWrite;
      WriterFits(j, With(writers), i);
      var w, segments := writers[i], j.pieces[i].segments;
      if w.segment == |segments| {
        e, left := Marked(i), writers - {i};
        completed := completed + {i};
        pieceMap := Marks(completed);
        bytes := map p | p in bytes :: bytes[p] + BytesOf(segments, p);
      } else {
        var s, at := segments[w.segment], Written(j.pieces[i], w);
        var count: nat :| 0 < count <= s.length - w.done;
        WriterCanStep(j, With(writers), i, count);
        WriteFits(j.pieces[i], w, partials, count);
        e, left := Wrote(i, count), writers[i := AdvanceWriter(j.pieces[i], w, count)];
        partials := Put(partials, s.path, s.offset + w.done, w.payload[at..at + count]);
      }
    }

    /**
     All workers at once: they take the missing pieces from one queue, at most `workers` are inside a piece, and
     their fetches, partial writes and marks interleave in any way.  The first piece that fails stops them all.
     */
    method RunWorkers(workers: nat, fetch: nat -> Option<seq<Byte>>)
      returns (ok: bool, ghost events: seq<Event>, ghost inside: map<nat, Writer>)
      requires Sound(j, Now()) && workers > 0
      modifies this`partials, this`pieceMap, this`completed, this`bytes
      ensures Executes(j, old(Now()), events, With(inside)) && Sound(j, With(inside)) && |inside| <= workers
      ensures ok <==> AllArrive(j, old(completed), fetch)
      ensures ok ==> inside == map[] && forall i: nat :: i < |j.pieces| ==> i in completed
    {
      hide Sound, Enabled, Apply, Arrives, Executes;
      ghost var began := Now();
      var pending := MissingPieces(began.completed);
      var writers: map<nat, Writer>, next := map[], 0;
      events := [];
      NoEvents(j, began);
      while next < |pending| || writers != map[]
        invariant next <= |pending| && |writers| <= workers
        invariant Sound(j, With(writers)) && Executes(j, began, events, With(writers))
        invariant Taken(j, began.completed, pending, next, completed, writers, fetch)
        decreases |pending| - next, WorkLeft(j, writers, |j.pieces|)
      {
        var take := *;
        if next < |pending| && |writers| < workers && (take || writers == map[]) {
          var i := pending[next];
          TakeOne(j, With(writers), began.completed, pending, next, fetch);
          var payload := fetch(i);
          if payload.None? || |payload.value| != j.pieces[i].length || j.hash(payload.value) != j.pieces[i].sha256 {
            return false, events, writers;
          }
          Extend(j, began, events, With(writers), Fetched(i, payload.value));
          events := events + [Fetched(i, payload.value)];
          TookOne(j, With(writers), began.completed, pending, next, fetch, payload.value);
          MoreWriters(writers, i, Writer(payload.value, 0, 0));
          writers, next := writers[i := Writer(payload.value, 0, 0)], next + 1;
        } else {
          var i :| i in writers;
          ghost var before := With(writers);
          var left;
          ghost var e;
          left, e := StepWorker(writers, i);
          Extend(j, began, events, before, e);
          WorkShrinks(j, before, e);
          Stepped(j, before, began.completed, pending, next, fetch, e);
          events := events + [e];
          writers := left;
        }
      }
      AllTaken(j, With(writers), began.completed, pending, fetch);
      ok, inside := true, writers;
    }

    /** The numbers of the pieces that are not completed, in order. */
    method MissingPieces(ghost began: set<nat>) returns (pending: seq<nat>)
      requires began == completed
      ensures NoDuplicates(pending) && forall i: nat :: i in pending <==> i < |j.pieces| && i !in began
    {
      pending := [];
      for i := 0 to |j.pieces|
        invariant NoDuplicates(pending) && forall k: nat :: k in pending <==> k < i && k !in began
      {
        if i !in completed { pending := pending + [i]; }
      }
    }

    /** Whether every file that a missing piece reads from has a usable source. */
    method HasSources(usable: set<string>) returns (ok: bool)
      ensures ok <==> AllUsable(j, completed, usable)
    {
      var required: set<string> := {};
      for i := 0 to |j.pieces|
        invariant forall k: nat, s :: k < i && k !in completed && s in j.pieces[k].segments ==> s.path in required
        invariant forall path :: path in required ==> Required(j, completed, path)
      {
        if i !in completed {
          var segments := j.pieces[i].segments;
          for n := 0 to |segments|
            invariant forall k: nat, s :: k < i && k !in completed && s in j.pieces[k].segments ==> s.path in required
            invariant forall s :: s in segments[..n] ==> s.path in required
            invariant forall path :: path in required ==> Required(j, completed, path)
          {
            assert segments[n] in j.pieces[i].segments;
            required := required + {segments[n].path};
          }
          assert segments[..|segments|] == segments;
        }
      }
      ok := required <= usable;
    }

    /**
     A whole download.  `usable` are the files some source was found for, `fetch` is what a piece's sources deliver.
     With an honest manifest it succeeds exactly when the cached blobs verify, every file of a missing piece has a
     source, and every missing piece arrives; however the workers interleave.
     */
    method Download(workers: nat, usable: set<string>, fetch: nat -> Option<seq<Byte>>,
                    ghost data: map<string, seq<Byte>>)
      returns (r: Result<()>, ghost began: Run)
      requires ValidJob(j) && workers > 0
      modifies this
      ensures if BlobsVerified(j, old(blobs)) then Resumed(j, old(OnDisk()), began)
              else r.Err? && OnDisk() == old(OnDisk())
      ensures BlobsVerified(j, old(blobs)) && !AllUsable(j, began.completed, usable) ==> r.Err? && Now() == began
      ensures Honest(j, data) && CollisionFree(j.hash) ==>
                (r.Ok? <==> BlobsVerified(j, old(blobs)) && AllUsable(j, began.completed, usable)
                            && AllArrive(j, began.completed, fetch))
      ensures r.Ok? ==>
                pieceMap == Absent && BlobsVerified(j, blobs) && forall f :: f in j.m.files ==> f.sha256 in blobs
      ensures r.Ok? && Honest(j, data) && CollisionFree(j.hash) ==>
                forall f :: f in j.m.files ==> blobs[f.sha256] == data[f.path]
    {
      hide Sound, Resumed, BlobsVerified, PromoteFiles, Honest, AllUsable, AllArrive, Executes;
      began := Now();
      r := Begin();
      if r.Err? {
        return;
      }
      began := Now();
      var found := HasSources(usable);
      if !found {
        return Err("no usable range source"), began;
      }
      var ok;
      ghost var events, inside;
      ok, events, inside := RunWorkers(workers, fetch);
      if !ok {
        return Err("piece could not be verified"), began;
      }
      ghost var finished := Now();
      ghost var n;
      r, n := PromoteAll();
      assert j.m.files[..|j.m.files|] == j.m.files;
      if Honest(j, data) && CollisionFree(j.hash) {
        HonestRunPromotes(j, data, finished);
      }
      if r.Ok? {
        PromotedAreVerified(j.hash, finished.disk, j.m.files);
        AllVerified(j, blobs);
        pieceMap := Absent;
      }
    }
  }

  /** Some missing piece reads from the file. */
  ghost predicate Required(j: Job, completed: set<nat>, path: string) {
    exists i: nat, s :: i < |j.pieces| && i !in completed && s in j.pieces[i].segments && s.path == path
  }

  ghost predicate AllUsable(j: Job, completed: set<nat>, usable: set<string>) {
    forall path :: Required(j, completed, path) ==> path in usable
  }

  /******* Several workers *******/

  /** The first pieces of the queue were taken; each arrived and is completed or being written, and nothing else is. */
  ghost predicate Taken(j: Job, began: set<nat>, pending: seq<nat>, next: nat, completed: set<nat>,
                        writers: map<nat, Writer>, fetch: nat -> Option<seq<Byte>>)
    requires next <= |pending|
  {
    && NoDuplicates(pending) && (forall i: nat :: i in pending <==> i < |j.pieces| && i !in began)
    && began <= completed
    && (forall k :: 0 <= k < next ==> TakenAt(j, pending[k], completed, writers, fetch))
    && (forall k :: next <= k < |pending| ==> pending[k] !in completed && pending[k] !in writers)
  }

  ghost predicate TakenAt(j: Job, i: nat, completed: set<nat>, writers: map<nat, Writer>,
                          fetch: nat -> Option<seq<Byte>>)
  {
    i < |j.pieces| && Arrives(j, i, fetch(i)) && (i in completed || i in writers)
  }

  lemma NoEvents(j: Job, r: Run)
    ensures Executes(j, r, [], r)
  {
  }

  lemma Extend(j: Job, began: Run, events: seq<Event>, r: Run, e: Event)
    requires Executes(j, began, events, r) && Enabled(j, r, e) && Sound(j, r)
    ensures Executes(j, began, events + [e], Apply(j, r, e)) && Sound(j, Apply(j, r, e))
  {
    hide Sound, Enabled, Apply, Executes;
    ExecutesOne(j, r, e);
    ExecutesJoin(j, began, events, r, [e], Apply(j, r, e));
    StepKeepsSound(j, r, e);
  }

  /** The next piece of the queue can be fetched when it arrives; when it does not, not all pieces arrive. */
  lemma TakeOne(j: Job, r: Run, began: set<nat>, pending: seq<nat>, next: nat, fetch: nat -> Option<seq<Byte>>)
    requires next < |pending| && Taken(j, began, pending, next, r.completed, r.writers, fetch)
    ensures pending[next] < |j.pieces| && pending[next] !in r.writers
    ensures Arrives(j, pending[next], fetch(pending[next])) ==>
              Enabled(j, r, Fetched(pending[next], fetch(pending[next]).value))
    ensures !Arrives(j, pending[next], fetch(pending[next])) ==> !AllArrive(j, began, fetch)
    ensures Arrives(j, pending[next], fetch(pending[next])) <==>
              && fetch(pending[next]).Some? && |fetch(pending[next]).value| == j.pieces[pending[next]].length
              && j.hash(fetch(pending[next]).value) == j.pieces[pending[next]].sha256
  {
    assert pending[next] in pending;
  }

  lemma TookOne(j: Job, r: Run, began: set<nat>, pending: seq<nat>, next: nat, fetch: nat -> Option<seq<Byte>>,
                payload: seq<Byte>)
    requires next < |pending| && Taken(j, began, pending, next, r.completed, r.writers, fetch)
    requires pending[next] < |j.pieces| && Arrives(j, pending[next], fetch(pending[next]))
    requires Enabled(j, r, Fetched(pending[next], payload))
    ensures var r' := Apply(j, r, Fetched(pending[next], payload));
            && r' == r.(writers := r.writers[pending[next] := Writer(payload, 0, 0)])
            && Taken(j, began, pending, next + 1, r'.completed, r'.writers, fetch)
  {
    hide Arrives;
    var r' := Apply(j, r, Fetched(pending[next], payload));
    forall k | 0 <= k < next + 1 ensures TakenAt(j, pending[k], r'.completed, r'.writers, fetch) {
      if k < next { assert TakenAt(j, pending[k], r.completed, r.writers, fetch); }
    }
  }

  lemma Stepped(j: Job, r: Run, began: set<nat>, pending: seq<nat>, next: nat, fetch: nat -> Option<seq<Byte>>,
                e: Event)
    requires next <= |pending| && Taken(j, began, pending, next, r.completed, r.writers, fetch)
    requires Enabled(j, r, e) && !e.Fetched? && e.piece in r.writers
    ensures var r' := Apply(j, r, e); Taken(j, began, pending, next, r'.completed, r'.writers, fetch)
    ensures |Apply(j, r, e).writers| <= |r.writers|
  {
    hide Arrives, CanWrite, WritePartials;
    var r' := Apply(j, r, e);
    FewerWriters(r.writers, r'.writers);
    forall k | 0 <= k < next ensures TakenAt(j, pending[k], r'.completed, r'.writers, fetch) {
      assert TakenAt(j, pending[k], r.completed, r.writers, fetch);
    }
  }

  lemma FewerWriters(a: map<nat, Writer>, b: map<nat, Writer>)
    requires b.Keys <= a.Keys
    ensures |b| <= |a|
  {
    KeysSize(a);
    KeysSize(b);
    assert a.Keys == b.Keys + (a.Keys - b.Keys);
  }

  lemma MoreWriters(writers: map<nat, Writer>, i: nat, w: Writer)
    ensures |writers[i := w]| <= |writers| + 1
  {
    KeysSize(writers);
    KeysSize(writers[i := w]);
    assert writers[i := w].Keys == writers.Keys + {i};
  }

  /** When the queue is used up and nobody writes, every piece is completed and every missing one arrived. */
  lemma AllTaken(j: Job, r: Run, began: set<nat>, pending: seq<nat>, fetch: nat -> Option<seq<Byte>>)
    requires Taken(j, began, pending, |pending|, r.completed, r.writers, fetch) && r.writers == map[]
    ensures AllArrive(j, began, fetch) && forall i: nat :: i < |j.pieces| ==> i in r.completed
  {
    forall i: nat | i < |j.pieces| ensures i in r.completed && (i !in began ==> Arrives(j, i, fetch(i))) {
      if i !in began {
        assert i in pending;
        var k :| 0 <= k < |pending| && pending[k] == i;
        assert TakenAt(j, pending[k], r.completed, r.writers, fetch);
      }
    }
  }

  /** What is left to do for the pieces inside the workers: bytes to write, and a mark each. */
  ghost function WorkLeft(j: Job, writers: map<nat, Writer>, n: nat): nat
    requires n <= |j.pieces|
  {
    if n == 0 then 0 else WorkLeft(j, writers, n - 1) + WorkOf(j, writers, n - 1)
  }

  ghost function WorkOf(j: Job, writers: map<nat, Writer>, i: nat): nat
    requires i < |j.pieces|
  {
    if i in writers && writers[i].segment <= |j.pieces[i].segments|
    then 1 + Max(0, |writers[i].payload| - Written(j.pieces[i], writers[i])) else 0
  }

  lemma {:induction false} WorkCompares(j: Job, a: map<nat, Writer>, b: map<nat, Writer>, n: nat, i: nat)
    requires n <= |j.pieces| && i < |j.pieces| && WorkOf(j, b, i) < WorkOf(j, a, i)
    requires forall k: nat :: k < |j.pieces| && k != i ==> WorkOf(j, b, k) == WorkOf(j, a, k)
    ensures WorkLeft(j, b, n) <= WorkLeft(j, a, n) && (i < n ==> WorkLeft(j, b, n) < WorkLeft(j, a, n))
  {
    hide WorkOf;
    if n > 0 { WorkCompares(j, a, b, n - 1, i); }
  }

  /** Only the worker that takes the step has less left to do. */
  lemma WorkAfter(j: Job, r: Run, e: Event)
    requires Sound(j, r) && Enabled(j, r, e) && !e.Fetched?
    ensures e.piece < |j.pieces|
    ensures WorkOf(j, Apply(j, r, e).writers, e.piece) < WorkOf(j, r.writers, e.piece)
  {
    WriterFits(j, r, e.piece);
    if e.Wrote? { WriterAdvances(j, e.piece, r.writers[e.piece], r.disk.partials, e.count); }
    hide Sound, Written, WritePartials, AdvanceWriter;
  }

  lemma OthersAsBefore(j: Job, r: Run, e: Event, k: nat)
    requires Enabled(j, r, e) && !e.Fetched? && k != e.piece
    ensures k in Apply(j, r, e).writers <==> k in r.writers
    ensures k in r.writers ==> Apply(j, r, e).writers[k] == r.writers[k]
  {
    hide CanWrite, WritePartials, AdvanceWriter;
  }

  lemma WorkShrinks(j: Job, r: Run, e: Event)
    requires Sound(j, r) && Enabled(j, r, e) && !e.Fetched?
    ensures WorkLeft(j, Apply(j, r, e).writers, |j.pieces|) < WorkLeft(j, r.writers, |j.pieces|)
  {
    hide Sound, Enabled, Apply, Written;
    WorkAfter(j, r, e);
    forall k: nat | k < |j.pieces| && k != e.piece
      ensures WorkOf(j, Apply(j, r, e).writers, k) == WorkOf(j, r.writers, k)
    {
      OthersAsBefore(j, r, e, k);
    }
    WorkCompares(j, r.writers, Apply(j, r, e).writers, |j.pieces|, e.piece);
  }

  lemma WriteFits(piece: Piece, w: Writer, partials: map<string, seq<Byte>>, count: nat)
    requires CanWrite(piece, w, partials, count)
    ensures var s := piece.segments[w.segment];
            && s.path in partials && s.offset + w.done + count <= |partials[s.path]|
            && Written(piece, w) + count <= |w.payload|
  {
  }

  /** A piece's sources deliver it with the right length and digest. */
  ghost predicate Arrives(j: Job, i: nat, payload: Option<seq<Byte>>)
    requires i < |j.pieces|
  {
    payload.Some? && |payload.value| == j.pieces[i].length && j.hash(payload.value) == j.pieces[i].sha256
  }

  ghost predicate AllArrive(j: Job, completed: set<nat>, fetch: nat -> Option<seq<Byte>>) {
    forall i: nat :: i < |j.pieces| && i !in completed ==> Arrives(j, i, fetch(i))
  }

  lemma {:induction false} PromoteOneMore(hash: Hash, disk: Disk, files: seq<CheckpointFile>, n: nat)
    requires n < |files| && PromoteFiles(hash, disk, files[..n]).Ok?
    ensures PromoteFiles(hash, disk, files[..n + 1])
         == PromoteFile(hash, PromoteFiles(hash, disk, files[..n]).value, files[n])
    decreases n
  {
    hide PromoteFile;
    if n == 0 {
      assert files[..1][1..] == [] && files[..0] == [];
    } else {
      assert files[..n][1..] == files[1..][..n - 1] && files[..n + 1][1..] == files[1..][..n];
      PromoteOneMore(hash, PromoteFile(hash, disk, files[0]).value, files[1..], n - 1);
    }
  }

  lemma PromotionStops(hash: Hash, disk: Disk, files: seq<CheckpointFile>, n: nat)
    requires n < |files| && PromoteFiles(hash, disk, files[..n + 1]).Err?
    ensures PromoteFiles(hash, disk, files).Err?
  {
    if PromoteFiles(hash, disk, files).Ok? {
      PromotePrefix(hash, disk, files, n + 1);
    }
  }

  lemma PromoteKeepsMap(hash: Hash, disk: Disk, f: CheckpointFile)
    ensures PromoteFile(hash, disk, f).Ok? ==>
              && PromoteFile(hash, disk, f).value.pieceMap == disk.pieceMap
              && forall d :: d in disk.blobs ==>
                   d in PromoteFile(hash, disk, f).value.blobs
                   && PromoteFile(hash, disk, f).value.blobs[d] == disk.blobs[d]
  {
  }

  /** For any hash: what promotion leaves under a listed digest has that digest and size, and no blob is replaced. */
  lemma {:induction false} PromotedAreVerified(hash: Hash, disk: Disk, files: seq<CheckpointFile>)
    requires PromoteFiles(hash, disk, files).Ok?
    ensures var done := PromoteFiles(hash, disk, files).value.blobs;
            && (forall d :: d in disk.blobs ==> d in done && done[d] == disk.blobs[d])
            && (forall f :: f in files ==>
                  f.sha256 in done && |done[f.sha256]| == f.size && hash(done[f.sha256]) == f.sha256)
    decreases |files|
  {
    if files != [] {
      var next := PromoteFile(hash, disk, files[0]).value;
      assert files[0].sha256 in next.blobs && |next.blobs[files[0].sha256]| == files[0].size;
      assert hash(next.blobs[files[0].sha256]) == files[0].sha256;
      PromoteKeepsMap(hash, disk, files[0]);
      PromotedAreVerified(hash, next, files[1..]);
      assert files == [files[0]] + files[1..];
    }
  }

  lemma AllVerified(j: Job, blobs: map<string, seq<Byte>>)
    requires forall f :: f in j.m.files ==>
               f.sha256 in blobs && |blobs[f.sha256]| == f.size && j.hash(blobs[f.sha256]) == f.sha256
    ensures BlobsVerified(j, blobs)
  {
  }

  /** The state a single writer that is through leaves by marking its piece. */
  ghost function AfterMark(j: Job, r: Run, i: nat): Run
    requires i < |j.pieces|
  {
    Run(r.disk.(pieceMap := Marks(r.completed + {i})), map[], r.completed + {i},
        map p | p in r.bytes :: r.bytes[p] + BytesOf(j.pieces[i].segments, p))
  }

  lemma WriterDone(j: Job, r: Run, i: nat, payload: seq<Byte>)
    requires Sound(j, r) && i < |j.pieces| && r.writers == map[i := Writer(payload, |j.pieces[i].segments|, 0)]
    ensures Sound(j, AfterMark(j, r, i))
    ensures Readable(j.pieces[i].segments, r.disk.partials)
    ensures ReadSegments(j.pieces[i].segments, r.disk.partials) == payload
  {
    hide Sound;
    ReadBack(j, r, i);
    MarkedKeepsSound(j, r, i);
    assert map[i := r.writers[i]] - {i} == map[];
    assert Apply(j, r, Marked(i)) == AfterMark(j, r, i);
  }

  lemma NothingRead(segments: seq<Segment>, data: map<string, seq<Byte>>)
    ensures Readable(segments[..0], data) && ReadSegments(segments[..0], data) == []
  {
  }

  lemma OneMoreRead(segments: seq<Segment>, data: map<string, seq<Byte>>, n: nat)
    requires n < |segments| && Readable(segments[..n], data)
    ensures var s := segments[n];
            if s.path in data && s.offset + s.length <= |data[s.path]| then
              && Readable(segments[..n + 1], data)
              && ReadSegments(segments[..n + 1], data)
                 == ReadSegments(segments[..n], data) + data[s.path][s.offset..s.offset + s.length]
            else !Readable(segments, data)
  {
    var more := segments[..n + 1];
    assert more[..n] == segments[..n] && more == segments[..n] + [segments[n]];
    assert segments[n] in segments;
  }

  /** A single writer takes up a verified payload. */
  lemma WriterBegins(j: Job, r: Run, i: nat, payload: seq<Byte>)
    requires Sound(j, r) && r.writers == map[] && i < |j.pieces| && i !in r.completed
    requires |payload| == j.pieces[i].length && j.hash(payload) == j.pieces[i].sha256
    ensures Sound(j, Run(r.disk, map[i := Writer(payload, 0, 0)], r.completed, r.bytes))
  {
    hide Sound;
    FetchedKeepsSound(j, r, i, payload);
  }

  lemma NothingBefore(segments: seq<Segment>)
    ensures LengthSum(segments[..0]) == 0
  {
  }

  /**
   The first n files are prepared and the others untouched; the flag tells whether one of the first needed a reset.
   */
  ghost predicate PreparedFirst(j: Job, before: Disk, partials: map<string, seq<Byte>>, n: nat, resetMap: bool)
    requires n <= |j.m.files|
  {
    && (forall k :: 0 <= k < n ==> PreparedFile(before, partials, j.m.files[k]))
    && (forall k :: n <= k < |j.m.files| ==> SameEntry(partials, before.partials, j.m.files[k].path))
    && (resetMap <==> exists k :: 0 <= k < n && NeedsReset(j, before, j.m.files[k]))
  }

  lemma NothingPrepared(j: Job, before: Disk)
    ensures PreparedFirst(j, before, before.partials, 0, false)
  {
  }

  lemma OneMorePrepared(j: Job, before: Disk, cached: map<string, seq<Byte>>, partials: map<string, seq<Byte>>, n: nat,
                        resetMap: bool, reset: bool, partials': map<string, seq<Byte>>)
    requires ValidJob(j) && n < |j.m.files| && PreparedFirst(j, before, partials, n, resetMap)
    requires var f := j.m.files[n];
             && (f.path in cached <==> f.sha256 in before.blobs)
                && (f.path in cached ==> cached[f.path] == before.blobs[f.sha256])
             && (reset <==> f.path !in cached && f.path in partials && |partials[f.path]| != f.size)
             && partials' == partials[f.path := if f.path in cached then cached[f.path]
                                                else if f.path in partials && !reset then partials[f.path]
                                                else Zeros(f.size)]
    ensures PreparedFirst(j, before, partials', n + 1, resetMap || reset)
  {
    var f := j.m.files[n];
    assert SameEntry(partials, before.partials, f.path);
    forall k | 0 <= k < |j.m.files| && k != n ensures j.m.files[k].path != f.path {}
    assert PreparedFile(before, partials', f) && (reset <==> NeedsReset(j, before, f));
    forall k | 0 <= k < n ensures PreparedFile(before, partials', j.m.files[k]) {
      assert PreparedFile(before, partials, j.m.files[k]);
    }
    hide PreparedFile, NeedsReset;
    forall k | n + 1 <= k < |j.m.files| ensures SameEntry(partials', before.partials, j.m.files[k].path) {
      assert SameEntry(partials, before.partials, j.m.files[k].path);
    }
  }

  lemma AllPrepared(j: Job, before: Disk, partials: map<string, seq<Byte>>, resetMap: bool)
    requires ValidJob(j) && BlobsVerified(j, before.blobs) && PreparedFirst(j, before, partials, |j.m.files|, resetMap)
    ensures forall f :: f in j.m.files ==> PreparedFile(before, partials, f)
    ensures Sized(j.m.files, partials)
    ensures MapAfterPrepare(j, before) == if resetMap then Absent else before.pieceMap
  {
    forall f | f in j.m.files
      ensures PreparedFile(before, partials, f) && |partials[f.path]| == f.size
      ensures !resetMap ==> !NeedsReset(j, before, f)
    {
      var k :| 0 <= k < |j.m.files| && j.m.files[k] == f;
    }
  }

  ghost predicate SameEntry(a: map<string, seq<Byte>>, b: map<string, seq<Byte>>, path: string) {
    (path in a <==> path in b) && (path in a ==> a[path] == b[path])
  }

  /** The view is the part of the payload that segment n still has to receive. */
  ghost predicate ViewOf(piece: Piece, payload: seq<Byte>, n: nat, done: nat, view: seq<Byte>)
    requires n < |piece.segments|
  {
    var at := LengthSum(piece.segments[..n]) + done;
    at + |view| <= |payload| && view == payload[at..at + |view|]
  }

  lemma ViewSplit(piece: Piece, payload: seq<Byte>, n: nat, done: nat, view: seq<Byte>, written: nat)
    requires n < |piece.segments| && ViewOf(piece, payload, n, done, view) && written <= |view|
    ensures ViewOf(piece, payload, n, done, view[..written])
    ensures ViewOf(piece, payload, n, done + written, view[written..])
  {
  }

  /** What that step does, spelled out for a single writer. */
  ghost function AfterWrite(j: Job, r: Run, i: nat, payload: seq<Byte>, n: nat, done: nat, chunk: seq<Byte>): Run
    requires i < |j.pieces| && n < |j.pieces[i].segments|
    requires WritableAt(r.disk.partials, j.pieces[i].segments[n], done, chunk)
  {
    var s := j.pieces[i].segments[n];
    Run(r.disk.(partials := Put(r.disk.partials, s.path, s.offset + done, chunk)),
        map[i := if done + |chunk| == s.length then Writer(payload, n + 1, 0) else Writer(payload, n, done + |chunk|)],
        r.completed, r.bytes)
  }

  predicate WritableAt(partials: map<string, seq<Byte>>, s: Segment, done: nat, chunk: seq<Byte>) {
    s.path in partials && s.offset + done + |chunk| <= |partials[s.path]|
  }

  lemma WriteOnce(j: Job, r: Run, i: nat, payload: seq<Byte>, n: nat, done: nat, chunk: seq<Byte>)
    requires Sound(j, r) && r.writers == map[i := Writer(payload, n, done)]
    requires i < |j.pieces| && n < |j.pieces[i].segments|
    requires 0 < |chunk| <= j.pieces[i].segments[n].length - done
    requires ViewOf(j.pieces[i], payload, n, done, chunk)
    ensures WritableAt(r.disk.partials, j.pieces[i].segments[n], done, chunk)
    ensures Sound(j, AfterWrite(j, r, i, payload, n, done, chunk))
  {
    hide Sound;
    WriterCanStep(j, r, i, |chunk|);
    WroteKeepsSound(j, r, i, |chunk|);
    assert Apply(j, r, Wrote(i, |chunk|)) == AfterWrite(j, r, i, payload, n, done, chunk);
  }

  /** One segment: pwrite until the view is used up; each call may take any non-empty part of it. */
  method WriteSegment(j: Job, ghost r: Run, i: nat, payload: seq<Byte>, n: nat, cursor: nat,
                      partials0: map<string, seq<Byte>>)
    returns (partials: map<string, seq<Byte>>)
    requires Sound(j, r) && r.disk.partials == partials0 && r.writers == map[i := Writer(payload, n, 0)]
    requires i < |j.pieces| && n < |j.pieces[i].segments| && cursor == LengthSum(j.pieces[i].segments[..n])
    ensures Sound(j, Run(r.disk.(partials := partials), map[i := Writer(payload, n + 1, 0)], r.completed, r.bytes))
  {
    SegmentFits(j, i, n, partials0);
    WriterFits(j, r, i);
    ghost var after;
    partials, after :=
      WriteView(j, r, i, payload, n, payload[cursor..cursor + j.pieces[i].segments[n].length], partials0);
  }

  method WriteView(j: Job, ghost r: Run, i: nat, payload: seq<Byte>, n: nat, view0: seq<Byte>,
                   partials0: map<string, seq<Byte>>)
    returns (partials: map<string, seq<Byte>>, ghost now: Run)
    requires Sound(j, r) && r.disk.partials == partials0 && r.writers == map[i := Writer(payload, n, 0)]
    requires i < |j.pieces| && n < |j.pieces[i].segments| && |view0| == j.pieces[i].segments[n].length > 0
    requires ViewOf(j.pieces[i], payload, n, 0, view0)
    ensures Sound(j, now)
    ensures now == Run(r.disk.(partials := partials), map[i := Writer(payload, n + 1, 0)], r.completed, r.bytes)
  {
    hide Sound, ViewOf, LengthSum, Overwrite;
    partials, now := partials0, r;
    var s, view, done := j.pieces[i].segments[n], view0, 0;
    while view != []
      invariant done + |view| == s.length && ViewOf(j.pieces[i], payload, n, done, view)
      invariant Sound(j, now)
      invariant now.disk == r.disk.(partials := partials) && now.completed == r.completed && now.bytes == r.bytes
      invariant now.writers == map[i := if view == [] then Writer(payload, n + 1, 0) else Writer(payload, n, done)]
      decreases |view|
    {
      var written :| 0 < written <= |view|;
      ViewSplit(j.pieces[i], payload, n, done, view, written);
      WriteOnce(j, now, i, payload, n, done, view[..written]);
      now := AfterWrite(j, now, i, payload, n, done, view[..written]);
      partials := Put(partials, s.path, s.offset + done, view[..written]);
      view, done := view[written..], done + written;
    }
  }

  ghost predicate Counted(pieces: seq<Piece>, bytes: map<string, nat>, chosen: set<nat>) {
    forall p :: p in bytes ==> bytes[p] == ChosenBytes(pieces, chosen, p, |pieces|)
  }

  lemma NothingCounted(pieces: seq<Piece>, bytes: map<string, nat>)
    requires forall p :: p in bytes ==> bytes[p] == 0
    ensures Counted(pieces, bytes, {})
  {
    forall p | p in bytes ensures bytes[p] == ChosenBytes(pieces, {}, p, |pieces|) {
      NothingChosen(pieces, p, |pieces|);
    }
  }

  lemma CountOne(pieces: seq<Piece>, bytes: map<string, nat>, chosen: set<nat>, i: nat)
    requires Counted(pieces, bytes, chosen) && i < |pieces| && i !in chosen
    ensures Counted(pieces, map p | p in bytes :: bytes[p] + BytesOf(pieces[i].segments, p), chosen + {i})
  {
    forall p | p in bytes
      ensures bytes[p] + BytesOf(pieces[i].segments, p) == ChosenBytes(pieces, chosen + {i}, p, |pieces|)
    {
      ChosenBytesAdd(pieces, chosen, p, |pieces|, i);
    }
  }

  lemma {:induction false} NothingChosen(pieces: seq<Piece>, path: string, n: nat)
    requires n <= |pieces|
    ensures ChosenBytes(pieces, {}, path, n) == 0
  {
    if n > 0 { NothingChosen(pieces, path, n - 1); }
  }
}
