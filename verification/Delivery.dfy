/**
 What becomes of a delivered payload: from the moment it was fetched, through
 every interleaving of the workers, to the finished files; and that a run can
 always get there.  ai2apps/checkpoint_distribution.py.
 */
module Delivery {
  import opened Base
  import opened Pieces
  import opened Tiling
  import opened Download
  import opened Resume
  import Publishing

  /******* Completed pieces never change *******/

  lemma StepKeepsCompleted(j: Job, r: Run, e: Event, i: nat)
    requires Sound(j, r) && Enabled(j, r, e) && i in r.completed
    ensures i < |j.pieces| && i in Apply(j, r, e).completed && Sized(j.m.files, Apply(j, r, e).disk.partials)
    ensures Window(j, Apply(j, r, e).disk.partials, i) == Window(j, r.disk.partials, i)
  {
    hide Window, WriterSound, Genuine, CanWrite, WritePartials, Sized;
    if e.Wrote? {
      WriteKeepsOthers(j, e.piece, r.writers[e.piece], r.disk.partials, e.count, i);
    }
  }

  /** For any hash: once completed, a piece keeps its bytes through every interleaving. */
  lemma {:induction false} CompletedKeepsBytes(j: Job, r: Run, events: seq<Event>, r': Run, i: nat)
    requires Sound(j, r) && Executes(j, r, events, r') && i in r.completed
    ensures Sound(j, r') && i < |j.pieces| && i in r'.completed
    ensures Window(j, r'.disk.partials, i) == Window(j, r.disk.partials, i)
    decreases |events|
  {
    if events != [] {
      StepKeepsSound(j, r, events[0]);
      StepKeepsCompleted(j, r, events[0], i);
      hide Sound, Enabled, Apply, Window;
      CompletedKeepsBytes(j, Apply(j, r, events[0]), events[1..], r', i);
    }
  }

  /******* A payload is kept from its delivery on *******/

  /** The payload is on its way to the disk, or the completed piece consists of it. */
  ghost predicate Holds(j: Job, r: Run, i: nat, payload: seq<Byte>)
    requires Sound(j, r)
  {
    (i in r.writers && r.writers[i].payload == payload)
    || (i in r.completed && i < |j.pieces| && Window(j, r.disk.partials, i) == payload)
  }

  lemma StepKeepsPayload(j: Job, r: Run, e: Event, i: nat, payload: seq<Byte>)
    requires Sound(j, r) && Enabled(j, r, e) && Holds(j, r, i, payload)
    ensures Sound(j, Apply(j, r, e)) && Holds(j, Apply(j, r, e), i, payload)
  {
    hide ValidJob, Sized, BlobsVerified, WriterSound, Genuine, Window, CanWrite, WritePartials;
    StepKeepsSound(j, r, e);
    if i in r.completed && i < |j.pieces| && Window(j, r.disk.partials, i) == payload {
      StepKeepsCompleted(j, r, e, i);
    } else if e.Marked? && e.piece == i {
      ReadBack(j, r, i);
    }
  }

  lemma {:induction false} PayloadIsKept(j: Job, r: Run, events: seq<Event>, r': Run, i: nat, payload: seq<Byte>)
    requires Sound(j, r) && Executes(j, r, events, r') && Holds(j, r, i, payload)
    ensures Sound(j, r') && Holds(j, r', i, payload)
    decreases |events|
  {
    if events != [] {
      StepKeepsPayload(j, r, events[0], i, payload);
      hide Sound, Enabled, Apply, Holds;
      PayloadIsKept(j, Apply(j, r, events[0]), events[1..], r', i, payload);
    }
  }

  /** A piece fetched with a payload reads back that payload at every later state in which it is completed. */
  lemma FetchedReadsBack(j: Job, r: Run, i: nat, payload: seq<Byte>, events: seq<Event>, r': Run)
    requires Sound(j, r) && Enabled(j, r, Fetched(i, payload))
    requires Executes(j, Apply(j, r, Fetched(i, payload)), events, r') && i in r'.completed
    ensures Readable(j.pieces[i].segments, r'.disk.partials)
    ensures ReadSegments(j.pieces[i].segments, r'.disk.partials) == payload
  {
    StepKeepsSound(j, r, Fetched(i, payload));
    PayloadIsKept(j, Apply(j, r, Fetched(i, payload)), events, r', i, payload);
    CompletedReads(j, r', i);
  }

  /** Reading a completed piece's segments gives its window. */
  lemma CompletedReads(j: Job, r: Run, i: nat)
    requires Sound(j, r) && i in r.completed
    ensures i < |j.pieces| && i !in r.writers && Readable(j.pieces[i].segments, r.disk.partials)
    ensures ReadSegments(j.pieces[i].segments, r.disk.partials) == Window(j, r.disk.partials, i)
  {
    WindowIsRead(j, r.disk.partials, i);
  }

  /******* The finished stream is what was delivered *******/

  /** Where a piece's bytes come from: found completed, already being written, or fetched during the run. */
  ghost predicate Delivered(j: Job, r: Run, events: seq<Event>, i: nat, payload: seq<Byte>)
    requires Sound(j, r)
  {
    Holds(j, r, i, payload) || Fetched(i, payload) in events
  }

  /** Whatever was delivered for a piece is what the piece holds once it is completed. */
  lemma {:induction false} DeliveredIsHeld(j: Job, r: Run, events: seq<Event>, r': Run, i: nat, payload: seq<Byte>)
    requires Sound(j, r) && Executes(j, r, events, r') && Delivered(j, r, events, i, payload)
    ensures Sound(j, r') && Holds(j, r', i, payload)
    decreases |events|
  {
    if Holds(j, r, i, payload) {
      PayloadIsKept(j, r, events, r', i, payload);
    } else {
      StepKeepsSound(j, r, events[0]);
      DeliveredLater(j, r, events, i, payload);
      hide Sound, Enabled, Apply, Holds;
      DeliveredIsHeld(j, Apply(j, r, events[0]), events[1..], r', i, payload);
    }
  }

  /** What is not yet held is held or still to come after the next step. */
  lemma DeliveredLater(j: Job, r: Run, events: seq<Event>, i: nat, payload: seq<Byte>)
    requires Sound(j, r) && Delivered(j, r, events, i, payload) && !Holds(j, r, i, payload)
    requires events != [] && Enabled(j, r, events[0]) && Sound(j, Apply(j, r, events[0]))
    ensures Delivered(j, Apply(j, r, events[0]), events[1..], i, payload)
  {
    hide Sound, ValidJob;
    assert events == [events[0]] + events[1..];
  }

  /** Nothing is completed that was not delivered. */
  lemma {:induction false} CompletedWasDelivered(j: Job, r: Run, events: seq<Event>, r': Run, i: nat)
    returns (payload: seq<Byte>)
    requires Sound(j, r) && Executes(j, r, events, r') && i in r'.completed
    ensures Delivered(j, r, events, i, payload)
    decreases |events|
  {
    hide ValidJob, Sized, BlobsVerified, WriterSound, Genuine, Window, CanWrite, WritePartials;
    if i in r.completed {
      payload := Window(j, r.disk.partials, i);
    } else if i in r.writers {
      payload := r.writers[i].payload;
    } else {
      StepKeepsSound(j, r, events[0]);
      assert events == [events[0]] + events[1..];
      if events[0].Fetched? && events[0].piece == i {
        payload := events[0].payload;
      } else {
        payload := CompletedWasDelivered(j, Apply(j, r, events[0]), events[1..], r', i);
        NewlyHeld(j, r, events[0], i, payload);
      }
    }
  }

  /** A step that does not fetch a piece does not begin to hold it. */
  lemma NewlyHeld(j: Job, r: Run, e: Event, i: nat, payload: seq<Byte>)
    requires Sound(j, r) && Enabled(j, r, e) && Sound(j, Apply(j, r, e))
    requires i !in r.completed && i !in r.writers && !(e.Fetched? && e.piece == i)
    ensures !Holds(j, Apply(j, r, e), i, payload)
  {
    hide ValidJob, Sized, BlobsVerified, WriterSound, Genuine, Window, CanWrite, WritePartials;
  }

  function Join(payloads: seq<seq<Byte>>): seq<Byte> {
    if payloads == [] then [] else Join(payloads[..|payloads| - 1]) + payloads[|payloads| - 1]
  }

  lemma JoinNext(payloads: seq<seq<Byte>>, k: nat, stream: seq<Byte>, lo: nat, hi: nat)
    requires k < |payloads| && lo <= hi <= |stream|
    requires Join(payloads[..k]) == stream[..lo] && payloads[k] == stream[lo..hi]
    ensures Join(payloads[..k + 1]) == stream[..hi]
  {
    assert payloads[..k + 1][..k] == payloads[..k];
    assert stream[..lo] + stream[lo..hi] == stream[..hi];
  }

  lemma WindowOf(j: Job, data: map<string, seq<Byte>>, k: nat)
    requires ValidJob(j) && Sized(j.m.files, data) && Consecutive(j.m, j.pieces) && k < |j.pieces|
    ensures Boundary(j.m, j.pieces, k) <= Boundary(j.m, j.pieces, k + 1) <= |Stream(j.m.files, data)|
    ensures Window(j, data, k) == Stream(j.m.files, data)[Boundary(j.m, j.pieces, k)..Boundary(j.m, j.pieces, k + 1)]
  {
    hide Stream, TotalSize, Sized, Planned;
    WindowInside(j, data, k);
    assert Adjacent(j.m, j.pieces, k);
  }

  /** The stream is the concatenation of its pieces' windows. */
  lemma {:induction false} WindowsJoin(j: Job, data: map<string, seq<Byte>>, payloads: seq<seq<Byte>>, k: nat)
    requires ValidJob(j) && Sized(j.m.files, data) && |payloads| == |j.pieces| && k <= |j.pieces|
    requires Consecutive(j.m, j.pieces)
    requires forall i :: 0 <= i < |j.pieces| ==> payloads[i] == Window(j, data, i)
    ensures Boundary(j.m, j.pieces, k) <= |Stream(j.m.files, data)|
    ensures Join(payloads[..k]) == Stream(j.m.files, data)[..Boundary(j.m, j.pieces, k)]
  {
    if k == 0 {
      assert Boundary(j.m, j.pieces, 0) == 0;
    } else {
      hide Stream, Sized, Join, Window, ValidJob, Consecutive;
      WindowsJoin(j, data, payloads, k - 1);
      WindowOf(j, data, k - 1);
      JoinNext(payloads, k - 1, Stream(j.m.files, data), Boundary(j.m, j.pieces, k - 1), Boundary(j.m, j.pieces, k));
    }
  }

  /** When all pieces are completed, the files laid end to end are the delivered payloads one after the other. */
  lemma StreamIsDelivered(j: Job, r: Run, events: seq<Event>, r': Run, payloads: seq<seq<Byte>>)
    requires Sound(j, r) && Executes(j, r, events, r') && |payloads| == |j.pieces|
    requires forall i :: 0 <= i < |j.pieces| ==> i in r'.completed && Delivered(j, r, events, i, payloads[i])
    ensures Sized(j.m.files, r'.disk.partials) && Stream(j.m.files, r'.disk.partials) == Join(payloads)
  {
    hide Sized, Stream, Window, Join;
    EveryInterleavingIsSound(j, r, events, r');
    forall i | 0 <= i < |j.pieces| ensures payloads[i] == Window(j, r'.disk.partials, i) {
      DeliveredIsHeld(j, r, events, r', i, payloads[i]);
    }
    hide Sound, Executes, Delivered;
    PiecesConsecutive(j.m, j.pieces);
    WindowsJoin(j, r'.disk.partials, payloads, |j.pieces|);
    StreamLength(j.m.files, r'.disk.partials);
    assert payloads[..|j.pieces|] == payloads;
    var stream := Stream(j.m.files, r'.disk.partials);
    assert stream[..|stream|] == stream;
  }

  /******* A run can always finish *******/

  lemma {:induction false} ExecutesJoin(j: Job, r: Run, a: seq<Event>, r1: Run, b: seq<Event>, r2: Run)
    requires Executes(j, r, a, r1) && Executes(j, r1, b, r2)
    ensures Executes(j, r, a + b, r2)
    decreases |a|
  {
    hide Enabled, Apply;
    if a == [] {
      assert a + b == b;
    } else {
      ExecutesJoin(j, Apply(j, r, a[0]), a[1..], r1, b, r2);
      assert (a + b)[0] == a[0] && (a + b)[1..] == a[1..] + b;
    }
  }

  lemma ExecutesOne(j: Job, r: Run, e: Event)
    requires Enabled(j, r, e)
    ensures Executes(j, r, [e], Apply(j, r, e))
  {
    assert Executes(j, Apply(j, r, e), [], Apply(j, r, e));
  }

  /** The event a writer's own worker takes next: the rest of the current segment in one go, or the mark. */
  ghost function NextOf(j: Job, r: Run, i: nat): Event
    requires i in r.writers && i < |j.pieces| && r.writers[i].segment <= |j.pieces[i].segments|
  {
    var w := r.writers[i];
    if w.segment == |j.pieces[i].segments| then Marked(i)
    else Wrote(i, Max(0, j.pieces[i].segments[w.segment].length - w.done))
  }

  lemma NextIsEnabled(j: Job, r: Run, i: nat)
    requires Sound(j, r) && i in r.writers
    ensures i < |j.pieces| && r.writers[i].segment <= |j.pieces[i].segments| && Enabled(j, r, NextOf(j, r, i))
    ensures r.writers[i].segment < |j.pieces[i].segments| ==>
              && Apply(j, r, NextOf(j, r, i)).completed == r.completed && i in Apply(j, r, NextOf(j, r, i)).writers
              && Apply(j, r, NextOf(j, r, i)).writers[i].segment == r.writers[i].segment + 1
    ensures r.writers[i].segment == |j.pieces[i].segments| ==>
              Apply(j, r, NextOf(j, r, i)).completed == r.completed + {i}
  {
    WriterFits(j, r, i);
    if r.writers[i].segment < |j.pieces[i].segments| {
      WriterCanStep(j, r, i, j.pieces[i].segments[r.writers[i].segment].length - r.writers[i].done);
    }
  }

  /** A piece that is being written can be finished. */
  lemma {:induction false} WriterCanFinish(j: Job, r: Run, i: nat) returns (events: seq<Event>, r': Run)
    requires Sound(j, r) && i in r.writers && i < |j.pieces| && r.writers[i].segment <= |j.pieces[i].segments|
    ensures Executes(j, r, events, r') && Sound(j, r') && r'.completed == r.completed + {i}
    decreases |j.pieces[i].segments| - r.writers[i].segment
  {
    NextIsEnabled(j, r, i);
    StepKeepsSound(j, r, NextOf(j, r, i));
    var r1 := Apply(j, r, NextOf(j, r, i));
    ExecutesOne(j, r, NextOf(j, r, i));
    if r.writers[i].segment == |j.pieces[i].segments| {
      events, r' := [NextOf(j, r, i)], r1;
    } else {
      var rest;
      hide Sound, Enabled, Apply, NextOf, Executes;
      rest, r' := WriterCanFinish(j, r1, i);
      ExecutesJoin(j, r, [NextOf(j, r, i)], r1, rest, r');
      events := [NextOf(j, r, i)] + rest;
    }
  }

  /** So can any piece of an honest manifest. */
  lemma PieceCanFinish(j: Job, data: map<string, seq<Byte>>, r: Run, i: nat) returns (events: seq<Event>, r': Run)
    requires Honest(j, data) && Sound(j, r) && i < |j.pieces|
    ensures Executes(j, r, events, r') && Sound(j, r') && r'.completed == r.completed + {i}
  {
    if i in r.completed {
      events, r' := [], r;
    } else if i in r.writers {
      WriterFits(j, r, i);
      events, r' := WriterCanFinish(j, r, i);
    } else {
      var e := Fetched(i, Window(j, data, i));
      StepKeepsSound(j, r, e);
      ExecutesOne(j, r, e);
      WriterFits(j, Apply(j, r, e), i);
      var rest;
      rest, r' := WriterCanFinish(j, Apply(j, r, e), i);
      ExecutesJoin(j, r, [e], Apply(j, r, e), rest, r');
      events := [e] + rest;
    }
  }

  /** From every sound state of an honest manifest some execution completes all pieces, for any hash. */
  lemma {:induction false} AllPiecesCanFinish(j: Job, data: map<string, seq<Byte>>, r: Run, n: nat)
    returns (events: seq<Event>, r': Run)
    requires Honest(j, data) && Sound(j, r) && n <= |j.pieces|
    ensures Executes(j, r, events, r') && Sound(j, r') && forall i :: 0 <= i < n ==> i in r'.completed
  {
    hide Sound, Honest, Enabled, Apply;
    if n == 0 {
      events, r' := [], r;
    } else {
      var a, r1 := AllPiecesCanFinish(j, data, r, n - 1);
      var b;
      b, r' := PieceCanFinish(j, data, r1, n - 1);
      ExecutesJoin(j, r, a, r1, b, r');
      events := a + b;
    }
  }

  /**
   Whatever a crash left on disk, the next run of an honest manifest can finish, and then every file is
   promoted and holds the real bytes.
   */
  lemma DownloadCanFinish(j: Job, data: map<string, seq<Byte>>, before: Disk, r: Run)
    returns (events: seq<Event>, r': Run)
    requires Honest(j, data) && CollisionFree(j.hash) && Resumed(j, before, r)
    ensures Executes(j, r, events, r') && PromoteFiles(j.hash, r'.disk, j.m.files).Ok?
    ensures forall f :: f in j.m.files ==>
              && f.sha256 in PromoteFiles(j.hash, r'.disk, j.m.files).value.blobs
              && PromoteFiles(j.hash, r'.disk, j.m.files).value.blobs[f.sha256] == data[f.path]
  {
    hide Sound, Resumed, PromoteFiles, Executes;
    ResumedIsSound(j, before, r);
    events, r' := AllPiecesCanFinish(j, data, r, |j.pieces|);
    HonestRunPromotes(j, data, r');
  }

  /******* What is published is what is delivered *******/

  /** The job of downloading what was published for a list of files. */
  ghost function PublishedJob(hash: Hash, paths: seq<string>, data: map<string, seq<Byte>>, size: nat,
                              pieces: seq<Piece>): Job
    requires size > 0 && forall p :: p in paths ==> p in data
  {
    Job(Publishing.PublishedManifest(Publishing.Publish(hash, paths, data, size), size), pieces, hash)
  }

  /** What is published for distinct, non-empty files is an honest manifest of them. */
  lemma PublishedIsHonest(hash: Hash, paths: seq<string>, data: map<string, seq<Byte>>, size: nat, pieces: seq<Piece>)
    requires size > 0 && NoDuplicates(paths) && forall p :: p in paths ==> p in data && data[p] != []
    requires Planned(PublishedJob(hash, paths, data, size, pieces).m, pieces)
    ensures Honest(PublishedJob(hash, paths, data, size, pieces), data)
  {
    var j := PublishedJob(hash, paths, data, size, pieces);
    Publishing.PublishedIsAcceptable(hash, paths, data, size);
    Publishing.RowsDescribeStream(hash, paths, data);
    hide Planned, Acceptable, Sized;
    forall i | 0 <= i < |j.pieces| ensures j.pieces[i].sha256 == j.hash(Window(j, data, i)) {
      Publishing.PublisherAndDownloaderAgree(hash, paths, data, size, pieces, i);
      WindowIsRead(j, data, i);
    }
  }

  /**
   From the publisher's files to the downloader's: whatever a crash left on disk, a run that completes all pieces,
   in whatever interleaving, promotes for every published path its very bytes.
   */
  lemma PublishedIsDelivered(hash: Hash, paths: seq<string>, data: map<string, seq<Byte>>, size: nat,
                             pieces: seq<Piece>, before: Disk, r: Run, events: seq<Event>, r': Run, path: string)
    requires size > 0 && NoDuplicates(paths) && forall p :: p in paths ==> p in data && data[p] != []
    requires Planned(PublishedJob(hash, paths, data, size, pieces).m, pieces) && CollisionFree(hash) && path in paths
    requires Resumed(PublishedJob(hash, paths, data, size, pieces), before, r)
    requires Executes(PublishedJob(hash, paths, data, size, pieces), r, events, r')
    requires forall i :: 0 <= i < |pieces| ==> i in r'.completed
    ensures var promoted := PromoteFiles(hash, r'.disk, PublishedJob(hash, paths, data, size, pieces).m.files);
            && promoted.Ok? && hash(data[path]) in promoted.value.blobs
            && promoted.value.blobs[hash(data[path])] == data[path]
  {
    var j := PublishedJob(hash, paths, data, size, pieces);
    PublishedIsHonest(hash, paths, data, size, pieces);
    var f := RowOf(hash, paths, data, path);
    hide Resumed, Executes, PromoteFiles, Planned;
    DownloadAfterAnyCrash(j, data, before, r, events, r');
  }

  lemma RowOf(hash: Hash, paths: seq<string>, data: map<string, seq<Byte>>, path: string) returns (f: CheckpointFile)
    requires path in paths && forall p :: p in paths ==> p in data
    ensures f in Publishing.RowsOf(hash, paths, data) && f.path == path && f.sha256 == hash(data[path])
  {
    var i :| 0 <= i < |paths| && paths[i] == path;
    f := Publishing.RowsOf(hash, paths, data)[i];
  }
}
