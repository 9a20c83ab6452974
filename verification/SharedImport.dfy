/**
 What an import into the shared cache leaves behind: undisturbed, interleaved
 with other processes, and after an exception.  ai2apps/model_installer.py.
 */
module SharedImport {
  import opened Base
  import opened SharedCache
  import Proofs = SharedCacheProofs

  /** The blobs of the listed digests. */
  function BlobsOf(repo: string, digests: seq<string>): set<Blob> {
    set d | d in digests :: Blob(repo, d)
  }

  lemma StagedIsElsewhere(m: Model, unique: string)
    ensures Place(m.repo, StagedName(m.revision, unique)) != Home(m)
  {
    assert |StagedName(m.revision, unique)| > |m.revision|;
  }

  /******* Undisturbed *******/

  /** Filling a staged directory adds the blobs and links them. */
  lemma {:induction false} FillEffect(c: Cache, staged: Place, digests: seq<string>)
    requires staged in c.snapshots
    ensures var more := BlobsOf(staged.repo, digests);
            RunOps(c, FillOps(staged, digests))
            == c.(snapshots := c.snapshots[staged := c.snapshots[staged] + more], blobs := c.blobs + more)
    decreases |digests|
  {
    var more := BlobsOf(staged.repo, digests);
    if digests == [] {
      assert c.snapshots[staged] + more == c.snapshots[staged] && c.blobs + more == c.blobs;
      assert c.snapshots[staged := c.snapshots[staged]] == c.snapshots;
    } else {
      var b, ops := Blob(staged.repo, digests[0]), FillOps(staged, digests);
      var c1 := c.(snapshots := c.snapshots[staged := c.snapshots[staged] + {b}], blobs := c.blobs + {b});
      assert ops[1..][1..] == FillOps(staged, digests[1..]);
      assert RunOps(c, ops) == RunOps(c1, ops[1..][1..]) by {
        assert Effect(Effect(c, ops[0]), ops[1..][0]) == c1;
      }
      FillEffect(c1, staged, digests[1..]);
      assert more == {b} + BlobsOf(staged.repo, digests[1..]);
      assert c.snapshots[staged] + {b} + BlobsOf(staged.repo, digests[1..]) == c.snapshots[staged] + more;
    }
  }

  /** An import adds the listed blobs and a snapshot that links to exactly these, and nothing else. */
  lemma ImportEffect(c: Cache, m: Model, unique: string, digests: seq<string>)
    requires Home(m) !in c.snapshots && Place(m.repo, StagedName(m.revision, unique)) !in c.snapshots
    ensures var more := BlobsOf(m.repo, digests);
            RunOps(c, Program(c, Import(m, unique, digests)))
            == c.(snapshots := c.snapshots[Home(m) := more], blobs := c.blobs + more)
  {
    var staged := Place(m.repo, StagedName(m.revision, unique));
    StagedIsElsewhere(m, unique);
    var made := c.(snapshots := c.snapshots[staged := {}]);
    var fill, last := FillOps(staged, digests), PublishStaged(staged, Home(m));
    var ops := ImportOps(m, unique, digests);
    assert ops[1..] == fill + [last];
    FillEffect(made, staged, digests);
    Proofs.RunOpsJoin(made, fill, [last]);
    var filled := RunOps(made, fill);
    assert RunOps(filled, [last]) == Effect(filled, last);
    assert {} + BlobsOf(m.repo, digests) == BlobsOf(m.repo, digests);
    assert filled.snapshots[staged] == BlobsOf(m.repo, digests);
    assert filled.snapshots - {staged} == c.snapshots;
    assert Program(c, Import(m, unique, digests)) == ops;
    assert RunOps(c, ops) == RunOps(made, ops[1..]);
  }

  /******* After an exception *******/

  /** What an exception leaves to clean up. */
  function AfterFailure(c: Cache, ops: seq<FileOp>, k: nat): Cache
    requires k <= |ops|
  {
    RunOps(RunOps(c, ops[..k]), Cleanup(ops[k..]))
  }

  /** However far an import came before the exception, of it only blobs stay. */
  lemma FailedImport(c: Cache, m: Model, unique: string, digests: seq<string>, k: nat)
    requires Home(m) !in c.snapshots && Place(m.repo, StagedName(m.revision, unique)) !in c.snapshots
    requires k < |ImportOps(m, unique, digests)|
    ensures var c' := AfterFailure(c, ImportOps(m, unique, digests), k);
            c.blobs <= c'.blobs && c' == c.(blobs := c'.blobs)
  {
    var ops, staged := ImportOps(m, unique, digests), Place(m.repo, StagedName(m.revision, unique));
    if k > 0 {
      var fill := FillOps(staged, digests);
      var made := c.(snapshots := c.snapshots[staged := {}]);
      assert ops[1..] == fill + [PublishStaged(staged, Home(m))];
      assert ops[..k][1..] == fill[..k - 1] && ops[..k][0] == MakeStaged(staged);
      assert RunOps(c, ops[..k]) == RunOps(made, fill[..k - 1]);
      OnlyStagedChanges(made, staged, digests, k - 1);
      var c1 := RunOps(made, fill[..k - 1]);
      assert c1.snapshots - {staged} == c.snapshots;
      CleanupDrops(m, unique, digests, k);
      assert RunOps(c1, [DropStaged(staged)]) == Effect(c1, DropStaged(staged));
    } else {
      assert ops[..0] == [] && ops[0..] == ops;
    }
  }

  lemma CleanupDrops(m: Model, unique: string, digests: seq<string>, k: nat)
    requires 0 < k < |ImportOps(m, unique, digests)|
    ensures Cleanup(ImportOps(m, unique, digests)[k..]) == [DropStaged(Place(m.repo, StagedName(m.revision, unique)))]
  {
    var ops, staged := ImportOps(m, unique, digests), Place(m.repo, StagedName(m.revision, unique));
    assert ops[k..][|ops[k..]| - 1] == PublishStaged(staged, Home(m));
    if k < |ops| - 1 {
      FillOpsOnly(staged, digests, k - 1);
      assert ops[k..][0] == FillOps(staged, digests)[k - 1];
    }
  }

  lemma {:induction false} FillOpsOnly(staged: Place, digests: seq<string>, k: nat)
    requires k < |FillOps(staged, digests)|
    ensures var op := FillOps(staged, digests)[k];
            op.AddBlob? || (op.AddLink? && op.staged == staged && op.blob in BlobsOf(staged.repo, digests))
    decreases |digests|
  {
    if k >= 2 { FillOpsOnly(staged, digests[1..], k - 2); }
  }

  lemma {:induction false} OnlyStagedChanges(c: Cache, staged: Place, digests: seq<string>, k: nat)
    requires staged in c.snapshots && k <= |FillOps(staged, digests)|
    ensures var c' := RunOps(c, FillOps(staged, digests)[..k]);
            && staged in c'.snapshots && c.blobs <= c'.blobs
            && c' == c.(snapshots := c.snapshots[staged := c'.snapshots[staged]], blobs := c'.blobs)
    decreases k
  {
    var ops := FillOps(staged, digests);
    if k == 0 {
      assert c.snapshots[staged := c.snapshots[staged]] == c.snapshots;
    } else {
      OnlyStagedChanges(c, staged, digests, k - 1);
      FillOpsOnly(staged, digests, k - 1);
      assert ops[..k] == ops[..k - 1] + [ops[k - 1]];
      Proofs.RunOpsJoin(c, ops[..k - 1], [ops[k - 1]]);
      var c1 := RunOps(c, ops[..k - 1]);
      assert RunOps(c1, [ops[k - 1]]) == Effect(c1, ops[k - 1]);
    }
  }

  /** A publication that fails leaves no temporary file; its reference stays exactly when it was in place already. */
  lemma FailedPublication(c: Cache, p: Publication, k: nat)
    requires p.refTemp !in c.refTemps && p.markTemp !in c.markTemps && k < |PublishOps(p)|
    ensures AfterFailure(c, PublishOps(p), k) == c.(refs := if k < 2 then c.refs else c.refs + {p.ref})
  {
    var ops := PublishOps(p);
    var temps, marks := c.refTemps + {p.refTemp}, c.markTemps + {p.markTemp};
    assert temps - {p.refTemp} == c.refTemps && marks - {p.markTemp} == c.markTemps;
    if k == 0 {
      assert ops[..0] == [] && c.refs == c.refs;
    } else if k == 1 {
      assert ops[..1] == [WriteRefTemp(p.refTemp)] && ops[1..][0] == CommitRef(p.ref, p.refTemp);
      Two(c, ops[0], DropRefTemp(p.refTemp));
    } else if k == 2 {
      assert ops[..2] == [ops[0], ops[1]] && ops[2..][0] == WriteMarkTemp(p.markTemp);
      Two(c, ops[0], ops[1]);
    } else {
      assert ops[..3] == [ops[0], ops[1]] + [ops[2]] && ops[3..][0] == CommitMark(p.ref.model, p.markTemp);
      Two(c, ops[0], ops[1]);
      Proofs.RunOpsJoin(c, [ops[0], ops[1]], [ops[2]]);
      Two(RunOps(c, [ops[0], ops[1]]), ops[2], DropMarkTemp(p.markTemp));
    }
  }

  lemma Two(c: Cache, a: FileOp, b: FileOp)
    ensures RunOps(c, [a]) == Effect(c, a) && RunOps(c, [a, b]) == Effect(Effect(c, a), b)
    ensures RunOps(Effect(c, a), [b]) == Effect(Effect(c, a), b)
  {
    assert [a, b][1..] == [b];
    assert RunOps(c, [a, b]) == RunOps(Effect(c, a), [b]);
    assert [b][1..] == [] && [a][1..] == [];
  }

  /******* Among other processes *******/

  function StagedOf(m: Model, unique: string): Place {
    Place(m.repo, StagedName(m.revision, unique))
  }

  /** Commits' names all have one length, so a staged name tells what it was made from. */
  lemma StagedNamesDiffer(m: Model, u: string, m': Model, u': string)
    requires IsCommit(m.revision) && IsCommit(m'.revision) && StagedOf(m, u) == StagedOf(m', u')
    ensures m == m' && u == u'
  {
    var a, b := StagedName(m.revision, u), StagedName(m'.revision, u');
    assert a[1..41] == m.revision && b[1..41] == m'.revision;
    assert a[42..|a| - 8] == u && b[42..|b| - 8] == u';
  }

  /** The operation makes, fills, moves or drops the directory. */
  predicate Touches(op: FileOp, p: Place) {
    match op
    case MakeStaged(x) => x == p
    case AddLink(x, _) => x == p
    case PublishStaged(x, home) => x == p || home == p
    case DropStaged(x) => x == p
    case _ => false
  }

  /** Imports are of pinned commits. */
  predicate Pinned(l: Label) {
    l.Begin? && l.task.Import? ==> IsCommit(l.task.model.revision)
  }

  /** The staged directories a process is about were named when it began. */
  ghost predicate KnowsNames(w: World, q: string)
    requires q in w.running
  {
    forall op, m: Model, u :: op in w.running[q] && IsCommit(m.revision) && Touches(op, StagedOf(m, u)) ==> u in w.used
  }

  ghost predicate NamesKnown(w: World) {
    forall q :: q in w.running ==> KnowsNames(w, q)
  }

  lemma {:induction false} FillTouches(staged: Place, digests: seq<string>, op: FileOp, p: Place)
    requires op in FillOps(staged, digests) && Touches(op, p)
    ensures p == staged
  {
    if !(op in FillOps(staged, digests)[..2]) { FillTouches(staged, digests[1..], op, p); }
  }

  lemma {:induction false} PublicationsTouchNothing(ps: seq<Publication>, op: FileOp, p: Place)
    requires op in PublishAll(ps)
    ensures !Touches(op, p)
  {
    if op !in PublishOps(ps[0]) { PublicationsTouchNothing(ps[1..], op, p); }
  }

  lemma {:induction false} RemovalsTouchNothing(refs: seq<Ref>, op: FileOp, p: Place)
    requires op in RemoveAll(refs)
    ensures !Touches(op, p)
  {
    if op != UnlinkRef(refs[0]) { RemovalsTouchNothing(refs[1..], op, p); }
  }

  lemma ProgramTouches(c: Cache, t: Task, op: FileOp, m: Model, u: string)
    requires op in Program(c, t) && Touches(op, StagedOf(m, u)) && IsCommit(m.revision)
    requires t.Import? ==> IsCommit(t.model.revision)
    ensures u in NewNames(t)
  {
    match t {
      case Reconcile(_, _, publish, remove) =>
        if op in PublishAll(publish) {
          PublicationsTouchNothing(publish, op, StagedOf(m, u));
        } else {
          RemovalsTouchNothing(remove, op, StagedOf(m, u));
        }
      case Import(m', unique, digests) =>
        Proofs.StagedIsNoCommit(m.revision, u);
        if op in FillOps(StagedOf(m', unique), digests) {
          FillTouches(StagedOf(m', unique), digests, op, StagedOf(m, u));
        }
        StagedNamesDiffer(m, u, m', unique);
      case _ =>
    }
  }

  lemma CleanupTouches(ops: seq<FileOp>, op: FileOp, p: Place)
    requires op in Cleanup(ops) && Touches(op, p)
    ensures exists other :: other in ops && Touches(other, p)
  {
    var last := ops[|ops| - 1];
    assert last in ops && Touches(last, p);
  }

  /** A step adds to a process's program only what its own task is about. */
  lemma StepTouches(w: World, l: Label, q: string, op: FileOp, m: Model, u: string)
    requires Enabled(w, l) && Pinned(l) && IsCommit(m.revision)
    requires q in Next(w, l).running && op in Next(w, l).running[q] && Touches(op, StagedOf(m, u))
    ensures (q in w.running && exists other :: other in w.running[q] && Touches(other, StagedOf(m, u)))
            || (l.Begin? && l.process == q && u in NewNames(l.task))
  {
    hide Touches;
    if l.Begin? && l.process == q {
      ProgramTouches(w.cache, l.task, op, m, u);
    } else if l.Fail? && l.process == q {
      CleanupTouches(w.running[q], op, StagedOf(m, u));
    } else {
      assert op in w.running[q];
    }
  }

  lemma StepKnowsNames(w: World, l: Label)
    requires Enabled(w, l) && Pinned(l) && NamesKnown(w)
    ensures NamesKnown(Next(w, l)) && w.used <= Next(w, l).used
  {
    UsedGrows(w, l);
    forall q | q in Next(w, l).running ensures KnowsNames(Next(w, l), q) {
      forall op, m: Model, u | op in Next(w, l).running[q] && IsCommit(m.revision) && Touches(op, StagedOf(m, u))
        ensures u in Next(w, l).used
      {
        StepTouches(w, l, q, op, m, u);
        hide Enabled, Next, Touches;
        if q in w.running { assert KnowsNames(w, q); }
      }
    }
  }

  lemma UsedGrows(w: World, l: Label)
    requires Enabled(w, l)
    ensures w.used <= Next(w, l).used && (l.Begin? ==> NewNames(l.task) <= Next(w, l).used)
  {
  }

  /** Nobody else is about the directory. */
  ghost predicate Alone(w: World, q: string, p: Place) {
    forall q', op :: q' in w.running && q' != q && op in w.running[q'] ==> !Touches(op, p)
  }

  lemma StaysAlone(w: World, l: Label, q: string, m: Model, u: string)
    requires Enabled(w, l) && Pinned(l) && IsCommit(m.revision) && u in w.used && Alone(w, q, StagedOf(m, u))
    requires !(l.Begin? && l.process == q)
    ensures Alone(Next(w, l), q, StagedOf(m, u))
  {
    forall q', op | q' in Next(w, l).running && q' != q && op in Next(w, l).running[q']
      ensures !Touches(op, StagedOf(m, u))
    {
      if Touches(op, StagedOf(m, u)) {
        StepTouches(w, l, q', op, m, u);
        assert false;
      }
    }
  }

  function Linked(ops: seq<FileOp>): set<Blob> {
    set op | op in ops && op.AddLink? :: op.blob
  }

  /** Where an import has come to: the operations it has left, and what its directory holds. */
  ghost predicate Importing(w: World, q: string, m: Model, unique: string, digests: seq<string>, k: nat) {
    var ops, staged := ImportOps(m, unique, digests), StagedOf(m, unique);
    && q in w.running && k <= |ops| && w.running[q] == ops[k..]
    && (k == 0 || k == |ops| ==> staged !in w.cache.snapshots)
    && (0 < k < |ops| ==> staged in w.cache.snapshots && w.cache.snapshots[staged] == Linked(ops[..k]))
    && (k == |ops| ==> Home(m) in w.cache.snapshots)
  }

  lemma {:induction false} AllLinked(staged: Place, digests: seq<string>)
    ensures Linked(FillOps(staged, digests)) == BlobsOf(staged.repo, digests)
  {
    if digests != [] {
      var b := Blob(staged.repo, digests[0]);
      AllLinked(staged, digests[1..]);
      LinkedJoin([AddBlob(b), AddLink(staged, b)], FillOps(staged, digests[1..]));
      LinkedJoin([AddBlob(b)], [AddLink(staged, b)]);
      assert [AddBlob(b)] + [AddLink(staged, b)] == [AddBlob(b), AddLink(staged, b)];
      LinkedOne(AddBlob(b));
      LinkedOne(AddLink(staged, b));
    }
  }

  lemma LinkedJoin(a: seq<FileOp>, b: seq<FileOp>)
    ensures Linked(a + b) == Linked(a) + Linked(b)
  {
  }

  lemma LinkedOne(op: FileOp)
    ensures Linked([op]) == if op.AddLink? then {op.blob} else {}
  {
    assert op in [op];
  }

  /** What stands at each place of an import. */
  lemma ImportOpAt(m: Model, unique: string, digests: seq<string>, k: nat)
    requires k < |ImportOps(m, unique, digests)|
    ensures var ops := ImportOps(m, unique, digests);
            && (k == 0 ==> ops[k] == MakeStaged(StagedOf(m, unique)))
            && (0 < k < |ops| - 1 ==> ops[k].AddBlob? || (ops[k].AddLink? && ops[k].staged == StagedOf(m, unique)))
            && (k == |ops| - 1 ==> ops[k] == PublishStaged(StagedOf(m, unique), Home(m)))
            && |ops| >= 2
  {
    var ops, staged := ImportOps(m, unique, digests), StagedOf(m, unique);
    if 0 < k < |ops| - 1 {
      FillOpsOnly(staged, digests, k - 1);
      assert ops[k] == FillOps(staged, digests)[k - 1];
    }
  }

  /** Its own next operation. */
  lemma OwnStep(w: World, q: string, m: Model, unique: string, digests: seq<string>, k: nat)
    requires Importing(w, q, m, unique, digests, k) && k < |ImportOps(m, unique, digests)|
    ensures Enabled(w, Do(q, ImportOps(m, unique, digests)[k]))
    ensures Importing(Next(w, Do(q, ImportOps(m, unique, digests)[k])), q, m, unique, digests, k + 1)
  {
    var ops, staged := ImportOps(m, unique, digests), StagedOf(m, unique);
    ImportOpAt(m, unique, digests, k);
    StagedIsElsewhere(m, unique);
    hide ImportOps;
    assert ops[k..][0] == ops[k] && ops[k..][1..] == ops[k + 1..];
    assert ops[..k + 1] == ops[..k] + [ops[k]];
    LinkedJoin(ops[..k], [ops[k]]);
    LinkedOne(ops[k]);
    if k == 0 { assert ops[..0] == [] && Linked([]) == {}; }
  }

  /** A step of others leaves its directory and what it has published. */
  lemma OthersStep(w: World, l: Label, q: string, m: Model, unique: string, digests: seq<string>, k: nat)
    requires Proofs.Inv(w) && Enabled(w, l) && Importing(w, q, m, unique, digests, k) && IsCommit(m.revision)
    requires Alone(w, q, StagedOf(m, unique)) && !(l.Do? && l.process == q)
    requires !((l.Fail? || l.Leave?) && l.process == q)
    ensures Importing(Next(w, l), q, m, unique, digests, k)
  {
    var staged := StagedOf(m, unique);
    NotCollecting(w, l, q);
    if k == |ImportOps(m, unique, digests)| { Proofs.OnlyUnreferencedIsCollected(w, l, Home(m)); }
    hide Proofs.Inv, ImportOps, Linked;
    if l.Do? {
      assert l.op in w.running[l.process] && !Touches(l.op, staged);
      Untouched(w.cache, l.op, staged);
    }
  }

  lemma NotCollecting(w: World, l: Label, q: string)
    requires Proofs.Inv(w) && Enabled(w, l) && q in w.running
    ensures l.Begin? || l.Do? || l.Fail? || l.Leave?
  {
  }

  lemma Untouched(c: Cache, op: FileOp, p: Place)
    requires !Touches(op, p)
    ensures p in Effect(c, op).snapshots <==> p in c.snapshots
    ensures p in c.snapshots ==> Effect(c, op).snapshots[p] == c.snapshots[p]
  {
  }

  /** The run leaves the process to itself, and its imports are of pinned commits. */
  predicate LeavesImport(l: Label, q: string) {
    Pinned(l) && !((l.Fail? || l.Leave?) && l.process == q)
  }

  lemma {:induction false} ImportGoesOn(w: World, q: string, m: Model, unique: string, digests: seq<string>, k: nat,
                                        run: seq<Label>)
    returns (k': nat)
    requires Proofs.Inv(w) && Runs(w, run) && Importing(w, q, m, unique, digests, k) && IsCommit(m.revision)
    requires Alone(w, q, StagedOf(m, unique)) && unique in w.used && forall l :: l in run ==> LeavesImport(l, q)
    ensures Importing(After(w, run), q, m, unique, digests, k')
    decreases |run|
  {
    k' := k;
    if run != [] {
      var l := run[0];
      assert LeavesImport(l, q);
      Proofs.StepKeeps(w, l);
      StaysAlone(w, l, q, m, unique);
      UsedGrows(w, l);
      var next := OneStep(w, l, q, m, unique, digests, k);
      forall l | l in run[1..] ensures LeavesImport(l, q) { assert l in run; }
      hide Proofs.Inv, Alone, Importing, Enabled, Next;
      k' := ImportGoesOn(Next(w, l), q, m, unique, digests, next, run[1..]);
    }
  }

  lemma OneStep(w: World, l: Label, q: string, m: Model, unique: string, digests: seq<string>, k: nat)
    returns (next: nat)
    requires Proofs.Inv(w) && Enabled(w, l) && Importing(w, q, m, unique, digests, k) && IsCommit(m.revision)
    requires Alone(w, q, StagedOf(m, unique)) && LeavesImport(l, q)
    ensures Importing(Next(w, l), q, m, unique, digests, next)
  {
    if l.Do? && l.process == q {
      next := k + 1;
      OwnStep(w, q, m, unique, digests, k);
    } else {
      next := k;
      OthersStep(w, l, q, m, unique, digests, k);
    }
  }

  /**
   Whatever other processes do in between, an import of a model that is not there publishes a directory that links
   to exactly the listed blobs, and once it is through the model's snapshot is there and its directory is not.
   */
  lemma ImportAmongOthers(w: World, q: string, m: Model, unique: string, digests: seq<string>, run: seq<Label>)
    requires Proofs.Inv(w) && NamesKnown(w) && IsCommit(m.revision) && Home(m) !in w.cache.snapshots
    requires Enabled(w, Begin(q, Import(m, unique, digests)))
    requires Runs(Next(w, Begin(q, Import(m, unique, digests))), run) && forall l :: l in run ==> LeavesImport(l, q)
    ensures var w' := After(Next(w, Begin(q, Import(m, unique, digests))), run);
            && q in w'.running
            && (|w'.running[q]| == 1 ==>
                  && w'.running[q] == [PublishStaged(StagedOf(m, unique), Home(m))]
                  && StagedOf(m, unique) in w'.cache.snapshots
                  && w'.cache.snapshots[StagedOf(m, unique)] == BlobsOf(m.repo, digests))
            && (w'.running[q] == [] ==>
                  Home(m) in w'.cache.snapshots && StagedOf(m, unique) !in w'.cache.snapshots)
  {
    var begin, ops := Begin(q, Import(m, unique, digests)), ImportOps(m, unique, digests);
    var w1 := Next(w, begin);
    Proofs.StepKeeps(w, begin);
    BeginsAlone(w, q, m, unique, digests);
    assert Importing(w1, q, m, unique, digests, 0) by { assert ops[0..] == ops; }
    var k := ImportGoesOn(w1, q, m, unique, digests, 0, run);
    var fill := FillOps(StagedOf(m, unique), digests);
    if k == |ops| - 1 {
      assert ops[..k] == [MakeStaged(StagedOf(m, unique))] + fill;
      LinkedJoin([MakeStaged(StagedOf(m, unique))], fill);
      LinkedOne(MakeStaged(StagedOf(m, unique)));
      AllLinked(StagedOf(m, unique), digests);
    }
  }

  lemma BeginsAlone(w: World, q: string, m: Model, unique: string, digests: seq<string>)
    requires NamesKnown(w) && IsCommit(m.revision) && Enabled(w, Begin(q, Import(m, unique, digests)))
    ensures Alone(Next(w, Begin(q, Import(m, unique, digests))), q, StagedOf(m, unique))
    ensures unique in Next(w, Begin(q, Import(m, unique, digests))).used
  {
    hide Program;
    forall q', op | q' in w.running && op in w.running[q'] ensures !Touches(op, StagedOf(m, unique)) {
      assert KnowsNames(w, q');
    }
  }

  /** In every state reached from one without processes the names are known. */
  lemma {:induction false} EveryRunKnowsNames(w: World, run: seq<Label>)
    requires NamesKnown(w) && Runs(w, run) && forall l :: l in run ==> Pinned(l)
    ensures NamesKnown(After(w, run))
    decreases |run|
  {
    if run != [] {
      assert Pinned(run[0]);
      StepKnowsNames(w, run[0]);
      forall l | l in run[1..] ensures Pinned(l) { assert l in run; }
      hide NamesKnown, Enabled, Next, Pinned;
      EveryRunKnowsNames(Next(w, run[0]), run[1..]);
    }
  }
}
