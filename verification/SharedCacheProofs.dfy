/** What every run of the shared cache keeps, with a crash possible between any two file operations. */
module SharedCacheProofs {
  import opened Base
  import opened SharedCache

  /******* The invariant *******/

  /** Every snapshot with a commit's name still has all its linked blobs. */
  ghost predicate Complete(c: Cache) {
    forall p :: p in c.snapshots && IsCommit(p.name) ==> c.snapshots[p] <= c.blobs
  }

  /** A program links only blobs that are there or that it adds first. */
  predicate FilledSafely(have: set<Blob>, ops: seq<FileOp>)
    decreases |ops|
  {
    ops == [] || (match ops[0]
      case AddBlob(b) => FilledSafely(have + {b}, ops[1..])
      case AddLink(_, b) => b in have && FilledSafely(have, ops[1..])
      case _ => FilledSafely(have, ops[1..]))
  }

  /** A program marks only models that are known or that it references first. */
  predicate MarkedSafely(known: set<Model>, ops: seq<FileOp>)
    decreases |ops|
  {
    ops == [] || (match ops[0]
      case CommitRef(r, _) => MarkedSafely(known + {r.model}, ops[1..])
      case CommitMark(m, _) => m in known && MarkedSafely(known, ops[1..])
      case _ => MarkedSafely(known, ops[1..]))
  }

  /** A program makes, fills and drops only staged directories, never one with a commit's name. */
  predicate Staged(op: FileOp) {
    match op
    case MakeStaged(p) => !IsCommit(p.name)
    case AddLink(p, _) => !IsCommit(p.name)
    case PublishStaged(p, _) => !IsCommit(p.name)
    case DropStaged(p) => !IsCommit(p.name)
    case _ => true
  }

  predicate AllStaged(ops: seq<FileOp>) {
    forall op :: op in ops ==> Staged(op)
  }

  /** What a running program will publish is complete already. */
  ghost predicate StagedComplete(c: Cache, ops: seq<FileOp>) {
    forall op :: op in ops && op.PublishStaged? && op.staged in c.snapshots ==> c.snapshots[op.staged] <= c.blobs
  }

  /** Models that are referenced, or were once unlinked or explicitly marked. */
  function Known(w: World): set<Model> {
    (set r | r in w.cache.refs :: r.model) + w.unlinked + w.marked
  }

  ghost predicate ProgramOk(w: World, ops: seq<FileOp>) {
    FilledSafely(w.cache.blobs, ops) && MarkedSafely(Known(w), ops) && AllStaged(ops) && StagedComplete(w.cache, ops)
  }

  ghost predicate CollectionOk(c: Cache, col: Collection) {
    && (forall p :: p in col.places ==> IsCommit(p.name) && p !in Protected(c) && p in ManagedPlaces(c))
    && (forall p :: p in c.snapshots && IsCommit(p.name) && p !in col.places ==> c.snapshots[p] !! col.blobs)
  }

  ghost predicate Inv(w: World) {
    && Complete(w.cache)
    && (forall q :: q in w.running ==> ProgramOk(w, w.running[q]))
    && (w.collector.Some? ==> w.running == map[] && CollectionOk(w.cache, w.collector.value))
    && w.cache.managed <= Known(w)
  }

  /******* Programs *******/

  lemma {:induction false} FillIsSafe(have: set<Blob>, staged: Place, digests: seq<string>, last: FileOp)
    requires last.PublishStaged?
    ensures FilledSafely(have, FillOps(staged, digests) + [last])
    decreases |digests|
  {
    var ops := FillOps(staged, digests) + [last];
    if digests == [] {
      assert ops == [last];
    } else {
      var b := Blob(staged.repo, digests[0]);
      var rest := FillOps(staged, digests[1..]) + [last];
      FillIsSafe(have + {b}, staged, digests[1..], last);
      assert ops == [AddBlob(b), AddLink(staged, b)] + rest;
      assert ops[1..] == [AddLink(staged, b)] + rest && ops[1..][1..] == rest;
    }
  }

  lemma {:induction false} FillStages(staged: Place, digests: seq<string>)
    requires !IsCommit(staged.name)
    ensures AllStaged(FillOps(staged, digests))
    ensures forall op :: op in FillOps(staged, digests) ==> !op.PublishStaged? && !op.CommitMark?
  {
    if digests != [] { FillStages(staged, digests[1..]); }
  }

  lemma StagedIsNoCommit(revision: string, unique: string)
    ensures !IsCommit(StagedName(revision, unique))
  {
    assert StagedName(revision, unique)[0] == '.';
  }

  /** Without marks there is nothing to back. */
  lemma {:induction false} NoMarks(known: set<Model>, ops: seq<FileOp>)
    requires forall op :: op in ops ==> !op.CommitMark?
    ensures MarkedSafely(known, ops)
    decreases |ops|
  {
    if ops != [] {
      forall op | op in ops[1..] ensures !op.CommitMark? { assert op in ops; }
      NoMarks(known + (if ops[0].CommitRef? then {ops[0].ref.model} else {}), ops[1..]);
      if !ops[0].CommitRef? { assert known + {} == known; }
    }
  }

  /** Without links there is nothing to fill. */
  lemma {:induction false} NoLinks(have: set<Blob>, ops: seq<FileOp>)
    requires forall op :: op in ops ==> !op.AddLink?
    ensures FilledSafely(have, ops)
    decreases |ops|
  {
    if ops != [] {
      forall op | op in ops[1..] ensures !op.AddLink? { assert op in ops; }
      NoLinks(have + (if ops[0].AddBlob? then {ops[0].blob} else {}), ops[1..]);
      if !ops[0].AddBlob? { assert have + {} == have; }
    }
  }

  lemma {:induction false} RemovesOnly(refs: seq<Ref>)
    ensures forall op :: op in RemoveAll(refs) ==> op.UnlinkRef?
  {
    if refs != [] { RemovesOnly(refs[1..]); }
  }

  lemma {:induction false} PublishesOnly(ps: seq<Publication>)
    ensures forall op :: op in PublishAll(ps) ==>
              op.WriteRefTemp? || op.CommitRef? || op.WriteMarkTemp? || op.CommitMark?
  {
    if ps != [] { PublishesOnly(ps[1..]); }
  }

  /** Every publication marks a model only after its reference, whatever follows. */
  lemma {:induction false} PublicationsMarkSafely(known: set<Model>, ps: seq<Publication>, rest: seq<FileOp>)
    requires forall op :: op in rest ==> !op.CommitMark?
    ensures MarkedSafely(known, PublishAll(ps) + rest)
    decreases |ps|
  {
    var ops := PublishAll(ps) + rest;
    if ps == [] {
      assert ops == rest;
      NoMarks(known, rest);
    } else {
      var p := ps[0];
      var more := PublishAll(ps[1..]) + rest;
      assert ops == PublishOps(p) + more;
      PublicationsMarkSafely(known + {p.ref.model}, ps[1..], rest);
      OnePublication(known, p, more);
    }
  }

  lemma OnePublication(known: set<Model>, p: Publication, more: seq<FileOp>)
    requires MarkedSafely(known + {p.ref.model}, more)
    ensures MarkedSafely(known, PublishOps(p) + more)
  {
    var ops := PublishOps(p) + more;
    assert ops[1..][1..][1..][1..] == more;
    assert ops[0] == WriteRefTemp(p.refTemp) && ops[1..][0] == CommitRef(p.ref, p.refTemp);
    assert ops[1..][1..][0] == WriteMarkTemp(p.markTemp)
           && ops[1..][1..][1..][0] == CommitMark(p.ref.model, p.markTemp);
    assert MarkedSafely(known + {p.ref.model}, ops[1..][1..][1..]);
    assert MarkedSafely(known + {p.ref.model}, ops[1..][1..]);
    assert MarkedSafely(known, ops[1..]);
  }

  lemma ImportIsOk(w: World, m: Model, unique: string, digests: seq<string>)
    requires Place(m.repo, StagedName(m.revision, unique)) !in w.cache.snapshots
    ensures ProgramOk(w, ImportOps(m, unique, digests))
  {
    var staged := Place(m.repo, StagedName(m.revision, unique));
    var fill := FillOps(staged, digests);
    var last := PublishStaged(staged, Home(m));
    var ops := ImportOps(m, unique, digests);
    assert ops == [MakeStaged(staged)] + (fill + [last]);
    StagedIsNoCommit(m.revision, unique);
    FillStages(staged, digests);
    FillIsSafe(w.cache.blobs, staged, digests, last);
    NoMarks(Known(w), ops);
  }

  lemma PublishIsOk(w: World, p: Publication)
    ensures ProgramOk(w, PublishOps(p))
  {
    PublicationsMarkSafely(Known(w), [p], []);
    assert PublishAll([p]) + [] == PublishOps(p);
    NoLinks(w.cache.blobs, PublishOps(p));
  }

  lemma ReconcileIsOk(w: World, publish: seq<Publication>, remove: seq<Ref>)
    ensures ProgramOk(w, PublishAll(publish) + RemoveAll(remove))
  {
    RemovesOnly(remove);
    PublishesOnly(publish);
    PublicationsMarkSafely(Known(w), publish, RemoveAll(remove));
    NoLinks(w.cache.blobs, PublishAll(publish) + RemoveAll(remove));
  }

  lemma TaskIsOk(w: World, t: Task)
    requires WellFormed(w.cache, t) && (t.Mark? ==> t.model in w.marked)
    ensures ProgramOk(w, Program(w.cache, t))
  {
    match t {
      case Publish(p) => PublishIsOk(w, p);
      case Remove(r) =>
      case Mark(m, temp) => MarkIsSafe(w, m, temp);
      case Import(m, unique, digests) =>
        if Home(m) !in w.cache.snapshots { ImportIsOk(w, m, unique, digests); }
      case Reconcile(_, _, publish, remove) => ReconcileIsOk(w, publish, remove);
    }
  }

  lemma MarkIsSafe(w: World, m: Model, temp: string)
    requires m in w.marked
    ensures ProgramOk(w, [WriteMarkTemp(temp), CommitMark(m, temp)])
  {
    var ops := [WriteMarkTemp(temp), CommitMark(m, temp)];
    assert ops[1..] == [CommitMark(m, temp)];
    NoLinks(w.cache.blobs, ops);
  }

  /******* Steps *******/

  lemma {:induction false} FilledMonotone(have: set<Blob>, more: set<Blob>, ops: seq<FileOp>)
    requires FilledSafely(have, ops) && have <= more
    ensures FilledSafely(more, ops)
    decreases |ops|
  {
    if ops != [] {
      match ops[0] {
        case AddBlob(b) => FilledMonotone(have + {b}, more + {b}, ops[1..]);
        case _ => FilledMonotone(have, more, ops[1..]);
      }
    }
  }

  lemma {:induction false} MarkedMonotone(known: set<Model>, more: set<Model>, ops: seq<FileOp>)
    requires MarkedSafely(known, ops) && known <= more
    ensures MarkedSafely(more, ops)
    decreases |ops|
  {
    if ops != [] {
      match ops[0] {
        case CommitRef(r, _) => MarkedMonotone(known + {r.model}, more + {r.model}, ops[1..]);
        case _ => MarkedMonotone(known, more, ops[1..]);
      }
    }
  }

  /** A safe head operation, taken by whichever process, keeps everybody's snapshots complete. */
  lemma EffectKeepsComplete(c: Cache, op: FileOp)
    requires Complete(c) && Staged(op) && (op.AddLink? ==> op.blob in c.blobs) && StagedComplete(c, [op])
    ensures Complete(Effect(c, op)) && c.blobs <= Effect(c, op).blobs
  {
    assert op in [op];
  }

  lemma EffectKeepsStaged(c: Cache, op: FileOp, ops: seq<FileOp>)
    requires StagedComplete(c, ops) && (op.AddLink? ==> op.blob in c.blobs) && StagedComplete(c, [op])
    ensures StagedComplete(Effect(c, op), ops)
  {
    assert op in [op];
  }

  lemma KnownGrows(w: World, op: FileOp)
    ensures var unlinked := if op.UnlinkRef? then w.unlinked + {op.ref.model} else w.unlinked;
            Known(w) <= Known(w.(cache := Effect(w.cache, op), unlinked := unlinked))
    ensures op.CommitRef? ==> op.ref.model in Known(w.(cache := Effect(w.cache, op)))
  {
    var w' := w.(cache := Effect(w.cache, op),
                 unlinked := if op.UnlinkRef? then w.unlinked + {op.ref.model} else w.unlinked);
    forall m | m in Known(w) ensures m in Known(w') {
      if r :| r in w.cache.refs && r.model == m {
        if r !in w'.cache.refs { assert op == UnlinkRef(r); }
      }
    }
    if op.CommitRef? { assert op.ref in w'.cache.refs; }
  }

  /** A program's head is safe to take, and its rest stays acceptable afterwards. */
  lemma HeadIsSafe(w: World, ops: seq<FileOp>)
    requires ProgramOk(w, ops) && ops != []
    ensures Staged(ops[0]) && (ops[0].AddLink? ==> ops[0].blob in w.cache.blobs) && StagedComplete(w.cache, [ops[0]])
    ensures ops[0].CommitMark? ==> ops[0].model in Known(w)
    ensures FilledSafely(Effect(w.cache, ops[0]).blobs, ops[1..])
    ensures MarkedSafely(if ops[0].CommitRef? then Known(w) + {ops[0].ref.model} else Known(w), ops[1..])
    ensures AllStaged(ops[1..]) && StagedComplete(w.cache, ops[1..])
  {
    assert ops[0] in ops;
    forall op | op in ops[1..] ensures op in ops {}
  }

  lemma DoKeepsProgram(w: World, w': World, op: FileOp, ops: seq<FileOp>)
    requires FilledSafely(w'.cache.blobs, ops) && MarkedSafely(Known(w'), ops) && AllStaged(ops)
             && StagedComplete(w.cache, ops)
    requires w'.cache == Effect(w.cache, op) && (op.AddLink? ==> op.blob in w.cache.blobs)
             && StagedComplete(w.cache, [op])
    ensures ProgramOk(w', ops)
  {
    EffectKeepsStaged(w.cache, op, ops);
  }

  lemma DoKeeps(w: World, p: string, op: FileOp)
    requires Inv(w) && Enabled(w, Do(p, op))
    ensures Inv(Next(w, Do(p, op)))
  {
    var w' := Next(w, Do(p, op));
    HeadIsSafe(w, w.running[p]);
    EffectKeepsComplete(w.cache, op);
    KnownGrows(w, op);
    assert Known(w) <= Known(w');
    forall q | q in w'.running ensures ProgramOk(w', w'.running[q]) {
      if q == p {
        MarkedMonotone(if op.CommitRef? then Known(w) + {op.ref.model} else Known(w), Known(w'), w.running[p][1..]);
      } else {
        MarkedMonotone(Known(w), Known(w'), w.running[q]);
        FilledMonotone(w.cache.blobs, w'.cache.blobs, w.running[q]);
      }
      DoKeepsProgram(w, w', op, w'.running[q]);
    }
  }

  lemma CleanupIsOk(w: World, ops: seq<FileOp>)
    requires ProgramOk(w, ops)
    ensures ProgramOk(w, Cleanup(ops))
  {
    var rest := Cleanup(ops);
    if ops != [] {
      assert ops[|ops| - 1] in ops;
    }
    NoLinks(w.cache.blobs, rest);
    NoMarks(Known(w), rest);
  }

  lemma ProgramOkSame(w: World, w': World, ops: seq<FileOp>)
    requires ProgramOk(w, ops) && w'.cache == w.cache && Known(w) <= Known(w')
    ensures ProgramOk(w', ops)
  {
    MarkedMonotone(Known(w), Known(w'), ops);
  }

  lemma BeginKeeps(w: World, p: string, t: Task)
    requires Inv(w) && Enabled(w, Begin(p, t))
    ensures Inv(Next(w, Begin(p, t)))
  {
    var w' := Next(w, Begin(p, t));
    var m := w.(marked := w'.marked);
    TaskIsOk(m, t);
    ProgramOkSame(m, w', Program(w.cache, t));
    forall q | q in w.running ensures ProgramOk(w', w.running[q]) {
      ProgramOkSame(w, w', w.running[q]);
    }
  }

  lemma FailKeeps(w: World, p: string)
    requires Inv(w) && Enabled(w, Fail(p))
    ensures Inv(Next(w, Fail(p)))
  {
    var w' := Next(w, Fail(p));
    CleanupIsOk(w, w.running[p]);
    forall q | q in w'.running ensures ProgramOk(w', w'.running[q]) {
      ProgramOkSame(w, w', w'.running[q]);
    }
  }

  lemma LeaveKeeps(w: World, p: string)
    requires Inv(w) && Enabled(w, Leave(p))
    ensures Inv(Next(w, Leave(p)))
  {
    var w' := Next(w, Leave(p));
    forall q | q in w'.running ensures ProgramOk(w', w'.running[q]) {
      ProgramOkSame(w, w', w'.running[q]);
    }
  }

  /** What the collector has planned is unreferenced, marked and not linked from anything it keeps. */
  lemma PlanIsOk(c: Cache)
    ensures CollectionOk(c, Collection(Candidates(c), Collectible(c)))
  {
  }

  lemma CollectKeeps(w: World, l: Label)
    requires Inv(w) && Enabled(w, l) && (l.Unlink? || l.RemoveDirectory? || l.UnlinkBlob?)
    ensures Inv(Next(w, l))
  {
    var w' := Next(w, l);
    assert w.running == map[] && Known(w') == Known(w);
  }

  /** Every step keeps the invariant. */
  lemma StepKeeps(w: World, l: Label)
    requires Inv(w) && Enabled(w, l)
    ensures Inv(Next(w, l))
  {
    match l {
      case Begin(p, t) => BeginKeeps(w, p, t);
      case Do(p, op) => DoKeeps(w, p, op);
      case Fail(p) => FailKeeps(w, p);
      case Leave(p) => LeaveKeeps(w, p);
      case StartCollection(_) => PlanIsOk(w.cache);
      case StopCollection =>
      case _ => CollectKeeps(w, l);
    }
  }

  /******* Whole runs *******/

  /** From any sound state, every run with any crashes keeps every commit-named snapshot complete. */
  lemma {:induction false} EveryRunKeeps(w: World, run: seq<Label>)
    requires Inv(w) && Runs(w, run)
    ensures Inv(After(w, run)) && Complete(After(w, run).cache)
    decreases |run|
  {
    if run != [] {
      StepKeeps(w, run[0]);
      EveryRunKeeps(Next(w, run[0]), run[1..]);
    }
  }

  /** Whether a step is the collector deleting part of the snapshot at p. */
  predicate Collects(l: Label, p: Place) {
    (l.Unlink? && l.place == p) || (l.RemoveDirectory? && l.place == p)
  }

  /** A step changes a commit-named snapshot only by collecting it, and then it is marked and unreferenced. */
  lemma OnlyUnreferencedIsCollected(w: World, l: Label, p: Place)
    requires Inv(w) && Enabled(w, l) && p in w.cache.snapshots && IsCommit(p.name)
    ensures var s := Next(w, l).cache.snapshots;
            (p in s && s[p] == w.cache.snapshots[p])
            || (Collects(l, p) && p !in Protected(w.cache) && p in ManagedPlaces(w.cache))
  {
    if l.Do? { HeadIsSafe(w, w.running[l.process]); }
  }

  predicate Unlinks(l: Label, r: Ref) {
    l.Do? && l.op == UnlinkRef(r)
  }

  lemma RefStays(w: World, l: Label, r: Ref)
    requires Enabled(w, l) && r in w.cache.refs && !Unlinks(l, r)
    ensures r in Next(w, l).cache.refs
  {
  }

  /** While nobody unlinks a reference, the snapshot it names is neither removed nor changed, and has all its blobs. */
  lemma {:induction false} ReferencedSnapshotSurvives(w: World, run: seq<Label>, r: Ref)
    requires Inv(w) && Runs(w, run) && r in w.cache.refs
    requires Home(r.model) in w.cache.snapshots && IsCommit(r.model.revision)
    requires forall l :: l in run ==> !Unlinks(l, r)
    ensures var c := After(w, run).cache;
            && r in c.refs && Home(r.model) in c.snapshots
            && c.snapshots[Home(r.model)] == w.cache.snapshots[Home(r.model)]
            && c.snapshots[Home(r.model)] <= c.blobs
    decreases |run|
  {
    if run != [] {
      StepKeeps(w, run[0]);
      assert run[0] in run;
      RefStays(w, run[0], r);
      assert Home(r.model) in Protected(w.cache);
      OnlyUnreferencedIsCollected(w, run[0], Home(r.model));
      forall l | l in run[1..] ensures !Unlinks(l, r) { assert l in run; }
      ReferencedSnapshotSurvives(Next(w, run[0]), run[1..], r);
    }
  }

  predicate Commits(l: Label, r: Ref) {
    l.Do? && l.op.CommitRef? && l.op.ref == r
  }

  /** The last step that published (true) or unlinked (false) a reference. */
  function LastTouch(run: seq<Label>, r: Ref): Option<bool> {
    if run == [] then None
    else
      var later := LastTouch(run[1..], r);
      if later.Some? then later
      else if Commits(run[0], r) then Some(true)
      else if Unlinks(run[0], r) then Some(false)
      else None
  }

  lemma RefAfterStep(w: World, l: Label, r: Ref)
    requires Enabled(w, l)
    ensures r in Next(w, l).cache.refs <==> Commits(l, r) || (r in w.cache.refs && !Unlinks(l, r))
  {
  }

  /** A reference is there at the end exactly when the last step that touched it published it. */
  lemma {:induction false} LastTouchDecides(w: World, run: seq<Label>, r: Ref)
    requires Runs(w, run)
    ensures r in After(w, run).cache.refs <==>
              if LastTouch(run, r).Some? then LastTouch(run, r).value else r in w.cache.refs
    decreases |run|
  {
    if run != [] {
      RefAfterStep(w, run[0], r);
      LastTouchDecides(Next(w, run[0]), run[1..], r);
    }
  }

  predicate Marks(l: Label, m: Model) {
    l.Begin? && l.task.Mark? && l.task.model == m
  }

  predicate UnlinksModel(l: Label, m: Model) {
    l.Do? && l.op.UnlinkRef? && l.op.ref.model == m
  }

  lemma {:induction false} HistoryHasReasons(w: World, run: seq<Label>, m: Model)
    requires Runs(w, run) && m in After(w, run).unlinked + After(w, run).marked
    ensures m in w.unlinked + w.marked || exists k :: 0 <= k < |run| && (Marks(run[k], m) || UnlinksModel(run[k], m))
    decreases |run|
  {
    if run != [] {
      var next := Next(w, run[0]);
      HistoryHasReasons(next, run[1..], m);
      if m in next.unlinked + next.marked {
        if m !in w.unlinked + w.marked { assert Marks(run[0], m) || UnlinksModel(run[0], m); }
      } else {
        var k :| 0 <= k < |run[1..]| && (Marks(run[1..][k], m) || UnlinksModel(run[1..][k], m));
        assert run[k + 1] == run[1..][k];
      }
    }
  }

  /**
   Publishing alone never exposes a snapshot: a marked model without any reference was marked
   explicitly, or some reference to it was unlinked, during the run or before it.
   */
  lemma MarkedWithoutReferenceHasReason(w: World, run: seq<Label>, m: Model)
    requires Inv(w) && Runs(w, run)
    requires m in After(w, run).cache.managed && forall r :: r in After(w, run).cache.refs ==> r.model != m
    ensures m in w.unlinked + w.marked || exists k :: 0 <= k < |run| && (Marks(run[k], m) || UnlinksModel(run[k], m))
  {
    EveryRunKeeps(w, run);
    assert m in Known(After(w, run));
    HistoryHasReasons(w, run, m);
  }

  /******* Refusals *******/

  /** In a sound state only leftovers of an interrupted write stop a collection. */
  lemma BlockedOnlyByLeftovers(w: World)
    requires Inv(w)
    ensures Blocked(w.cache) <==> w.cache.refTemps != {} || w.cache.markTemps != {}
  {
  }

  /** Whether an operation is about the temporary file of that name. */
  predicate Names(op: FileOp, temp: string) {
    match op
    case WriteRefTemp(t) => t == temp
    case CommitRef(_, t) => t == temp
    case DropRefTemp(t) => t == temp
    case WriteMarkTemp(t) => t == temp
    case CommitMark(_, t) => t == temp
    case DropMarkTemp(t) => t == temp
    case _ => false
  }

  ghost predicate Mentions(ops: seq<FileOp>, temp: string) {
    exists op :: op in ops && Names(op, temp)
  }

  /** Temporary names were all made up before, and each is used by one running process at most. */
  ghost predicate OwnNames(w: World) {
    && w.cache.refTemps <= w.used && w.cache.markTemps <= w.used
    && (forall q, t :: q in w.running && Mentions(w.running[q], t) ==> t in w.used)
    && (forall q, q', t :: q in w.running && q' in w.running && q != q' && Mentions(w.running[q], t) ==>
          !Mentions(w.running[q'], t))
  }

  /** A name made up once that no running process uses any more. */
  ghost predicate Abandoned(w: World, temp: string) {
    temp in w.used && forall q :: q in w.running ==> !Mentions(w.running[q], temp)
  }

  /** Leftovers of an interrupted write: of a reference, and of a marker. */
  ghost predicate Orphan(w: World, temp: string) {
    Abandoned(w, temp) && temp in w.cache.refTemps
  }

  ghost predicate MarkOrphan(w: World, temp: string) {
    Abandoned(w, temp) && temp in w.cache.markTemps
  }

  lemma {:induction false} PublicationNames(ps: seq<Publication>, temp: string)
    requires temp !in NamesOf(ps)
    ensures !Mentions(PublishAll(ps), temp)
  {
    if ps != [] { PublicationNames(ps[1..], temp); }
  }

  lemma ProgramNames(c: Cache, t: Task, temp: string)
    requires temp !in NewNames(t)
    ensures !Mentions(Program(c, t), temp)
  {
    match t {
      case Reconcile(_, _, publish, remove) =>
        PublicationNames(publish, temp);
        RemovesOnly(remove);
      case Import(m, unique, digests) => FillNames(Place(m.repo, StagedName(m.revision, unique)), digests, temp);
      case _ =>
    }
  }

  lemma {:induction false} FillNames(staged: Place, digests: seq<string>, temp: string)
    ensures !Mentions(FillOps(staged, digests), temp)
  {
    if digests != [] { FillNames(staged, digests[1..], temp); }
  }

  lemma CleanupNames(ops: seq<FileOp>, temp: string)
    requires Mentions(Cleanup(ops), temp)
    ensures Mentions(ops, temp)
  {
    assert Names(ops[0], temp) && ops[0] in ops;
  }

  lemma RestNames(ops: seq<FileOp>, temp: string)
    requires ops != [] && Mentions(ops[1..], temp)
    ensures Mentions(ops, temp)
  {
    var op :| op in ops[1..] && Names(op, temp);
    assert op in ops;
  }

  /** What a process still has to do mentions only names it had, or names just made up. */
  lemma RunningNames(w: World, l: Label, q: string, temp: string)
    requires Enabled(w, l) && q in Next(w, l).running && Mentions(Next(w, l).running[q], temp)
    ensures (q in w.running && Mentions(w.running[q], temp)) || (l.Begin? && l.process == q && temp in NewNames(l.task))
  {
    match l {
      case Begin(p, t) => if p == q && temp !in NewNames(t) { ProgramNames(w.cache, t, temp); }
      case Do(p, op) => if p == q { RestNames(w.running[p], temp); }
      case Fail(p) => if p == q { CleanupNames(w.running[p], temp); }
      case _ =>
    }
  }

  lemma TempsAreUsed(w: World, l: Label)
    requires Enabled(w, l) && OwnNames(w)
    ensures Next(w, l).cache.refTemps <= Next(w, l).used && Next(w, l).cache.markTemps <= Next(w, l).used
  {
    if l.Do? {
      assert l.op in w.running[l.process];
      match l.op {
        case WriteRefTemp(t) => assert Mentions(w.running[l.process], t);
        case WriteMarkTemp(t) => assert Mentions(w.running[l.process], t);
        case _ =>
      }
    }
  }

  lemma StepOwnsNames(w: World, l: Label)
    requires Enabled(w, l) && OwnNames(w)
    ensures OwnNames(Next(w, l))
  {
    var w' := Next(w, l);
    TempsAreUsed(w, l);
    forall q, t | q in w'.running && Mentions(w'.running[q], t) ensures t in w'.used {
      RunningNames(w, l, q, t);
    }
    forall q, q', t | q in w'.running && q' in w'.running && q != q' && Mentions(w'.running[q], t)
      ensures !Mentions(w'.running[q'], t)
    {
      RunningNames(w, l, q, t);
      if Mentions(w'.running[q'], t) { RunningNames(w, l, q', t); }
    }
  }

  lemma {:induction false} EveryRunOwnsNames(w: World, run: seq<Label>)
    requires OwnNames(w) && Runs(w, run)
    ensures OwnNames(After(w, run))
    decreases |run|
  {
    hide OwnNames, Enabled, Next;
    if run != [] {
      StepOwnsNames(w, run[0]);
      EveryRunOwnsNames(Next(w, run[0]), run[1..]);
    }
  }

  /**
   A process that crashes abandons its names: a temporary file of its own becomes a leftover exactly when it
   is there at that moment.
   */
  lemma CrashLeavesOrphan(w: World, q: string, temp: string)
    requires OwnNames(w) && q in w.running && Mentions(w.running[q], temp)
    ensures Abandoned(Next(w, Leave(q)), temp)
    ensures Orphan(Next(w, Leave(q)), temp) <==> temp in w.cache.refTemps
    ensures MarkOrphan(Next(w, Leave(q)), temp) <==> temp in w.cache.markTemps
  {
  }

  /** An abandoned temporary file stays as it is, whatever anyone does. */
  lemma AbandonedStays(w: World, l: Label, temp: string)
    requires Enabled(w, l) && Abandoned(w, temp)
    ensures Abandoned(Next(w, l), temp)
    ensures temp in Next(w, l).cache.refTemps <==> temp in w.cache.refTemps
    ensures temp in Next(w, l).cache.markTemps <==> temp in w.cache.markTemps
  {
    var w' := Next(w, l);
    forall q | q in w'.running ensures !Mentions(w'.running[q], temp) {
      if Mentions(w'.running[q], temp) { RunningNames(w, l, q, temp); }
    }
    if l.Do? {
      assert l.op in w.running[l.process] && !Names(l.op, temp);
    }
  }

  /**
   From then on every collection is refused, and after an interrupted reference every reconciliation as well.
   */
  lemma {:induction false} OrphanBlocksForEver(w: World, run: seq<Label>, temp: string)
    requires Runs(w, run) && (Orphan(w, temp) || MarkOrphan(w, temp))
    ensures Blocked(After(w, run).cache) && (w.collector.None? ==> After(w, run).collector.None?)
    ensures Orphan(w, temp) ==> Orphan(After(w, run), temp)
    ensures MarkOrphan(w, temp) ==> MarkOrphan(After(w, run), temp)
    ensures Orphan(w, temp) ==> forall t: Task :: t.Reconcile? ==> Program(After(w, run).cache, t) == []
    decreases |run|
  {
    if run != [] {
      AbandonedStays(w, run[0], temp);
      OrphanBlocksForEver(Next(w, run[0]), run[1..], temp);
    }
  }

  /** A publication that crashes right after writing its reference's, or its marker's, temporary file. */
  function CrashedRun(q: string, p: Publication, inMarker: bool): seq<Label> {
    if inMarker then
      [Begin(q, Publish(p)), Do(q, WriteRefTemp(p.refTemp)), Do(q, CommitRef(p.ref, p.refTemp)),
       Do(q, WriteMarkTemp(p.markTemp)), Leave(q)]
    else
      [Begin(q, Publish(p)), Do(q, WriteRefTemp(p.refTemp)), Leave(q)]
  }

  /** Wherever a publication may begin, it may be cut short like that, and then collections are refused for ever. */
  lemma CrashedPublicationOrphans(w: World, q: string, p: Publication, inMarker: bool)
    requires OwnNames(w) && Enabled(w, Begin(q, Publish(p)))
    ensures Runs(w, CrashedRun(q, p, inMarker))
    ensures if inMarker then MarkOrphan(After(w, CrashedRun(q, p, inMarker)), p.markTemp)
            else Orphan(After(w, CrashedRun(q, p, inMarker)), p.refTemp)
  {
    var ops := PublishOps(p);
    var w1 := Next(w, Begin(q, Publish(p)));
    StepOwnsNames(w, Begin(q, Publish(p)));
    assert w1.running[q] == ops;
    StepOwnsNames(w1, Do(q, ops[0]));
    var w2 := Next(w1, Do(q, ops[0]));
    assert ops[1..][0] == CommitRef(p.ref, p.refTemp) && w2.running[q] == ops[1..];
    hide OwnNames;
    if inMarker {
      CrashedInMarker(w2, q, p);
      var rest := [Do(q, ops[1]), Do(q, ops[2]), Leave(q)];
      Prepend(w1, Do(q, ops[0]), rest);
      Prepend(w, Begin(q, Publish(p)), [Do(q, ops[0])] + rest);
      assert [Begin(q, Publish(p))] + ([Do(q, ops[0])] + rest) == CrashedRun(q, p, true);
    } else {
      assert Mentions(w2.running[q], p.refTemp) by { assert Names(ops[1..][0], p.refTemp) && ops[1..][0] in ops[1..]; }
      CrashLeavesOrphan(w2, q, p.refTemp);
      OneStep(w2, Leave(q));
      Prepend(w1, Do(q, ops[0]), [Leave(q)]);
      Prepend(w, Begin(q, Publish(p)), [Do(q, ops[0])] + [Leave(q)]);
      assert [Begin(q, Publish(p))] + ([Do(q, ops[0])] + [Leave(q)]) == CrashedRun(q, p, false);
    }
  }

  lemma CrashedInMarker(w: World, q: string, p: Publication)
    requires OwnNames(w) && q in w.running && w.running[q] == PublishOps(p)[1..]
    ensures var run := [Do(q, PublishOps(p)[1]), Do(q, PublishOps(p)[2]), Leave(q)];
            Runs(w, run) && MarkOrphan(After(w, run), p.markTemp)
  {
    var ops := PublishOps(p);
    assert ops[1..][1..] == ops[2..] && ops[2..][1..] == ops[3..];
    StepOwnsNames(w, Do(q, ops[1]));
    var w1 := Next(w, Do(q, ops[1]));
    StepOwnsNames(w1, Do(q, ops[2]));
    var w2 := Next(w1, Do(q, ops[2]));
    hide OwnNames;
    assert Mentions(w2.running[q], p.markTemp) by { assert Names(ops[3..][0], p.markTemp) && ops[3..][0] in ops[3..]; }
    CrashLeavesOrphan(w2, q, p.markTemp);
    OneStep(w2, Leave(q));
    Prepend(w1, Do(q, ops[2]), [Leave(q)]);
    Prepend(w, Do(q, ops[1]), [Do(q, ops[2])] + [Leave(q)]);
    assert [Do(q, ops[1])] + ([Do(q, ops[2])] + [Leave(q)]) == [Do(q, ops[1]), Do(q, ops[2]), Leave(q)];
  }

  lemma OneStep(w: World, l: Label)
    requires Enabled(w, l)
    ensures Runs(w, [l]) && After(w, [l]) == Next(w, l)
  {
    assert [l][1..] == [];
  }

  /**
   A refusal is for ever: whenever the gate is free and a collection is refused, it is refused in every later state.
   */
  lemma RefusedForEver(w: World, run: seq<Label>)
    requires Inv(w) && OwnNames(w) && Enabled(w, StartCollection(false)) && Runs(w, run)
    ensures Blocked(w.cache) <==> exists t :: Orphan(w, t) || MarkOrphan(w, t)
    ensures Blocked(w.cache) ==> Blocked(After(w, run).cache) && After(w, run).collector.None?
  {
    BlockedOnlyByLeftovers(w);
    if Blocked(w.cache) {
      var t :| t in w.cache.refTemps || t in w.cache.markTemps;
      assert Orphan(w, t) || MarkOrphan(w, t);
      OrphanBlocksForEver(w, run, t);
    }
  }

  /******* What a finished collection leaves *******/

  predicate Collecting(l: Label) {
    l.Unlink? || l.RemoveDirectory? || l.UnlinkBlob?
  }

  /** How far a collection of `start` has come. */
  ghost predicate Progress(start: Cache, c: Cache, col: Collection) {
    && c == start.(snapshots := c.snapshots, blobs := c.blobs)
    && col.places <= Candidates(start) && col.blobs <= Collectible(start)
    && c.snapshots.Keys == start.snapshots.Keys - (Candidates(start) - col.places)
    && (forall p :: p in c.snapshots && p !in Candidates(start) ==> c.snapshots[p] == start.snapshots[p])
    && c.blobs == start.blobs - (Collectible(start) - col.blobs)
  }

  lemma ProgressStep(start: Cache, w: World, l: Label)
    requires w.collector.Some? && Progress(start, w.cache, w.collector.value) && Enabled(w, l) && Collecting(l)
    ensures Next(w, l).collector.Some? && Progress(start, Next(w, l).cache, Next(w, l).collector.value)
  {
    hide Candidates, Collectible;
  }

  lemma {:induction false} ProgressRun(start: Cache, w: World, run: seq<Label>)
    requires w.collector.Some? && Progress(start, w.cache, w.collector.value)
    requires Runs(w, run) && forall l :: l in run ==> Collecting(l)
    ensures After(w, run).collector.Some? && Progress(start, After(w, run).cache, After(w, run).collector.value)
    decreases |run|
  {
    if run != [] {
      assert run[0] in run;
      ProgressStep(start, w, run[0]);
      forall l | l in run[1..] ensures Collecting(l) { assert l in run; }
      ProgressRun(start, Next(w, run[0]), run[1..]);
    }
  }

  /**
   However it orders its deletions, a collection that finishes has removed exactly the marked,
   unreferenced commit snapshots and exactly the blobs that only they linked to.
   */
  lemma FinishedCollection(w: World, run: seq<Label>)
    requires Enabled(w, StartCollection(false)) && !Blocked(w.cache)
    requires Runs(Next(w, StartCollection(false)), run) && forall l :: l in run ==> Collecting(l)
    requires After(Next(w, StartCollection(false)), run).collector == Some(Collection({}, {}))
    ensures After(Next(w, StartCollection(false)), run).cache == Collected(w.cache)
  {
    var begun := Next(w, StartCollection(false));
    ProgressRun(w.cache, begun, run);
    hide Candidates, Collectible;
    var c := After(begun, run).cache;
    assert c.snapshots == w.cache.snapshots - Candidates(w.cache);
  }

  ghost predicate CollectingRun(w: World, run: seq<Label>) {
    Runs(w, run) && forall l :: l in run ==> Collecting(l)
  }

  lemma {:induction false} JoinRuns(w: World, a: seq<Label>, b: seq<Label>)
    requires CollectingRun(w, a) && CollectingRun(After(w, a), b)
    ensures CollectingRun(w, a + b) && After(w, a + b) == After(After(w, a), b)
    decreases |a|
  {
    if a == [] {
      assert a + b == b;
    } else {
      assert a[0] in a && forall l :: l in a[1..] ==> l in a;
      assert (a + b)[0] == a[0] && (a + b)[1..] == a[1..] + b;
      JoinRuns(Next(w, a[0]), a[1..], b);
      assert forall l :: l in a + b ==> l in a || l in b;
    }
  }

  /** One planned directory can always be emptied and removed. */
  lemma {:induction false} RemovePlace(start: Cache, w: World, p: Place) returns (run: seq<Label>)
    requires w.collector.Some? && Progress(start, w.cache, w.collector.value)
    requires p in w.collector.value.places && p in w.cache.snapshots
    ensures CollectingRun(w, run) && After(w, run).collector.Some?
    ensures Progress(start, After(w, run).cache, After(w, run).collector.value)
    ensures After(w, run).collector.value == Collection(w.collector.value.places - {p}, w.collector.value.blobs)
    decreases |w.cache.snapshots[p]|
  {
    if w.cache.snapshots[p] == {} {
      ProgressStep(start, w, RemoveDirectory(p));
      run := [RemoveDirectory(p)];
      assert run[1..] == [];
    } else {
      var b :| b in w.cache.snapshots[p];
      var next := Next(w, Unlink(p, b));
      ProgressStep(start, w, Unlink(p, b));
      var rest := RemovePlace(start, next, p);
      run := [Unlink(p, b)] + rest;
      assert run[1..] == rest;
    }
  }

  lemma {:induction false} RemovePlaces(start: Cache, w: World) returns (run: seq<Label>)
    requires w.collector.Some? && Progress(start, w.cache, w.collector.value)
    ensures CollectingRun(w, run) && After(w, run).collector.Some?
    ensures Progress(start, After(w, run).cache, After(w, run).collector.value)
    ensures After(w, run).collector.value == Collection({}, w.collector.value.blobs)
    decreases |w.collector.value.places|
  {
    hide Progress;
    if w.collector.value.places == {} {
      run := [];
    } else {
      var p :| p in w.collector.value.places;
      PlannedIsThere(start, w, p);
      var first := RemovePlace(start, w, p);
      var rest := RemovePlaces(start, After(w, first));
      JoinRuns(w, first, rest);
      run := first + rest;
    }
  }

  lemma PlannedIsThere(start: Cache, w: World, p: Place)
    requires w.collector.Some? && Progress(start, w.cache, w.collector.value) && p in w.collector.value.places
    ensures p in w.cache.snapshots
  {
  }

  lemma {:induction false} RemoveBlobs(w: World) returns (run: seq<Label>)
    requires w.collector.Some? && w.collector.value.places == {}
    ensures CollectingRun(w, run) && After(w, run).collector == Some(Collection({}, {}))
    decreases |w.collector.value.blobs|
  {
    if w.collector.value.blobs == {} {
      run := [];
    } else {
      var b :| b in w.collector.value.blobs;
      var rest := RemoveBlobs(Next(w, UnlinkBlob(b)));
      run := [UnlinkBlob(b)] + rest;
      assert run[1..] == rest;
    }
  }

  /** A collection that has begun is never stuck: some run of deletions finishes it. */
  lemma CollectionCanFinish(w: World) returns (run: seq<Label>)
    requires Enabled(w, StartCollection(false)) && !Blocked(w.cache)
    ensures CollectingRun(Next(w, StartCollection(false)), run)
    ensures After(Next(w, StartCollection(false)), run).collector == Some(Collection({}, {}))
  {
    var begun := Next(w, StartCollection(false));
    assert Progress(w.cache, begun.cache, begun.collector.value);
    hide Progress;
    var first := RemovePlaces(w.cache, begun);
    var rest := RemoveBlobs(After(begun, first));
    JoinRuns(begun, first, rest);
    run := first + rest;
  }

  /**
   Gone are exactly the commit-named snapshots of a marked model that no reference names, and their blobs nobody kept
   links to.
   */
  lemma CollectedExactly(c: Cache, p: Place, b: Blob)
    ensures Collected(c).snapshots.Keys <= c.snapshots.Keys
    ensures p in c.snapshots ==>
              (p !in Collected(c).snapshots <==>
                 && IsCommit(p.name) && (exists m :: m in c.managed && Home(m) == p)
                 && forall r :: r in c.refs ==> Home(r.model) != p)
    ensures b in c.blobs ==>
              (b !in Collected(c).blobs <==>
                 && (exists q :: q in c.snapshots && q !in Collected(c).snapshots && b in c.snapshots[q])
                 && forall q :: q in Collected(c).snapshots && IsCommit(q.name) ==> b !in c.snapshots[q])
  {
    assert Collected(c).snapshots.Keys == c.snapshots.Keys - Candidates(c);
    assert forall q :: q in Candidates(c) ==> IsCommit(q.name) && q in c.snapshots;
    BlobCollected(c, b);
  }

  lemma BlobCollected(c: Cache, b: Blob)
    ensures b in Collectible(c) <==>
              (exists q :: q in c.snapshots && q in Candidates(c) && b in c.snapshots[q])
              && forall q :: q in c.snapshots && IsCommit(q.name) && q !in Candidates(c) ==> b !in c.snapshots[q]
  {
    hide Candidates;
  }

  /**
   Directories not named by a commit are not looked at: one keeps its blobs exactly when it links to none that goes.
   */
  lemma OtherDirectories(c: Cache, p: Place)
    requires p in c.snapshots && !IsCommit(p.name) && c.snapshots[p] <= c.blobs
    ensures p in Collected(c).snapshots && Collected(c).snapshots[p] == c.snapshots[p]
    ensures Collected(c).snapshots[p] <= Collected(c).blobs <==> c.snapshots[p] !! Collectible(c)
  {
    hide Collectible;
  }

  /** So, in whatever order it deletes: exactly these snapshots and blobs are gone once a collection is through. */
  lemma FinishedCollectionTakes(w: World, run: seq<Label>, p: Place, b: Blob)
    requires Enabled(w, StartCollection(false)) && !Blocked(w.cache)
    requires CollectingRun(Next(w, StartCollection(false)), run)
    requires After(Next(w, StartCollection(false)), run).collector == Some(Collection({}, {}))
    ensures var c, c' := w.cache, After(Next(w, StartCollection(false)), run).cache;
            && (p in c.snapshots ==>
                  (p !in c'.snapshots <==>
                     && IsCommit(p.name) && (exists m :: m in c.managed && Home(m) == p)
                     && forall r :: r in c.refs ==> Home(r.model) != p))
            && (b in c.blobs ==>
                  (b !in c'.blobs <==>
                     && (exists q :: q in c.snapshots && q !in c'.snapshots && b in c.snapshots[q])
                     && forall q :: q in c.snapshots && q in c'.snapshots && IsCommit(q.name) ==> b !in c.snapshots[q]))
  {
    hide Collected, Next, Enabled;
    FinishedCollection(w, run);
    CollectedExactly(w.cache, p, b);
  }

  /******* Collections that are cut off *******/

  /** A blob that no directory links to and no running collector will remove. */
  ghost predicate Stranded(w: World, b: Blob) {
    && b in w.cache.blobs
    && (forall p :: p in w.cache.snapshots ==> b !in w.cache.snapshots[p])
    && (w.collector.Some? ==> b !in w.collector.value.blobs)
  }

  predicate LinksTo(l: Label, b: Blob) {
    l.Do? && l.op.AddLink? && l.op.blob == b
  }

  lemma StrandedIsNotCollectible(w: World, b: Blob)
    requires Stranded(w, b)
    ensures b !in Collectible(w.cache)
  {
    hide Candidates;
  }

  lemma StrandedStep(w: World, l: Label, b: Blob)
    requires Enabled(w, l) && Stranded(w, b) && !LinksTo(l, b)
    ensures Stranded(Next(w, l), b)
  {
    StrandedIsNotCollectible(w, b);
    hide Candidates, Collectible, WellFormed, Program;
  }

  /** Until some import links to it again, such a blob stays, and no collection ever plans to remove it. */
  lemma {:induction false} StrandedStays(w: World, run: seq<Label>, b: Blob)
    requires Runs(w, run) && Stranded(w, b) && forall l :: l in run ==> !LinksTo(l, b)
    ensures Stranded(After(w, run), b) && b !in Collectible(After(w, run).cache)
    decreases |run|
  {
    StrandedIsNotCollectible(w, b);
    hide Stranded, Enabled, Next, Collectible;
    if run != [] {
      assert run[0] in run;
      StrandedStep(w, run[0], b);
      forall l | l in run[1..] ensures !LinksTo(l, b) { assert l in run; }
      StrandedStays(Next(w, run[0]), run[1..], b);
    }
  }

  /** A stop of the collector strands exactly the blobs that are there and that no directory links to. */
  lemma StopStrandsIff(w: World, b: Blob)
    requires w.collector.Some?
    ensures Stranded(Next(w, StopCollection), b) <==>
              b in w.cache.blobs && forall p :: p in w.cache.snapshots ==> b !in w.cache.snapshots[p]
  {
  }

  /** The blob goes with the planned snapshots, and no uncommitted directory links to it. */
  ghost predicate GoesAlone(c: Cache, b: Blob) {
    b in Collectible(c) && b in c.blobs && forall p :: p in c.snapshots && !IsCommit(p.name) ==> b !in c.snapshots[p]
  }

  lemma UnlinkedBehindPlaces(start: Cache, c: Cache, col: Collection, b: Blob)
    requires Progress(start, c, col) && col.places == {} && col.blobs == Collectible(start) && GoesAlone(start, b)
    ensures b in c.blobs && forall p :: p in c.snapshots ==> b !in c.snapshots[p]
  {
    BlobCollected(start, b);
    hide Candidates, Collectible;
  }

  /** Any collection with such a blob may be cut off between its last directory and its blobs, and then strands it. */
  lemma CutOffCollectionStrands(w: World, b: Blob) returns (run: seq<Label>)
    requires Enabled(w, StartCollection(false)) && !Blocked(w.cache) && GoesAlone(w.cache, b)
    ensures CollectingRun(Next(w, StartCollection(false)), run)
    ensures After(Next(w, StartCollection(false)), run).collector.Some?
    ensures Stranded(Next(After(Next(w, StartCollection(false)), run), StopCollection), b)
  {
    var begun := Next(w, StartCollection(false));
    assert Progress(w.cache, begun.cache, begun.collector.value);
    hide Progress, Blocked, Candidates, Collectible;
    run := RemovePlaces(w.cache, begun);
    UnlinkedBehindPlaces(w.cache, After(begun, run).cache, After(begun, run).collector.value, b);
    StopStrandsIff(After(begun, run), b);
  }

  /** Such a loss does happen: an interrupted import's staged directory shares a blob with a collected snapshot. */
  lemma CrashedImportMayLoseBlobs(c: Cache, m: Model, b: Blob, unique: string)
    requires IsCommit(m.revision) && b.repo == m.repo
    requires c == Cache({}, {}, {m}, {}, map[Home(m) := {b}, Place(m.repo, StagedName(m.revision, unique)) := {b}], {b})
    ensures !Blocked(c)
            && !(Collected(c).snapshots[Place(m.repo, StagedName(m.revision, unique))] <= Collected(c).blobs)
  {
    var staged := Place(m.repo, StagedName(m.revision, unique));
    StagedIsNoCommit(m.revision, unique);
    assert m in c.managed;
    assert Home(m) in Candidates(c);
    assert b in c.snapshots[Home(m)];
    assert b in LinkedFrom(c, Candidates(c));
    OtherDirectories(c, staged);
  }

  lemma Prepend(w: World, l: Label, run: seq<Label>)
    requires Enabled(w, l) && Runs(Next(w, l), run)
    ensures Runs(w, [l] + run) && After(w, [l] + run) == After(Next(w, l), run)
  {
    assert ([l] + run)[1..] == run;
  }

  /** The same instance removes a reference between its publication and its marker: step k, and the world before it. */
  function RaceStep(p: Publication, k: nat): Label
    requires k < 7
  {
    match k
    case 0 => Begin("a", Publish(p))
    case 1 => Do("a", WriteRefTemp(p.refTemp))
    case 2 => Do("a", CommitRef(p.ref, p.refTemp))
    case 3 => Begin("b", Remove(p.ref))
    case 4 => Do("b", UnlinkRef(p.ref))
    case 5 => Do("a", WriteMarkTemp(p.markTemp))
    case 6 => Do("a", CommitMark(p.ref.model, p.markTemp))
  }

  function RaceWorld(p: Publication, k: nat): World
    requires k <= 7
  {
    var r, m, ops := p.ref, p.ref.model, PublishOps(p);
    var running: map<string, seq<FileOp>> :=
      if k == 0 then map[]
      else if k <= 3 then map["a" := ops[k - 1..]]
      else map["a" := ops[if k <= 5 then 2 else k - 3..], "b" := if k == 4 then [UnlinkRef(r)] else []];
    World(Cache(if 3 <= k <= 4 then {r} else {}, if k == 2 then {p.refTemp} else {}, if k == 7 then {m} else {},
                if k == 6 then {p.markTemp} else {}, map[Home(m) := {}], {}),
          running, None, if k == 0 then {} else {p.refTemp, p.markTemp}, if k <= 4 then {} else {m}, {})
  }

  lemma RaceStarts(p: Publication, k: nat)
    requires k < 3
    ensures Enabled(RaceWorld(p, k), RaceStep(p, k)) && Next(RaceWorld(p, k), RaceStep(p, k)) == RaceWorld(p, k + 1)
  {
    var ops := PublishOps(p);
    assert k > 0 ==> ops[k - 1..][1..] == ops[k..];
    assert ops[0..] == ops && {} + {p.refTemp, p.markTemp} == {p.refTemp, p.markTemp};
  }

  lemma RaceBegins(p: Publication)
    ensures Enabled(RaceWorld(p, 3), RaceStep(p, 3)) && Next(RaceWorld(p, 3), RaceStep(p, 3)) == RaceWorld(p, 4)
  {
    var w, ops := RaceWorld(p, 3), PublishOps(p);
    assert w.running["b" := [UnlinkRef(p.ref)]] == map["a" := ops[2..], "b" := [UnlinkRef(p.ref)]];
    assert w.used + {} == w.used;
  }

  lemma RaceRemoves(p: Publication)
    ensures Enabled(RaceWorld(p, 4), RaceStep(p, 4)) && Next(RaceWorld(p, 4), RaceStep(p, 4)) == RaceWorld(p, 5)
  {
    var w, ops := RaceWorld(p, 4), PublishOps(p);
    assert [UnlinkRef(p.ref)][1..] == [];
    assert w.running["b" := []] == map["a" := ops[2..], "b" := []];
    assert {p.ref} - {p.ref} == {} && w.unlinked + {p.ref.model} == {p.ref.model};
  }

  lemma RaceMarks(p: Publication, k: nat)
    requires 5 <= k < 7
    ensures Enabled(RaceWorld(p, k), RaceStep(p, k)) && Next(RaceWorld(p, k), RaceStep(p, k)) == RaceWorld(p, k + 1)
  {
    var ops := PublishOps(p);
    assert ops[k - 3..][1..] == ops[k - 2..];
  }

  function Race(p: Publication, k: nat): seq<Label>
    requires k <= 7
    decreases 7 - k
  {
    if k == 7 then [] else [RaceStep(p, k)] + Race(p, k + 1)
  }

  lemma {:induction false} RaceRuns(p: Publication, k: nat)
    requires k <= 7
    ensures Runs(RaceWorld(p, k), Race(p, k)) && After(RaceWorld(p, k), Race(p, k)) == RaceWorld(p, 7)
    decreases 7 - k
  {
    if k < 7 {
      RaceRuns(p, k + 1);
      if k < 3 {
        RaceStarts(p, k);
      } else if k == 3 {
        RaceBegins(p);
      } else if k == 4 {
        RaceRemoves(p);
      } else {
        RaceMarks(p, k);
      }
      hide Enabled, Next, RaceStep, RaceWorld;
      Prepend(RaceWorld(p, k), RaceStep(p, k), Race(p, k + 1));
    }
  }

  /** That race leaves the published snapshot marked without a reference, so the next collection takes it. */
  lemma RaceExposesSnapshot(p: Publication)
    requires IsCommit(p.ref.model.revision)
    ensures Runs(RaceWorld(p, 0), Race(p, 0))
    ensures var c := After(RaceWorld(p, 0), Race(p, 0)).cache; Home(p.ref.model) in Candidates(c) && !Blocked(c)
  {
    RaceRuns(p, 0);
    assert p.ref.model in RaceWorld(p, 7).cache.managed;
  }

  /******* Reconciliation *******/

  lemma {:induction false} RunOpsJoin(c: Cache, a: seq<FileOp>, b: seq<FileOp>)
    ensures RunOps(c, a + b) == RunOps(RunOps(c, a), b)
    decreases |a|
  {
    if a == [] {
      assert a + b == b;
    } else {
      assert (a + b)[1..] == a[1..] + b;
      RunOpsJoin(Effect(c, a[0]), a[1..], b);
    }
  }

  function RefsIn(ps: seq<Publication>): set<Ref> {
    set p | p in ps :: p.ref
  }

  /** The four steps of a publication, undisturbed. */
  lemma PublishEffect(c: Cache, p: Publication)
    ensures RunOps(c, PublishOps(p))
         == c.(refs := c.refs + {p.ref}, refTemps := c.refTemps + {p.refTemp} - {p.refTemp},
               managed := c.managed + {p.ref.model}, markTemps := c.markTemps + {p.markTemp} - {p.markTemp})
  {
    var ops := PublishOps(p);
    var c1 := Effect(c, ops[0]);
    var c2 := Effect(c1, ops[1]);
    var c3 := Effect(c2, ops[2]);
    assert ops[1..] == [ops[1]] + ops[2..] && ops[2..] == [ops[2]] + ops[3..] && ops[3..] == [ops[3]];
    assert RunOps(c3, ops[3..]) == Effect(c3, ops[3]);
    assert RunOps(c2, ops[2..]) == RunOps(c3, ops[3..]) by { assert ops[2..][1..] == ops[3..]; }
    assert RunOps(c1, ops[1..]) == RunOps(c2, ops[2..]) by { assert ops[1..][1..] == ops[2..]; }
  }

  /** What publishing a whole list adds; nothing else changes but the temporary files. */
  lemma {:induction false} PublishAllEffect(c: Cache, ps: seq<Publication>)
    ensures var c' := RunOps(c, PublishAll(ps));
            c'.refs == c.refs + RefsIn(ps) && c'.managed == c.managed + (set p | p in ps :: p.ref.model)
            && c'.snapshots == c.snapshots && c'.blobs == c.blobs
    decreases |ps|
  {
    hide Effect;
    if ps != [] {
      PublishEffect(c, ps[0]);
      var next := RunOps(c, PublishOps(ps[0]));
      RunOpsJoin(c, PublishOps(ps[0]), PublishAll(ps[1..]));
      hide RunOps, PublishOps;
      PublishAllEffect(next, ps[1..]);
      assert ps == [ps[0]] + ps[1..];
      assert RefsIn(ps) == {ps[0].ref} + RefsIn(ps[1..]);
      assert (set p | p in ps :: p.ref.model) == {ps[0].ref.model} + (set p | p in ps[1..] :: p.ref.model);
    }
  }

  lemma {:induction false} RemoveAllEffect(c: Cache, refs: seq<Ref>)
    ensures RunOps(c, RemoveAll(refs)) == c.(refs := c.refs - set r | r in refs)
    decreases |refs|
  {
    if refs == [] {
      assert c.refs - {} == c.refs;
      assert (set r | r in refs) == {};
    } else {
      assert RemoveAll(refs)[1..] == RemoveAll(refs[1..]);
      RemoveAllEffect(Effect(c, UnlinkRef(refs[0])), refs[1..]);
      assert (set r | r in refs) == {refs[0]} + (set r | r in refs[1..]);
    }
  }

  /**
   An undisturbed reconciliation leaves its instance exactly the expected references, and every other instance its
   own.
   */
  lemma ReconcileIsExact(c: Cache, t: Task)
    requires t.Reconcile? && WellFormed(c, t) && c.refTemps == {}
    ensures var c' := RunOps(c, Program(c, t));
            && Own(c'.refs, t.instance) == RefsOf(t.instance, t.expected)
            && (forall other :: other != t.instance ==> Own(c'.refs, other) == Own(c.refs, other))
            && c'.managed == c.managed + (set p | p in t.publish :: p.ref.model)
            && c'.snapshots == c.snapshots && c'.blobs == c.blobs
  {
    PublishAllEffect(c, t.publish);
    var m := RunOps(c, PublishAll(t.publish));
    RunOpsJoin(c, PublishAll(t.publish), RemoveAll(t.remove));
    RemoveAllEffect(m, t.remove);
    forall r ensures r in RefsIn(t.publish) <==> r in RefsOf(t.instance, t.expected) - c.refs {
      MissingIsPublished(c, t, r);
    }
  }

  lemma {:induction false} NoUnlinkGrows(c: Cache, ops: seq<FileOp>)
    requires forall op :: op in ops ==> !op.UnlinkRef?
    ensures c.refs <= RunOps(c, ops).refs
    decreases |ops|
  {
    if ops != [] {
      assert ops[0] in ops;
      forall op | op in ops[1..] ensures !op.UnlinkRef? { assert op in ops; }
      NoUnlinkGrows(Effect(c, ops[0]), ops[1..]);
    }
  }

  lemma {:induction false} RemovePrefix(refs: seq<Ref>, k: nat)
    requires k <= |refs|
    ensures |RemoveAll(refs)| == |refs| && RemoveAll(refs)[..k] == RemoveAll(refs[..k])
  {
    if k > 0 {
      RemovePrefix(refs[1..], k - 1);
      assert refs[..k][1..] == refs[1..][..k - 1];
      assert RemoveAll(refs)[..k] == [UnlinkRef(refs[0])] + RemoveAll(refs[1..])[..k - 1];
    } else if refs != [] {
      RemovePrefix(refs[1..], 0);
    }
  }

  lemma MissingIsPublished(c: Cache, t: Task, r: Ref)
    requires t.Reconcile? && WellFormed(c, t)
    ensures r in RefsIn(t.publish) <==> r in RefsOf(t.instance, t.expected) - c.refs
  {
    if r in RefsIn(t.publish) {
      var p :| p in t.publish && p.ref == r;
      var k :| 0 <= k < |t.publish| && t.publish[k] == p;
    }
  }

  /**
   Wherever a reconciliation is cut off, no expected reference that was there is missing, and
   removal has not begun before every expected reference is there.
   */
  lemma ReconcileCutShort(c: Cache, t: Task, k: nat)
    requires t.Reconcile? && WellFormed(c, t) && c.refTemps == {} && k <= |Program(c, t)|
    ensures var refs := RunOps(c, Program(c, t)[..k]).refs;
            && c.refs * RefsOf(t.instance, t.expected) <= refs
            && (c.refs <= refs || RefsOf(t.instance, t.expected) <= refs)
  {
    hide RunOps, PublishAll, RemoveAll, RefsIn;
    var publish, remove := PublishAll(t.publish), RemoveAll(t.remove);
    PublishesOnly(t.publish);
    if k <= |publish| {
      assert Program(c, t)[..k] == publish[..k];
      forall op | op in publish[..k] ensures !op.UnlinkRef? { assert op in publish; }
      NoUnlinkGrows(c, publish[..k]);
    } else {
      RemovePrefix(t.remove, 0);
      RemovePrefix(t.remove, k - |publish|);
      var cut := t.remove[..k - |publish|];
      assert Program(c, t)[..k] == publish + RemoveAll(cut);
      RunOpsJoin(c, publish, RemoveAll(cut));
      PublishAllEffect(c, t.publish);
      RemoveAllEffect(RunOps(c, publish), cut);
      forall r | r in RefsOf(t.instance, t.expected) ensures r in RunOps(c, publish).refs && r !in cut {
        MissingIsPublished(c, t, r);
        assert r !in t.remove && forall x :: x in cut ==> x in t.remove;
      }
    }
  }

  /******* Reconciliation among other processes *******/

  predicate ChangesRefOf(op: FileOp, instance: string) {
    (op.CommitRef? || op.UnlinkRef?) && op.ref.instance == instance
  }

  /** The process goes on, and no other one changes references of the instance. */
  predicate LeavesAlone(l: Label, q: string, instance: string) {
    && !((l.Fail? || l.Leave?) && l.process == q)
    && !(l.Do? && l.process != q && ChangesRefOf(l.op, instance))
  }

  lemma EffectOnOwn(c: Cache, c': Cache, op: FileOp, instance: string)
    requires Own(c.refs, instance) == Own(c'.refs, instance)
    ensures Own(Effect(c, op).refs, instance) == Own(Effect(c', op).refs, instance)
    ensures !ChangesRefOf(op, instance) ==> Own(Effect(c, op).refs, instance) == Own(c.refs, instance)
  {
    forall r
      ensures r in Own(Effect(c, op).refs, instance) <==> r in Own(Effect(c', op).refs, instance)
    {
      assert r in Own(c.refs, instance) <==> r in Own(c'.refs, instance);
    }
  }

  /** What a program makes of an instance's references depends on nothing else. */
  lemma {:induction false} RunOpsOnOwn(c: Cache, c': Cache, ops: seq<FileOp>, instance: string)
    requires Own(c.refs, instance) == Own(c'.refs, instance)
    ensures Own(RunOps(c, ops).refs, instance) == Own(RunOps(c', ops).refs, instance)
    decreases |ops|
  {
    hide Own, Effect;
    if ops != [] {
      EffectOnOwn(c, c', ops[0], instance);
      RunOpsOnOwn(Effect(c, ops[0]), Effect(c', ops[0]), ops[1..], instance);
    }
  }

  /** The instance's references as they will be once process q is through. */
  function Expected(w: World, q: string, instance: string): set<Ref>
    requires q in w.running
  {
    Own(RunOps(w.cache, w.running[q]).refs, instance)
  }

  lemma StepLeavesExpected(w: World, l: Label, q: string, instance: string)
    requires Enabled(w, l) && q in w.running && LeavesAlone(l, q, instance)
    ensures q in Next(w, l).running && Expected(Next(w, l), q, instance) == Expected(w, q, instance)
  {
    hide RunOps, Own, Effect;
    var w' := Next(w, l);
    if l.Do? && l.process == q {
      RunHead(w.cache, w.running[q]);
    } else {
      if l.Do? { EffectOnOwn(w.cache, w.cache, l.op, instance); }
      RunOpsOnOwn(w.cache, w'.cache, w.running[q], instance);
    }
  }

  lemma RunHead(c: Cache, ops: seq<FileOp>)
    requires ops != []
    ensures RunOps(c, ops) == RunOps(Effect(c, ops[0]), ops[1..])
  {
  }

  lemma {:induction false} RunLeavesExpected(w: World, run: seq<Label>, q: string, instance: string)
    requires Runs(w, run) && q in w.running && forall l :: l in run ==> LeavesAlone(l, q, instance)
    ensures q in After(w, run).running && Expected(After(w, run), q, instance) == Expected(w, q, instance)
    decreases |run|
  {
    hide Expected, Enabled, Next;
    if run != [] {
      assert run[0] in run;
      StepLeavesExpected(w, run[0], q, instance);
      forall l | l in run[1..] ensures LeavesAlone(l, q, instance) { assert l in run; }
      RunLeavesExpected(Next(w, run[0]), run[1..], q, instance);
    }
  }

  /**
   Interleaved with any other processes, publishers and removers of other instances among them, a reconciliation
   that gets through leaves its instance exactly the expected references.
   */
  lemma ReconcileAmongOthers(w: World, q: string, t: Task, run: seq<Label>)
    requires t.Reconcile? && Enabled(w, Begin(q, t)) && w.cache.refTemps == {}
    requires Runs(Next(w, Begin(q, t)), run) && forall l :: l in run ==> LeavesAlone(l, q, t.instance)
    ensures var w' := After(Next(w, Begin(q, t)), run);
            q in w'.running
              && (w'.running[q] == [] ==> Own(w'.cache.refs, t.instance) == RefsOf(t.instance, t.expected))
  {
    var begun := Next(w, Begin(q, t));
    ReconcileIsExact(w.cache, t);
    assert Expected(begun, q, t.instance) == RefsOf(t.instance, t.expected);
    RunLeavesExpected(begun, run, q, t.instance);
  }
}
