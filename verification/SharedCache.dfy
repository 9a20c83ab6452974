/**
 The model cache several instances share: references, opt-in markers,
 snapshots linking to blobs, and the steps that processes and the collector
 take under the reader/writer gate.  ai2apps/shared_model_cache.py and the
 import in ai2apps/model_installer.py.
 */
module SharedCache {
  import opened Base

  datatype Model = Model(repo: string, revision: string)

  datatype Ref = Ref(instance: string, model: Model)

  /** A directory below a repository's snapshots, and a file below its blobs. */
  datatype Place = Place(repo: string, name: string)
  datatype Blob = Blob(repo: string, digest: string)

  /** Temporary files left beside references or markers stop the collector. */
  datatype Cache = Cache(refs: set<Ref>, refTemps: set<string>, managed: set<Model>, markTemps: set<string>,
                         snapshots: map<Place, set<Blob>>, blobs: set<Blob>)

  function Home(m: Model): Place {
    Place(m.repo, m.revision)
  }

  predicate IsCommit(name: string) {
    |name| == 40 && forall k :: 0 <= k < 40 ==> '0' <= name[k] <= '9' || 'a' <= name[k] <= 'f'
  }

  /** A commit's name is its forty lower-case hexadecimal digits. */
  lemma CommitNames(name: string)
    ensures IsCommit(name) <==> |name| == 40 && forall ch :: ch in name ==> ch in "0123456789abcdef"
  {
    HexDigits();
    if |name| == 40 && forall ch :: ch in name ==> ch in "0123456789abcdef" {
      forall k | 0 <= k < 40 ensures '0' <= name[k] <= '9' || 'a' <= name[k] <= 'f' { assert name[k] in name; }
    }
  }

  lemma HexDigits()
    ensures forall ch: char :: ch in "0123456789abcdef" <==> '0' <= ch <= '9' || 'a' <= ch <= 'f'
  {
    var digits := "0123456789abcdef";
    forall ch: char | '0' <= ch <= '9' ensures ch in digits { assert digits[(ch - '0') as int] == ch; }
    forall ch: char | 'a' <= ch <= 'f' ensures ch in digits { assert digits[(ch - 'a') as int + 10] == ch; }
  }

  function StagedName(revision: string, unique: string): string {
    "." + revision + "." + unique + ".partial"
  }

  /******* File operations *******/

  datatype FileOp =
    | WriteRefTemp(temp: string) | CommitRef(ref: Ref, temp: string) | DropRefTemp(temp: string)
    | WriteMarkTemp(temp: string) | CommitMark(model: Model, temp: string) | DropMarkTemp(temp: string)
    | UnlinkRef(ref: Ref)
    | MakeStaged(staged: Place) | AddBlob(blob: Blob) | AddLink(staged: Place, blob: Blob)
    | PublishStaged(staged: Place, home: Place) | DropStaged(staged: Place)

  function Effect(c: Cache, op: FileOp): Cache {
    match op
    case WriteRefTemp(t) => c.(refTemps := c.refTemps + {t})
    case CommitRef(r, t) => c.(refs := c.refs + {r}, refTemps := c.refTemps - {t})
    case DropRefTemp(t) => c.(refTemps := c.refTemps - {t})
    case WriteMarkTemp(t) => c.(markTemps := c.markTemps + {t})
    case CommitMark(m, t) => c.(managed := c.managed + {m}, markTemps := c.markTemps - {t})
    case DropMarkTemp(t) => c.(markTemps := c.markTemps - {t})
    case UnlinkRef(r) => c.(refs := c.refs - {r})
    case MakeStaged(p) => if p in c.snapshots then c else c.(snapshots := c.snapshots[p := {}])
    case AddBlob(b) => c.(blobs := c.blobs + {b})
    case AddLink(p, b) => if p in c.snapshots then c.(snapshots := c.snapshots[p := c.snapshots[p] + {b}]) else c
    case PublishStaged(p, home) =>
      if p !in c.snapshots then c
      else if home in c.snapshots then c.(snapshots := c.snapshots - {p})
      else c.(snapshots := (c.snapshots - {p})[home := c.snapshots[p]])
    case DropStaged(p) => c.(snapshots := c.snapshots - {p})
  }

  /** Several operations of one process, undisturbed. */
  function RunOps(c: Cache, ops: seq<FileOp>): Cache
    decreases |ops|
  {
    if ops == [] then c else RunOps(Effect(c, ops[0]), ops[1..])
  }

  /******* What a process does while it shares the gate *******/

  /** A reference to publish, with the two temporary names its writes use. */
  datatype Publication = Publication(ref: Ref, refTemp: string, markTemp: string)

  datatype Task =
    | Publish(publication: Publication)
    | Remove(ref: Ref)
    | Mark(model: Model, markTemp: string)
    | Import(model: Model, unique: string, digests: seq<string>)
    | Reconcile(instance: string, expected: set<Model>, publish: seq<Publication>, remove: seq<Ref>)

  /** The reference becomes visible first, the marker last. */
  function PublishOps(p: Publication): seq<FileOp> {
    [WriteRefTemp(p.refTemp), CommitRef(p.ref, p.refTemp), WriteMarkTemp(p.markTemp),
     CommitMark(p.ref.model, p.markTemp)]
  }

  function PublishAll(ps: seq<Publication>): seq<FileOp> {
    if ps == [] then [] else PublishOps(ps[0]) + PublishAll(ps[1..])
  }

  function RemoveAll(refs: seq<Ref>): seq<FileOp> {
    if refs == [] then [] else [UnlinkRef(refs[0])] + RemoveAll(refs[1..])
  }

  /** Blob first, then the link to it. */
  function FillOps(staged: Place, digests: seq<string>): seq<FileOp> {
    if digests == [] then []
    else
      var blob := Blob(staged.repo, digests[0]);
      [AddBlob(blob), AddLink(staged, blob)] + FillOps(staged, digests[1..])
  }

  function ImportOps(m: Model, unique: string, digests: seq<string>): seq<FileOp> {
    var staged := Place(m.repo, StagedName(m.revision, unique));
    [MakeStaged(staged)] + FillOps(staged, digests) + [PublishStaged(staged, Home(m))]
  }

  function Own(refs: set<Ref>, instance: string): set<Ref> {
    set r | r in refs && r.instance == instance
  }

  function RefsOf(instance: string, models: set<Model>): (r: set<Ref>)
    ensures forall ref :: ref in r <==> ref.instance == instance && ref.model in models
  {
    var r := set m | m in models :: Ref(instance, m);
    assert forall ref: Ref :: ref.instance == instance && ref.model in models ==> ref == Ref(instance, ref.model);
    r
  }

  /**
   A reconciliation publishes what is missing of its own instance and removes what is not expected;
   an import's staged directory is a new one.
   */
  ghost predicate WellFormed(c: Cache, t: Task) {
    && (t.Import? ==> Place(t.model.repo, StagedName(t.model.revision, t.unique)) !in c.snapshots)
    && (t.Reconcile? ==>
      && (forall r :: r in RefsOf(t.instance, t.expected) - c.refs <==>
          exists k :: 0 <= k < |t.publish| && t.publish[k].ref == r)
      && (forall r :: r in Own(c.refs, t.instance) - RefsOf(t.instance, t.expected) <==> r in t.remove))
  }

  function Program(c: Cache, t: Task): seq<FileOp> {
    match t
    case Publish(p) => PublishOps(p)
    case Remove(r) => [UnlinkRef(r)]
    case Mark(m, temp) => [WriteMarkTemp(temp), CommitMark(m, temp)]
    case Import(m, unique, digests) => if Home(m) in c.snapshots then [] else ImportOps(m, unique, digests)
    case Reconcile(_, _, publish, remove) => if c.refTemps != {} then [] else PublishAll(publish) + RemoveAll(remove)
  }

  /** The temporary and staged names a task makes up. */
  function NamesOf(ps: seq<Publication>): set<string> {
    if ps == [] then {} else {ps[0].refTemp, ps[0].markTemp} + NamesOf(ps[1..])
  }

  function NewNames(t: Task): set<string> {
    match t
    case Publish(p) => {p.refTemp, p.markTemp}
    case Remove(_) => {}
    case Mark(_, temp) => {temp}
    case Import(_, unique, _) => {unique}
    case Reconcile(_, _, publish, _) => NamesOf(publish)
  }

  /** What an exception in the middle leaves to do: drop the temporary file or the staged directory. */
  function Cleanup(ops: seq<FileOp>): seq<FileOp> {
    if ops == [] then []
    else match ops[0]
      case CommitRef(_, t) => [DropRefTemp(t)]
      case CommitMark(_, t) => [DropMarkTemp(t)]
      case _ =>
        var last := ops[|ops| - 1];
        if last.PublishStaged? && !ops[0].MakeStaged? then [DropStaged(last.staged)] else []
  }

  /******* The collector *******/

  function Protected(c: Cache): set<Place> {
    set r | r in c.refs :: Home(r.model)
  }

  function ManagedPlaces(c: Cache): set<Place> {
    set m | m in c.managed :: Home(m)
  }

  /** Marked, unreferenced snapshots with a commit's name. */
  function Candidates(c: Cache): set<Place> {
    set p | p in c.snapshots && IsCommit(p.name) && p !in Protected(c) && p in ManagedPlaces(c)
  }

  function LinkedFrom(c: Cache, places: set<Place>): set<Blob> {
    set p, b | p in places && p in c.snapshots && b in c.snapshots[p] :: b
  }

  function CommitPlaces(c: Cache): set<Place> {
    set p | p in c.snapshots && IsCommit(p.name)
  }

  function Collectible(c: Cache): set<Blob> {
    LinkedFrom(c, Candidates(c)) - LinkedFrom(c, CommitPlaces(c) - Candidates(c))
  }

  /** Whether the collector refuses: leftovers of an interrupted write, or a link without its blob. */
  predicate Blocked(c: Cache) {
    || c.refTemps != {}
    || c.markTemps != {}
    || exists p :: p in c.snapshots && IsCommit(p.name) && !(c.snapshots[p] <= c.blobs)
  }

  /** What is still to be deleted. */
  datatype Collection = Collection(places: set<Place>, blobs: set<Blob>)

  function Collected(c: Cache): Cache {
    c.(snapshots := c.snapshots - Candidates(c), blobs := c.blobs - Collectible(c))
  }

  /******* The whole system *******/

  /**
   `running` holds the rest of every process's program while it shares the gate; `used` the names made up so far.
   `unlinked` and `marked` record history: models some reference of which was removed, and models marked explicitly.
   */
  datatype World = World(cache: Cache, running: map<string, seq<FileOp>>, collector: Option<Collection>,
                         used: set<string>, unlinked: set<Model>, marked: set<Model>)

  datatype Label =
    | Begin(process: string, task: Task)
    | Do(process: string, op: FileOp)
    | Fail(process: string)
    | Leave(process: string)       // the program's end, or a crash anywhere inside it
    | StartCollection(dryRun: bool)
    | Unlink(place: Place, blob: Blob)
    | RemoveDirectory(place: Place)
    | UnlinkBlob(blob: Blob)
    | StopCollection               // the end, or a crash anywhere inside it

  ghost predicate Enabled(w: World, l: Label) {
    match l
    case Begin(p, t) => w.collector.None? && p !in w.running && WellFormed(w.cache, t) && NewNames(t) !! w.used
    case Do(p, op) => p in w.running && w.running[p] != [] && op == w.running[p][0]
    case Fail(p) => p in w.running
    case Leave(p) => p in w.running
    case StartCollection(_) => w.collector.None? && w.running == map[]
    case Unlink(place, b) =>
      w.collector.Some? && place in w.collector.value.places && place in w.cache.snapshots
        && b in w.cache.snapshots[place]
    case RemoveDirectory(place) =>
      w.collector.Some? && place in w.collector.value.places && place in w.cache.snapshots
        && w.cache.snapshots[place] == {}
    case UnlinkBlob(b) => w.collector.Some? && w.collector.value.places == {} && b in w.collector.value.blobs
    case StopCollection => w.collector.Some?
  }

  ghost function Next(w: World, l: Label): World
    requires Enabled(w, l)
  {
    match l
    case Begin(p, t) =>
      w.(running := w.running[p := Program(w.cache, t)], used := w.used + NewNames(t),
         marked := if t.Mark? then w.marked + {t.model} else w.marked)
    case Do(p, op) =>
      w.(cache := Effect(w.cache, op), running := w.running[p := w.running[p][1..]],
         unlinked := if op.UnlinkRef? then w.unlinked + {op.ref.model} else w.unlinked)
    case Fail(p) => w.(running := w.running[p := Cleanup(w.running[p])])
    case Leave(p) => w.(running := w.running - {p})
    case StartCollection(dryRun) =>
      if dryRun || Blocked(w.cache) then w
      else w.(collector := Some(Collection(Candidates(w.cache), Collectible(w.cache))))
    case Unlink(place, b) =>
      w.(cache := w.cache.(snapshots := w.cache.snapshots[place := w.cache.snapshots[place] - {b}]))
    case RemoveDirectory(place) =>
      w.(cache := w.cache.(snapshots := w.cache.snapshots - {place}),
         collector := Some(w.collector.value.(places := w.collector.value.places - {place})))
    case UnlinkBlob(b) =>
      w.(cache := w.cache.(blobs := w.cache.blobs - {b}),
         collector := Some(w.collector.value.(blobs := w.collector.value.blobs - {b})))
    case StopCollection => w.(collector := None)
  }

  /** Every step of a run is enabled when it is taken. */
  ghost predicate Runs(w: World, run: seq<Label>)
    decreases |run|
  {
    run == [] || (Enabled(w, run[0]) && Runs(Next(w, run[0]), run[1..]))
  }

  ghost function After(w: World, run: seq<Label>): World
    requires Runs(w, run)
    decreases |run|
  {
    if run == [] then w else After(Next(w, run[0]), run[1..])
  }
}
