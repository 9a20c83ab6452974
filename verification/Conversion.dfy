/**
 Converting a checkpoint layer by layer while its source shards are reclaimed,
 over crashes and re-runs.  ai2apps/model_installer.py, the conversion loop.
 */
module Conversion {
  import opened Base
  import opened Reclaim
  import Backbone
  import TensorNames

  /**
   `layers` are the routed layers in ascending order, `offsets` what each of them reads, `root` the original shards.
   */
  datatype Setup = Setup(hash: Hash, plan: Plan, layers: seq<nat>, offsets: seq<LayerOffsets>,
                         root: map<string, Content>, stream: bool)

  ghost predicate ValidSetup(u: Setup) {
    && ValidPlan(u.plan)
    && (forall i, j :: 0 <= i < j < |u.layers| ==> u.layers[i] < u.layers[j])
    && (forall o :: o in u.offsets ==> o.layer in u.layers)
    && (forall s :: s in u.plan.lastLayers ==> u.plan.lastLayers[s] == LastReader(u.offsets, s))
  }

  /** Where the loop over the layers stands; a crash or an error ends in Idle. */
  datatype Phase = Idle | At(k: nat) | Made(k: nat) | Committed(k: nat) | Finished

  /** `stores` are the layers with a valid expert store, `completed` those the conversion state records. */
  datatype World = World(files: Files, stores: set<nat>, completed: set<nat>, phase: Phase)

  datatype Action =
    | Start
    | Skip
    | Make(finished: bool)        // creating a store may fail and leave none
    | Record
    | ReclaimNow(fuel: Option<nat>)
    | Proceed
    | Crash

  ghost predicate Enabled(u: Setup, w: World, a: Action) {
    match a
    case Start => w.phase.Idle?
    case Skip => w.phase.At? && w.phase.k < |u.layers| && u.layers[w.phase.k] in w.completed * w.stores
    case Make(_) => w.phase.At? && w.phase.k < |u.layers| && u.layers[w.phase.k] !in w.completed * w.stores
    case Record => w.phase.Made? && w.phase.k < |u.layers|
    case ReclaimNow(_) =>
      if u.stream then w.phase.Committed? && w.phase.k < |u.layers|
      else w.phase == At(|u.layers|) && u.layers != []
    case Proceed => if u.stream then w.phase == At(|u.layers|) else w.phase.Committed?
    case Crash => true
  }

  /** The layer a reclamation is called with: the one just committed, or the greatest after the loop. */
  function ReclaimLayer(u: Setup, w: World): nat
    requires u.layers != []
  {
    if w.phase.Committed? && w.phase.k < |u.layers| then u.layers[w.phase.k] else u.layers[|u.layers| - 1]
  }

  ghost function Next(u: Setup, w: World, a: Action): World
    requires Enabled(u, w, a)
  {
    match a
    case Start => w.(phase := At(0))
    case Skip => w.(phase := Committed(w.phase.k))
    case Make(finished) =>
      if finished then w.(stores := w.stores + {u.layers[w.phase.k]}, phase := Made(w.phase.k))
      else w.(stores := w.stores - {u.layers[w.phase.k]}, phase := Idle)
    case Record => w.(completed := w.completed + {u.layers[w.phase.k]}, phase := Committed(w.phase.k))
    case ReclaimNow(fuel) =>
      var e := Reclaim.Reclaim(u.hash, u.plan, w.files, u.plan.order, ReclaimLayer(u, w), fuel);
      w.(files := e.files,
         phase := if e.outcome != Done then Idle else if u.stream then At(w.phase.k + 1) else Finished)
    case Proceed => w.(phase := if u.stream then Finished else At(w.phase.k + 1))
    case Crash => w.(phase := Idle)
  }

  ghost predicate Runs(u: Setup, w: World, run: seq<Action>)
    decreases |run|
  {
    run == [] || (Enabled(u, w, run[0]) && Runs(u, Next(u, w, run[0]), run[1..]))
  }

  ghost function After(u: Setup, w: World, run: seq<Action>): World
    requires Runs(u, w, run)
    decreases |run|
  {
    if run == [] then w else After(u, Next(u, w, run[0]), run[1..])
  }

  /******* The invariant *******/

  /** The shard is still the one that was downloaded. */
  predicate Untouched(u: Setup, f: Files, s: string) {
    s !in f.reclaimed && (s in f.root <==> s in u.root) && (s in u.root ==> s in f.root && f.root[s] == u.root[s])
  }

  /** How many layers, in order, are known to be committed. */
  function Reached(u: Setup, w: World): nat {
    match w.phase
    case At(k) => k
    case Made(k) => k
    case Committed(k) => k + 1
    case Finished => |u.layers|
    case Idle => 0
  }

  ghost predicate ReadersCommitted(u: Setup, w: World, s: string) {
    forall o :: o in u.offsets && Reads(o, s) ==> o.layer in w.completed
  }

  /** A shard is replaced or deleted only after every layer that reads from it is committed. */
  ghost predicate TouchedAfterReaders(u: Setup, w: World) {
    forall s :: s in u.plan.lastLayers && !Untouched(u, w.files, s) ==> ReadersCommitted(u, w, s)
  }

  /** Inside a streaming run, everything last read by the layers behind it is reclaimed. */
  ghost predicate BehindReclaimed(u: Setup, w: World) {
    && (u.stream && w.phase.At? && 0 < w.phase.k <= |u.layers| ==>
          forall s :: s in u.plan.lastLayers && u.plan.lastLayers[s] <= u.layers[w.phase.k - 1] ==>
            s in w.files.reclaimed)
    && (w.phase.Finished? && u.layers != [] ==> u.plan.lastLayers.Keys <= w.files.reclaimed)
  }

  ghost predicate Inv(u: Setup, w: World) {
    && ValidSetup(u)
    && w.completed <= w.stores
    && Reached(u, w) <= |u.layers| && (forall j :: 0 <= j < Reached(u, w) ==> u.layers[j] in w.completed)
    && (w.phase.Made? ==> w.phase.k < |u.layers| && u.layers[w.phase.k] in w.stores)
    && TouchedAfterReaders(u, w)
    && BehindReclaimed(u, w)
    && w.files.bytes == ReclaimedBytes(u.plan.specs, u.plan.order, w.files.reclaimed)
  }

  /** A layer at most the one just committed is committed too. */
  lemma UpToHere(u: Setup, w: World, layer: nat)
    requires Inv(u, w) && (w.phase.Committed? || w.phase == At(|u.layers|)) && u.layers != []
    requires layer in u.layers && layer <= ReclaimLayer(u, w)
    ensures layer in w.completed
  {
    var i :| 0 <= i < |u.layers| && u.layers[i] == layer;
  }

  lemma ReclaimKeepsOrder(u: Setup, w: World, fuel: Option<nat>)
    requires Inv(u, w) && Enabled(u, w, ReclaimNow(fuel))
    ensures TouchedAfterReaders(u, Next(u, w, ReclaimNow(fuel)))
  {
    var layer := ReclaimLayer(u, w);
    var w' := Next(u, w, ReclaimNow(fuel));
    forall s | s in u.plan.lastLayers && !Untouched(u, w'.files, s) ensures ReadersCommitted(u, w', s) {
      if Due(u.plan, w.files, s, layer) {
        LastReaderIsGreatest(u.offsets, s);
        forall o | o in u.offsets && Reads(o, s) ensures o.layer in w'.completed { UpToHere(u, w, o.layer); }
      } else {
        TouchesOnlyDue(u.hash, u.plan, w.files, u.plan.order, layer, fuel, s);
        assert ReadersCommitted(u, w, s);
      }
    }
  }

  lemma ReclaimIsComplete(u: Setup, w: World, fuel: Option<nat>)
    requires Inv(u, w) && Enabled(u, w, ReclaimNow(fuel))
    ensures BehindReclaimed(u, Next(u, w, ReclaimNow(fuel)))
  {
    var layer := ReclaimLayer(u, w);
    var e := Reclaim.Reclaim(u.hash, u.plan, w.files, u.plan.order, layer, fuel);
    if e.outcome == Done {
      if fuel.Some? { EnoughFuel(u.hash, u.plan, w.files, u.plan.order, layer, fuel.value); }
      FinishedIsFinal(u.hash, u.plan, w.files, u.plan.order, layer);
      if !u.stream {
        forall s | s in u.plan.lastLayers ensures u.plan.lastLayers[s] <= layer { NoReaderBeyond(u, s); }
      }
    }
  }

  lemma NoReaderBeyond(u: Setup, s: string)
    requires ValidSetup(u) && u.layers != [] && s in u.plan.lastLayers
    ensures u.plan.lastLayers[s] <= u.layers[|u.layers| - 1]
  {
    LastReaderIsGreatest(u.offsets, s);
    if LastReader(u.offsets, s) != -1 {
      var o :| o in u.offsets && Reads(o, s) && o.layer == LastReader(u.offsets, s);
      var i :| 0 <= i < |u.layers| && u.layers[i] == o.layer;
    }
  }

  lemma ReclaimKeeps(u: Setup, w: World, fuel: Option<nat>)
    requires Inv(u, w) && Enabled(u, w, ReclaimNow(fuel))
    ensures Inv(u, Next(u, w, ReclaimNow(fuel)))
  {
    ReclaimKeepsOrder(u, w, fuel);
    ReclaimIsComplete(u, w, fuel);
    BytesAreCountedOnce(u.hash, u.plan, w.files, u.plan.order, ReclaimLayer(u, w), fuel);
    hide TouchedAfterReaders, BehindReclaimed, ValidSetup, Reclaim.Reclaim, ReclaimedBytes;
  }

  /** Nothing but a reclamation changes files, and what is committed stays committed. */
  lemma SameFilesKeepOrder(u: Setup, w: World, w': World)
    requires TouchedAfterReaders(u, w) && w'.files == w.files && w.completed <= w'.completed
    ensures TouchedAfterReaders(u, w')
  {
    forall s | s in u.plan.lastLayers && !Untouched(u, w'.files, s) ensures ReadersCommitted(u, w', s) {
      assert ReadersCommitted(u, w, s);
    }
  }

  lemma ProceedIsComplete(u: Setup, w: World)
    requires Inv(u, w) && Enabled(u, w, Proceed)
    ensures BehindReclaimed(u, Next(u, w, Proceed))
  {
    if u.stream && u.layers != [] {
      forall s | s in u.plan.lastLayers ensures s in w.files.reclaimed { NoReaderBeyond(u, s); }
    }
  }

  lemma StepKeeps(u: Setup, w: World, a: Action)
    requires Inv(u, w) && Enabled(u, w, a)
    ensures Inv(u, Next(u, w, a))
  {
    if a.ReclaimNow? {
      ReclaimKeeps(u, w, a.fuel);
    } else {
      if a.Proceed? { ProceedIsComplete(u, w); }
      SameFilesKeepOrder(u, w, Next(u, w, a));
      hide TouchedAfterReaders, ReclaimedBytes, ValidSetup, Reclaim.Reclaim;
    }
  }

  lemma {:induction false} EveryRunKeeps(u: Setup, w: World, run: seq<Action>)
    requires Inv(u, w) && Runs(u, w, run)
    ensures Inv(u, After(u, w, run))
    decreases |run|
  {
    if run != [] {
      StepKeeps(u, w, run[0]);
      EveryRunKeeps(u, Next(u, w, run[0]), run[1..]);
    }
  }

  /******* Main results *******/

  /** Right after the journal is created, with an arbitrary earlier conversion whose stores are valid. */
  ghost predicate Initial(u: Setup, w: World) {
    ValidSetup(u) && w.completed <= w.stores && w.phase.Idle? && w.files.root == u.root && w.files.reclaimed == {}
      && w.files.bytes == 0
  }

  lemma {:induction false} NothingReclaimed(specs: map<string, Spec>, order: seq<string>)
    ensures ReclaimedBytes(specs, order, {}) == 0
    decreases |order|
  {
    if order != [] { NothingReclaimed(specs, order[1..]); }
  }

  lemma InitialIsSound(u: Setup, w: World)
    requires Initial(u, w)
    ensures Inv(u, w)
  {
    NothingReclaimed(u.plan.specs, u.plan.order);
  }

  /**
   Over all crashes and re-runs: a shard is no longer the downloaded one only when every layer whose
   offset records read from it has a committed, valid expert store; and the journal's byte count is exact.
   */
  lemma ShardsOutliveTheirReaders(u: Setup, w: World, run: seq<Action>, s: string, o: LayerOffsets)
    requires Initial(u, w) && Runs(u, w, run) && s in u.plan.lastLayers && o in u.offsets && Reads(o, s)
    ensures Untouched(u, After(u, w, run).files, s) || o.layer in After(u, w, run).completed * After(u, w, run).stores
    ensures After(u, w, run).files.bytes == ReclaimedBytes(u.plan.specs, u.plan.order, After(u, w, run).files.reclaimed)
  {
    InitialIsSound(u, w);
    EveryRunKeeps(u, w, run);
    if !Untouched(u, After(u, w, run).files, s) {
      assert ReadersCommitted(u, After(u, w, run), s);
    }
  }

  /** So whenever a layer is converted, in whichever run, every shard it reads is still the original. */
  lemma ConversionReadsOriginals(u: Setup, w: World, run: seq<Action>, finished: bool, s: string, o: LayerOffsets)
    requires Initial(u, w) && Runs(u, w, run) && Enabled(u, After(u, w, run), Make(finished))
    requires o in u.offsets && o.layer == u.layers[After(u, w, run).phase.k] && Reads(o, s) && s in u.plan.lastLayers
    ensures Untouched(u, After(u, w, run).files, s)
  {
    ShardsOutliveTheirReaders(u, w, run, s, o);
  }

  /** A conversion that finishes has reclaimed every shard, as committing the backbone index demands. */
  lemma FinishedHasReclaimedAll(u: Setup, w: World, run: seq<Action>)
    requires Initial(u, w) && Runs(u, w, run) && After(u, w, run).phase.Finished? && u.layers != []
    ensures After(u, w, run).files.reclaimed >= u.plan.lastLayers.Keys
    ensures forall layer :: layer in u.layers ==> layer in After(u, w, run).completed
  {
    InitialIsSound(u, w);
    EveryRunKeeps(u, w, run);
  }

  lemma {:induction false} RunKeepsOnItsWay(u: Setup, w: World, run: seq<Action>, staged: map<string, Content>,
                                            s: string)
    requires Runs(u, w, run) && OnItsWay(u.plan, staged, w.files, s)
    ensures OnItsWay(u.plan, staged, After(u, w, run).files, s)
    decreases |run|
  {
    hide OnItsWay;
    if run != [] {
      if run[0].ReclaimNow? {
        StaysOnItsWay(u.hash, u.plan, staged, w.files, u.plan.order, ReclaimLayer(u, w), run[0].fuel, s);
      }
      RunKeepsOnItsWay(u, Next(u, w, run[0]), run[1..], staged, s);
    }
  }

  /**
   What a finished conversion leaves, after any number of crashes and re-runs and for any hash: of every shard its
   prepared backbone, byte for byte, and of a shard without one nothing.
   */
  lemma FinishedRootIsBackbone(u: Setup, w: World, run: seq<Action>, s: string)
    requires Initial(u, w) && Runs(u, w, run) && After(u, w, run).phase.Finished? && u.layers != []
    requires s in u.plan.lastLayers && s in u.plan.specs && (u.plan.specs[s].replaced ==> s in w.files.staged)
    ensures var root := After(u, w, run).files.root;
            && (s in root <==> u.plan.specs[s].replaced)
            && (s in root ==> root[s] == w.files.staged[s])
  {
    FinishedHasReclaimedAll(u, w, run);
    RunKeepsOnItsWay(u, w, run, w.files.staged, s);
  }

  /** So the source directory ends as the prepared backbone checkpoint. */
  lemma FinishedRootIsPrepared(u: Setup, w: World, run: seq<Action>, s: string, family: TensorNames.Family,
                               files: map<string, TensorNames.ShardFile>, weightMap: Backbone.WeightMap,
                               p: Backbone.Prepared)
    requires Initial(u, w) && Runs(u, w, run) && After(u, w, run).phase.Finished? && u.layers != []
    requires Backbone.PreparedFor(family, files, weightMap, u.hash, Backbone.Shards(weightMap), p)
    requires u.plan.specs == p.specs && w.files.staged == p.staged && s in u.plan.lastLayers && s in p.specs
    ensures var root := After(u, w, run).files.root;
            (s in root <==> s in p.staged) && (s in root ==> root[s] == p.staged[s])
  {
    assert p.specs[s].replaced <==> s in p.staged;
    hide Initial, Runs, After, Backbone.PreparedFor;
    FinishedRootIsBackbone(u, w, run, s);
  }

  /******* The loop itself *******/

  lemma {:induction false} OneMoreAction(u: Setup, w: World, run: seq<Action>, a: Action)
    requires Runs(u, w, run) && Enabled(u, After(u, w, run), a)
    ensures Runs(u, w, run + [a]) && After(u, w, run + [a]) == Next(u, After(u, w, run), a)
    decreases |run|
  {
    if run == [] {
      assert [] + [a] == [a] && [a][1..] == [];
    } else {
      assert (run + [a])[0] == run[0] && (run + [a])[1..] == run[1..] + [a];
      OneMoreAction(u, Next(u, w, run[0]), run[1..], a);
    }
  }

  class ConversionJob {
    const u: Setup
    const transition: Transition
    var stores: set<nat>
    var completed: set<nat>

    constructor (u: Setup, transition: Transition, stores: set<nat>, completed: set<nat>)
      ensures this.u == u && this.transition == transition && this.stores == stores && this.completed == completed
    {
      this.u, this.transition, this.stores, this.completed := u, transition, stores, completed;
    }

    ghost predicate Valid()
      reads this, transition
    {
      ValidSetup(u) && ValidPlan(u.plan) && transition.hash == u.hash && transition.plan == u.plan
        && transition.converting
    }

    function Now(phase: Phase): World
      reads this, transition
    {
      World(transition.Now(), stores, completed, phase)
    }

    /**
     One run: convert what is missing, record it, reclaim what it frees.  `creates` says of every
     layer whether its store can be created; a failure ends the run.
     */
    method Run(creates: nat -> bool) returns (r: Result<nat>, ghost run: seq<Action>)
      requires Valid()
      modifies this, transition
      ensures Valid()
      ensures Runs(u, old(Now(Idle)), run)
      ensures After(u, old(Now(Idle)), run) == Now(if r.Ok? then Finished else Idle)
    {
      hide Enabled, Next, Runs, After, ValidSetup;
      ghost var before := Now(Idle);
      run := Begin(u, before);
      for k := 0 to |u.layers|
        invariant Valid() && Runs(u, before, run) && After(u, before, run) == Now(At(k))
      {
        var ok;
        ghost var more;
        ok, more := ConvertLayer(k, creates, before, run);
        run := run + more;
        if !ok { return Err("layer conversion failed"), run; }
      }
      r, run := Finish(before, run);
    }

    /** One layer: reuse a valid committed store or create it, then reclaim behind it. */
    method ConvertLayer(k: nat, creates: nat -> bool, ghost before: World, ghost run: seq<Action>)
      returns (ok: bool, ghost more: seq<Action>)
      requires Valid() && k < |u.layers| && Runs(u, before, run) && After(u, before, run) == Now(At(k))
      modifies this, transition
      ensures Valid() && Runs(u, before, run + more)
      ensures After(u, before, run + more) == Now(if ok then At(k + 1) else Idle)
    {
      hide Runs, After, ValidSetup, Reclaim.Reclaim;
      var layer := u.layers[k];
      more := [];
      assert run + more == run;
      if layer !in completed || layer !in stores {
        if !creates(layer) {
          stores := stores - {layer};
          OneMoreAction(u, before, run, Make(false));
          more := [Make(false)];
          return false, more;
        }
        stores := stores + {layer};
        OneMoreAction(u, before, run, Make(true));
        completed := completed + {layer};
        OneMoreAction(u, before, run + [Make(true)], Record);
        assert run + [Make(true)] + [Record] == run + [Make(true), Record];
        more := [Make(true), Record];
      } else {
        OneMoreAction(u, before, run, Skip);
        more := [Skip];
      }
      assert After(u, before, run + more) == Now(Committed(k));
      var last := Proceed;
      ok := true;
      if u.stream {
        var released := transition.ReclaimStreamShards(layer);
        ok := released.Ok?;
        last := ReclaimNow(None);
      }
      OneMoreAction(u, before, run + more, last);
      assert run + more + [last] == run + (more + [last]);
      more := more + [last];
    }

    /** After the loop, the policy that keeps the sources until then reclaims everything at once. */
    method Finish(ghost before: World, ghost run: seq<Action>) returns (r: Result<nat>, ghost done: seq<Action>)
      requires Valid() && Runs(u, before, run) && After(u, before, run) == Now(At(|u.layers|))
      modifies transition
      ensures Valid() && Runs(u, before, done)
      ensures After(u, before, done) == Now(if r.Ok? then Finished else Idle)
    {
      hide Runs, After, ValidSetup, Reclaim.Reclaim;
      var last := Proceed;
      r := Ok(|u.layers|);
      if !u.stream {
        if u.layers == [] {
          r, last := Err("no routed layers"), Crash;
        } else {
          var released := transition.ReclaimStreamShards(u.layers[|u.layers| - 1]);
          last := ReclaimNow(None);
          if released.Err? { r := Err(released.message); }
        }
      }
      OneMoreAction(u, before, run, last);
      done := run + [last];
    }
  }

  ghost function Begin(u: Setup, w: World): (run: seq<Action>)
    requires w.phase.Idle?
    ensures Runs(u, w, run) && After(u, w, run) == w.(phase := At(0))
  {
    assert [Start][1..] == [];
    assert Runs(u, Next(u, w, Start), []);
    [Start]
  }
}
