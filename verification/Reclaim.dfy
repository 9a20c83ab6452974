/**
 Replacing source shards by their compact backbone under a journal, with a
 crash possible between any two file operations.
 ai2apps/model_installer.py, build_storage_transition and reclaim_stream_shards.
 */
module Reclaim {
  import opened Base

  type Content = seq<Byte>

  /** What the backbone manifest says of a shard; `replaced` when some of its tensors stay. */
  datatype Spec = Spec(replaced: bool, sourceBytes: nat, digest: string)

  /** The transition's fixed part; `order` are the shard names in sorted order. */
  datatype Plan = Plan(specs: map<string, Spec>, lastLayers: map<string, int>, order: seq<string>)

  ghost predicate ValidPlan(p: Plan) {
    && NoDuplicates(p.order) && (forall s :: s in p.order ==> s in p.lastLayers && s in p.specs)
    && (forall s :: s in p.lastLayers ==> s in p.order)
  }

  /** The source directory, the staged backbone, and the journal's changing part. */
  datatype Files = Files(root: map<string, Content>, staged: map<string, Content>, reclaimed: set<string>, bytes: nat)

  /******* The journal's last layers *******/

  /** One layer of the offset manifest: for every expert, the shard of every tensor record. */
  datatype LayerOffsets = LayerOffsets(layer: nat, experts: seq<seq<string>>)

  function ShardsOf(o: LayerOffsets): set<string> {
    set e, t | 0 <= e < |o.experts| && 0 <= t < |o.experts[e]| :: o.experts[e][t]
  }

  /** Some record of that layer lies in the shard. */
  predicate Reads(o: LayerOffsets, shard: string) {
    shard in ShardsOf(o)
  }

  function LastReader(offsets: seq<LayerOffsets>, shard: string): int {
    if offsets == [] then -1
    else
      var before := LastReader(offsets[..|offsets| - 1], shard);
      if Reads(offsets[|offsets| - 1], shard) then Max(before, offsets[|offsets| - 1].layer) else before
  }

  /** It is the greatest layer that reads the shard, and -1 when none does. */
  lemma {:induction false} LastReaderIsGreatest(offsets: seq<LayerOffsets>, shard: string)
    ensures forall o :: o in offsets && Reads(o, shard) ==> o.layer <= LastReader(offsets, shard)
    ensures LastReader(offsets, shard) != -1 ==>
              exists o :: o in offsets && Reads(o, shard) && o.layer == LastReader(offsets, shard)
    ensures LastReader(offsets, shard) >= -1
  {
    if offsets != [] {
      var front, last := offsets[..|offsets| - 1], offsets[|offsets| - 1];
      LastReaderIsGreatest(front, shard);
      assert offsets == front + [last];
      if LastReader(offsets, shard) == LastReader(front, shard) {
        if LastReader(front, shard) != -1 {
          var o :| o in front && Reads(o, shard) && o.layer == LastReader(front, shard);
          assert o in offsets;
        }
      } else {
        assert last in offsets;
      }
    }
  }

  function Readers(offsets: seq<LayerOffsets>): set<string> {
    set o, s | o in offsets && s in ShardsOf(o) :: s
  }

  /** Every shard's last reader; a shard without expert tensors can go at once. */
  method BuildLastLayers(offsets: seq<LayerOffsets>, shards: set<string>) returns (r: Result<map<string, int>>)
    ensures r.Ok? <==> Readers(offsets) <= shards
    ensures r.Ok? ==> r.value.Keys == shards && forall s :: s in shards ==> r.value[s] == LastReader(offsets, s)
  {
    var last: map<string, int> := map[];
    for k := 0 to |offsets|
      invariant last.Keys == Readers(offsets[..k])
      invariant forall s :: s in last ==> last[s] == LastReader(offsets[..k], s)
    {
      assert offsets[..k + 1] == offsets[..k] + [offsets[k]];
      var before := last;
      last := AddLayer(before, offsets[k]);
      OneMoreLayer(offsets, k, before, last);
    }
    assert offsets[..|offsets|] == offsets;
    if !(last.Keys <= shards) { return Err("offset references unknown source shards"); }
    forall s | s in shards && s !in last ensures LastReader(offsets, s) == -1 { NeverRead(offsets, s); }
    r := Ok(map s | s in shards :: if s in last then last[s] else -1);
  }

  /** The two inner loops, over one layer's experts and their records. */
  method AddLayer(before: map<string, int>, o: LayerOffsets) returns (last: map<string, int>)
    ensures Counted(before, o, ShardsOf(o), last)
  {
    hide ShardsUpTo, ShardsOf;
    last := before;
    NoShards(o);
    for e := 0 to |o.experts|
      invariant Counted(before, o, ShardsUpTo(o, e, 0), last)
    {
      for t := 0 to |o.experts[e]|
        invariant Counted(before, o, ShardsUpTo(o, e, t), last)
      {
        var shard := o.experts[e][t];
        last := last[shard := Max(if shard in last then last[shard] else -1, o.layer)];
        OneMoreShard(o, e, t);
      }
      OneMoreExpert(o, e);
    }
    AllExperts(o);
  }

  /** The shards of the first `e` experts and of the first `t` records of the next. */
  function ShardsUpTo(o: LayerOffsets, e: nat, t: nat): set<string> {
    set i, j | 0 <= i < |o.experts| && 0 <= j < |o.experts[i]| && (i < e || (i == e && j < t)) :: o.experts[i][j]
  }

  lemma NoShards(o: LayerOffsets)
    ensures ShardsUpTo(o, 0, 0) == {}
  {
  }

  lemma OneMoreShard(o: LayerOffsets, e: nat, t: nat)
    requires e < |o.experts| && t < |o.experts[e]|
    ensures ShardsUpTo(o, e, t + 1) == ShardsUpTo(o, e, t) + {o.experts[e][t]}
  {
  }

  lemma OneMoreExpert(o: LayerOffsets, e: nat)
    requires e < |o.experts|
    ensures ShardsUpTo(o, e, |o.experts[e]|) == ShardsUpTo(o, e + 1, 0)
  {
  }

  lemma AllExperts(o: LayerOffsets)
    ensures ShardsUpTo(o, |o.experts|, 0) == ShardsOf(o)
  {
  }

  ghost predicate Counted(before: map<string, int>, o: LayerOffsets, seen: set<string>, last: map<string, int>) {
    && last.Keys == before.Keys + seen
    && forall s :: s in last ==>
         last[s] == if s in seen then Max(if s in before then before[s] else -1, o.layer) else before[s]
  }

  lemma OneMoreLayer(offsets: seq<LayerOffsets>, k: nat, before: map<string, int>, last: map<string, int>)
    requires k < |offsets| && before.Keys == Readers(offsets[..k])
    requires forall s :: s in before ==> before[s] == LastReader(offsets[..k], s)
    requires Counted(before, offsets[k], ShardsOf(offsets[k]), last)
    ensures last.Keys == Readers(offsets[..k + 1])
    ensures forall s :: s in last ==> last[s] == LastReader(offsets[..k + 1], s)
  {
    var front := offsets[..k];
    assert offsets[..k + 1] == front + [offsets[k]];
    assert offsets[..k + 1][..k] == front;
    forall s | s in last ensures last[s] == LastReader(offsets[..k + 1], s) {
      if s !in before { NeverRead(front, s); }
    }
  }

  lemma {:induction false} NeverRead(offsets: seq<LayerOffsets>, s: string)
    requires s !in Readers(offsets)
    ensures LastReader(offsets, s) == -1
  {
    if offsets != [] {
      var front := offsets[..|offsets| - 1];
      assert offsets == front + [offsets[|offsets| - 1]];
      NeverRead(front, s);
    }
  }

  /******* File operations *******/

  datatype Op = Unlink | Replace | Commit

  function Do(f: Files, spec: Spec, s: string, op: Op): Files {
    match op
    case Unlink => f.(root := f.root - {s})
    case Replace => if s in f.staged then f.(root := f.root[s := f.staged[s]], staged := f.staged - {s}) else f
    case Commit => f.(reclaimed := f.reclaimed + {s}, bytes := f.bytes + spec.sourceBytes)
  }

  function DoAll(f: Files, spec: Spec, s: string, ops: seq<Op>): Files
    decreases |ops|
  {
    if ops == [] then f else DoAll(Do(f, spec, s, ops[0]), spec, s, ops[1..])
  }

  /** What remains to be done for a shard; None when its prepared backbone is gone and the root file is not it. */
  function ShardOps(hash: Hash, f: Files, spec: Spec, s: string): Option<seq<Op>> {
    if !spec.replaced then Some([Unlink, Commit])
    else if s in f.staged then Some([Unlink, Replace, Commit])
    else if s in f.root && hash(f.root[s]) == spec.digest then Some([Commit])
    else None
  }

  predicate Due(p: Plan, f: Files, s: string, layer: int) {
    s in p.lastLayers && s in p.specs && s !in f.reclaimed && p.lastLayers[s] <= layer
  }

  /** How a call ended: finished, cut off by a crash, or refused because a prepared shard is missing. */
  datatype Outcome = Done | Crashed | Failed
  datatype Ending = Ending(files: Files, outcome: Outcome)

  /** The call, crashing after `fuel` file operations if that many are ever done. */
  function Reclaim(hash: Hash, p: Plan, f: Files, order: seq<string>, layer: int, fuel: Option<nat>): Ending
    decreases |order|
  {
    if order == [] then Ending(f, Done)
    else if !Due(p, f, order[0], layer) then Reclaim(hash, p, f, order[1..], layer, fuel)
    else
      var s, spec := order[0], p.specs[order[0]];
      match ShardOps(hash, f, spec, s)
      case None => Ending(f, Failed)
      case Some(ops) =>
        if fuel.Some? && fuel.value < |ops| then Ending(DoAll(f, spec, s, ops[..fuel.value]), Crashed)
        else Reclaim(hash, p, DoAll(f, spec, s, ops), order[1..], layer,
                     if fuel.Some? then Some(fuel.value - |ops|) else None)
  }

  /******* One shard *******/

  /** The state once a shard is finished. */
  function Finished(f: Files, spec: Spec, s: string): Files {
    Files(if !spec.replaced then f.root - {s} else if s in f.staged then f.root[s := f.staged[s]] else f.root,
          if spec.replaced then f.staged - {s} else f.staged,
          f.reclaimed + {s}, f.bytes + spec.sourceBytes)
  }

  lemma OpsFinish(hash: Hash, f: Files, spec: Spec, s: string)
    requires ShardOps(hash, f, spec, s).Some?
    ensures DoAll(f, spec, s, ShardOps(hash, f, spec, s).value) == Finished(f, spec, s)
  {
    var ops := ShardOps(hash, f, spec, s).value;
    assert [Unlink, Replace, Commit][1..] == [Replace, Commit] && [Replace, Commit][1..] == [Commit]
           && [Unlink, Commit][1..] == [Commit];
    assert [Commit][1..] == [];
    if spec.replaced && s in f.staged {
      var f1 := Do(f, spec, s, Unlink);
      var f2 := Do(f1, spec, s, Replace);
      assert DoAll(f2, spec, s, [Commit]) == Do(f2, spec, s, Commit);
      assert DoAll(f1, spec, s, [Replace, Commit]) == DoAll(f2, spec, s, [Commit]);
      assert (f.root - {s})[s := f.staged[s]] == f.root[s := f.staged[s]];
    } else if spec.replaced {
      assert f.staged - {s} == f.staged;
    }
  }

  /** After j operations of a shard's sequence. */
  lemma Partial(hash: Hash, f: Files, spec: Spec, s: string, j: nat)
    requires ShardOps(hash, f, spec, s).Some? && j < |ShardOps(hash, f, spec, s).value|
    ensures DoAll(f, spec, s, ShardOps(hash, f, spec, s).value[..j])
            == if j == 0 then f else if j == 1 then f.(root := f.root - {s})
               else f.(root := f.root[s := f.staged[s]], staged := f.staged - {s})
    ensures j == 2 ==> spec.replaced && s in f.staged
  {
    var ops := ShardOps(hash, f, spec, s).value;
    if j == 1 {
      assert ops[..1] == [Unlink] && [Unlink][1..] == [];
    } else if j == 2 {
      assert ops[..2] == [Unlink, Replace] && [Unlink, Replace][1..] == [Replace] && [Replace][1..] == [];
      var f1 := Do(f, spec, s, Unlink);
      assert DoAll(f1, spec, s, [Replace]) == Do(f1, spec, s, Replace);
      assert (f.root - {s})[s := f.staged[s]] == f.root[s := f.staged[s]];
    }
  }

  /** The staged copy has the digest that was recorded for it. */
  predicate Honest(hash: Hash, f: Files, spec: Spec, s: string) {
    spec.replaced && s in f.staged ==> hash(f.staged[s]) == spec.digest
  }

  /** From any crash point of a shard its sequence can be resumed, and ends where it would have ended. */
  lemma ResumeShard(hash: Hash, f: Files, spec: Spec, s: string, j: nat)
    requires ShardOps(hash, f, spec, s).Some? && j < |ShardOps(hash, f, spec, s).value|
    requires s !in f.reclaimed && Honest(hash, f, spec, s)
    ensures var f' := DoAll(f, spec, s, ShardOps(hash, f, spec, s).value[..j]);
            && f'.reclaimed == f.reclaimed && f'.bytes == f.bytes
            && ShardOps(hash, f', spec, s).Some? && Finished(f', spec, s) == Finished(f, spec, s)
  {
    Partial(hash, f, spec, s, j);
    assert f.root - {s} - {s} == f.root - {s};
    if s in f.staged {
      assert (f.root - {s})[s := f.staged[s]] == f.root[s := f.staged[s]];
      assert f.staged - {s} - {s} == f.staged - {s};
    }
  }

  /******* Whole calls *******/

  /** Where a call may stop, an already reclaimed shard stays reclaimed. */
  lemma {:induction false} ReclaimedStays(hash: Hash, p: Plan, f: Files, order: seq<string>, layer: int,
                                          fuel: Option<nat>)
    ensures f.reclaimed <= Reclaim(hash, p, f, order, layer, fuel).files.reclaimed
    decreases |order|
  {
    if order != [] {
      var s, rest := order[0], order[1..];
      if !Due(p, f, s, layer) {
        ReclaimedStays(hash, p, f, rest, layer, fuel);
      } else if ShardOps(hash, f, p.specs[s], s).Some? {
        var ops := ShardOps(hash, f, p.specs[s], s).value;
        if fuel.Some? && fuel.value < |ops| {
          Partial(hash, f, p.specs[s], s, fuel.value);
        } else {
          OpsFinish(hash, f, p.specs[s], s);
          ReclaimedStays(hash, p, Finished(f, p.specs[s], s), rest, layer,
                         if fuel.Some? then Some(fuel.value - |ops|) else None);
        }
      }
    }
  }

  /** Every due shard's staged copy has the digest recorded for it. */
  ghost predicate AllHonest(hash: Hash, p: Plan, f: Files, order: seq<string>, layer: int) {
    forall s :: s in order && Due(p, f, s, layer) ==> Honest(hash, f, p.specs[s], s)
  }

  lemma HonestRest(hash: Hash, p: Plan, f: Files, order: seq<string>, layer: int)
    requires order != [] && AllHonest(hash, p, f, order, layer)
    ensures AllHonest(hash, p, f, order[1..], layer)
  {
  }

  lemma HonestAfter(hash: Hash, p: Plan, f: Files, order: seq<string>, layer: int, s: string)
    requires AllHonest(hash, p, f, order, layer) && s in p.specs
    ensures AllHonest(hash, p, Finished(f, p.specs[s], s), order, layer)
  {
  }

  /**
   Calling again after a crash anywhere ends exactly as the uninterrupted call does, if the staged
   copies have their recorded digests.
   */
  lemma {:induction false} RerunConverges(hash: Hash, p: Plan, f: Files, order: seq<string>, layer: int, fuel: nat)
    requires AllHonest(hash, p, f, order, layer)
    requires Reclaim(hash, p, f, order, layer, Some(fuel)).outcome == Crashed
    ensures Reclaim(hash, p, Reclaim(hash, p, f, order, layer, Some(fuel)).files, order, layer, None)
            == Reclaim(hash, p, f, order, layer, None)
    decreases |order|
  {
    var s, rest := order[0], order[1..];
    var stopped := Reclaim(hash, p, f, order, layer, Some(fuel)).files;
    HonestRest(hash, p, f, order, layer);
    if !Due(p, f, s, layer) {
      ReclaimedStays(hash, p, f, rest, layer, Some(fuel));
      RerunConverges(hash, p, f, rest, layer, fuel);
      assert !Due(p, stopped, s, layer);
    } else {
      var spec := p.specs[s];
      var ops := ShardOps(hash, f, spec, s).value;
      OpsFinish(hash, f, spec, s);
      if fuel < |ops| {
        ResumeShard(hash, f, spec, s, fuel);
        OpsFinish(hash, stopped, spec, s);
      } else {
        HonestAfter(hash, p, f, rest, layer, s);
        ReclaimedStays(hash, p, Finished(f, spec, s), rest, layer, Some(fuel - |ops|));
        RerunConverges(hash, p, Finished(f, spec, s), rest, layer, fuel - |ops|);
        assert !Due(p, stopped, s, layer);
      }
    }
  }

  /** Finishing one shard leaves the others as they were. */
  lemma OthersAsBefore(hash: Hash, p: Plan, f: Files, spec: Spec, s: string, x: string, layer: int)
    requires x != s
    ensures Due(p, Finished(f, spec, s), x, layer) == Due(p, f, x, layer)
    ensures x in p.specs ==> ShardOps(hash, Finished(f, spec, s), p.specs[x], x) == ShardOps(hash, f, p.specs[x], x)
  {
  }

  /** The uninterrupted call finishes exactly when every due shard can be finished. */
  lemma {:induction false} FinishesIff(hash: Hash, p: Plan, f: Files, order: seq<string>, layer: int)
    requires NoDuplicates(order)
    ensures Reclaim(hash, p, f, order, layer, None).outcome == (
              if forall s :: s in order && Due(p, f, s, layer) ==> ShardOps(hash, f, p.specs[s], s).Some?
              then Done else Failed)
    decreases |order|
  {
    if order != [] {
      var s, rest := order[0], order[1..];
      assert forall x :: x in order <==> x == s || x in rest;
      hide ShardOps, Finished, Due;
      DueIsPlanned(p, f, layer);
      if !Due(p, f, s, layer) {
        FinishesIff(hash, p, f, rest, layer);
      } else if ShardOps(hash, f, p.specs[s], s).Some? {
        OpsFinish(hash, f, p.specs[s], s);
        var g := Finished(f, p.specs[s], s);
        FinishesIff(hash, p, g, rest, layer);
        forall x | x in rest ensures Due(p, g, x, layer) == Due(p, f, x, layer)
                                     && (x in p.specs ==>
                                         ShardOps(hash, g, p.specs[x], x) == ShardOps(hash, f, p.specs[x], x)) {
          OthersAsBefore(hash, p, f, p.specs[s], s, x, layer);
        }
      }
    }
  }

  lemma DueIsPlanned(p: Plan, f: Files, layer: int)
    ensures forall s :: Due(p, f, s, layer) ==> s in p.specs
  {
  }

  /**
   A staged copy without its digest can strand the call: cut off between rename and journal, it is refused for ever.
   */
  lemma {:induction false} WrongDigestStrands(hash: Hash, p: Plan, f: Files, order: seq<string>, layer: int,
                                              bad: string) returns (fuel: nat)
    requires NoDuplicates(order) && bad in order && Due(p, f, bad, layer) && !Honest(hash, f, p.specs[bad], bad)
    requires Reclaim(hash, p, f, order, layer, None).outcome == Done
    ensures Reclaim(hash, p, f, order, layer, Some(fuel)).outcome == Crashed
    ensures Reclaim(hash, p, Reclaim(hash, p, f, order, layer, Some(fuel)).files, order, layer, None).outcome == Failed
    decreases |order|
  {
    var s, rest := order[0], order[1..];
    if s == bad {
      fuel := 2;
      Partial(hash, f, p.specs[s], s, 2);
    } else if !Due(p, f, s, layer) {
      fuel := WrongDigestStrands(hash, p, f, rest, layer, bad);
      ReclaimedStays(hash, p, f, rest, layer, Some(fuel));
    } else {
      var ops := ShardOps(hash, f, p.specs[s], s).value;
      OpsFinish(hash, f, p.specs[s], s);
      var g := Finished(f, p.specs[s], s);
      var later := WrongDigestStrands(hash, p, g, rest, layer, bad);
      fuel := later + |ops|;
      ReclaimedStays(hash, p, g, rest, layer, Some(later));
    }
  }

  /** Exactly when the staged copies have their digests does every crash point recover. */
  lemma RecoveryIff(hash: Hash, p: Plan, f: Files, order: seq<string>, layer: int)
    requires NoDuplicates(order) && Reclaim(hash, p, f, order, layer, None).outcome == Done
    ensures AllHonest(hash, p, f, order, layer) <==>
            forall fuel: nat :: Reclaim(hash, p, f, order, layer, Some(fuel)).outcome == Crashed ==>
              Reclaim(hash, p, Reclaim(hash, p, f, order, layer, Some(fuel)).files, order, layer, None)
              == Reclaim(hash, p, f, order, layer, None)
  {
    if AllHonest(hash, p, f, order, layer) {
      forall fuel: nat | Reclaim(hash, p, f, order, layer, Some(fuel)).outcome == Crashed
        ensures Reclaim(hash, p, Reclaim(hash, p, f, order, layer, Some(fuel)).files, order, layer, None)
                == Reclaim(hash, p, f, order, layer, None)
      {
        RerunConverges(hash, p, f, order, layer, fuel);
      }
    } else {
      var bad :| bad in order && Due(p, f, bad, layer) && !Honest(hash, f, p.specs[bad], bad);
      var fuel := WrongDigestStrands(hash, p, f, order, layer, bad);
    }
  }

  /** Once finished, a due shard's file is the backbone that was prepared for it, or gone when nothing of it stays. */
  lemma {:induction false} FinishedShards(hash: Hash, p: Plan, f: Files, order: seq<string>, layer: int, s: string)
    requires NoDuplicates(order) && s in order && Due(p, f, s, layer)
             && Reclaim(hash, p, f, order, layer, None).outcome == Done
    ensures var g := Reclaim(hash, p, f, order, layer, None).files;
            && s in g.reclaimed && (s in g.root <==> p.specs[s].replaced)
            && (s in g.root && s in f.staged ==> g.root[s] == f.staged[s])
            && (s in g.root && Honest(hash, f, p.specs[s], s) ==> hash(g.root[s]) == p.specs[s].digest)
    decreases |order|
  {
    var first, rest := order[0], order[1..];
    if s == first {
      OpsFinish(hash, f, p.specs[s], s);
      var g := Finished(f, p.specs[s], s);
      TouchesOnlyDue(hash, p, g, rest, layer, None, s);
    } else if !Due(p, f, first, layer) {
      FinishedShards(hash, p, f, rest, layer, s);
    } else {
      OpsFinish(hash, f, p.specs[first], first);
      FinishedShards(hash, p, Finished(f, p.specs[first], first), rest, layer, s);
    }
  }

  /******* What a call changes *******/

  /** Wherever it stops, a call touches only shards whose last reader is at most its layer. */
  lemma {:induction false} TouchesOnlyDue(hash: Hash, p: Plan, f: Files, order: seq<string>, layer: int,
                                          fuel: Option<nat>, x: string)
    requires !Due(p, f, x, layer)
    ensures var g := Reclaim(hash, p, f, order, layer, fuel).files;
            && (x in g.root <==> x in f.root) && (x in f.root ==> g.root[x] == f.root[x])
            && (x in g.reclaimed <==> x in f.reclaimed)
    decreases |order|
  {
    if order != [] {
      var s, rest := order[0], order[1..];
      if !Due(p, f, s, layer) {
        TouchesOnlyDue(hash, p, f, rest, layer, fuel, x);
      } else if ShardOps(hash, f, p.specs[s], s).Some? {
        var ops := ShardOps(hash, f, p.specs[s], s).value;
        if fuel.Some? && fuel.value < |ops| {
          Partial(hash, f, p.specs[s], s, fuel.value);
        } else {
          OpsFinish(hash, f, p.specs[s], s);
          TouchesOnlyDue(hash, p, Finished(f, p.specs[s], s), rest, layer,
                         if fuel.Some? then Some(fuel.value - |ops|) else None, x);
        }
      }
    }
  }

  /**
   Where a shard stands between its staged copy and its place: a copy is staged unchanged until it is in place, and
   reclaimed only then; a shard of which nothing stays is gone once it is reclaimed.
   */
  predicate OnItsWay(p: Plan, staged: map<string, Content>, f: Files, s: string) {
    if s in p.specs && p.specs[s].replaced && s in staged then
      && (s in f.staged ==> f.staged[s] == staged[s] && s !in f.reclaimed)
      && (s !in f.staged ==> s in f.root && f.root[s] == staged[s])
    else s in p.specs && !p.specs[s].replaced && s in f.reclaimed ==> s !in f.root
  }

  lemma PartialOnItsWay(hash: Hash, p: Plan, staged: map<string, Content>, f: Files, s: string, j: nat, x: string)
    requires s in p.specs && s !in f.reclaimed
    requires ShardOps(hash, f, p.specs[s], s).Some? && j < |ShardOps(hash, f, p.specs[s], s).value|
    requires OnItsWay(p, staged, f, x)
    ensures OnItsWay(p, staged, DoAll(f, p.specs[s], s, ShardOps(hash, f, p.specs[s], s).value[..j]), x)
  {
    Partial(hash, f, p.specs[s], s, j);
    if j == 1 { UnlinkedFirst(hash, f, p.specs[s], s); }
  }

  /** Only a shard that is staged, or of which nothing stays, takes more than the journal's entry. */
  lemma UnlinkedFirst(hash: Hash, f: Files, spec: Spec, s: string)
    requires ShardOps(hash, f, spec, s).Some? && |ShardOps(hash, f, spec, s).value| > 1
    ensures spec.replaced ==> s in f.staged
  {
  }

  lemma FinishedOnItsWay(hash: Hash, p: Plan, staged: map<string, Content>, f: Files, s: string, x: string)
    requires s in p.specs && ShardOps(hash, f, p.specs[s], s).Some? && OnItsWay(p, staged, f, x)
    ensures OnItsWay(p, staged, Finished(f, p.specs[s], s), x)
  {
  }

  /** Wherever a call stops, every shard is on its way, for any hash. */
  lemma {:induction false} StaysOnItsWay(hash: Hash, p: Plan, staged: map<string, Content>, f: Files,
                                         order: seq<string>, layer: int, fuel: Option<nat>, x: string)
    requires OnItsWay(p, staged, f, x)
    ensures OnItsWay(p, staged, Reclaim(hash, p, f, order, layer, fuel).files, x)
    decreases |order|
  {
    hide OnItsWay;
    if order != [] {
      var s, rest := order[0], order[1..];
      if !Due(p, f, s, layer) {
        StaysOnItsWay(hash, p, staged, f, rest, layer, fuel, x);
      } else if ShardOps(hash, f, p.specs[s], s).Some? {
        var ops := ShardOps(hash, f, p.specs[s], s).value;
        if fuel.Some? && fuel.value < |ops| {
          PartialOnItsWay(hash, p, staged, f, s, fuel.value, x);
        } else {
          OpsFinish(hash, f, p.specs[s], s);
          FinishedOnItsWay(hash, p, staged, f, s, x);
          StaysOnItsWay(hash, p, staged, Finished(f, p.specs[s], s), rest, layer,
                        if fuel.Some? then Some(fuel.value - |ops|) else None, x);
        }
      }
    }
  }

  /** The source sizes of the reclaimed shards, each once. */
  function ReclaimedBytes(specs: map<string, Spec>, order: seq<string>, reclaimed: set<string>): nat {
    if order == [] then 0
    else (if order[0] in reclaimed && order[0] in specs then specs[order[0]].sourceBytes else 0)
         + ReclaimedBytes(specs, order[1..], reclaimed)
  }

  lemma {:induction false} OneMoreReclaimed(specs: map<string, Spec>, order: seq<string>, reclaimed: set<string>,
                                            s: string)
    requires NoDuplicates(order) && s !in reclaimed && s in specs
    ensures ReclaimedBytes(specs, order, reclaimed + {s})
            == ReclaimedBytes(specs, order, reclaimed) + if s in order then specs[s].sourceBytes else 0
    decreases |order|
  {
    if order != [] { OneMoreReclaimed(specs, order[1..], reclaimed, s); }
  }

  /** Wherever a call stops, the journal's byte count is the sum over its reclaimed shards. */
  lemma {:induction false} BytesAreCountedOnce(hash: Hash, p: Plan, f: Files, order: seq<string>, layer: int,
                                               fuel: Option<nat>)
    requires NoDuplicates(p.order) && f.bytes == ReclaimedBytes(p.specs, p.order, f.reclaimed)
    requires forall s :: s in order ==> s in p.order
    ensures var g := Reclaim(hash, p, f, order, layer, fuel).files;
            g.bytes == ReclaimedBytes(p.specs, p.order, g.reclaimed)
    decreases |order|
  {
    if order != [] {
      var s, rest := order[0], order[1..];
      if !Due(p, f, s, layer) {
        BytesAreCountedOnce(hash, p, f, rest, layer, fuel);
      } else if ShardOps(hash, f, p.specs[s], s).Some? {
        var ops := ShardOps(hash, f, p.specs[s], s).value;
        if fuel.Some? && fuel.value < |ops| {
          Partial(hash, f, p.specs[s], s, fuel.value);
        } else {
          OpsFinish(hash, f, p.specs[s], s);
          OneMoreReclaimed(p.specs, p.order, f.reclaimed, s);
          BytesAreCountedOnce(hash, p, Finished(f, p.specs[s], s), rest, layer,
                              if fuel.Some? then Some(fuel.value - |ops|) else None);
        }
      }
    }
  }

  /******* Crash after crash *******/

  /** A call that is not cut off ends like the uninterrupted one. */
  lemma {:induction false} EnoughFuel(hash: Hash, p: Plan, f: Files, order: seq<string>, layer: int, fuel: nat)
    requires Reclaim(hash, p, f, order, layer, Some(fuel)).outcome != Crashed
    ensures Reclaim(hash, p, f, order, layer, Some(fuel)) == Reclaim(hash, p, f, order, layer, None)
    decreases |order|
  {
    if order != [] {
      var s, rest := order[0], order[1..];
      if !Due(p, f, s, layer) {
        EnoughFuel(hash, p, f, rest, layer, fuel);
      } else if ShardOps(hash, f, p.specs[s], s).Some? {
        var ops := ShardOps(hash, f, p.specs[s], s).value;
        EnoughFuel(hash, p, DoAll(f, p.specs[s], s, ops), rest, layer, fuel - |ops|);
      }
    }
  }

  /** A finished call leaves nothing due, so calling again changes nothing. */
  lemma {:induction false} FinishedIsFinal(hash: Hash, p: Plan, f: Files, order: seq<string>, layer: int)
    requires Reclaim(hash, p, f, order, layer, None).outcome == Done
    ensures var g := Reclaim(hash, p, f, order, layer, None).files;
            (forall s :: s in order ==> !Due(p, g, s, layer))
              && Reclaim(hash, p, g, order, layer, None) == Ending(g, Done)
    decreases |order|
  {
    if order != [] {
      var s, rest := order[0], order[1..];
      if !Due(p, f, s, layer) {
        FinishedIsFinal(hash, p, f, rest, layer);
        ReclaimedStays(hash, p, f, rest, layer, None);
      } else {
        OpsFinish(hash, f, p.specs[s], s);
        FinishedIsFinal(hash, p, Finished(f, p.specs[s], s), rest, layer);
        ReclaimedStays(hash, p, Finished(f, p.specs[s], s), rest, layer, None);
      }
    }
  }

  /** Staged copies are only taken away. */
  lemma {:induction false} StagedShrinks(hash: Hash, p: Plan, f: Files, order: seq<string>, layer: int,
                                         fuel: Option<nat>)
    ensures var g := Reclaim(hash, p, f, order, layer, fuel).files;
            g.staged.Keys <= f.staged.Keys && forall s :: s in g.staged ==> g.staged[s] == f.staged[s]
    decreases |order|
  {
    if order != [] {
      var s, rest := order[0], order[1..];
      if !Due(p, f, s, layer) {
        StagedShrinks(hash, p, f, rest, layer, fuel);
      } else if ShardOps(hash, f, p.specs[s], s).Some? {
        var ops := ShardOps(hash, f, p.specs[s], s).value;
        if fuel.Some? && fuel.value < |ops| {
          Partial(hash, f, p.specs[s], s, fuel.value);
        } else {
          OpsFinish(hash, f, p.specs[s], s);
          StagedShrinks(hash, p, Finished(f, p.specs[s], s), rest, layer,
                        if fuel.Some? then Some(fuel.value - |ops|) else None);
        }
      }
    }
  }

  /** One attempt after the other, each cut off where its fuel runs out. */
  function Attempts(hash: Hash, p: Plan, f: Files, order: seq<string>, layer: int, fuels: seq<nat>): Files
    decreases |fuels|
  {
    if fuels == [] then f
    else Attempts(hash, p, Reclaim(hash, p, f, order, layer, Some(fuels[0])).files, order, layer, fuels[1..])
  }

  /** However many attempts were cut off wherever, the one that gets through ends like a single undisturbed call. */
  lemma {:induction false} ManyCrashesConverge(hash: Hash, p: Plan, f: Files, order: seq<string>, layer: int,
                                               fuels: seq<nat>)
    requires AllHonest(hash, p, f, order, layer) && Reclaim(hash, p, f, order, layer, None).outcome == Done
    ensures Reclaim(hash, p, Attempts(hash, p, f, order, layer, fuels), order, layer, None)
            == Reclaim(hash, p, f, order, layer, None)
    decreases |fuels|
  {
    if fuels != [] {
      var first := Reclaim(hash, p, f, order, layer, Some(fuels[0]));
      ReclaimedStays(hash, p, f, order, layer, Some(fuels[0]));
      StagedShrinks(hash, p, f, order, layer, Some(fuels[0]));
      assert AllHonest(hash, p, first.files, order, layer);
      if first.outcome == Crashed {
        RerunConverges(hash, p, f, order, layer, fuels[0]);
      } else {
        EnoughFuel(hash, p, f, order, layer, fuels[0]);
        FinishedIsFinal(hash, p, f, order, layer);
      }
      ManyCrashesConverge(hash, p, first.files, order, layer, fuels[1..]);
    }
  }

  /******* The call as the program makes it *******/

  class Transition {
    const hash: Hash
    const plan: Plan
    var converting: bool
    var root: map<string, Content>
    var staged: map<string, Content>
    var reclaimed: set<string>
    var bytes: nat

    /** A fresh journal: nothing reclaimed yet. */
    constructor (hash: Hash, plan: Plan, root: map<string, Content>, staged: map<string, Content>)
      ensures this.hash == hash && this.plan == plan && converting
      ensures Now() == Files(root, staged, {}, 0)
    {
      this.hash, this.plan, this.converting, this.root, this.staged, this.reclaimed, this.bytes :=
        hash, plan, true, root, staged, {}, 0;
    }

    function Now(): Files
      reads this
    {
      Files(root, staged, reclaimed, bytes)
    }

    method ReclaimStreamShards(completedLayer: int) returns (r: Result<seq<string>>)
      requires ValidPlan(plan)
      modifies this
      ensures converting == old(converting)
      ensures !old(converting) ==> r == Ok([]) && Now() == old(Now())
      ensures old(converting) ==>
                var e := Reclaim(hash, plan, old(Now()), plan.order, completedLayer, None);
                Now() == e.files && (r.Ok? <==> e.outcome == Done)
      ensures r.Ok? ==> NoDuplicates(r.value) && forall s :: s in r.value <==> s in reclaimed - old(reclaimed)
    {
      if !converting { return Ok([]); }
      hide ShardOps, Reclaim, Finished;
      ghost var before := Now();
      var released := [];
      assert plan.order[0..] == plan.order;
      for k := 0 to |plan.order|
        invariant Reclaim(hash, plan, before, plan.order, completedLayer, None)
                  == Reclaim(hash, plan, Now(), plan.order[k..], completedLayer, None)
        invariant converting && NoDuplicates(released)
        invariant forall s :: s in released <==> s in reclaimed - before.reclaimed
        invariant before.reclaimed <= reclaimed
      {
        var shard := plan.order[k];
        assert plan.order[k..][0] == shard && plan.order[k..][1..] == plan.order[k + 1..];
        if shard !in reclaimed && plan.lastLayers[shard] <= completedLayer {
          ghost var start := Now();
          assert shard !in released;
          OneShard(hash, plan, start, shard, plan.order[k..], completedLayer);
          var ok := ReplaceShard(shard);
          if !ok { return Err("prepared backbone shard is missing"); }
          FinishedIsReclaimed(start, plan.specs[shard], shard);
          released := released + [shard];
        } else {
          SkippedShard(hash, plan, Now(), plan.order[k..], completedLayer);
        }
      }
      NoShardLeft(hash, plan, Now(), completedLayer);
      r := Ok(released);
    }

    /** Unlink, rename, then journal; or only journal when the rename had been done before a crash. */
    method ReplaceShard(shard: string) returns (ok: bool)
      requires shard in plan.specs
      modifies this
      ensures converting == old(converting)
      ensures ok <==> ShardOps(hash, old(Now()), plan.specs[shard], shard).Some?
      ensures Now() == if ok then Finished(old(Now()), plan.specs[shard], shard) else old(Now())
    {
      ghost var start := Now();
      var expected := plan.specs[shard];
      if expected.replaced {
        if shard !in staged {
          if shard !in root || hash(root[shard]) != expected.digest {
            return false;
          }
        } else {
          root := root - {shard};
          root, staged := root[shard := staged[shard]], staged - {shard};
        }
      } else {
        root := root - {shard};
      }
      reclaimed := reclaimed + {shard};
      bytes := bytes + expected.sourceBytes;
      SameFinish(start, expected, shard, Now());
      ok := true;
    }
  }

  lemma OneShard(hash: Hash, p: Plan, f: Files, s: string, order: seq<string>, layer: int)
    requires order != [] && order[0] == s && Due(p, f, s, layer)
    ensures Reclaim(hash, p, f, order, layer, None)
            == if ShardOps(hash, f, p.specs[s], s).Some? then
              Reclaim(hash, p, Finished(f, p.specs[s], s), order[1..], layer, None)
               else Ending(f, Failed)
  {
    if ShardOps(hash, f, p.specs[s], s).Some? { OpsFinish(hash, f, p.specs[s], s); }
  }

  lemma FinishedIsReclaimed(f: Files, spec: Spec, s: string)
    ensures Finished(f, spec, s).reclaimed == f.reclaimed + {s}
  {
  }

  lemma SkippedShard(hash: Hash, p: Plan, f: Files, order: seq<string>, layer: int)
    requires order != [] && !Due(p, f, order[0], layer)
    ensures Reclaim(hash, p, f, order, layer, None) == Reclaim(hash, p, f, order[1..], layer, None)
  {
  }

  lemma NoShardLeft(hash: Hash, p: Plan, f: Files, layer: int)
    ensures Reclaim(hash, p, f, [], layer, None) == Ending(f, Done)
  {
  }

  lemma SameFinish(f: Files, spec: Spec, s: string, g: Files)
    requires g.reclaimed == f.reclaimed + {s} && g.bytes == f.bytes + spec.sourceBytes
    requires if !spec.replaced then g.root == f.root - {s} && g.staged == f.staged
             else if s in f.staged then g.root == (f.root - {s})[s := f.staged[s]] && g.staged == f.staged - {s}
             else g.root == f.root && g.staged == f.staged
    ensures g == Finished(f, spec, s)
  {
    if spec.replaced && s in f.staged {
      assert (f.root - {s})[s := f.staged[s]] == f.root[s := f.staged[s]];
    } else if spec.replaced {
      assert f.staged - {s} == f.staged;
    }
  }
}
