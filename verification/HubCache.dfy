/**
 The shared cache as one process uses it while nobody else writes: publish,
 remove, reconcile and collect.  ai2apps/shared_model_cache.py.
 */
module HubCache {
  import opened Base
  import opened SharedCache
  import Proofs = SharedCacheProofs

  datatype CollectionResult = CollectionResult(scanned: nat, protected: seq<Place>, unmanaged: seq<Place>,
                                               collected: seq<Place>, blobs: seq<Blob>, reclaimed: nat)

  function TotalBytes(sizes: map<Blob, nat>, blobs: seq<Blob>): nat {
    if blobs == [] then 0
    else
      var last := blobs[|blobs| - 1];
      TotalBytes(sizes, blobs[..|blobs| - 1]) + (if last in sizes then sizes[last] else 0)
  }

  class SharedModelCache {
    var refs: set<Ref>
    var refTemps: set<string>
    var managed: set<Model>
    var markTemps: set<string>
    var snapshots: map<Place, set<Blob>>
    var blobs: set<Blob>

    function State(): Cache
      reads this
    {
      Cache(refs, refTemps, managed, markTemps, snapshots, blobs)
    }

    /** Reference first, marker last. */
    method Publish(p: Publication)
      modifies this
      ensures State() == RunPublish(old(State()), p)
    {
      refTemps := refTemps + {p.refTemp};
      refs, refTemps := refs + {p.ref}, refTemps - {p.refTemp};
      markTemps := markTemps + {p.markTemp};
      managed, markTemps := managed + {p.ref.model}, markTemps - {p.markTemp};
      Proofs.PublishEffect(old(State()), p);
    }

    method Remove(r: Ref) returns (removed: bool)
      modifies this
      ensures State() == Effect(old(State()), UnlinkRef(r)) && removed == (r in old(refs))
    {
      removed := r in refs;
      refs := refs - {r};
    }

    /** Make one instance's references exactly the expected ones; `temps` makes up temporary names. */
    method Reconcile(instance: string, expected: set<Model>, temps: (Model, bool) -> string)
      returns (r: Result<(nat, nat)>, ghost task: Task)
      modifies this
      ensures r.Err? <==> old(refTemps) != {}
      ensures r.Err? ==> State() == old(State())
      ensures task.Reconcile? && task.instance == instance && task.expected == expected
              && WellFormed(old(State()), task)
      ensures State() == RunOps(old(State()), Program(old(State()), task))
      ensures r.Ok? ==> r.value == (|task.publish|, |task.remove|) && Own(refs, instance) == RefsOf(instance, expected)
      ensures forall other :: other != instance ==> Own(refs, other) == Own(old(refs), other)
    {
      hide RunOps, PublishAll, RemoveAll, RefsOf, Own, WellFormed, Program;
      ghost var before := State();
      var missing := RefsOf(instance, expected) - refs;
      var extra := Own(refs, instance) - RefsOf(instance, expected);
      var publish := ListPublications(missing, temps);
      var remove := ListOf(extra);
      task := Task.Reconcile(instance, expected, publish, remove);
      WellFormedReconcile(before, task);
      if refTemps != {} {
        RefusedChangesNothing(before, task);
        r := Err("incomplete shared model reference exists");
        return;
      }
      ReconcileProgram(before, task);
      PublishEach(publish);
      Proofs.PublishAllEffect(before, publish);
      var removed := RemoveEach(remove);
      Proofs.RunOpsJoin(before, PublishAll(publish), RemoveAll(remove));
      Proofs.ReconcileIsExact(before, task);
      r := Ok((|publish|, removed));
    }

    method RemoveEach(remove: seq<Ref>) returns (removed: nat)
      requires NoDuplicates(remove) && forall r :: r in remove ==> r in refs
      modifies this
      ensures State() == RunOps(old(State()), RemoveAll(remove)) && removed == |remove|
    {
      ghost var before := State();
      removed := 0;
      for k := 0 to |remove|
        invariant State() == before.(refs := before.refs - Members(remove[..k])) && removed == k
      {
        assert remove[k] in before.refs && remove[k] !in remove[..k];
        var found := Remove(remove[k]);
        if found { removed := removed + 1; }
        OneMoreMember(remove, k);
      }
      assert remove[..|remove|] == remove;
      Proofs.RemoveAllEffect(before, remove);
    }

    method PublishEach(publish: seq<Publication>)
      modifies this
      ensures State() == RunOps(old(State()), PublishAll(publish))
    {
      ghost var before := State();
      for k := 0 to |publish|
        invariant State() == RunOps(before, PublishAll(publish[..k]))
      {
        Publish(publish[k]);
        OneMorePublication(before, publish, k);
      }
      assert publish[..|publish|] == publish;
    }

    /**
     Collect the commit snapshots that are marked and unreferenced.  `listing` lists the snapshot
     directories of all repositories in sorted order; `sizes` are the blobs' sizes.
     */
    method Collect(listing: seq<Place>, sizes: map<Blob, nat>, dryRun: bool) returns (r: Result<CollectionResult>)
      requires Lists(listing, snapshots.Keys)
      modifies this
      ensures r.Err? <==> Refuses(old(State()))
      ensures r.Ok? ==> Reports(old(State()), sizes, r.value)
      ensures r.Err? || dryRun ==> State() == old(State())
      ensures r.Ok? && !dryRun ==>
                State() == Collected(old(State()))
                == old(State()).(snapshots := old(snapshots) - Members(r.value.collected),
                                 blobs := old(blobs) - Members(r.value.blobs))
    {
      hide Candidates, Collectible, Collected, Refuses, Reports;
      ghost var before := State();
      r := Plan(State(), listing, sizes);
      if r.Err? || dryRun { return; }
      var places, doomed := r.value.collected, r.value.blobs;
      for k := 0 to |places|
        invariant State() == before.(snapshots := before.snapshots - Members(places[..k]))
      {
        snapshots := snapshots - {places[k]};
        OneMoreMember(places, k);
        assert before.snapshots - Members(places[..k]) - {places[k]} == before.snapshots - Members(places[..k + 1]);
      }
      assert places[..|places|] == places;
      for k := 0 to |doomed|
        invariant State()
                  == before.(snapshots := before.snapshots - Members(places),
                             blobs := before.blobs - Members(doomed[..k]))
      {
        blobs := blobs - {doomed[k]};
        OneMoreMember(doomed, k);
      }
      assert doomed[..|doomed|] == doomed;
      ListedIsAll(places, Candidates(before));
      ListedIsAll(doomed, Collectible(before));
      CollectedIs(before);
    }
  }

  function RunPublish(c: Cache, p: Publication): Cache {
    RunOps(c, PublishOps(p))
  }

  /** The elements of a set in some order. */
  method ListOf<T(==)>(all: set<T>) returns (items: seq<T>)
    ensures Lists(items, all) && |items| == |all|
  {
    items := [];
    var todo := all;
    while todo != {}
      invariant todo <= all && Lists(items, all - todo) && |items| + |todo| == |all|
      decreases |todo|
    {
      var x :| x in todo;
      items := items + [x];
      todo := todo - {x};
    }
  }

  function Members<T>(items: seq<T>): set<T> {
    set x | x in items
  }

  lemma OneMoreMember<T>(items: seq<T>, k: nat)
    requires k < |items|
    ensures Members(items[..k + 1]) == Members(items[..k]) + {items[k]}
  {
  }

  lemma ListedIsAll<T>(items: seq<T>, all: set<T>)
    requires Lists(items, all)
    ensures Members(items) == all
  {
  }

  lemma CollectedIs(c: Cache)
    ensures Collected(c) == c.(snapshots := c.snapshots - Candidates(c), blobs := c.blobs - Collectible(c))
  {
  }

  /** A directory named by a commit; whether its model is marked; and whether some instance refers to it. */
  ghost predicate Commit(c: Cache, p: Place) {
    p in c.snapshots && |p.name| == 40 && forall ch :: ch in p.name ==> ch in "0123456789abcdef"
  }

  predicate Marked(c: Cache, p: Place) {
    Model(p.repo, p.name) in c.managed
  }

  predicate Referenced(c: Cache, p: Place) {
    exists r :: r in c.refs && r.model == Model(p.repo, p.name)
  }

  /** Leftovers of an interrupted write, or a commit's snapshot that links to a missing blob. */
  ghost predicate Refuses(c: Cache) {
    || c.refTemps != {}
    || c.markTemps != {}
    || exists p :: Commit(c, p) && !(c.snapshots[p] <= c.blobs)
  }

  /** What goes: marked, unreferenced snapshots of commits, and the blobs that no other such snapshot links to. */
  ghost predicate Goes(c: Cache, p: Place) {
    Commit(c, p) && Marked(c, p) && !Referenced(c, p)
  }

  ghost predicate BlobGoes(c: Cache, b: Blob) {
    && (exists p :: Goes(c, p) && b in c.snapshots[p])
    && forall p :: Commit(c, p) && b in c.snapshots[p] ==> Goes(c, p)
  }

  /** The result names exactly the protected, unmanaged and collected snapshots and what goes with them. */
  ghost predicate Reports(c: Cache, sizes: map<Blob, nat>, r: CollectionResult) {
    && NoDuplicates(r.protected) && NoDuplicates(r.unmanaged) && NoDuplicates(r.collected) && NoDuplicates(r.blobs)
    && (forall p :: p in r.protected <==> Commit(c, p) && Referenced(c, p))
    && (forall p :: p in r.unmanaged <==> Commit(c, p) && !Referenced(c, p) && !Marked(c, p))
    && (forall p :: p in r.collected <==> Goes(c, p))
    && (forall b :: b in r.blobs <==> BlobGoes(c, b))
    && r.scanned == |r.protected| + |r.unmanaged| + |r.collected|
    && r.reclaimed == TotalBytes(sizes, r.blobs)
  }

  /** The same, by the sets the collector computes. */
  ghost predicate Planned(c: Cache, sizes: map<Blob, nat>, r: CollectionResult) {
    && Lists(r.protected, CommitPlaces(c) * Protected(c))
    && Lists(r.unmanaged, CommitPlaces(c) - Protected(c) - ManagedPlaces(c))
    && Lists(r.collected, Candidates(c))
    && Lists(r.blobs, Collectible(c))
    && r.scanned == |r.protected| + |r.unmanaged| + |r.collected|
    && r.reclaimed == TotalBytes(sizes, r.blobs)
  }

  /** What the collector's sets are, place by place and blob by blob. */
  lemma PlacesAre(c: Cache, p: Place)
    ensures p in CommitPlaces(c) <==> Commit(c, p)
    ensures p in Protected(c) <==> Referenced(c, p)
    ensures p in ManagedPlaces(c) <==> Marked(c, p)
    ensures p in Candidates(c) <==> Goes(c, p)
  {
    CommitNames(p.name);
    if r :| r in c.refs && r.model == Model(p.repo, p.name) { assert Home(r.model) == p; }
    if Marked(c, p) { assert Home(Model(p.repo, p.name)) == p; }
  }

  lemma BlobsAre(c: Cache, b: Blob)
    ensures b in Collectible(c) <==> BlobGoes(c, b)
  {
    forall p ensures (p in CommitPlaces(c) <==> Commit(c, p)) && (p in Candidates(c) <==> Goes(c, p)) {
      PlacesAre(c, p);
    }
    hide Candidates, CommitPlaces, Goes, Commit;
    if b in Collectible(c) {
      var p :| p in Candidates(c) && p in c.snapshots && b in c.snapshots[p];
      assert forall q :: Commit(c, q) && !Goes(c, q) ==> q in CommitPlaces(c) - Candidates(c);
    }
  }

  lemma PlannedIsReported(c: Cache, sizes: map<Blob, nat>, r: CollectionResult)
    requires Planned(c, sizes, r)
    ensures Reports(c, sizes, r)
  {
    forall p
      ensures (p in CommitPlaces(c) <==> Commit(c, p)) && (p in Protected(c) <==> Referenced(c, p))
      ensures (p in ManagedPlaces(c) <==> Marked(c, p)) && (p in Candidates(c) <==> Goes(c, p))
    {
      PlacesAre(c, p);
    }
    forall b ensures b in Collectible(c) <==> BlobGoes(c, b) { BlobsAre(c, b); }
    hide CommitPlaces, Protected, ManagedPlaces, Candidates, Collectible, Goes, Commit, Referenced, Marked, BlobGoes;
  }

  lemma RefusesWhenBlocked(c: Cache)
    ensures Blocked(c) <==> Refuses(c)
  {
    forall p ensures p in c.snapshots && IsCommit(p.name) <==> Commit(c, p) { CommitNames(p.name); }
    hide Commit, IsCommit;
  }

  /** Where the scan of the first directories has come to. */
  ghost predicate Scanned(c: Cache, seen: seq<Place>, r: CollectionResult, retained: set<Blob>, candidates: set<Blob>) {
    var commits := CommitPlaces(c) * Members(seen);
    && Lists(r.protected, commits * Protected(c))
    && Lists(r.unmanaged, commits - Protected(c) - ManagedPlaces(c))
    && Lists(r.collected, commits * Candidates(c))
    && r.scanned == |r.protected| + |r.unmanaged| + |r.collected|
    && retained == LinkedFrom(c, commits - Candidates(c))
    && candidates == LinkedFrom(c, commits * Candidates(c))
    && forall p :: p in commits ==> c.snapshots[p] <= c.blobs
  }

  /** Classify every commit-named snapshot and add up what would go; a leftover or a dangling link stops it. */
  method Plan(c: Cache, listing: seq<Place>, sizes: map<Blob, nat>) returns (r: Result<CollectionResult>)
    requires Lists(listing, c.snapshots.Keys)
    ensures r.Err? <==> Refuses(c)
    ensures r.Ok? ==> Reports(c, sizes, r.value)
    ensures r.Ok? ==> Lists(r.value.collected, Candidates(c)) && Lists(r.value.blobs, Collectible(c))
  {
    hide Candidates, Protected, ManagedPlaces, LinkedFrom, IsCommit, Refuses, Reports;
    RefusesWhenBlocked(c);
    if c.refTemps != {} { return Err("incomplete shared model reference exists"); }
    var protected := Protected(c);
    if c.markTemps != {} { return Err("managed snapshot identity mismatch"); }
    var managed := ManagedPlaces(c);
    var result := CollectionResult(0, [], [], [], [], 0);
    var retained: set<Blob>, candidates: set<Blob> := {}, {};
    NothingScanned(c, result);
    for k := 0 to |listing|
      invariant Scanned(c, listing[..k], result, retained, candidates)
    {
      var p := listing[k];
      assert p in c.snapshots && p !in listing[..k];
      if IsCommit(p.name) {
        if !(c.snapshots[p] <= c.blobs) { return Err("snapshot has an unsafe blob link"); }
        OneMoreScanned(c, listing, k, result, retained, candidates);
        if p in protected {
          result := result.(scanned := result.scanned + 1, protected := result.protected + [p]);
          retained := retained + c.snapshots[p];
        } else if p in managed {
          result := result.(scanned := result.scanned + 1, collected := result.collected + [p]);
          candidates := candidates + c.snapshots[p];
        } else {
          result := result.(scanned := result.scanned + 1, unmanaged := result.unmanaged + [p]);
          retained := retained + c.snapshots[p];
        }
      } else {
        NotScanned(c, listing, k, result, retained, candidates);
      }
    }
    EverythingScanned(c, listing, result, retained, candidates);
    var collectible := ListOf(candidates - retained);
    var reclaimed := AddSizes(sizes, collectible);
    r := Ok(result.(blobs := collectible, reclaimed := reclaimed));
    PlannedIsReported(c, sizes, r.value);
  }

  method AddSizes(sizes: map<Blob, nat>, blobs: seq<Blob>) returns (total: nat)
    ensures total == TotalBytes(sizes, blobs)
  {
    total := 0;
    for k := 0 to |blobs|
      invariant total == TotalBytes(sizes, blobs[..k])
    {
      assert blobs[..k + 1][..k] == blobs[..k];
      if blobs[k] in sizes { total := total + sizes[blobs[k]]; }
    }
    assert blobs[..|blobs|] == blobs;
  }

  lemma NothingScanned(c: Cache, r: CollectionResult)
    requires r == CollectionResult(0, [], [], [], [], 0)
    ensures Scanned(c, [], r, {}, {})
  {
    assert Members<Place>([]) == {};
    assert CommitPlaces(c) * {} == {};
  }

  lemma ListOneMore<T>(items: seq<T>, all: set<T>, x: T)
    requires Lists(items, all) && x !in all
    ensures Lists(items + [x], all + {x})
  {
  }

  lemma LinkedFromOneMore(c: Cache, places: set<Place>, p: Place)
    requires p in c.snapshots
    ensures LinkedFrom(c, places + {p}) == LinkedFrom(c, places) + c.snapshots[p]
  {
  }

  /** Classifying one more snapshot: exactly one of the three lists grows, and one of the two blob sets. */
  lemma OneMoreScanned(c: Cache, listing: seq<Place>, k: nat, r: CollectionResult, retained: set<Blob>,
                       candidates: set<Blob>)
    requires k < |listing| && listing[k] in CommitPlaces(c) && listing[k] !in listing[..k]
    requires Scanned(c, listing[..k], r, retained, candidates) && c.snapshots[listing[k]] <= c.blobs
    ensures var p := listing[k];
            if p in Protected(c) then
              Scanned(c, listing[..k + 1], r.(scanned := r.scanned + 1, protected := r.protected + [p]),
                      retained + c.snapshots[p], candidates)
            else if p in ManagedPlaces(c) then
              Scanned(c, listing[..k + 1], r.(scanned := r.scanned + 1, collected := r.collected + [p]), retained,
                      candidates + c.snapshots[p])
            else
              Scanned(c, listing[..k + 1], r.(scanned := r.scanned + 1, unmanaged := r.unmanaged + [p]),
                      retained + c.snapshots[p], candidates)
  {
    var p := listing[k];
    var protected, managed, commits := Protected(c), ManagedPlaces(c), CommitPlaces(c) * Members(listing[..k]);
    OneMoreMember(listing, k);
    assert CommitPlaces(c) * Members(listing[..k + 1]) == commits + {p};
    assert p in Candidates(c) <==> p !in protected && p in managed;
    hide Protected, ManagedPlaces, CommitPlaces, Candidates, LinkedFrom, Members, Lists;
    if p in protected {
      ListOneMore(r.protected, commits * protected, p);
      LinkedFromOneMore(c, commits - Candidates(c), p);
    } else if p in managed {
      ListOneMore(r.collected, commits * Candidates(c), p);
      LinkedFromOneMore(c, commits * Candidates(c), p);
    } else {
      ListOneMore(r.unmanaged, commits - protected - managed, p);
      LinkedFromOneMore(c, commits - Candidates(c), p);
    }
    SplitOne(commits, p, protected, managed, Candidates(c));
  }

  /** How one more element p falls into intersections and differences. */
  lemma SplitOne(commits: set<Place>, p: Place, protected: set<Place>, managed: set<Place>, candidates: set<Place>)
    ensures (commits + {p}) * protected == commits * protected + if p in protected then {p} else {}
    ensures (commits + {p}) * candidates == commits * candidates + if p in candidates then {p} else {}
    ensures (commits + {p}) - candidates == (commits - candidates) + if p in candidates then {} else {p}
    ensures (commits + {p}) - protected - managed
            == (commits - protected - managed) + if p in protected + managed then {} else {p}
    ensures forall s: set<Place> :: s + {} == s
  {
  }

  lemma NotScanned(c: Cache, listing: seq<Place>, k: nat, r: CollectionResult, retained: set<Blob>,
                   candidates: set<Blob>)
    requires k < |listing| && listing[k] !in CommitPlaces(c)
    requires Scanned(c, listing[..k], r, retained, candidates)
    ensures Scanned(c, listing[..k + 1], r, retained, candidates)
  {
    OneMoreMember(listing, k);
    assert CommitPlaces(c) * Members(listing[..k + 1]) == CommitPlaces(c) * Members(listing[..k]);
  }

  lemma EverythingScanned(c: Cache, listing: seq<Place>, r: CollectionResult, retained: set<Blob>,
                          candidates: set<Blob>)
    requires Lists(listing, c.snapshots.Keys) && Scanned(c, listing[..|listing|], r, retained, candidates)
    requires c.refTemps == {} && c.markTemps == {}
    ensures !Blocked(c) && Collectible(c) == candidates - retained
    ensures Lists(r.protected, CommitPlaces(c) * Protected(c))
    ensures Lists(r.unmanaged, CommitPlaces(c) - Protected(c) - ManagedPlaces(c))
    ensures Lists(r.collected, Candidates(c))
    ensures r.scanned == |r.protected| + |r.unmanaged| + |r.collected|
  {
    ListedIsAll(listing, c.snapshots.Keys);
    assert listing[..|listing|] == listing;
    assert CommitPlaces(c) * c.snapshots.Keys == CommitPlaces(c);
    assert CommitPlaces(c) * Candidates(c) == Candidates(c);
    hide Protected, ManagedPlaces, Lists, Candidates;
    forall p | p in c.snapshots && IsCommit(p.name) ensures c.snapshots[p] <= c.blobs {
      assert p in CommitPlaces(c) * Members(listing[..|listing|]);
    }
  }

  lemma {:induction false} PublishAllJoin(a: seq<Publication>, p: Publication)
    ensures PublishAll(a + [p]) == PublishAll(a) + PublishOps(p)
    decreases |a|
  {
    if a == [] {
      assert a + [p] == [p] && [p][1..] == [];
      assert PublishAll([p]) == PublishOps(p) + [] == PublishOps(p);
    } else {
      assert (a + [p])[1..] == a[1..] + [p];
      PublishAllJoin(a[1..], p);
    }
  }

  lemma OneMorePublication(c: Cache, ps: seq<Publication>, k: nat)
    requires k < |ps|
    ensures RunOps(c, PublishAll(ps[..k + 1])) == RunPublish(RunOps(c, PublishAll(ps[..k])), ps[k])
  {
    assert ps[..k + 1] == ps[..k] + [ps[k]];
    PublishAllJoin(ps[..k], ps[k]);
    Proofs.RunOpsJoin(c, PublishAll(ps[..k]), PublishOps(ps[k]));
  }

  lemma WellFormedReconcile(c: Cache, t: Task)
    requires t.Reconcile? && Lists(t.remove, Own(c.refs, t.instance) - RefsOf(t.instance, t.expected))
    requires forall r :: r in RefsOf(t.instance, t.expected) - c.refs <==>
               exists k :: 0 <= k < |t.publish| && t.publish[k].ref == r
    ensures WellFormed(c, t)
    ensures forall r :: r in t.remove ==> r in c.refs
  {
  }

  lemma ReconcileProgram(c: Cache, t: Task)
    requires t.Reconcile? && c.refTemps == {}
    ensures Program(c, t) == PublishAll(t.publish) + RemoveAll(t.remove)
  {
  }

  lemma RefusedChangesNothing(c: Cache, t: Task)
    requires t.Reconcile? && c.refTemps != {}
    ensures RunOps(c, Program(c, t)) == c
  {
  }

  /** One publication for every missing reference. */
  method ListPublications(missing: set<Ref>, temps: (Model, bool) -> string) returns (ps: seq<Publication>)
    ensures |ps| == |missing| && (forall r :: r in missing <==> exists k :: 0 <= k < |ps| && ps[k].ref == r)
  {
    var order := ListOf(missing);
    ps := seq(|order|, k requires 0 <= k < |order| =>
              Publication(order[k], temps(order[k].model, false), temps(order[k].model, true)));
    assert forall k :: 0 <= k < |ps| ==> ps[k].ref == order[k] && order[k] in order;
    forall r ensures r in missing <==> exists k :: 0 <= k < |ps| && ps[k].ref == r {
      if r in missing {
        var k :| 0 <= k < |order| && order[k] == r;
        assert ps[k].ref == r;
      }
    }
  }
}
