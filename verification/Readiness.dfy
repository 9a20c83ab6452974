/**
 When a model with helper models is ready: a recursion over the path so far,
 and a second evaluation that overwrites the flags it reads.
 ai2apps/model_providers.py.
 */
module Readiness {
  import opened Base

  /** What every model requires, and which models are ready by themselves. */
  datatype Graph = Graph(needs: map<string, seq<string>>, ok: set<string>)

  /** The recursion both evaluations share. */
  predicate Ready(g: Graph, id: string, path: set<string>)
    decreases |g.needs.Keys - path|
  {
    && id !in path && id in g.needs && id in g.ok
    && (PathGrows(g, id, path); forall k :: 0 <= k < |g.needs[id]| ==> Ready(g, g.needs[id][k], path + {id}))
  }

  lemma PathGrows(g: Graph, id: string, path: set<string>)
    requires id !in path && id in g.needs
    ensures |g.needs.Keys - (path + {id})| < |g.needs.Keys - path|
  {
    assert g.needs.Keys - path == (g.needs.Keys - (path + {id})) + {id};
  }

  lemma ReadyUnfolds(g: Graph, id: string, path: set<string>)
    ensures Ready(g, id, path) <==>
              && id !in path && id in g.needs && id in g.ok
              && forall k :: 0 <= k < |g.needs[id]| ==> Ready(g, g.needs[id][k], path + {id})
  {
    if id !in path && id in g.needs { PathGrows(g, id, path); }
  }

  /******* What it decides *******/

  /** A walk along requirements; its last node need not exist. */
  ghost predicate IsWalk(g: Graph, w: seq<string>) {
    w != [] && forall i :: 0 <= i < |w| - 1 ==> Step(g, w, i)
  }

  ghost predicate Step(g: Graph, w: seq<string>, i: nat)
    requires i + 1 < |w|
  {
    w[i] in g.needs && w[i + 1] in g.needs[w[i]]
  }

  /** Every model on it exists and is ready by itself, and none comes twice. */
  ghost predicate GoodWalk(g: Graph, w: seq<string>) {
    NoDuplicates(w) && forall x :: x in w ==> x in g.needs && x in g.ok
  }

  lemma TailIsWalk(g: Graph, w: seq<string>)
    requires IsWalk(g, w) && |w| > 1
    ensures IsWalk(g, w[1..]) && w[0] in g.needs && w[1] in g.needs[w[0]]
  {
    assert Step(g, w, 0);
    forall i | 0 <= i < |w[1..]| - 1 ensures Step(g, w[1..], i) { assert Step(g, w, i + 1); }
  }

  lemma {:induction false} ReadyWalksAreGood(g: Graph, id: string, path: set<string>, w: seq<string>)
    requires Ready(g, id, path) && IsWalk(g, w) && w[0] == id
    ensures GoodWalk(g, w) && forall x :: x in w ==> x !in path
    decreases |w|
  {
    assert w == [id] + w[1..];
    if |w| > 1 {
      TailIsWalk(g, w);
      var k :| 0 <= k < |g.needs[id]| && g.needs[id][k] == w[1];
      ReadyWalksAreGood(g, w[1], path + {id}, w[1..]);
    }
  }

  lemma PrependWalk(g: Graph, id: string, w: seq<string>)
    requires IsWalk(g, w) && id in g.needs && w[0] in g.needs[id]
    ensures IsWalk(g, [id] + w)
  {
    forall i | 0 <= i < |[id] + w| - 1 ensures Step(g, [id] + w, i) {
      if i > 0 { assert Step(g, w, i - 1); }
    }
  }

  /** A model that is not ready has a walk that leaves what is ready, repeats itself or runs into the path. */
  lemma {:induction false} NotReadyHasBadWalk(g: Graph, id: string, path: set<string>) returns (w: seq<string>)
    requires !Ready(g, id, path)
    ensures IsWalk(g, w) && w[0] == id
    ensures !GoodWalk(g, w) || exists x :: x in w && x in path
    decreases |g.needs.Keys - path|
  {
    w := [id];
    if id !in path && id in g.needs && id in g.ok {
      PathGrows(g, id, path);
      var k :| 0 <= k < |g.needs[id]| && !Ready(g, g.needs[id][k], path + {id});
      var tail := NotReadyHasBadWalk(g, g.needs[id][k], path + {id});
      PrependWalk(g, id, tail);
      w := [id] + tail;
      BadTail(g, id, path, tail);
    }
  }

  lemma GoodTail(g: Graph, id: string, tail: seq<string>)
    requires GoodWalk(g, [id] + tail)
    ensures GoodWalk(g, tail) && id !in tail
    ensures forall x :: x in tail ==> x in [id] + tail
  {
    var w := [id] + tail;
    forall i, j | 0 <= i < j < |tail| ensures tail[i] != tail[j] { assert w[i + 1] != w[j + 1]; }
    forall i | 0 <= i < |tail| ensures tail[i] != id { assert w[0] != w[i + 1]; }
    forall x | x in tail ensures x in w {}
  }

  lemma BadTail(g: Graph, id: string, path: set<string>, tail: seq<string>)
    requires !GoodWalk(g, tail) || exists x :: x in tail && x in path + {id}
    ensures !GoodWalk(g, [id] + tail) || exists x :: x in [id] + tail && x in path
  {
    if GoodWalk(g, [id] + tail) {
      GoodTail(g, id, tail);
      hide GoodWalk;
      var x :| x in tail && x in path + {id};
      assert x in [id] + tail;
    }
  }

  /**
   A model is ready exactly when everything reachable from it exists and is ready by itself, and no cycle is
   reachable.
   */
  lemma ReadyIff(g: Graph, id: string)
    ensures Ready(g, id, {}) <==> forall w :: IsWalk(g, w) && w[0] == id ==> GoodWalk(g, w)
  {
    if Ready(g, id, {}) {
      forall w | IsWalk(g, w) && w[0] == id ensures GoodWalk(g, w) { ReadyWalksAreGood(g, id, {}, w); }
    } else {
      var w := NotReadyHasBadWalk(g, id, {});
    }
  }

  /** The path only matters for models on it. */
  lemma ReadyOnPath(g: Graph, id: string, path: set<string>)
    ensures Ready(g, id, path) ==> Ready(g, id, {})
  {
    if Ready(g, id, path) {
      forall w | IsWalk(g, w) && w[0] == id ensures GoodWalk(g, w) { ReadyWalksAreGood(g, id, path, w); }
      ReadyIff(g, id);
    }
  }

  /******* Model checkpoints *******/

  /** `required` is None when the metadata's list is malformed; `weights` when the model declares weights. */
  datatype PackageModel = PackageModel(weights: bool, required: Option<seq<string>>)

  /** A checkpoint record names a path once it is there. */
  datatype Checkpoint = Checkpoint(path: Option<string>)

  predicate CheckpointsReady(id: string, models: map<string, PackageModel>, checkpoints: map<string, Checkpoint>,
                             resolving: set<string>)
    decreases |models.Keys - resolving|
  {
    if id in resolving || id !in models then false
    else if id in checkpoints && checkpoints[id].path.None? then false
    else if id !in checkpoints && models[id].weights then false
    else if models[id].required.None? then false
    else
      var required := models[id].required.value;
      assert models.Keys - resolving == (models.Keys - (resolving + {id})) + {id};
      forall k :: 0 <= k < |required| ==> CheckpointsReady(required[k], models, checkpoints, resolving + {id})
  }

  /** Its own snapshot is there, or it needs none. */
  predicate OwnCheckpointReady(id: string, m: PackageModel, checkpoints: map<string, Checkpoint>) {
    m.required.Some? && if id in checkpoints then checkpoints[id].path.Some? else !m.weights
  }

  function CheckpointGraph(models: map<string, PackageModel>, checkpoints: map<string, Checkpoint>): Graph {
    Graph(map id | id in models :: if models[id].required.Some? then models[id].required.value else [],
          set id | id in models && OwnCheckpointReady(id, models[id], checkpoints))
  }

  lemma {:induction false} CheckpointsReadyIs(id: string, models: map<string, PackageModel>,
                                              checkpoints: map<string, Checkpoint>, resolving: set<string>)
    ensures CheckpointsReady(id, models, checkpoints, resolving) <==>
              Ready(CheckpointGraph(models, checkpoints), id, resolving)
    decreases |models.Keys - resolving|
  {
    var g := CheckpointGraph(models, checkpoints);
    assert g.needs.Keys == models.Keys;
    if id !in resolving && id in models && id in g.ok {
      PathGrows(g, id, resolving);
      var required := models[id].required.value;
      forall k | 0 <= k < |required|
        ensures CheckpointsReady(required[k], models, checkpoints, resolving + {id}) <==>
                  Ready(g, required[k], resolving + {id})
      {
        CheckpointsReadyIs(required[k], models, checkpoints, resolving + {id});
      }
    }
  }

  /**
   A callable model is ready exactly when every helper it reaches exists, has its snapshot, and no cycle is reached.
   */
  lemma CheckpointsReadyIff(id: string, models: map<string, PackageModel>, checkpoints: map<string, Checkpoint>)
    ensures CheckpointsReady(id, models, checkpoints, {}) <==>
            forall w :: IsWalk(CheckpointGraph(models, checkpoints), w) && w[0] == id ==>
              GoodWalk(CheckpointGraph(models, checkpoints), w)
  {
    CheckpointsReadyIs(id, models, checkpoints, {});
    ReadyIff(CheckpointGraph(models, checkpoints), id);
  }

  /******* Recipes, evaluated in place *******/

  datatype Recipe = Recipe(id: string, native: bool, required: seq<string>)

  function Needs(recipes: seq<Recipe>): map<string, seq<string>> {
    map r | r in recipes :: r.id := RequiredBy(recipes, r.id)
  }

  function RequiredBy(recipes: seq<Recipe>, id: string): seq<string> {
    if recipes == [] then [] else if recipes[0].id == id then recipes[0].required else RequiredBy(recipes[1..], id)
  }

  ghost predicate UniqueIds(recipes: seq<Recipe>) {
    forall i, j :: 0 <= i < j < |recipes| ==> recipes[i].id != recipes[j].id
  }

  lemma {:induction false} RequiredByIs(recipes: seq<Recipe>, r: Recipe)
    requires UniqueIds(recipes) && r in recipes
    ensures RequiredBy(recipes, r.id) == r.required
  {
    if recipes[0] != r {
      assert r in recipes[1..];
      var i :| 0 < i < |recipes| && recipes[i] == r;
      RequiredByIs(recipes[1..], r);
    }
  }

  /** Fewer flags never make a model ready. */
  lemma {:induction false} ReadyMonotone(g: Graph, g': Graph, id: string, path: set<string>)
    requires g.needs == g'.needs && g'.ok <= g.ok && Ready(g', id, path)
    ensures Ready(g, id, path)
    decreases |g.needs.Keys - path|
  {
    PathGrows(g, id, path);
    forall k | 0 <= k < |g.needs[id]| ensures Ready(g, g.needs[id][k], path + {id}) {
      ReadyMonotone(g, g', g.needs[id][k], path + {id});
    }
  }

  /** Clearing flags of models that are not ready anyway changes no model's readiness. */
  lemma {:induction false} ClearingKeepsReady(g: Graph, g': Graph, id: string, path: set<string>)
    requires g.needs == g'.needs && g'.ok <= g.ok && (forall x :: x in g.ok && Ready(g, x, {}) ==> x in g'.ok)
    ensures Ready(g, id, path) <==> Ready(g', id, path)
    decreases |g.needs.Keys - path|
  {
    if Ready(g', id, path) {
      ReadyMonotone(g, g', id, path);
    } else if Ready(g, id, path) {
      ReadyOnPath(g, id, path);
      PathGrows(g, id, path);
      forall k | 0 <= k < |g.needs[id]| ensures Ready(g', g.needs[id][k], path + {id}) {
        ClearingKeepsReady(g, g', g.needs[id][k], path + {id});
      }
    }
  }

  class RecipeBook {
    const recipes: seq<Recipe>
    var installed: set<string>
    var resolving: set<string>

    constructor (recipes: seq<Recipe>, installed: set<string>)
      ensures this.recipes == recipes && this.installed == installed && resolving == {}
    {
      this.recipes, this.installed, this.resolving := recipes, installed, {};
    }

    function Flags(): Graph
      reads this
    {
      Graph(Needs(recipes), installed)
    }

    /** `dependencies_ready`: marks the recipe while it looks at its requirements, and unmarks it on every way out. */
    method DependenciesReady(id: string) returns (ready: bool)
      requires UniqueIds(recipes) && id in Needs(recipes)
      modifies this`resolving
      ensures ready == Ready(Flags(), id, old(resolving))
      ensures resolving == old(resolving)
      decreases |Needs(recipes).Keys - resolving|
    {
      hide Needs, Ready;
      ghost var g, path := Flags(), resolving;
      ReadyUnfolds(g, id, path);
      if id in resolving { return false; }
      PathGrows(g, id, path);
      resolving := resolving + {id};
      var required := Needs(recipes)[id];
      ready := id in installed;
      var k := 0;
      while ready && k < |required|
        invariant 0 <= k <= |required| && resolving == path + {id} && Flags() == g
        invariant ready ==> id in g.ok && forall i :: 0 <= i < k ==> Ready(g, required[i], path + {id})
        invariant !ready ==> !Ready(g, id, path)
      {
        ReadyUnfolds(g, required[k], path + {id});
        if required[k] in Needs(recipes) {
          ready := DependenciesReady(required[k]);
        } else {
          ready := false;
        }
        k := k + 1;
      }
      resolving := resolving - {id};
      assert path + {id} - {id} == path;
    }

    /** Every native recipe's flag becomes its readiness, while other recipes still read the flags. */
    method MarkNativeReadiness()
      requires UniqueIds(recipes) && resolving == {}
      modifies this
      ensures resolving == {}
      ensures forall r :: r in recipes ==>
                (r.id in installed <==> if r.native then Ready(old(Flags()), r.id, {}) else r.id in old(installed))
    {
      hide Ready;
      ghost var before := Flags();
      for k := 0 to |recipes|
        invariant resolving == {} && installed <= before.ok
        invariant forall i :: 0 <= i < k ==>
                    (recipes[i].id in installed <==>
                     if recipes[i].native then Ready(before, recipes[i].id, {}) else recipes[i].id in before.ok)
        invariant forall x :: x in before.ok && x !in installed ==> !Ready(before, x, {})
        invariant forall i :: k <= i < |recipes| ==> (recipes[i].id in installed <==> recipes[i].id in before.ok)
      {
        if recipes[k].native {
          var id := recipes[k].id;
          assert recipes[k] in recipes;
          var ready := DependenciesReady(id);
          ClearingKeepsReady(before, Flags(), id, {});
          ReadyUnfolds(before, id, {});
          installed := if ready then installed + {id} else installed - {id};
        }
      }
    }
  }

  /** The result does not depend on the order of the recipes. */
  lemma OrderDoesNotMatter(a: seq<Recipe>, b: seq<Recipe>, ok: set<string>, id: string)
    requires UniqueIds(a) && UniqueIds(b) && forall r :: r in a <==> r in b
    ensures Ready(Graph(Needs(a), ok), id, {}) <==> Ready(Graph(Needs(b), ok), id, {})
  {
    forall r | r in a ensures RequiredBy(a, r.id) == RequiredBy(b, r.id) {
      RequiredByIs(a, r);
      RequiredByIs(b, r);
    }
    assert Needs(a) == Needs(b);
  }
}
