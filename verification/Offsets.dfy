/**
 The direct-read index of routed experts: for every layer and expert, where
 each of its tensors lies in the source shards.  ai2apps/model_installer.py,
 build_deepseek_offset_manifest and build_qwen36_offset_manifest.
 */
module Offsets {
  import opened Base
  import opened TensorNames
  import Backbone
  import Reclaim

  /** A tensor's place in its file, counted from the file's start. */
  datatype Located = Located(name: Name, shard: string, offset: int, nbytes: int, dtype: string, shape: seq<nat>)

  datatype Record = Record(source: Name, shard: string, offset: int, nbytes: int, dtype: string, shape: seq<nat>)

  datatype LayerRecords = LayerRecords(layer: nat, expertBytes: int, experts: seq<seq<Record>>)

  /** The model's routed layers and the number of experts in each. */
  datatype Shape = Shape(first: nat, layers: nat, experts: nat)

  function PartsOf(raw: bool): seq<Part> {
    if raw then [Part("w1", "scale"), Part("w1", "weight"), Part("w2", "scale"), Part("w2", "weight"),
                 Part("w3", "scale"), Part("w3", "weight")]
    else [Part("down_proj", "biases"), Part("down_proj", "scales"), Part("down_proj", "weight"),
          Part("gate_proj", "biases"), Part("gate_proj", "scales"), Part("gate_proj", "weight"),
          Part("up_proj", "biases"), Part("up_proj", "scales"), Part("up_proj", "weight")]
  }

  /** The class of the tensor that holds part k of an expert: one of its own, or the layer's stacked one. */
  function ClassAt(raw: bool, layer: nat, expert: nat, k: nat): Class
    requires k < |PartsOf(raw)|
  {
    if raw then Expert(layer, expert, PartsOf(raw)[k]) else Stacked(layer, PartsOf(raw)[k])
  }

  function Expected(raw: bool, m: Shape): set<Class> {
    set l, e, k | m.first <= l < m.layers && 0 <= e < m.experts && 0 <= k < |PartsOf(raw)| :: ClassAt(raw, l, e, k)
  }

  /******* Locating tensors *******/

  type Files = map<string, ShardFile>

  /** Every shard the index names is there and holds exactly tensors the index assigns to it. */
  ghost predicate IndexAgrees(files: Files, index: Backbone.WeightMap) {
    forall s :: s in Backbone.Shards(index) ==> s in files && ShardAgrees(files[s], index, s)
  }

  predicate ShardAgrees(f: ShardFile, index: Backbone.WeightMap, s: string) {
    forall n :: n in f.header ==> n in index && index[n] == s
  }

  predicate Present(files: Files, index: Backbone.WeightMap, n: Name) {
    n in index && index[n] in files && n in files[index[n]].header
  }

  function At(f: ShardFile, shard: string, n: Name): Located
    requires n in f.header
  {
    var spec := f.header[n];
    Located(n, shard, f.dataStart + spec.start, spec.end - spec.start, spec.dtype, spec.shape)
  }

  function AllAt(f: ShardFile, shard: string): map<Name, Located> {
    map n | n in f.header :: At(f, shard, n)
  }

  ghost predicate LocatedIn(files: Files, index: Backbone.WeightMap, done: set<string>, tensors: map<Name, Located>) {
    && (forall n :: n in tensors <==> Present(files, index, n) && index[n] in done)
    && forall n :: n in tensors ==> Present(files, index, n) && tensors[n] == At(files[index[n]], index[n], n)
  }

  /** The shards in the order they are visited, and the names in the order each header lists them. */
  datatype Listing = Listing(shards: seq<string>, names: map<string, seq<Name>>)

  ghost predicate ListingOf(files: Files, index: Backbone.WeightMap, l: Listing) {
    && Lists(l.shards, Backbone.Shards(index))
    && forall s :: s in files ==> s in l.names && Lists(l.names[s], files[s].header.Keys)
  }

  /** All names, header after header. */
  function NamesInOrder(l: Listing, k: nat): seq<Name>
    requires k <= |l.shards|
  {
    if k == 0 then []
    else NamesInOrder(l, k - 1) + if l.shards[k - 1] in l.names then l.names[l.shards[k - 1]] else []
  }

  /** What was read from the first k shards. */
  ghost predicate LocatedFirst(files: Files, index: Backbone.WeightMap, l: Listing, k: nat,
                               tensors: map<Name, Located>, order: seq<Name>)
    requires k <= |l.shards|
  {
    && LocatedIn(files, index, Backbone.Visited(l.shards, k), tensors)
    && order == NamesInOrder(l, k) && Lists(order, tensors.Keys)
    && forall i :: 0 <= i < k ==> l.shards[i] in files && ShardAgrees(files[l.shards[i]], index, l.shards[i])
  }

  method Locate(files: Files, index: Backbone.WeightMap, l: Listing)
    returns (r: Result<map<Name, Located>>, order: seq<Name>)
    requires ListingOf(files, index, l)
    ensures r.Ok? <==> IndexAgrees(files, index)
    ensures r.Ok? ==> LocatedIn(files, index, Backbone.Shards(index), r.value)
    ensures r.Ok? ==> order == NamesInOrder(l, |l.shards|) && Lists(order, r.value.Keys)
  {
    hide LocatedFirst, LocatedIn, ShardAgrees, AllAt, ListingOf, IndexAgrees, Lists;
    var tensors: map<Name, Located> := map[];
    order := [];
    NothingLocated(files, index, l);
    for k := 0 to |l.shards|
      invariant LocatedFirst(files, index, l, k, tensors, order)
    {
      var shard := l.shards[k];
      ShardIsListed(files, index, l, k);
      if shard !in files { return Err("missing checkpoint shard"), order; }
      if !ShardAgrees(files[shard], index, shard) {
        return Err("checkpoint index/header disagree"), order;
      }
      OneMoreLocated(files, index, l, k, tensors, order);
      tensors, order := tensors + AllAt(files[shard], shard), order + l.names[shard];
    }
    AllLocated(files, index, l, tensors, order);
    r := Ok(tensors);
  }

  /** A shard that is missing or disagrees with the index stops the loop. */
  lemma ShardIsListed(files: Files, index: Backbone.WeightMap, l: Listing, k: nat)
    requires ListingOf(files, index, l) && k < |l.shards|
    ensures IndexAgrees(files, index) ==>
              l.shards[k] in files && ShardAgrees(files[l.shards[k]], index, l.shards[k])
    ensures l.shards[k] in files ==> l.shards[k] in l.names
  {
    assert l.shards[k] in Backbone.Shards(index);
  }

  lemma OneMoreLocated(files: Files, index: Backbone.WeightMap, l: Listing, k: nat, tensors: map<Name, Located>,
                       order: seq<Name>)
    requires ListingOf(files, index, l) && k < |l.shards| && LocatedFirst(files, index, l, k, tensors, order)
    requires l.shards[k] in files && ShardAgrees(files[l.shards[k]], index, l.shards[k])
    ensures l.shards[k] in l.names
    ensures LocatedFirst(files, index, l, k + 1, tensors + AllAt(files[l.shards[k]], l.shards[k]),
                         order + l.names[l.shards[k]])
  {
    hide LocatedIn, ShardAgrees, AllAt;
    var shard := l.shards[k];
    var after := tensors + AllAt(files[shard], shard);
    NamesAreNew(files, index, l, k, tensors);
    HeaderLocated(files[shard], shard, tensors, after);
    ListsJoin(order, tensors.Keys, l.names[shard], files[shard].header.Keys);
    assert after.Keys == tensors.Keys + files[shard].header.Keys;
    ShardLocated(files, index, Backbone.Visited(l.shards, k), tensors, shard, after);
    assert Backbone.Visited(l.shards, k + 1) == Backbone.Visited(l.shards, k) + {shard};
  }

  lemma AllLocated(files: Files, index: Backbone.WeightMap, l: Listing, tensors: map<Name, Located>, order: seq<Name>)
    requires ListingOf(files, index, l) && LocatedFirst(files, index, l, |l.shards|, tensors, order)
    ensures IndexAgrees(files, index) && LocatedIn(files, index, Backbone.Shards(index), tensors)
    ensures order == NamesInOrder(l, |l.shards|) && Lists(order, tensors.Keys)
  {
    hide LocatedIn, ShardAgrees;
    assert Backbone.Visited(l.shards, |l.shards|) == Backbone.Shards(index);
  }

  lemma ListsJoin<T>(a: seq<T>, all: set<T>, b: seq<T>, more: set<T>)
    requires Lists(a, all) && Lists(b, more) && all !! more
    ensures Lists(a + b, all + more)
  {
    forall i, j | 0 <= i < j < |a + b| ensures (a + b)[i] != (a + b)[j] {
      if i < |a| <= j { assert a[i] in all && b[j - |a|] in more; }
    }
  }

  lemma NamesAreNew(files: Files, index: Backbone.WeightMap, l: Listing, k: nat, tensors: map<Name, Located>)
    requires ListingOf(files, index, l) && k < |l.shards|
             && LocatedIn(files, index, Backbone.Visited(l.shards, k), tensors)
    requires l.shards[k] in files && ShardAgrees(files[l.shards[k]], index, l.shards[k])
    ensures forall n :: n in files[l.shards[k]].header ==> n !in tensors
  {
  }

  lemma HeaderLocated(f: ShardFile, shard: string, before: map<Name, Located>, after: map<Name, Located>)
    requires after == before + AllAt(f, shard)
    ensures forall n :: n in after <==> n in before || n in f.header.Keys
  {
  }

  lemma NothingLocated(files: Files, index: Backbone.WeightMap, l: Listing)
    ensures LocatedFirst(files, index, l, 0, map[], [])
  {
  }

  lemma ShardLocated(files: Files, index: Backbone.WeightMap, done: set<string>, before: map<Name, Located>,
                     shard: string, after: map<Name, Located>)
    requires LocatedIn(files, index, done, before) && shard in files && ShardAgrees(files[shard], index, shard)
    requires after == before + AllAt(files[shard], shard)
    ensures LocatedIn(files, index, done + {shard}, after)
  {
  }

  /******* One tensor for every class *******/

  /** Of every routed class some tensor; when several names share a class, only one of them. */
  ghost predicate TableFor(family: Family, tensors: map<Name, Located>, table: map<Class, Located>) {
    && (forall c :: c in table ==> Chosen(family, tensors, table, c))
    && forall n :: n in tensors && Routed(family, n) ==> Classify(family, n) in table
  }

  ghost predicate Chosen(family: Family, tensors: map<Name, Located>, table: map<Class, Located>, c: Class)
    requires c in table
  {
    var n := table[c].name; n in tensors && Routed(family, n) && Classify(family, n) == c && tensors[n] == table[c]
  }

  /** The last name of a class in reading order; a later spelling replaces an earlier one. */
  function LastSpelling(family: Family, order: seq<Name>, c: Class): Option<Name> {
    if order == [] then None
    else
      var n := order[|order| - 1];
      if Routed(family, n) && Classify(family, n) == c then Some(n) else LastSpelling(family, order[..|order| - 1], c)
  }

  /** The table holds for every class the last spelling. */
  ghost predicate LastTable(family: Family, tensors: map<Name, Located>, order: seq<Name>, table: map<Class, Located>) {
    forall c :: LastEntry(family, tensors, order, table, c)
  }

  ghost predicate LastEntry(family: Family, tensors: map<Name, Located>, order: seq<Name>, table: map<Class, Located>,
                            c: Class)
  {
    var last := LastSpelling(family, order, c);
    && (c in table <==> last.Some?)
    && (c in table ==> last.value in tensors && table[c] == tensors[last.value] && table[c].name == last.value)
  }

  method BuildTable(family: Family, tensors: map<Name, Located>, order: seq<Name>) returns (table: map<Class, Located>)
    requires forall n :: n in order ==> n in tensors && tensors[n].name == n
    ensures LastTable(family, tensors, order, table)
  {
    hide Classify;
    table := map[];
    for k := 0 to |order|
      invariant LastTable(family, tensors, order[..k], table)
    {
      var n := order[k];
      ghost var before := table;
      if Routed(family, n) {
        table := table[Classify(family, n) := tensors[n]];
      }
      OneMoreName(family, tensors, order, k, before, table);
    }
    assert order[..|order|] == order;
  }

  lemma OneMoreName(family: Family, tensors: map<Name, Located>, order: seq<Name>, k: nat,
                    before: map<Class, Located>, table: map<Class, Located>)
    requires k < |order| && order[k] in tensors && tensors[order[k]].name == order[k]
    requires LastTable(family, tensors, order[..k], before)
    requires table == if Routed(family, order[k]) then before[Classify(family, order[k]) := tensors[order[k]]]
                      else before
    ensures LastTable(family, tensors, order[..k + 1], table)
  {
    hide Classify;
    var more := order[..k + 1];
    assert more[..k] == order[..k];
    forall c ensures LastEntry(family, tensors, more, table, c) {
      assert LastEntry(family, tensors, order[..k], before, c);
    }
  }

  /** The last spelling stands in the order, and none of its class behind it. */
  lemma {:induction false} LastSpellingIs(family: Family, order: seq<Name>, c: Class)
    ensures var last := LastSpelling(family, order, c);
            if last.Some? then
              Routed(family, last.value) && Classify(family, last.value) == c
              && exists k :: 0 <= k < |order| && order[k] == last.value && NoneBehind(family, order, k, c)
            else forall n :: n in order && Routed(family, n) ==> Classify(family, n) != c
  {
    hide Classify;
    if order != [] {
      var m := |order| - 1;
      var n := order[m];
      if Routed(family, n) && Classify(family, n) == c {
        assert NoneBehind(family, order, m, c);
      } else {
        LastSpellingIs(family, order[..m], c);
        if LastSpelling(family, order[..m], c).Some? {
          var k :| 0 <= k < m && order[..m][k] == LastSpelling(family, order[..m], c).value
                   && NoneBehind(family, order[..m], k, c);
          forall j | k < j < |order| && Routed(family, order[j]) ensures Classify(family, order[j]) != c {
            if j < m { assert order[..m][j] == order[j]; }
          }
          assert order[k] == order[..m][k] && NoneBehind(family, order, k, c);
        }
        assert order == order[..m] + [n];
      }
    }
  }

  ghost predicate NoneBehind(family: Family, order: seq<Name>, k: nat, c: Class) {
    forall j :: k < j < |order| && Routed(family, order[j]) ==> Classify(family, order[j]) != c
  }

  lemma LastTableIsTable(family: Family, tensors: map<Name, Located>, order: seq<Name>, table: map<Class, Located>)
    requires LastTable(family, tensors, order, table)
    requires forall n :: n in order <==> n in tensors
    ensures TableFor(family, tensors, table)
  {
    hide Classify, LastSpelling;
    forall c | c in table ensures Chosen(family, tensors, table, c) {
      LastSpellingIs(family, order, c);
      assert LastEntry(family, tensors, order, table, c);
    }
    forall n | n in tensors && Routed(family, n) ensures Classify(family, n) in table {
      LastSpellingIs(family, order, Classify(family, n));
      assert LastEntry(family, tensors, order, table, Classify(family, n));
    }
  }

  /******* Records *******/

  predicate StackedType(family: Family, dtype: string) {
    dtype in ["U32", "BF16"] || (family.DeepSeek? && dtype == "F16")
  }

  /** The record of one part of one expert: the whole tensor, or the expert's slice of the stacked one. */
  function Cut(family: Family, raw: bool, part: Part, t: Located, expert: nat, experts: nat): Option<Record> {
    if !raw then
      if t.shape == [] || t.shape[0] != experts || experts == 0 || t.nbytes % experts != 0
        || !StackedType(family, t.dtype) then None
      else Some(Record(t.name, t.shard, t.offset + expert * (t.nbytes / experts), t.nbytes / experts, t.dtype,
                       t.shape[1..]))
    else if part.kind == "weight" then
      if t.dtype != "I8" || t.shape == [] || t.shape[|t.shape| - 1] % 4 != 0 then None
      else Some(Record(t.name, t.shard, t.offset, t.nbytes, "U32",
                       t.shape[..|t.shape| - 1] + [t.shape[|t.shape| - 1] / 4]))
    else
      if t.dtype != "F8_E8M0" then None else Some(Record(t.name, t.shard, t.offset, t.nbytes, "U8", t.shape))
  }

  function Elements(shape: seq<nat>): nat {
    if shape == [] then 1 else Elements(shape[..|shape| - 1]) * shape[|shape| - 1]
  }

  /** One dimension is its length, and a further one multiplies. */
  lemma ElementsGrow(shape: seq<nat>, n: nat)
    ensures Elements([n]) == n && Elements(shape + [n]) == Elements(shape) * n
  {
    assert (shape + [n])[..|shape|] == shape && [n][..0] == [];
  }

  lemma {:induction false} FirstDimension(shape: seq<nat>)
    requires shape != []
    ensures Elements(shape) == shape[0] * Elements(shape[1..])
  {
    var n := |shape| - 1;
    if n == 0 {
      assert shape[..0] == [] && shape[1..] == [];
    } else {
      var front := shape[..n];
      FirstDimension(front);
      assert front[1..] == shape[1..][..n - 1];
      Associative(shape[0], Elements(front[1..]), shape[n]);
    }
  }

  lemma Associative(a: nat, b: nat, d: nat)
    ensures (a * b) * d == a * (b * d)
  {
  }

  lemma Cancel(n: nat, a: int, b: int)
    requires n > 0 && a * n == b * n
    ensures a == b
  {
    Successor(a, n);
    Successor(b, n);
    if a < b { Ordered(a + 1, b, n); }
    if b < a { Ordered(b + 1, a, n); }
  }

  /**
   A record's bytes fit the type and shape it announces whenever the tensor's did, for any widths of types in which
   four eight-bit weights make one 32-bit word and scales stay as wide as they are.
   */
  lemma RecordFitsItsShape(family: Family, raw: bool, part: Part, t: Located, expert: nat, experts: nat,
                           width: string -> nat)
    requires width("U32") == 4 * width("I8") && width("U8") == width("F8_E8M0")
    requires Cut(family, raw, part, t, expert, experts).Some? && t.nbytes == Elements(t.shape) * width(t.dtype)
    ensures var r := Cut(family, raw, part, t, expert, experts).value; r.nbytes == Elements(r.shape) * width(r.dtype)
  {
    var r := Cut(family, raw, part, t, expert, experts).value;
    if !raw {
      FirstDimension(t.shape);
      WholeSlices(t.nbytes, experts);
      Associative(experts, Elements(t.shape[1..]), width(t.dtype));
      Cancel(experts, r.nbytes, Elements(r.shape) * width(r.dtype));
    } else if part.kind == "weight" {
      var n := |t.shape| - 1;
      assert r.shape[..n] == t.shape[..n];
      WholeSlices(t.shape[n], 4);
      Associative(Elements(t.shape[..n]), t.shape[n] / 4, 4);
      Associative(Elements(r.shape), 4, width("I8"));
    }
  }

  function TotalBytes(records: seq<Record>): int {
    if records == [] then 0 else TotalBytes(records[..|records| - 1]) + records[|records| - 1].nbytes
  }

  type Table = map<Class, Located>

  /** Everything the loops over layers, experts and parts need. */
  datatype Source = Source(family: Family, raw: bool, m: Shape, table: Table)

  predicate Has(src: Source, layer: nat, expert: nat) {
    forall k :: 0 <= k < |PartsOf(src.raw)| ==> ClassAt(src.raw, layer, expert, k) in src.table
  }

  function CutAt(src: Source, layer: nat, expert: nat, k: nat): Option<Record>
    requires k < |PartsOf(src.raw)| && ClassAt(src.raw, layer, expert, k) in src.table
  {
    Cut(src.family, src.raw, PartsOf(src.raw)[k], src.table[ClassAt(src.raw, layer, expert, k)], expert, src.m.experts)
  }

  ghost predicate ExpertIs(src: Source, layer: nat, expert: nat, records: seq<Record>)
    requires Has(src, layer, expert)
  {
    |records| == |PartsOf(src.raw)| && forall k :: 0 <= k < |records| ==>
      CutAt(src, layer, expert, k) == Some(records[k])
  }

  method ExpertRecords(src: Source, layer: nat, expert: nat) returns (r: Result<seq<Record>>)
    requires Has(src, layer, expert)
    ensures r.Ok? <==> forall k :: 0 <= k < |PartsOf(src.raw)| ==> CutAt(src, layer, expert, k).Some?
    ensures r.Ok? ==> ExpertIs(src, layer, expert, r.value)
  {
    hide Cut;
    var records := [];
    for k := 0 to |PartsOf(src.raw)|
      invariant |records| == k && forall i :: 0 <= i < k ==> CutAt(src, layer, expert, i) == Some(records[i])
    {
      var cut := CutPart(src, layer, expert, k);
      if cut.None? { return Err("invalid expert tensor"); }
      records := records + [cut.value];
    }
    r := Ok(records);
  }

  /** One part of one expert: what the tensor must look like, and the piece of it that is recorded. */
  method CutPart(src: Source, layer: nat, expert: nat, k: nat) returns (r: Option<Record>)
    requires k < |PartsOf(src.raw)| && ClassAt(src.raw, layer, expert, k) in src.table
    ensures r == CutAt(src, layer, expert, k)
  {
    hide PartsOf;
    var part, t := PartsOf(src.raw)[k], src.table[ClassAt(src.raw, layer, expert, k)];
    var shape, experts := t.shape, src.m.experts;
    if !src.raw {
      if shape == [] || shape[0] != experts || experts == 0 || t.nbytes % experts != 0 { return None; }
      if t.dtype != "U32" && t.dtype != "BF16" && !(src.family.DeepSeek? && t.dtype == "F16") { return None; }
      var nbytes := t.nbytes / experts;
      return Some(Record(t.name, t.shard, t.offset + expert * nbytes, nbytes, t.dtype, shape[1..]));
    }
    var last := |shape| - 1;
    if part.kind == "weight" {
      if t.dtype != "I8" || shape == [] || shape[last] % 4 != 0 { return None; }
      return Some(Record(t.name, t.shard, t.offset, t.nbytes, "U32", shape[..last] + [shape[last] / 4]));
    }
    if t.dtype != "F8_E8M0" { return None; }
    r := Some(Record(t.name, t.shard, t.offset, t.nbytes, "U8", shape));
  }

  /** All experts of a layer, each with the same number of bytes. */
  ghost predicate LayerIs(src: Source, layer: nat, l: LayerRecords) {
    && l.layer == layer && |l.experts| == src.m.experts
    && (forall e :: 0 <= e < |l.experts| ==>
          Has(src, layer, e) && ExpertIs(src, layer, e, l.experts[e]) && TotalBytes(l.experts[e]) == l.expertBytes)
    && (src.family.Qwen36? ==> l.expertBytes % 4096 == 0)
  }

  method RecordLayer(src: Source, layer: nat) returns (r: Result<LayerRecords>)
    requires forall e :: 0 <= e < src.m.experts ==> Has(src, layer, e)
    ensures r.Ok? ==> src.m.experts > 0 && LayerIs(src, layer, r.value)
    ensures r.Ok? <== exists l :: src.m.experts > 0 && LayerIs(src, layer, l)
  {
    hide CutAt, PartsOf;
    var experts := [];
    var expertBytes: Option<int> := None;
    for e := 0 to src.m.experts
      invariant |experts| == e && (expertBytes.Some? <==> e > 0)
      invariant forall i :: 0 <= i < e ==>
                  ExpertIs(src, layer, i, experts[i]) && Some(TotalBytes(experts[i])) == expertBytes
    {
      var record := ExpertRecords(src, layer, e);
      if record.Err? { return Err(record.message); }
      var size := AddBytes(record.value);
      if expertBytes.Some? && size != expertBytes.value {
        forall l ensures !LayerIs(src, layer, l) {
          if LayerIs(src, layer, l) {
            SameRecords(src, layer, 0, l.experts[0], experts[0]);
            SameRecords(src, layer, e, l.experts[e], record.value);
          }
        }
        return Err("routed experts do not have a uniform record size");
      }
      expertBytes := Some(size);
      experts := experts + [record.value];
    }
    if expertBytes.None? { return Err("no experts"); }
    if src.family.Qwen36? && expertBytes.value % 4096 != 0 {
      forall l ensures !LayerIs(src, layer, l) {
        if LayerIs(src, layer, l) { SameRecords(src, layer, 0, l.experts[0], experts[0]); }
      }
      return Err("Qwen expert records must be page aligned");
    }
    r := Ok(LayerRecords(layer, expertBytes.value, experts));
  }

  lemma SameRecords(src: Source, layer: nat, e: nat, a: seq<Record>, b: seq<Record>)
    requires Has(src, layer, e) && ExpertIs(src, layer, e, a) && ExpertIs(src, layer, e, b)
    ensures a == b
  {
    forall k | 0 <= k < |a| ensures a[k] == b[k] { assert Some(a[k]) == CutAt(src, layer, e, k) == Some(b[k]); }
  }

  method AddBytes(records: seq<Record>) returns (total: int)
    ensures total == TotalBytes(records)
  {
    total := 0;
    for k := 0 to |records|
      invariant total == TotalBytes(records[..k])
    {
      assert records[..k + 1][..k] == records[..k];
      total := total + records[k].nbytes;
    }
    assert records[..|records|] == records;
  }

  /******* The whole index *******/

  predicate HasExpert(table: Table) {
    exists c :: c in table && c.Expert?
  }

  predicate HasStacked(table: Table) {
    exists c :: c in table && c.Stacked?
  }

  /** The layers' records, in layer order. */
  ghost predicate IndexIs(src: Source, layers: seq<LayerRecords>) {
    && src.m.first <= src.m.layers && |layers| == src.m.layers - src.m.first
    && src.table.Keys == Expected(src.raw, src.m)
    && (layers != [] ==> src.m.experts > 0)
    && forall i :: 0 <= i < |layers| ==> LayerIs(src, src.m.first + i, layers[i])
  }

  lemma ExpectedIsThere(src: Source, layer: nat, expert: nat)
    requires src.table.Keys == Expected(src.raw, src.m) && src.m.first <= layer < src.m.layers && expert < src.m.experts
    ensures Has(src, layer, expert)
  {
    hide PartsOf;
  }

  /** What the checkpoint's config says: the model's type, its shape and its quantization. */
  datatype Config = Config(modelType: string, m: Shape, bits: int, mode: string)

  /** Some tensor is named as one expert's own, or as one of all experts of a layer. */
  ghost predicate NamesExpert(family: Family, tensors: map<Name, Located>) {
    family.DeepSeek? && exists n, layer: nat, expert: nat, part :: n in tensors && ExpertName(n, layer, expert, part)
  }

  ghost predicate NamesStacked(family: Family, tensors: map<Name, Located>) {
    exists n, layer: nat, part :: n in tensors && StackedName(family, n, layer, part)
  }

  lemma LayoutByNames(family: Family, tensors: map<Name, Located>, table: Table)
    requires TableFor(family, tensors, table)
    ensures HasExpert(table) <==> NamesExpert(family, tensors)
    ensures HasStacked(table) <==> NamesStacked(family, tensors)
  {
    hide Classify, ExpertName, StackedName;
    forall n | n in tensors
      ensures forall layer: nat, expert: nat, part ::
                (Classify(family, n) == Expert(layer, expert, part) <==>
                 family.DeepSeek? && ExpertName(n, layer, expert, part))
      ensures forall layer: nat, part ::
                (Classify(family, n) == Stacked(layer, part) <==> StackedName(family, n, layer, part))
    {
      ClassifyIs(family, n);
    }
    if c :| c in table && c.Expert? {
      assert Chosen(family, tensors, table, c);
      assert ExpertName(table[c].name, c.layer, c.expert, c.part);
    }
    if c :| c in table && c.Stacked? {
      assert Chosen(family, tensors, table, c);
      assert StackedName(family, table[c].name, c.layer, c.part);
    }
    if NamesExpert(family, tensors) {
      var n, layer: nat, expert: nat, part :| n in tensors && ExpertName(n, layer, expert, part);
      assert Classify(family, n) in table && Classify(family, n).Expert?;
    }
    if NamesStacked(family, tensors) {
      var n, layer: nat, part :| n in tensors && StackedName(family, n, layer, part);
      assert Classify(family, n) in table && Classify(family, n).Stacked?;
    }
  }

  /** Each of the two readers wants one type of model; the Qwen reader also affine four-bit weights. */
  predicate Supported(family: Family, config: Config) {
    match family
    case DeepSeek => config.modelType == "deepseek_v4"
    case Qwen36 => config.modelType == "qwen3_5_moe" && config.bits == 4 && config.mode == "affine"
  }

  /** The Qwen reader takes every layer as routed. */
  function ShapeOf(family: Family, config: Config): Shape {
    if family.Qwen36? then config.m.(first := 0) else config.m
  }

  /** `order`, `tensors` and `src` tell what was read before the index was built or refused. */
  method BuildOffsets(family: Family, config: Config, files: Files, index: Backbone.WeightMap, l: Listing)
    returns (r: Result<seq<LayerRecords>>, src: Source, tensors: map<Name, Located>, order: seq<Name>)
    requires ListingOf(files, index, l)
    ensures r.Ok? <==> && (family.DeepSeek? ==> config.modelType == "deepseek_v4")
                       && (family.Qwen36? ==>
                             config.modelType == "qwen3_5_moe" && config.bits == 4 && config.mode == "affine")
                       && IndexAgrees(files, index)
                       && (family.DeepSeek? ==> NamesExpert(family, tensors) != NamesStacked(family, tensors))
                       && exists layers :: IndexIs(src, layers)
    ensures Supported(family, config) && IndexAgrees(files, index) ==>
              && LocatedIn(files, index, Backbone.Shards(index), tensors)
              && order == NamesInOrder(l, |l.shards|) && Lists(order, tensors.Keys)
              && src.family == family && src.raw == NamesExpert(family, tensors)
              && src.m.layers == config.m.layers && src.m.experts == config.m.experts
              && src.m.first == (if family.Qwen36? then 0 else config.m.first)
              && LastTable(family, tensors, order, src.table) && TableFor(family, tensors, src.table)
    ensures r.Ok? ==> IndexIs(src, r.value)
  {
    hide Cut, Classify, Expected, LayerIs, LocatedIn, TableFor, LastTable, IndexAgrees, IndexIs, NamesInOrder,
      NamesStacked, HasExpert, HasStacked, ExpertName;
    var m := ShapeOf(family, config);
    src := Source(family, false, m, map[]);
    tensors, order := map[], [];
    if !Supported(family, config) {
      return Err("recipe expects another checkpoint"), src, tensors, order;
    }
    var located;
    located, order := Locate(files, index, l);
    if located.Err? { return Err(located.message), src, tensors, order; }
    tensors := located.value;
    LocatedNames(files, index, Backbone.Shards(index), tensors);
    var table := BuildTable(family, tensors, order);
    LastTableIsTable(family, tensors, order, table);
    LayoutByNames(family, tensors, table);
    var raw := family.DeepSeek? && HasExpert(table);
    src := Source(family, raw, m, table);
    if family.DeepSeek? && raw == HasStacked(table) {
      return Err("checkpoint must contain either per-expert or stacked routed tensors"), src, tensors, order;
    }
    if table.Keys != Expected(raw, m) {
      ExpectedIsNeeded(src);
      return Err("checkpoint routed expert set is incomplete"), src, tensors, order;
    }
    r := RecordLayers(src);
  }

  lemma ExpectedIsNeeded(src: Source)
    requires src.table.Keys != Expected(src.raw, src.m)
    ensures forall layers :: !IndexIs(src, layers)
  {
    hide Expected;
  }

  lemma LocatedNames(files: Files, index: Backbone.WeightMap, done: set<string>, tensors: map<Name, Located>)
    requires LocatedIn(files, index, done, tensors)
    ensures forall n :: n in tensors ==> tensors[n].name == n
  {
  }

  lemma IndexesHaveLayer(src: Source, layer: nat)
    requires src.m.first <= layer < src.m.layers
    ensures forall layers :: IndexIs(src, layers) ==> exists l :: src.m.experts > 0 && LayerIs(src, layer, l)
  {
    hide Expected, LayerIs;
    forall layers | IndexIs(src, layers) ensures exists l :: src.m.experts > 0 && LayerIs(src, layer, l) {
      assert LayerIs(src, src.m.first + (layer - src.m.first), layers[layer - src.m.first]);
    }
  }

  method RecordLayers(src: Source) returns (r: Result<seq<LayerRecords>>)
    requires src.table.Keys == Expected(src.raw, src.m)
    ensures r.Ok? ==> IndexIs(src, r.value)
    ensures r.Err? ==> forall layers :: !IndexIs(src, layers)
  {
    hide Has, Expected, LayerIs;
    var m := src.m;
    if m.first > m.layers { return Err("no routed layers"); }
    var layers := [];
    for layer := m.first to m.layers
      invariant |layers| == layer - m.first && (layers != [] ==> m.experts > 0)
      invariant forall i :: 0 <= i < |layers| ==> LayerIs(src, m.first + i, layers[i])
    {
      forall e | 0 <= e < m.experts ensures Has(src, layer, e) { ExpectedIsThere(src, layer, e); }
      var records := RecordLayer(src, layer);
      if records.Err? {
        IndexesHaveLayer(src, layer);
        return Err(records.message);
      }
      layers := layers + [records.value];
    }
    r := Ok(layers);
  }

  /******* Every routed tensor has its records exactly when no two names share a class *******/

  predicate RecordAt(layers: seq<LayerRecords>, i: nat, e: nat, k: nat) {
    i < |layers| && e < |layers[i].experts| && k < |layers[i].experts[e]|
  }

  function TheRecord(layers: seq<LayerRecords>, i: nat, e: nat, k: nat): Record
    requires RecordAt(layers, i, e, k)
  {
    layers[i].experts[e][k]
  }

  /** A record is the cut of the tensor chosen for its class, and carries its name. */
  lemma RecordIsCut(src: Source, tensors: map<Name, Located>, layers: seq<LayerRecords>, i: nat, e: nat, k: nat)
    requires IndexIs(src, layers) && TableFor(src.family, tensors, src.table) && RecordAt(layers, i, e, k)
    ensures k < |PartsOf(src.raw)| && e < src.m.experts && ClassAt(src.raw, src.m.first + i, e, k) in src.table
    ensures CutAt(src, src.m.first + i, e, k) == Some(TheRecord(layers, i, e, k))
    ensures TheRecord(layers, i, e, k).source == src.table[ClassAt(src.raw, src.m.first + i, e, k)].name
    ensures Classify(src.family, TheRecord(layers, i, e, k).source) == ClassAt(src.raw, src.m.first + i, e, k)
  {
    hide Classify, PartsOf, Expected;
    assert LayerIs(src, src.m.first + i, layers[i]);
    assert ExpertIs(src, src.m.first + i, e, layers[i].experts[e]);
    var c := ClassAt(src.raw, src.m.first + i, e, k);
    assert Chosen(src.family, tensors, src.table, c);
  }

  predicate StringBefore(a: string, b: string) {
    b != "" && (a == "" || a[0] < b[0] || (a[0] == b[0] && StringBefore(a[1..], b[1..])))
  }

  predicate PartBefore(a: Part, b: Part) {
    StringBefore(a.projection, b.projection) || (a.projection == b.projection && StringBefore(a.kind, b.kind))
  }

  /** An expert has every projection with every kind once, in the order of sorted pairs. */
  lemma PartsAreSorted(raw: bool)
    ensures forall p :: p in PartsOf(raw) <==>
              if raw then p.projection in {"w1", "w2", "w3"} && p.kind in {"weight", "scale"}
              else p.projection in {"gate_proj", "up_proj", "down_proj"} && p.kind in {"weight", "scales", "biases"}
    ensures forall j, k :: 0 <= j < k < |PartsOf(raw)| ==> PartBefore(PartsOf(raw)[j], PartsOf(raw)[k])
  {
    hide PartsOf, PartBefore;
    PartsAreComplete(raw);
    forall j, k | 0 <= j < k < |PartsOf(raw)| ensures PartBefore(PartsOf(raw)[j], PartsOf(raw)[k]) {
      if raw { WholePartsInOrder(j, k); } else { StackedPartsInOrder(j, k); }
    }
  }

  lemma WholePartsInOrder(j: nat, k: nat)
    requires j < k < |PartsOf(true)|
    ensures PartBefore(PartsOf(true)[j], PartsOf(true)[k])
  {
    hide StringBefore;
    WordsInOrder();
  }

  lemma StackedPartsInOrder(j: nat, k: nat)
    requires j < k < |PartsOf(false)|
    ensures PartBefore(PartsOf(false)[j], PartsOf(false)[k])
  {
    hide StringBefore;
    WordsInOrder();
  }

  lemma WordsInOrder()
    ensures StringBefore("w1", "w2") && StringBefore("w2", "w3") && StringBefore("w1", "w3")
    ensures StringBefore("down_proj", "gate_proj") && StringBefore("gate_proj", "up_proj")
    ensures StringBefore("down_proj", "up_proj")
    ensures StringBefore("biases", "scales") && StringBefore("scales", "weight") && StringBefore("biases", "weight")
    ensures StringBefore("scale", "weight")
  {
    assert StringBefore("w1"[1..], "w2"[1..]) && StringBefore("w2"[1..], "w3"[1..]);
    assert StringBefore("w1"[1..], "w3"[1..]);
  }

  lemma PartsAreComplete(raw: bool)
    ensures forall p :: p in PartsOf(raw) <==>
              if raw then p.projection in {"w1", "w2", "w3"} && p.kind in {"weight", "scale"}
              else p.projection in {"gate_proj", "up_proj", "down_proj"} && p.kind in {"weight", "scales", "biases"}
  {
    if raw {
      forall p ensures p in PartsOf(true) <==> p.projection in {"w1", "w2", "w3"} && p.kind in {"weight", "scale"} {
        assert p == Part(p.projection, p.kind);
      }
    } else {
      forall p ensures p in PartsOf(false) <==> p.projection in {"gate_proj", "up_proj", "down_proj"}
                                                && p.kind in {"weight", "scales", "biases"}
      {
        assert p == Part(p.projection, p.kind);
      }
    }
  }

  /** Record k of expert e in layer i is cut from a tensor whose name spells that layer and expert, and part k. */
  lemma RecordNamesItsPart(src: Source, tensors: map<Name, Located>, layers: seq<LayerRecords>, i: nat, e: nat, k: nat)
    requires IndexIs(src, layers) && TableFor(src.family, tensors, src.table) && RecordAt(layers, i, e, k)
    ensures k < |PartsOf(src.raw)| && TheRecord(layers, i, e, k).source in tensors
    ensures src.raw ==> ExpertName(TheRecord(layers, i, e, k).source, src.m.first + i, e, PartsOf(true)[k])
    ensures !src.raw ==>
              StackedName(src.family, TheRecord(layers, i, e, k).source, src.m.first + i, PartsOf(false)[k])
  {
    hide Classify, IndexIs, PartsOf, ExpertName, StackedName;
    RecordIsCut(src, tensors, layers, i, e, k);
    assert Chosen(src.family, tensors, src.table, ClassAt(src.raw, src.m.first + i, e, k));
    ClassifyIs(src.family, TheRecord(layers, i, e, k).source);
  }

  ghost predicate HasRecord(layers: seq<LayerRecords>, n: Name) {
    exists i: nat, e: nat, k: nat :: RecordAt(layers, i, e, k) && TheRecord(layers, i, e, k).source == n
  }

  /** No two routed tensors are spellings of one class. */
  ghost predicate OneSpelling(family: Family, tensors: map<Name, Located>) {
    forall a, b :: a in tensors && b in tensors && Routed(family, a) && Classify(family, a) == Classify(family, b) ==>
      a == b
  }

  /** Where the tensor chosen for a class is recorded. */
  lemma ChosenHasRecord(src: Source, tensors: map<Name, Located>, layers: seq<LayerRecords>, c: Class)
    returns (i: nat, e: nat, k: nat)
    requires IndexIs(src, layers) && TableFor(src.family, tensors, src.table) && c in src.table
    ensures RecordAt(layers, i, e, k) && TheRecord(layers, i, e, k).source == src.table[c].name
    ensures c == ClassAt(src.raw, src.m.first + i, e, k)
  {
    i, e, k := PlaceOf(src, layers, c);
    hide Classify, PartsOf, IndexIs, TableFor;
    RecordIsCut(src, tensors, layers, i, e, k);
  }

  /** The place of a class in the index. */
  lemma PlaceOf(src: Source, layers: seq<LayerRecords>, c: Class) returns (i: nat, e: nat, k: nat)
    requires IndexIs(src, layers) && c in src.table
    ensures RecordAt(layers, i, e, k) && k < |PartsOf(src.raw)| && c == ClassAt(src.raw, src.m.first + i, e, k)
  {
    hide PartsOf, CutAt, ClassAt;
    var l;
    l, e, k :| src.m.first <= l < src.m.layers && 0 <= e < src.m.experts && 0 <= k < |PartsOf(src.raw)|
      && c == ClassAt(src.raw, l, e, k);
    i := l - src.m.first;
    assert LayerIs(src, src.m.first + i, layers[i]);
    assert ExpertIs(src, src.m.first + i, e, layers[i].experts[e]);
  }

  /** Every routed tensor has records exactly when the checkpoint uses one spelling for each. */
  lemma NothingLostIff(src: Source, tensors: map<Name, Located>, layers: seq<LayerRecords>)
    requires IndexIs(src, layers) && TableFor(src.family, tensors, src.table)
    ensures OneSpelling(src.family, tensors) <==>
              forall n :: n in tensors && Routed(src.family, n) ==> HasRecord(layers, n)
  {
    hide Classify, PartsOf, IndexIs;
    forall n | n in tensors && Routed(src.family, n)
      ensures HasRecord(layers, n) <==> src.table[Classify(src.family, n)].name == n
    {
      RecordedIffChosen(src, tensors, layers, n);
    }
    if OneSpelling(src.family, tensors) {
      forall n | n in tensors && Routed(src.family, n) ensures HasRecord(layers, n) {
        assert Chosen(src.family, tensors, src.table, Classify(src.family, n));
      }
    }
  }

  /** A routed tensor has records exactly when it is the one chosen for its class. */
  lemma RecordedIffChosen(src: Source, tensors: map<Name, Located>, layers: seq<LayerRecords>, n: Name)
    requires IndexIs(src, layers) && TableFor(src.family, tensors, src.table) && n in tensors && Routed(src.family, n)
    ensures HasRecord(layers, n) <==> src.table[Classify(src.family, n)].name == n
  {
    hide Classify, PartsOf, IndexIs;
    var c := Classify(src.family, n);
    if HasRecord(layers, n) {
      var i: nat, e: nat, k: nat :| RecordAt(layers, i, e, k) && TheRecord(layers, i, e, k).source == n;
      RecordIsCut(src, tensors, layers, i, e, k);
    }
    if src.table[c].name == n {
      var i, e, k := ChosenHasRecord(src, tensors, layers, c);
    }
  }

  /** Of several spellings exactly the last one read is recorded. */
  lemma RecordedIffLast(src: Source, tensors: map<Name, Located>, order: seq<Name>, layers: seq<LayerRecords>, n: Name)
    requires IndexIs(src, layers) && LastTable(src.family, tensors, order, src.table) && n in tensors
    requires TableFor(src.family, tensors, src.table) && Routed(src.family, n)
    ensures HasRecord(layers, n) <==> LastSpelling(src.family, order, Classify(src.family, n)) == Some(n)
  {
    hide Classify, IndexIs, LastSpelling, LastTable, HasRecord;
    var c := Classify(src.family, n);
    RecordedIffChosen(src, tensors, layers, n);
    EntryIsLast(src, tensors, order, c);
  }

  lemma EntryIsLast(src: Source, tensors: map<Name, Located>, order: seq<Name>, c: Class)
    requires LastTable(src.family, tensors, order, src.table) && c in src.table
    ensures LastSpelling(src.family, order, c) == Some(src.table[c].name)
  {
    assert LastEntry(src.family, tensors, order, src.table, c);
  }

  /******* What the records cover *******/

  ghost predicate Covers(layers: seq<LayerRecords>, i: nat, e: nat, k: nat, n: Name, b: int) {
    && RecordAt(layers, i, e, k) && TheRecord(layers, i, e, k).source == n
    && TheRecord(layers, i, e, k).offset <= b < TheRecord(layers, i, e, k).offset + TheRecord(layers, i, e, k).nbytes
  }

  /**
   The records of a stacked tensor are the consecutive, equally long slices of it; an expert's own tensor is one
   record.
   */
  lemma RecordsAreSlices(src: Source, tensors: map<Name, Located>, layers: seq<LayerRecords>, i: nat, e: nat, k: nat)
    requires IndexIs(src, layers) && TableFor(src.family, tensors, src.table) && RecordAt(layers, i, e, k)
    ensures var r := TheRecord(layers, i, e, k);
            && r.source in tensors && r.shard == tensors[r.source].shard
            && (src.raw ==> r.offset == tensors[r.source].offset && r.nbytes == tensors[r.source].nbytes)
            && (!src.raw ==>
                  && r.offset == tensors[r.source].offset + e * r.nbytes
                  && src.m.experts * r.nbytes == tensors[r.source].nbytes)
  {
    hide Classify, IndexIs;
    RecordIsCut(src, tensors, layers, i, e, k);
    var c := ClassAt(src.raw, src.m.first + i, e, k);
    assert Chosen(src.family, tensors, src.table, c);
    var t := src.table[c];
    if !src.raw { WholeSlices(t.nbytes, src.m.experts); }
  }

  lemma WholeSlices(a: int, n: int)
    requires n > 0 && a % n == 0
    ensures n * (a / n) == a
  {
  }

  /** Two records of one tensor: the same part of the same layer, and the same record unless it is a stacked slice. */
  lemma SameSource(src: Source, tensors: map<Name, Located>, layers: seq<LayerRecords>, i: nat, e: nat, k: nat,
                   i': nat, e': nat, k': nat)
    requires IndexIs(src, layers) && TableFor(src.family, tensors, src.table)
    requires RecordAt(layers, i, e, k) && RecordAt(layers, i', e', k')
    requires TheRecord(layers, i, e, k).source == TheRecord(layers, i', e', k').source
    ensures i == i' && k == k' && (src.raw ==> e == e')
  {
    hide Classify, IndexIs, CutAt, TableFor;
    RecordIsCut(src, tensors, layers, i, e, k);
    RecordIsCut(src, tensors, layers, i', e', k');
    assert ClassAt(src.raw, src.m.first + i, e, k) == ClassAt(src.raw, src.m.first + i', e', k');
    PartsDiffer(src.raw, k, k');
  }

  lemma PartsDiffer(raw: bool, k: nat, k': nat)
    requires k < |PartsOf(raw)| && k' < |PartsOf(raw)| && PartsOf(raw)[k] == PartsOf(raw)[k']
    ensures k == k'
  {
  }

  /** Slice e of size s holds exactly the bytes between e * s and (e + 1) * s. */
  lemma SliceOf(b: int, s: nat, n: nat) returns (e: nat)
    requires 0 <= b < n * s && s > 0
    ensures e < n && e * s <= b < (e + 1) * s
  {
    e := b / s;
    if e >= n { Ordered(n, e, s); }
  }

  lemma SlicesApart(b: int, s: nat, e: nat, e': nat)
    requires e * s <= b < (e + 1) * s && e' * s <= b < (e' + 1) * s
    ensures e == e'
  {
    if e < e' { Ordered(e + 1, e', s); }
    if e' < e { Ordered(e' + 1, e, s); }
  }

  lemma SizeIsPositive(n: nat, s: int, total: int)
    requires n * s == total && total > 0
    ensures s > 0
  {
    if s <= 0 { Ordered0(n, s); }
  }

  lemma Ordered0(n: nat, s: int)
    requires s <= 0
    ensures n * s <= 0
  {
  }

  /** If one expert's slice of a stacked tensor is recorded, every expert's is, at the same place in its list. */
  lemma SliceIsRecorded(src: Source, tensors: map<Name, Located>, layers: seq<LayerRecords>, i: nat, e: nat, k: nat,
                        e': nat)
    requires IndexIs(src, layers) && TableFor(src.family, tensors, src.table) && !src.raw
    requires RecordAt(layers, i, e, k) && e' < src.m.experts
    ensures RecordAt(layers, i, e', k)
    ensures TheRecord(layers, i, e', k).source == TheRecord(layers, i, e, k).source
    ensures TheRecord(layers, i, e', k).nbytes == TheRecord(layers, i, e, k).nbytes
  {
    hide Classify, Expected, TableFor;
    RecordIsCut(src, tensors, layers, i, e, k);
    assert LayerIs(src, src.m.first + i, layers[i]);
    assert ExpertIs(src, src.m.first + i, e', layers[i].experts[e']);
    RecordIsCut(src, tensors, layers, i, e', k);
  }

  /** Every byte of a recorded tensor lies in exactly one record. */
  lemma CoveredOnce(src: Source, tensors: map<Name, Located>, layers: seq<LayerRecords>, n: Name, b: int)
    returns (i: nat, e: nat, k: nat)
    requires IndexIs(src, layers) && TableFor(src.family, tensors, src.table)
    requires n in tensors && HasRecord(layers, n) && tensors[n].offset <= b < tensors[n].offset + tensors[n].nbytes
    ensures Covers(layers, i, e, k, n, b)
    ensures forall i': nat, e': nat, k': nat :: Covers(layers, i', e', k', n, b) ==> i' == i && e' == e && k' == k
  {
    hide Classify, IndexIs, TableFor;
    i, e, k :| RecordAt(layers, i, e, k) && TheRecord(layers, i, e, k).source == n;
    RecordsAreSlices(src, tensors, layers, i, e, k);
    if !src.raw {
      var s := TheRecord(layers, i, e, k).nbytes;
      SizeIsPositive(src.m.experts, s, tensors[n].nbytes);
      var slice := SliceOf(b - tensors[n].offset, s, src.m.experts);
      SliceIsRecorded(src, tensors, layers, i, e, k, slice);
      e := slice;
      RecordsAreSlices(src, tensors, layers, i, e, k);
    }
    forall i': nat, e': nat, k': nat | Covers(layers, i', e', k', n, b) ensures i' == i && e' == e && k' == k {
      CoverIsUnique(src, tensors, layers, n, b, i, e, k, i', e', k');
    }
  }

  lemma CoverIsUnique(src: Source, tensors: map<Name, Located>, layers: seq<LayerRecords>, n: Name, b: int,
                      i: nat, e: nat, k: nat, i': nat, e': nat, k': nat)
    requires IndexIs(src, layers) && TableFor(src.family, tensors, src.table) && n in tensors
    requires Covers(layers, i, e, k, n, b) && Covers(layers, i', e', k', n, b)
    ensures i' == i && e' == e && k' == k
  {
    hide Classify, IndexIs, TableFor;
    SameSource(src, tensors, layers, i, e, k, i', e', k');
    if !src.raw {
      RecordsAreSlices(src, tensors, layers, i, e, k);
      RecordsAreSlices(src, tensors, layers, i', e', k');
      RecordIsCut(src, tensors, layers, i', e', k');
      SliceIsRecorded(src, tensors, layers, i, e, k, e');
      SlicesApart(b - tensors[n].offset, TheRecord(layers, i, e, k).nbytes, e, e');
    }
  }

  /** The source tensors themselves do not overlap, as the safetensors format demands. */
  ghost predicate TensorsApart(tensors: map<Name, Located>) {
    forall a, b, at: int ::
      (a in tensors && b in tensors && tensors[a].shard == tensors[b].shard && Inside(tensors[a], at)
       && Inside(tensors[b], at)) ==> a == b
  }

  predicate Inside(t: Located, at: int) {
    t.offset <= at < t.offset + t.nbytes
  }

  lemma RecordInside(src: Source, tensors: map<Name, Located>, layers: seq<LayerRecords>, n: Name, b: int, i: nat,
                     e: nat, k: nat)
    requires IndexIs(src, layers) && TableFor(src.family, tensors, src.table) && Covers(layers, i, e, k, n, b)
    ensures n in tensors && Inside(tensors[n], b) && TheRecord(layers, i, e, k).shard == tensors[n].shard
  {
    hide Classify, IndexIs, TableFor;
    RecordsAreSlices(src, tensors, layers, i, e, k);
    RecordIsCut(src, tensors, layers, i, e, k);
    if !src.raw {
      var s := TheRecord(layers, i, e, k).nbytes;
      Ordered(e + 1, src.m.experts, s);
      Successor(e, s);
    }
  }

  /** No byte of a shard lies in two records. */
  lemma RecordsAreDisjoint(src: Source, tensors: map<Name, Located>, layers: seq<LayerRecords>, b: int,
                           n: Name, i: nat, e: nat, k: nat, n': Name, i': nat, e': nat, k': nat)
    requires IndexIs(src, layers) && TableFor(src.family, tensors, src.table) && TensorsApart(tensors)
    requires Covers(layers, i, e, k, n, b) && Covers(layers, i', e', k', n', b)
    requires TheRecord(layers, i, e, k).shard == TheRecord(layers, i', e', k').shard
    ensures i' == i && e' == e && k' == k
  {
    hide Classify, IndexIs, TableFor;
    RecordInside(src, tensors, layers, n, b, i, e, k);
    RecordInside(src, tensors, layers, n', b, i', e', k');
    CoverIsUnique(src, tensors, layers, n, b, i, e, k, i', e', k');
  }

  /******* Splitting loses nothing *******/

  function RecordBytes(f: ShardFile, r: Record): seq<Byte> {
    var start := r.offset - f.dataStart;
    if 0 <= start <= start + r.nbytes <= |f.data| then f.data[start..start + r.nbytes] else []
  }

  /** What the first m experts' records at one place of their lists read, one after the other. */
  function Joined(f: ShardFile, layers: seq<LayerRecords>, i: nat, k: nat, m: nat): seq<Byte> {
    if m == 0 then []
    else
      Joined(f, layers, i, k, m - 1)
      + (if RecordAt(layers, i, m - 1, k) then RecordBytes(f, TheRecord(layers, i, m - 1, k)) else [])
  }

  /** The record reads the file's bytes from `from` on. */
  ghost predicate ReadsAt(f: ShardFile, layers: seq<LayerRecords>, i: nat, e: nat, k: nat, from: int, size: nat) {
    && RecordAt(layers, i, e, k) && TheRecord(layers, i, e, k).nbytes == size
    && TheRecord(layers, i, e, k).offset == f.dataStart + from
  }

  lemma {:induction false} SlicesJoin(f: ShardFile, layers: seq<LayerRecords>, i: nat, k: nat, m: nat, start: nat,
                                      size: nat)
    requires forall e: nat :: e < m ==> ReadsAt(f, layers, i, e, k, start + e * size, size)
    requires start + m * size <= |f.data|
    ensures Joined(f, layers, i, k, m) == f.data[start..start + m * size]
    decreases m
  {
    if m > 0 {
      Successor(m, size);
      Ordered(0, m - 1, size);
      var from, to := start + (m - 1) * size, start + m * size;
      SlicesJoin(f, layers, i, k, m - 1, start, size);
      assert ReadsAt(f, layers, i, m - 1, k, from, size);
      assert RecordBytes(f, TheRecord(layers, i, m - 1, k)) == f.data[from..to];
      assert f.data[start..to] == f.data[start..from] + f.data[from..to];
    }
  }

  /** The expert store's sources reproduce the tensor: one record does, or all experts' slices joined do. */
  ghost predicate Reproduced(f: ShardFile, payload: seq<Byte>, raw: bool, experts: nat, layers: seq<LayerRecords>,
                             n: Name)
  {
    exists i: nat, e: nat, k: nat :: RecordAt(layers, i, e, k) && TheRecord(layers, i, e, k).source == n
      && (if raw then RecordBytes(f, TheRecord(layers, i, e, k)) == payload
          else
            && (forall x: nat :: x < experts ==> RecordAt(layers, i, x, k))
            && Joined(f, layers, i, k, experts) == payload)
  }

  lemma SlicesReproduce(src: Source, f: ShardFile, shard: string, tensors: map<Name, Located>,
                        layers: seq<LayerRecords>, n: Name, i: nat, e: nat, k: nat)
    requires IndexIs(src, layers) && TableFor(src.family, tensors, src.table) && !src.raw
    requires RecordAt(layers, i, e, k) && TheRecord(layers, i, e, k).source == n
    requires n in f.header && !Unreadable(f, f.header[n]) && n in tensors && tensors[n] == At(f, shard, n)
    requires f.header[n].start < f.header[n].end
    ensures forall x: nat :: x < src.m.experts ==> RecordAt(layers, i, x, k)
    ensures Joined(f, layers, i, k, src.m.experts) == Payload(f, f.header[n])
  {
    hide Classify, IndexIs, TableFor, Joined, RecordBytes;
    RecordsAreSlices(src, tensors, layers, i, e, k);
    var size := TheRecord(layers, i, e, k).nbytes;
    SizeIsPositive(src.m.experts, size, tensors[n].nbytes);
    forall x: nat | x < src.m.experts
      ensures ReadsAt(f, layers, i, x, k, f.header[n].start + x * size, size)
    {
      SliceIsRecorded(src, tensors, layers, i, e, k, x);
      RecordsAreSlices(src, tensors, layers, i, x, k);
    }
    SlicesJoin(f, layers, i, k, src.m.experts, f.header[n].start, size);
    forall x: nat | x < src.m.experts ensures RecordAt(layers, i, x, k) {
      SliceIsRecorded(src, tensors, layers, i, e, k, x);
    }
  }

  lemma WholeReproduces(src: Source, f: ShardFile, shard: string, tensors: map<Name, Located>,
                        layers: seq<LayerRecords>, n: Name, i: nat, e: nat, k: nat)
    requires IndexIs(src, layers) && TableFor(src.family, tensors, src.table) && src.raw
    requires RecordAt(layers, i, e, k) && TheRecord(layers, i, e, k).source == n
    requires n in f.header && !Unreadable(f, f.header[n]) && n in tensors && tensors[n] == At(f, shard, n)
    requires f.header[n].start < f.header[n].end
    ensures RecordBytes(f, TheRecord(layers, i, e, k)) == Payload(f, f.header[n])
  {
    hide Classify, IndexIs, TableFor;
    RecordsAreSlices(src, tensors, layers, i, e, k);
  }

  lemma {:induction false} JoinedNothing(f: ShardFile, layers: seq<LayerRecords>, i: nat, k: nat, m: nat)
    requires forall e: nat :: e < m && RecordAt(layers, i, e, k) ==> TheRecord(layers, i, e, k).nbytes == 0
    ensures Joined(f, layers, i, k, m) == []
    decreases m
  {
    if m > 0 { JoinedNothing(f, layers, i, k, m - 1); }
  }

  /** A tensor without bytes is reproduced as such. */
  lemma NothingReproduces(src: Source, f: ShardFile, shard: string, tensors: map<Name, Located>,
                          layers: seq<LayerRecords>, n: Name, i: nat, e: nat, k: nat)
    requires IndexIs(src, layers) && TableFor(src.family, tensors, src.table)
    requires RecordAt(layers, i, e, k) && TheRecord(layers, i, e, k).source == n
    requires n in f.header && n in tensors && tensors[n] == At(f, shard, n) && f.header[n].start == f.header[n].end
    ensures Payload(f, f.header[n]) == []
    ensures src.raw ==> RecordBytes(f, TheRecord(layers, i, e, k)) == []
    ensures !src.raw ==>
              && (forall x: nat :: x < src.m.experts ==> RecordAt(layers, i, x, k))
              && Joined(f, layers, i, k, src.m.experts) == []
  {
    hide Classify, IndexIs, TableFor;
    RecordsAreSlices(src, tensors, layers, i, e, k);
    if !src.raw {
      var size := TheRecord(layers, i, e, k).nbytes;
      RecordIsCut(src, tensors, layers, i, e, k);
      if size != 0 { NoZeroProduct(src.m.experts, size); }
      forall x: nat | x < src.m.experts
        ensures RecordAt(layers, i, x, k) && TheRecord(layers, i, x, k).nbytes == 0
      {
        SliceIsRecorded(src, tensors, layers, i, e, k, x);
      }
      JoinedNothing(f, layers, i, k, src.m.experts);
    }
  }

  lemma NoZeroProduct(n: nat, s: int)
    requires n > 0 && s != 0
    ensures n * s != 0
  {
  }

  lemma RecordedIsReproduced(src: Source, f: ShardFile, shard: string, tensors: map<Name, Located>,
                             layers: seq<LayerRecords>, n: Name)
    requires IndexIs(src, layers) && TableFor(src.family, tensors, src.table) && HasRecord(layers, n)
    requires n in f.header && !Unreadable(f, f.header[n]) && n in tensors && tensors[n] == At(f, shard, n)
    ensures Reproduced(f, Payload(f, f.header[n]), src.raw, src.m.experts, layers, n)
  {
    hide Classify, IndexIs, TableFor, Joined, RecordBytes, Payload;
    var i: nat, e: nat, k: nat :| RecordAt(layers, i, e, k) && TheRecord(layers, i, e, k).source == n;
    if f.header[n].start == f.header[n].end {
      NothingReproduces(src, f, shard, tensors, layers, n, i, e, k);
    } else if src.raw {
      WholeReproduces(src, f, shard, tensors, layers, n, i, e, k);
    } else {
      SlicesReproduce(src, f, shard, tensors, layers, n, i, e, k);
    }
  }

  /**
   With one spelling for every routed tensor, each tensor of the checkpoint, also one without bytes, is, by the
   shape of its name, deliberately dropped, or reads the same from the backbone,
     or is reproduced from the expert records as far as
   its bytes can be read at all; and only one of these.
   */
  lemma SplitLosesNothing(files: Files, index: Backbone.WeightMap, hash: Hash, p: Backbone.Prepared, src: Source,
                          tensors: map<Name, Located>, layers: seq<LayerRecords>, n: Name)
    requires Backbone.PreparedFor(src.family, files, index, hash, Backbone.Shards(index), p)
    requires IndexAgrees(files, index) && LocatedIn(files, index, Backbone.Shards(index), tensors)
    requires TableFor(src.family, tensors, src.table) && IndexIs(src, layers) && OneSpelling(src.family, tensors)
    requires Present(files, index, n)
    ensures DroppedName(src.family, n) ==> n !in p.weightMap && !HasRecord(layers, n)
    ensures !LeftOut(src.family, n) ==>
              n in p.weightMap && Backbone.ReadsFrom(files, index, p, n) && !HasRecord(layers, n)
    ensures RoutedName(src.family, n) ==>
              && n !in p.weightMap && HasRecord(layers, n)
              && (!Unreadable(files[index[n]], files[index[n]].header[n]) ==>
                    Reproduced(files[index[n]], Payload(files[index[n]], files[index[n]].header[n]), src.raw,
                               src.m.experts, layers, n))
  {
    hide Classify, IndexIs, TableFor, Backbone.ReadsFrom, Backbone.ManifestFor, RoutedName, DroppedName;
    assert index[n] in Backbone.Shards(index);
    assert n in tensors;
    ClassifyIs(src.family, n);
    ExternalizedIs(src.family, n);
    if Routed(src.family, n) {
      NothingLostIff(src, tensors, layers);
      if !Unreadable(files[index[n]], files[index[n]].header[n]) {
        RecordedIsReproduced(src, files[index[n]], index[n], tensors, layers, n);
      }
    } else {
      OnlyRoutedIsRecorded(src, tensors, layers, n);
    }
  }

  /** The tensor is in neither the backbone nor the records. */
  ghost predicate Lost(p: Backbone.Prepared, layers: seq<LayerRecords>, n: Name) {
    n !in p.weightMap && !HasRecord(layers, n)
  }

  /** A routed tensor is lost exactly when another spelling of it is read behind it. */
  lemma LostIffRespelled(files: Files, index: Backbone.WeightMap, hash: Hash, p: Backbone.Prepared, src: Source,
                         tensors: map<Name, Located>, order: seq<Name>, layers: seq<LayerRecords>, i: nat)
    requires Backbone.PreparedFor(src.family, files, index, hash, Backbone.Shards(index), p) && IndexIs(src, layers)
    requires LastTable(src.family, tensors, order, src.table) && TableFor(src.family, tensors, src.table)
    requires NoDuplicates(order) && i < |order| && order[i] in tensors && Routed(src.family, order[i])
    ensures Lost(p, layers, order[i]) <==> !NoneBehind(src.family, order, i, Classify(src.family, order[i]))
  {
    hide Classify, RoutedName, DroppedName, IndexIs, TableFor, LastTable, LastSpelling, HasRecord, Backbone.ReadsFrom,
      Backbone.ManifestFor;
    var c := Classify(src.family, order[i]);
    ExternalizedIs(src.family, order[i]);
    RecordedIffLast(src, tensors, order, layers, order[i]);
    LastSpellingIs(src.family, order, c);
    var last := LastSpelling(src.family, order, c);
    var k :| 0 <= k < |order| && order[k] == last.value && NoneBehind(src.family, order, k, c);
    if NoneBehind(src.family, order, i, c) && i != k {
      assert false;
    }
  }

  /** Of two spellings of one tensor at least the one read first is lost. */
  lemma OneSpellingIsLost(files: Files, index: Backbone.WeightMap, hash: Hash, p: Backbone.Prepared, src: Source,
                          tensors: map<Name, Located>, layers: seq<LayerRecords>, a: Name, b: Name)
    requires Backbone.PreparedFor(src.family, files, index, hash, Backbone.Shards(index), p) && IndexIs(src, layers)
    requires TableFor(src.family, tensors, src.table) && a in tensors && b in tensors && a != b
    requires Routed(src.family, a) && Classify(src.family, a) == Classify(src.family, b)
    ensures Lost(p, layers, a) || Lost(p, layers, b)
  {
    hide Classify, RoutedName, DroppedName, IndexIs, TableFor, HasRecord, Backbone.ReadsFrom, Backbone.ManifestFor;
    ExternalizedIs(src.family, a);
    ExternalizedIs(src.family, b);
    RecordedIffChosen(src, tensors, layers, a);
    RecordedIffChosen(src, tensors, layers, b);
  }

  /** At the input: a stacked tensor with and without the optional prefix. */
  lemma TwoPrefixesLoseOne(files: Files, index: Backbone.WeightMap, hash: Hash, p: Backbone.Prepared, src: Source,
                           tensors: map<Name, Located>, layers: seq<LayerRecords>, layer: string, part: Part)
    requires Backbone.PreparedFor(src.family, files, index, hash, Backbone.Shards(index), p) && IndexIs(src, layers)
    requires TableFor(src.family, tensors, src.table) && src.family.DeepSeek? && AllDigits(layer) && StackedPart(part)
    requires ["layers", layer, "ffn", "switch_mlp", part.projection, part.kind] in tensors
    requires ["model", "layers", layer, "ffn", "switch_mlp", part.projection, part.kind] in tensors
    ensures Lost(p, layers, ["layers", layer, "ffn", "switch_mlp", part.projection, part.kind])
         || Lost(p, layers, ["model", "layers", layer, "ffn", "switch_mlp", part.projection, part.kind])
  {
    hide Classify, IndexIs, TableFor, Lost, Backbone.PreparedFor, AllDigits, StackedPart;
    TwoPrefixes(layer, part.projection, part.kind);
    OneSpellingIsLost(files, index, hash, p, src, tensors, layers,
                      ["layers", layer, "ffn", "switch_mlp", part.projection, part.kind],
                      ["model", "layers", layer, "ffn", "switch_mlp", part.projection, part.kind]);
  }

  /** At the input: an expert's tensor with and without leading zeros. */
  lemma TwoNumeralsLoseOne(files: Files, index: Backbone.WeightMap, hash: Hash, p: Backbone.Prepared, src: Source,
                           tensors: map<Name, Located>, layers: seq<LayerRecords>, layer: string, expert: string,
                           part: Part)
    requires Backbone.PreparedFor(src.family, files, index, hash, Backbone.Shards(index), p) && IndexIs(src, layers)
    requires TableFor(src.family, tensors, src.table) && src.family.DeepSeek?
    requires AllDigits(layer) && AllDigits(expert) && RawPart(part)
    requires ["layers", layer, "ffn", "experts", expert, part.projection, part.kind] in tensors
    requires ["layers", "0" + layer, "ffn", "experts", "0" + expert, part.projection, part.kind] in tensors
    ensures Lost(p, layers, ["layers", layer, "ffn", "experts", expert, part.projection, part.kind])
         || Lost(p, layers, ["layers", "0" + layer, "ffn", "experts", "0" + expert, part.projection, part.kind])
  {
    hide Classify, IndexIs, TableFor, Lost, Backbone.PreparedFor, AllDigits, RawPart;
    TwoNumerals(layer, expert, part.projection, part.kind);
    assert |"0" + layer| != |layer|;
    OneSpellingIsLost(files, index, hash, p, src, tensors, layers,
                      ["layers", layer, "ffn", "experts", expert, part.projection, part.kind],
                      ["layers", "0" + layer, "ffn", "experts", "0" + expert, part.projection, part.kind]);
  }

  lemma OnlyRoutedIsRecorded(src: Source, tensors: map<Name, Located>, layers: seq<LayerRecords>, n: Name)
    requires TableFor(src.family, tensors, src.table) && IndexIs(src, layers) && !Routed(src.family, n)
    ensures !HasRecord(layers, n)
  {
    hide Classify, IndexIs, TableFor;
    if HasRecord(layers, n) {
      var i: nat, e: nat, k: nat :| RecordAt(layers, i, e, k) && TheRecord(layers, i, e, k).source == n;
      RecordIsCut(src, tensors, layers, i, e, k);
      assert false;
    }
  }

  /******* What the storage transition reads of it *******/

  /** The shards of a layer's records. */
  function ShardNames(l: LayerRecords): Reclaim.LayerOffsets {
    Reclaim.LayerOffsets(l.layer, seq(|l.experts|, e requires 0 <= e < |l.experts| =>
      seq(|l.experts[e]|, k requires 0 <= k < |l.experts[e]| => l.experts[e][k].shard)))
  }

  /** A layer reads a shard, for the purpose of reclaiming it, exactly when one of its records lies there. */
  lemma LayerReadsItsRecords(layers: seq<LayerRecords>, i: nat, shard: string)
    requires i < |layers|
    ensures Reclaim.Reads(ShardNames(layers[i]), shard) <==>
              exists e: nat, k: nat :: RecordAt(layers, i, e, k) && TheRecord(layers, i, e, k).shard == shard
  {
    var o := ShardNames(layers[i]);
    if Reclaim.Reads(o, shard) {
      var e, k :| 0 <= e < |o.experts| && 0 <= k < |o.experts[e]| && o.experts[e][k] == shard;
      assert RecordAt(layers, i, e, k) && TheRecord(layers, i, e, k).shard == shard;
    }
    if e: nat, k: nat :| RecordAt(layers, i, e, k) && TheRecord(layers, i, e, k).shard == shard {
      assert o.experts[e][k] == shard;
    }
  }
}
