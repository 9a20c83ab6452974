/** Copying the tensors that stay into a compact backbone.  ai2apps/model_installer.py. */
module Backbone {
  import opened Base
  import opened TensorNames
  import Reclaim

  datatype Entry = Entry(name: Name, spec: TensorSpec)

  function Size(spec: TensorSpec): nat {
    if spec.end < spec.start then 0 else spec.end - spec.start
  }

  function TotalSize(entries: seq<Entry>): nat {
    if entries == [] then 0 else TotalSize(entries[..|entries| - 1]) + Size(entries[|entries| - 1].spec)
  }

  /** The entries are exactly the chosen tensors of the header, each once. */
  ghost predicate Selects(header: map<Name, TensorSpec>, names: set<Name>, entries: seq<Entry>) {
    && (forall i, j :: 0 <= i < j < |entries| ==> entries[i].name != entries[j].name)
    && (forall e :: e in entries ==> e.name in names && e.name in header && header[e.name] == e.spec)
    && (forall n :: n in names ==> n in header && Entry(n, header[n]) in entries)
  }

  /** Entry k lies right behind the ones before it, with its type, its shape and byte for byte its payload. */
  ghost predicate Moved(source: ShardFile, copy: ShardFile, entries: seq<Entry>, k: nat)
    requires k < |entries|
  {
    var from := entries[k];
    && from.name in copy.header
    && copy.header[from.name]
       == TensorSpec(from.spec.dtype, from.spec.shape, TotalSize(entries[..k]), TotalSize(entries[..k + 1]))
    && !Unreadable(copy, copy.header[from.name])
    && Payload(copy, copy.header[from.name]) == Payload(source, from.spec)
  }

  /** A copy of the named tensors and nothing else: payloads follow each other without gap or overlap. */
  ghost predicate CopyOf(source: ShardFile, names: set<Name>, copy: ShardFile, entries: seq<Entry>) {
    && Selects(source.header, names, entries)
    && (forall e :: e in entries ==> !Unreadable(source, e.spec))
    && copy.header.Keys == names
    && (forall k :: 0 <= k < |entries| ==> Moved(source, copy, entries, k))
    && |copy.data| == TotalSize(entries)
  }

  /** Every tensor reads the same from the copy. */
  lemma CopyReadsTheSame(source: ShardFile, names: set<Name>, copy: ShardFile, entries: seq<Entry>, n: Name)
    requires CopyOf(source, names, copy, entries) && n in names
    ensures n in source.header && n in copy.header && !Unreadable(copy, copy.header[n])
    ensures copy.header[n].dtype == source.header[n].dtype && copy.header[n].shape == source.header[n].shape
    ensures Payload(copy, copy.header[n]) == Payload(source, source.header[n])
  {
    var k :| 0 <= k < |entries| && entries[k] == Entry(n, source.header[n]);
    assert Moved(source, copy, entries, k);
  }

  /******* The selection *******/

  /** Sort the selected tensors by where their payload starts. */
  method SortByStart(header: map<Name, TensorSpec>, names: set<Name>) returns (entries: seq<Entry>)
    requires names <= header.Keys
    ensures Selects(header, names, entries)
    ensures forall i, j :: 0 <= i < j < |entries| ==> entries[i].spec.start <= entries[j].spec.start
  {
    entries := [];
    var rest := names;
    while rest != {}
      invariant rest <= names && Selects(header, names - rest, entries)
      invariant forall i, j :: 0 <= i < j < |entries| ==> entries[i].spec.start <= entries[j].spec.start
      invariant forall e, n :: e in entries && n in rest ==> e.spec.start <= header[n].start
      decreases |rest|
    {
      var first := Earliest(header, rest);
      entries := entries + [Entry(first, header[first])];
      rest := rest - {first};
    }
  }

  method Earliest(header: map<Name, TensorSpec>, names: set<Name>) returns (first: Name)
    requires names != {} && names <= header.Keys
    ensures first in names && forall n :: n in names ==> header[first].start <= header[n].start
  {
    first :| first in names;
    var todo := names - {first};
    while todo != {}
      invariant first in names && todo <= names
      invariant forall n :: n in names - todo ==> header[first].start <= header[n].start
      decreases |todo|
    {
      var n :| n in todo;
      todo := todo - {n};
      if header[n].start < header[first].start { first := n; }
    }
  }

  /******* Packing *******/

  function PackedHeader(entries: seq<Entry>): map<Name, TensorSpec> {
    if entries == [] then map[]
    else
      var front, last := entries[..|entries| - 1], entries[|entries| - 1];
      var end := TotalSize(front) + Size(last.spec);
      PackedHeader(front)[last.name := TensorSpec(last.spec.dtype, last.spec.shape, TotalSize(front), end)]
  }

  function PackedData(source: ShardFile, entries: seq<Entry>): seq<Byte> {
    if entries == [] then []
    else PackedData(source, entries[..|entries| - 1]) + Payload(source, entries[|entries| - 1].spec)
  }

  lemma {:induction false} PackedLength(source: ShardFile, entries: seq<Entry>)
    requires forall e :: e in entries ==> !Unreadable(source, e.spec)
    ensures |PackedData(source, entries)| == TotalSize(entries)
  {
    if entries != [] { PackedLength(source, entries[..|entries| - 1]); }
  }

  lemma {:induction false} PackedPrefix(source: ShardFile, entries: seq<Entry>, k: nat)
    requires k <= |entries|
    ensures PackedData(source, entries[..k]) <= PackedData(source, entries)
  {
    if k < |entries| {
      PackedPrefix(source, entries[..|entries| - 1], k);
      assert entries[..|entries| - 1][..k] == entries[..k];
    } else {
      assert entries[..k] == entries;
    }
  }

  lemma {:induction false} PackedHeaderAt(entries: seq<Entry>, k: nat)
    requires k < |entries| && forall i, j :: 0 <= i < j < |entries| ==> entries[i].name != entries[j].name
    ensures entries[k].name in PackedHeader(entries)
    ensures PackedHeader(entries)[entries[k].name]
            == TensorSpec(entries[k].spec.dtype, entries[k].spec.shape, TotalSize(entries[..k]),
                          TotalSize(entries[..k]) + Size(entries[k].spec))
  {
    var front := entries[..|entries| - 1];
    if k < |front| {
      PackedHeaderAt(front, k);
      assert front[..k] == entries[..k];
    }
  }

  lemma {:induction false} PackedKeys(entries: seq<Entry>)
    ensures PackedHeader(entries).Keys == set e | e in entries :: e.name
  {
    if entries != [] {
      var front, last := entries[..|entries| - 1], entries[|entries| - 1];
      PackedKeys(front);
      assert entries == front + [last];
    }
  }

  lemma PackedNext(source: ShardFile, entries: seq<Entry>, k: nat)
    requires k < |entries|
    ensures PackedData(source, entries[..k + 1]) == PackedData(source, entries[..k]) + Payload(source, entries[k].spec)
    ensures TotalSize(entries[..k + 1]) == TotalSize(entries[..k]) + Size(entries[k].spec)
  {
    assert entries[..k + 1][..k] == entries[..k];
  }

  lemma PackedAt(source: ShardFile, entries: seq<Entry>, k: nat)
    requires k < |entries| && forall e :: e in entries ==> !Unreadable(source, e.spec)
    ensures TotalSize(entries[..k + 1])
            == TotalSize(entries[..k]) + Size(entries[k].spec) <= |PackedData(source, entries)|
    ensures PackedData(source, entries)[TotalSize(entries[..k])..TotalSize(entries[..k + 1])]
         == Payload(source, entries[k].spec)
  {
    hide PackedData, TotalSize, Unreadable, Payload, Size;
    PackedNext(source, entries, k);
    PackedLength(source, entries[..k]);
    PackedLength(source, entries[..k + 1]);
    PackedPrefix(source, entries, k + 1);
  }

  lemma PackedIsCopy(source: ShardFile, names: set<Name>, entries: seq<Entry>, copy: ShardFile)
    requires Selects(source.header, names, entries) && forall e :: e in entries ==> !Unreadable(source, e.spec)
    requires copy.header == PackedHeader(entries) && copy.data == PackedData(source, entries)
    ensures CopyOf(source, names, copy, entries)
  {
    PackedKeys(entries);
    PackedLength(source, entries);
    forall k | 0 <= k < |entries| ensures Moved(source, copy, entries, k) {
      PackedHeaderAt(entries, k);
      PackedAt(source, entries, k);
      PackedIsMoved(source, copy, entries, k);
    }
    forall n | n in names ensures n in copy.header {
      assert Entry(n, source.header[n]) in entries;
    }
  }

  lemma PackedIsMoved(source: ShardFile, copy: ShardFile, entries: seq<Entry>, k: nat)
    requires k < |entries| && entries[k].name in copy.header && !Unreadable(source, entries[k].spec)
    requires copy.header[entries[k].name]
             == TensorSpec(entries[k].spec.dtype, entries[k].spec.shape, TotalSize(entries[..k]),
                           TotalSize(entries[..k]) + Size(entries[k].spec))
    requires TotalSize(entries[..k + 1]) == TotalSize(entries[..k]) + Size(entries[k].spec) <= |copy.data|
    requires copy.data[TotalSize(entries[..k])..TotalSize(entries[..k + 1])] == Payload(source, entries[k].spec)
    ensures Moved(source, copy, entries, k)
  {
    hide TotalSize;
    if Size(entries[k].spec) == 0 {
      assert Payload(source, entries[k].spec) == [];
    }
  }

  /******* Copying *******/

  /** Copy selected tensors: lay out the new header, then copy the payloads; `_copy_safetensors_subset`. */
  method CopySubset(source: ShardFile, names: set<Name>, chunk: nat)
    returns (r: Result<ShardFile>, ghost entries: seq<Entry>)
    requires chunk > 0
    ensures r.Ok? <==> names <= source.header.Keys && forall n :: n in names ==> !Unreadable(source, source.header[n])
    ensures r.Ok? ==> CopyOf(source, names, r.value, entries)
  {
    entries := [];
    if !(names <= source.header.Keys) { return Err("safetensors subset references missing tensors"), entries; }
    var selected := SortByStart(source.header, names);
    entries := selected;
    var header := LayOut(selected);
    var copied := CopyPayloads(source, selected, chunk);
    if copied.Err? {
      var e :| e in selected && Unreadable(source, e.spec);
      assert e.name in names;
      return Err(copied.message), entries;
    }
    forall n | n in names ensures !Unreadable(source, source.header[n]) {
      assert Entry(n, source.header[n]) in selected;
    }
    r := Ok(ShardFile(0, header, copied.value));
    PackedIsCopy(source, names, selected, r.value);
  }

  method LayOut(entries: seq<Entry>) returns (header: map<Name, TensorSpec>)
    ensures header == PackedHeader(entries)
  {
    header := map[];
    var cursor := 0;
    for k := 0 to |entries|
      invariant header == PackedHeader(entries[..k]) && cursor == TotalSize(entries[..k])
    {
      assert entries[..k + 1][..k] == entries[..k];
      var spec := entries[k].spec;
      header := header[entries[k].name := TensorSpec(spec.dtype, spec.shape, cursor, cursor + Size(spec))];
      cursor := cursor + Size(spec);
    }
    assert entries[..|entries|] == entries;
  }

  method CopyPayloads(source: ShardFile, entries: seq<Entry>, chunk: nat) returns (r: Result<seq<Byte>>)
    requires chunk > 0
    ensures r.Ok? <==> forall e :: e in entries ==> !Unreadable(source, e.spec)
    ensures r.Ok? ==> r.value == PackedData(source, entries)
  {
    hide Unreadable, Payload;
    var data: seq<Byte> := [];
    for k := 0 to |entries|
      invariant forall i :: 0 <= i < k ==> !Unreadable(source, entries[i].spec)
      invariant data == PackedData(source, entries[..k])
    {
      assert entries[..k + 1][..k] == entries[..k];
      var ok, payload := CopyPayload(source, entries[k].spec, chunk);
      if !ok { return Err("short safetensors read"); }
      data := data + payload;
    }
    assert entries[..|entries|] == entries;
    r := Ok(data);
  }

  /** The inner loop: reads deliver any positive number of bytes up to the chunk size, and none at the file's end. */
  method CopyPayload(source: ShardFile, spec: TensorSpec, chunk: nat) returns (ok: bool, payload: seq<Byte>)
    requires chunk > 0
    ensures ok <==> !Unreadable(source, spec)
    ensures ok ==> payload == Payload(source, spec)
  {
    payload := [];
    if spec.end < spec.start { return false, payload; }
    var offset, remaining := spec.start, spec.end - spec.start;
    while remaining > 0
      invariant offset + remaining == spec.end && spec.start <= offset && 0 <= remaining
      invariant offset > spec.start ==> offset <= |source.data|
      invariant payload == if spec.start < offset <= |source.data| then source.data[spec.start..offset] else []
    {
      if offset >= |source.data| { return false, payload; }
      var limit := Min(Min(chunk, remaining), |source.data| - offset);
      var n: nat :| 1 <= n <= limit;
      if offset > spec.start {
        assert source.data[spec.start..offset + n] == source.data[spec.start..offset] + source.data[offset..offset + n];
      }
      payload := payload + source.data[offset..offset + n];
      offset, remaining := offset + n, remaining - n;
    }
    ok := true;
  }

  /******* The whole backbone *******/

  type WeightMap = map<Name, string>

  /** The compact shards, their index, what the manifest says of every shard, the encoded files and the sizes. */
  datatype Prepared = Prepared(files: map<string, ShardFile>, weightMap: WeightMap, specs: map<string, Reclaim.Spec>,
                               staged: map<string, Reclaim.Content>, backboneBytes: map<string, nat>, totalSize: nat)

  function Shards(weightMap: WeightMap): set<string> {
    set n | n in weightMap :: weightMap[n]
  }

  /** The tensors of one shard that stay. */
  function KeptIn(family: Family, files: map<string, ShardFile>, weightMap: WeightMap, shard: string): (kept: set<Name>)
    requires shard in files
    ensures forall n :: n in kept <==>
              n in files[shard].header && n in weightMap && weightMap[n] == shard && !LeftOut(family, n)
  {
    KeptOrLeftOut(family, files[shard].header.Keys);
    set n | n in files[shard].header && n in weightMap && weightMap[n] == shard && !Externalized(family, n)
  }

  lemma KeptOrLeftOut(family: Family, names: set<Name>)
    ensures forall n :: n in names ==> (Externalized(family, n) <==> LeftOut(family, n))
  {
    forall n | n in names ensures Externalized(family, n) <==> LeftOut(family, n) {
      ExternalizedIs(family, n);
    }
  }

  ghost predicate Keeps(family: Family, files: map<string, ShardFile>, weightMap: WeightMap, n: Name) {
    n in weightMap && weightMap[n] in files && n in files[weightMap[n]].header && !LeftOut(family, n)
  }

  ghost predicate SameTensor(a: ShardFile, b: ShardFile, n: Name) {
    && n in a.header && n in b.header && !Unreadable(a, a.header[n]) && !Unreadable(b, b.header[n])
    && a.header[n].dtype == b.header[n].dtype && a.header[n].shape == b.header[n].shape
    && Payload(a, a.header[n]) == Payload(b, b.header[n])
  }

  /** The new index names exactly the tensors that stay, and each reads the same as before. */
  ghost predicate IndexFor(family: Family, files: map<string, ShardFile>, weightMap: WeightMap, done: set<string>,
                           p: Prepared)
  {
    && (forall n :: n in p.weightMap <==> Keeps(family, files, weightMap, n) && weightMap[n] in done)
    && (forall n :: n in p.weightMap ==> ReadsFrom(files, weightMap, p, n))
  }

  ghost predicate ReadsFrom(files: map<string, ShardFile>, weightMap: WeightMap, p: Prepared, n: Name) {
    && n in weightMap && n in p.weightMap && p.weightMap[n] == weightMap[n]
    && weightMap[n] in files && weightMap[n] in p.files && SameTensor(files[weightMap[n]], p.files[weightMap[n]], n)
  }

  /** The manifest knows which shards have a compact form, and the digest of what was written. */
  ghost predicate ManifestFor(family: Family, files: map<string, ShardFile>, weightMap: WeightMap, hash: Hash,
                              done: set<string>, p: Prepared)
  {
    && p.specs.Keys == done && p.staged.Keys == p.files.Keys && done <= files.Keys && p.staged.Keys <= done
    && (forall s :: s in done && s in files ==> (s in p.staged <==> KeptIn(family, files, weightMap, s) != {}))
    && (forall s :: s in p.specs ==> (p.specs[s].replaced <==> s in p.staged))
    && (forall s :: s in p.staged && s in p.specs ==> p.specs[s].digest == hash(p.staged[s]))
  }

  /** The shards done so far are prepared. */
  ghost predicate PreparedFor(family: Family, files: map<string, ShardFile>, weightMap: WeightMap, hash: Hash,
                              done: set<string>, p: Prepared)
  {
    IndexFor(family, files, weightMap, done, p) && ManifestFor(family, files, weightMap, hash, done, p)
  }

  /** The source shards can be read as far as they are kept, and something is kept. */
  ghost predicate CanPrepare(family: Family, files: map<string, ShardFile>, weightMap: WeightMap) {
    && Shards(weightMap) <= files.Keys
    && (forall n :: Keeps(family, files, weightMap, n) ==>
        !Unreadable(files[weightMap[n]], files[weightMap[n]].header[n]))
    && exists n :: Keeps(family, files, weightMap, n)
  }

  /** What a run of the preparation is given besides the checkpoint: file sizes, the header encoding and the digest. */
  datatype Tools = Tools(sizes: string -> nat, encode: map<Name, TensorSpec> -> seq<Byte>, hash: Hash)

  /** The payload bytes of the compact shards listed. */
  function PayloadBytes(files: map<string, ShardFile>, shards: seq<string>): nat {
    if shards == [] then 0
    else
      var last := shards[|shards| - 1];
      PayloadBytes(files, shards[..|shards| - 1]) + if last in files then |files[last].data| else 0
  }

  ghost predicate PackedCopy(source: ShardFile, names: set<Name>, copy: ShardFile) {
    exists entries :: CopyOf(source, names, copy, entries)
  }

  /** The manifest's sizes of one shard; a compact shard is a packed copy of what stays, behind its header. */
  ghost predicate SizedShard(family: Family, files: map<string, ShardFile>, weightMap: WeightMap, t: Tools, p: Prepared,
                             s: string)
  {
    && s in files && s in p.specs && p.specs[s].sourceBytes == t.sizes(s) && s in p.backboneBytes
    && (if s in p.staged then
          && p.backboneBytes[s] == |p.staged[s]|
          && s in p.files && p.staged[s] == t.encode(p.files[s].header) + p.files[s].data
          && PackedCopy(files[s], KeptIn(family, files, weightMap, s), p.files[s])
        else p.backboneBytes[s] == 0 && s !in p.files)
  }

  ghost predicate SizesFor(family: Family, files: map<string, ShardFile>, weightMap: WeightMap, t: Tools,
                           shards: seq<string>, p: Prepared)
  {
    && p.totalSize == PayloadBytes(p.files, shards)
    && forall s :: s in shards ==> SizedShard(family, files, weightMap, t, p, s)
  }

  /** `shards` lists the shards in the order they are visited. */
  method BuildBackbone(family: Family, files: map<string, ShardFile>, weightMap: WeightMap, shards: seq<string>,
                       t: Tools, chunk: nat)
    returns (r: Result<Prepared>)
    requires chunk > 0 && Lists(shards, Shards(weightMap))
    ensures r.Ok? <==> CanPrepare(family, files, weightMap)
    ensures r.Ok? ==> PreparedFor(family, files, weightMap, t.hash, Shards(weightMap), r.value)
    ensures r.Ok? ==> SizesFor(family, files, weightMap, t, shards, r.value)
  {
    hide PreparedFor, LeftOut, KeptIn, SameTensor, AddShard, Readable, Unreadable, CanPrepare, Keeps, SizesFor,
      CopyOf;
    var p := Prepared(map[], map[], map[], map[], map[], 0);
    NothingPrepared(family, files, weightMap, t);
    NothingIsReadable(family, files, weightMap);
    assert Visited(shards, 0) == {};
    for k := 0 to |shards|
      invariant PreparedFor(family, files, weightMap, t.hash, Visited(shards, k), p)
      invariant Readable(family, files, weightMap, Visited(shards, k))
      invariant SizesFor(family, files, weightMap, t, shards[..k], p)
    {
      var shard := shards[k];
      assert Visited(shards, k + 1) == Visited(shards, k) + {shard};
      if shard !in files {
        CannotPrepare(family, files, weightMap, shard);
        return Err("missing checkpoint shard");
      }
      var selected := KeptIn(family, files, weightMap, shard);
      var copied, entries := PrepareShard(files[shard], selected, chunk);
      if copied.Err? {
        CannotPrepare(family, files, weightMap, shard);
        return Err(copied.message);
      }
      MoreIsReadable(family, files, weightMap, Visited(shards, k), shard);
      ShardAdded(family, files, weightMap, Visited(shards, k), p, shard, copied.value, t);
      SizesGrow(family, files, weightMap, shards, k, p, copied.value, entries, t);
      p := AddShard(p, shard, selected, copied.value, t);
    }
    assert Visited(shards, |shards|) == Shards(weightMap) && shards[..|shards|] == shards;
    SomethingPrepared(family, files, weightMap, t.hash, p);
    AllIsReadable(family, files, weightMap);
    if p.weightMap == map[] { return Err("prepared backbone checkpoint contains no weights"); }
    r := Ok(p);
  }

  function Visited(shards: seq<string>, k: nat): set<string>
    requires k <= |shards|
  {
    set i | 0 <= i < k :: shards[i]
  }

  lemma {:induction false} SamePayloadBytes(a: map<string, ShardFile>, b: map<string, ShardFile>, shards: seq<string>)
    requires forall s :: s in shards ==> (s in a <==> s in b) && (s in a ==> a[s] == b[s])
    ensures PayloadBytes(a, shards) == PayloadBytes(b, shards)
  {
    if shards != [] { SamePayloadBytes(a, b, shards[..|shards| - 1]); }
  }

  /** An added shard leaves the entries of the others. */
  lemma OthersStaySized(family: Family, files: map<string, ShardFile>, weightMap: WeightMap, p: Prepared, shard: string,
                        selected: set<Name>, copy: ShardFile, t: Tools, x: string)
    requires SizedShard(family, files, weightMap, t, p, x) && x != shard
    ensures SizedShard(family, files, weightMap, t, AddShard(p, shard, selected, copy, t), x)
    ensures x in AddShard(p, shard, selected, copy, t).files <==> x in p.files
    ensures x in p.files ==> AddShard(p, shard, selected, copy, t).files[x] == p.files[x]
  {
    hide KeptIn, CopyOf, PackedCopy;
  }

  lemma AddedIsSized(family: Family, files: map<string, ShardFile>, weightMap: WeightMap, p: Prepared, shard: string,
                     copy: ShardFile, entries: seq<Entry>, t: Tools)
    requires shard in files && shard !in p.staged && shard !in p.files
    requires CopyOf(files[shard], KeptIn(family, files, weightMap, shard), copy, entries)
    ensures var p' := AddShard(p, shard, KeptIn(family, files, weightMap, shard), copy, t);
            && SizedShard(family, files, weightMap, t, p', shard)
            && p'.totalSize == p.totalSize + |copy.data|
            && (if shard in p'.files then p'.files[shard] == copy else copy.data == [])
  {
    hide KeptIn, CopyOf, PackedCopy, AddShard;
    NothingKept(files[shard], KeptIn(family, files, weightMap, shard), copy, entries);
    AddedEntries(p, shard, KeptIn(family, files, weightMap, shard), copy, t);
  }

  /** What adding a shard changes, map by map. */
  lemma AddedEntries(p: Prepared, shard: string, names: set<Name>, copy: ShardFile, t: Tools)
    ensures var p' := AddShard(p, shard, names, copy, t);
            && shard in p'.specs && p'.specs[shard].sourceBytes == t.sizes(shard) && shard in p'.backboneBytes
            && (names == {} ==>
                  && p'.staged == p.staged && p'.files == p.files && p'.backboneBytes[shard] == 0
                  && p'.totalSize == p.totalSize && p'.weightMap == p.weightMap
                  && p'.specs == p.specs[shard := Reclaim.Spec(false, t.sizes(shard), "")])
            && (names != {} ==>
                  && p'.files == p.files[shard := copy] && p'.totalSize == p.totalSize + |copy.data|
                  && p'.staged == p.staged[shard := t.encode(copy.header) + copy.data]
                  && p'.backboneBytes[shard] == |p'.staged[shard]|
                  && p'.specs == p.specs[shard := Reclaim.Spec(true, t.sizes(shard), t.hash(p'.staged[shard]))]
                  && p'.weightMap == p.weightMap + map n | n in names :: shard)
  {
  }

  lemma SizesGrow(family: Family, files: map<string, ShardFile>, weightMap: WeightMap, shards: seq<string>, k: nat,
                  p: Prepared, copy: ShardFile, entries: seq<Entry>, t: Tools)
    requires NoDuplicates(shards) && k < |shards| && shards[k] in files && shards[k] !in p.staged
             && shards[k] !in p.files
    requires SizesFor(family, files, weightMap, t, shards[..k], p)
    requires CopyOf(files[shards[k]], KeptIn(family, files, weightMap, shards[k]), copy, entries)
    ensures SizesFor(family, files, weightMap, t, shards[..k + 1],
                     AddShard(p, shards[k], KeptIn(family, files, weightMap, shards[k]), copy, t))
  {
    hide KeptIn, CopyOf, AddShard, SizedShard;
    var s, p' := shards[k], AddShard(p, shards[k], KeptIn(family, files, weightMap, shards[k]), copy, t);
    var more := shards[..k + 1];
    assert more[..k] == shards[..k] && s !in shards[..k];
    forall x | x in shards[..k]
      ensures SizedShard(family, files, weightMap, t, p', x)
      ensures x in p'.files <==> x in p.files
      ensures x in p.files ==> p'.files[x] == p.files[x]
    {
      OthersStaySized(family, files, weightMap, p, s, KeptIn(family, files, weightMap, s), copy, t, x);
    }
    SamePayloadBytes(p.files, p'.files, shards[..k]);
    AddedIsSized(family, files, weightMap, p, s, copy, entries, t);
    assert more == shards[..k] + [s];
  }

  lemma NothingKept(source: ShardFile, names: set<Name>, copy: ShardFile, entries: seq<Entry>)
    requires CopyOf(source, names, copy, entries)
    ensures PackedCopy(source, names, copy) && (copy.data != [] ==> names != {})
  {
    if copy.data != [] { assert entries[0] in entries; }
  }

  /** The kept tensors of the shards done so far are readable. */
  ghost predicate Readable(family: Family, files: map<string, ShardFile>, weightMap: WeightMap, done: set<string>) {
    && done <= files.Keys
    && forall n :: Keeps(family, files, weightMap, n) && weightMap[n] in done ==>
         !Unreadable(files[weightMap[n]], files[weightMap[n]].header[n])
  }

  lemma NothingIsReadable(family: Family, files: map<string, ShardFile>, weightMap: WeightMap)
    ensures Readable(family, files, weightMap, {})
  {
  }

  lemma MoreIsReadable(family: Family, files: map<string, ShardFile>, weightMap: WeightMap, done: set<string>,
                       shard: string)
    requires Readable(family, files, weightMap, done) && shard in files
    requires forall n :: n in KeptIn(family, files, weightMap, shard) && n in files[shard].header ==>
               !Unreadable(files[shard], files[shard].header[n])
    ensures Readable(family, files, weightMap, done + {shard})
  {
    hide Unreadable;
    KeptIsKept(family, files, weightMap, shard);
  }

  /** A shard that is missing or cannot be copied stops the preparation. */
  lemma CannotPrepare(family: Family, files: map<string, ShardFile>, weightMap: WeightMap, shard: string)
    requires shard in Shards(weightMap)
    requires shard in files ==>
               exists n :: n in KeptIn(family, files, weightMap, shard) && n in files[shard].header
                 && Unreadable(files[shard], files[shard].header[n])
    ensures !CanPrepare(family, files, weightMap)
  {
    hide Unreadable;
    if shard in files {
      KeptIsKept(family, files, weightMap, shard);
      var n :| n in KeptIn(family, files, weightMap, shard) && n in files[shard].header
        && Unreadable(files[shard], files[shard].header[n]);
      assert Keeps(family, files, weightMap, n);
    }
  }

  lemma AllIsReadable(family: Family, files: map<string, ShardFile>, weightMap: WeightMap)
    requires Readable(family, files, weightMap, Shards(weightMap))
    ensures CanPrepare(family, files, weightMap) <==> exists n :: Keeps(family, files, weightMap, n)
  {
    hide Unreadable;
    forall n | Keeps(family, files, weightMap, n) ensures weightMap[n] in Shards(weightMap) {}
  }

  lemma NothingPrepared(family: Family, files: map<string, ShardFile>, weightMap: WeightMap, t: Tools)
    ensures PreparedFor(family, files, weightMap, t.hash, {}, Prepared(map[], map[], map[], map[], map[], 0))
    ensures SizesFor(family, files, weightMap, t, [], Prepared(map[], map[], map[], map[], map[], 0))
  {
  }

  lemma KeptIsKept(family: Family, files: map<string, ShardFile>, weightMap: WeightMap, shard: string)
    requires shard in files
    ensures forall n :: n in KeptIn(family, files, weightMap, shard) <==>
              Keeps(family, files, weightMap, n) && weightMap[n] == shard
  {
    hide Externalized, LeftOut;
  }

  lemma SomethingPrepared(family: Family, files: map<string, ShardFile>, weightMap: WeightMap, hash: Hash, p: Prepared)
    requires PreparedFor(family, files, weightMap, hash, Shards(weightMap), p)
    ensures p.weightMap != map[] <==> exists n :: Keeps(family, files, weightMap, n)
  {
    hide ManifestFor, ReadsFrom, LeftOut;
    if n :| Keeps(family, files, weightMap, n) {
      assert weightMap[n] in Shards(weightMap);
      assert n in p.weightMap;
    }
  }

  method PrepareShard(source: ShardFile, selected: set<Name>, chunk: nat)
    returns (r: Result<ShardFile>, ghost entries: seq<Entry>)
    requires chunk > 0 && selected <= source.header.Keys
    ensures r.Ok? <==> forall n :: n in selected && n in source.header ==> !Unreadable(source, source.header[n])
    ensures r.Ok? ==> r.value.header.Keys == selected && forall n :: n in selected ==> SameTensor(source, r.value, n)
    ensures r.Ok? ==> CopyOf(source, selected, r.value, entries)
  {
    r, entries := CopySubset(source, selected, chunk);
    if r.Ok? {
      forall n | n in selected ensures SameTensor(source, r.value, n) {
        CopyReadsTheSame(source, selected, r.value, entries, n);
      }
    }
  }

  /** A shard without anything to keep only gets a manifest entry. */
  function AddShard(p: Prepared, shard: string, selected: set<Name>, copy: ShardFile, t: Tools): Prepared {
    if selected == {} then
      p.(specs := p.specs[shard := Reclaim.Spec(false, t.sizes(shard), "")],
         backboneBytes := p.backboneBytes[shard := 0])
    else
      var content := t.encode(copy.header) + copy.data;
      Prepared(p.files[shard := copy], p.weightMap + map n | n in selected :: shard,
               p.specs[shard := Reclaim.Spec(true, t.sizes(shard), t.hash(content))], p.staged[shard := content],
               p.backboneBytes[shard := |content|], p.totalSize + |copy.data|)
  }

  lemma IndexGrows(family: Family, files: map<string, ShardFile>, weightMap: WeightMap, done: set<string>, p: Prepared,
                   shard: string, copy: ShardFile, p': Prepared)
    requires IndexFor(family, files, weightMap, done, p) && shard in files && shard !in done
    requires forall n :: n in copy.header ==>
               Keeps(family, files, weightMap, n) && weightMap[n] == shard && SameTensor(files[shard], copy, n)
    requires forall n :: Keeps(family, files, weightMap, n) && weightMap[n] == shard ==> n in copy.header
    requires forall s :: s in p'.files <==> s in p.files || (s == shard && copy.header.Keys != {})
    requires forall s :: s in p'.files ==> p'.files[s] == if s == shard then copy else p.files[s]
    requires forall n :: n in p'.weightMap <==> n in p.weightMap || n in copy.header
    requires forall n :: n in p'.weightMap ==> p'.weightMap[n] == if n in copy.header then shard else p.weightMap[n]
    requires shard !in p.files
    ensures IndexFor(family, files, weightMap, done + {shard}, p')
  {
    hide SameTensor, Keeps;
    forall n | n in p'.weightMap ensures ReadsFrom(files, weightMap, p', n) {
      if n !in copy.header {
        assert ReadsFrom(files, weightMap, p, n);
      } else {
        assert Keeps(family, files, weightMap, n);
        KeepsWhat(family, files, weightMap, n);
      }
    }
  }

  lemma KeepsWhat(family: Family, files: map<string, ShardFile>, weightMap: WeightMap, n: Name)
    requires Keeps(family, files, weightMap, n)
    ensures n in weightMap && weightMap[n] in files
  {
  }

  lemma ManifestGrows(family: Family, files: map<string, ShardFile>, weightMap: WeightMap, done: set<string>,
                      p: Prepared, shard: string, copy: ShardFile, t: Tools)
    requires ManifestFor(family, files, weightMap, t.hash, done, p) && shard in files && shard !in done
    requires copy.header.Keys == KeptIn(family, files, weightMap, shard)
    ensures ManifestFor(family, files, weightMap, t.hash, done + {shard},
                        AddShard(p, shard, KeptIn(family, files, weightMap, shard), copy, t))
  {
    hide KeptIn, AddShard, ManifestFor;
    AddedEntries(p, shard, KeptIn(family, files, weightMap, shard), copy, t);
    var p' := AddShard(p, shard, KeptIn(family, files, weightMap, shard), copy, t);
    if KeptIn(family, files, weightMap, shard) == {} {
      WithoutBackbone(family, files, weightMap, t.hash, done, p, shard, p');
    } else {
      WithBackbone(family, files, weightMap, t.hash, done, p, shard, p');
    }
  }

  lemma WithoutBackbone(family: Family, files: map<string, ShardFile>, weightMap: WeightMap, hash: Hash,
                        done: set<string>, p: Prepared, shard: string, p': Prepared)
    requires ManifestFor(family, files, weightMap, hash, done, p) && shard in files && shard !in done
    requires KeptIn(family, files, weightMap, shard) == {} && p'.staged == p.staged && p'.files == p.files
    requires shard in p'.specs && !p'.specs[shard].replaced && p'.specs == p.specs[shard := p'.specs[shard]]
    ensures ManifestFor(family, files, weightMap, hash, done + {shard}, p')
  {
    hide KeptIn;
  }

  lemma WithBackbone(family: Family, files: map<string, ShardFile>, weightMap: WeightMap, hash: Hash, done: set<string>,
                     p: Prepared, shard: string, p': Prepared)
    requires ManifestFor(family, files, weightMap, hash, done, p) && shard in files && shard !in done
    requires KeptIn(family, files, weightMap, shard) != {}
    requires shard in p'.staged && p'.staged == p.staged[shard := p'.staged[shard]]
    requires shard in p'.files && p'.files == p.files[shard := p'.files[shard]]
    requires shard in p'.specs && p'.specs == p.specs[shard := p'.specs[shard]]
    requires p'.specs[shard].replaced && p'.specs[shard].digest == hash(p'.staged[shard])
    ensures ManifestFor(family, files, weightMap, hash, done + {shard}, p')
  {
    hide KeptIn;
  }

  lemma ShardAdded(family: Family, files: map<string, ShardFile>, weightMap: WeightMap, done: set<string>, p: Prepared,
                   shard: string, copy: ShardFile, t: Tools)
    requires PreparedFor(family, files, weightMap, t.hash, done, p) && shard in files && shard !in done
    requires copy.header.Keys == KeptIn(family, files, weightMap, shard)
    requires forall n :: n in copy.header ==> SameTensor(files[shard], copy, n)
    ensures shard !in p.staged && shard !in p.files
    ensures PreparedFor(family, files, weightMap, t.hash, done + {shard},
                        AddShard(p, shard, KeptIn(family, files, weightMap, shard), copy, t))
  {
    hide SameTensor, LeftOut, IndexFor, AddShard, KeptIn;
    ManifestGrows(family, files, weightMap, done, p, shard, copy, t);
    IndexAdded(family, files, weightMap, done, p, shard, copy, t);
  }

  lemma IndexAdded(family: Family, files: map<string, ShardFile>, weightMap: WeightMap, done: set<string>, p: Prepared,
                   shard: string, copy: ShardFile, t: Tools)
    requires IndexFor(family, files, weightMap, done, p) && shard in files && shard !in done && shard !in p.files
    requires copy.header.Keys == KeptIn(family, files, weightMap, shard)
    requires forall n :: n in copy.header ==> SameTensor(files[shard], copy, n)
    ensures IndexFor(family, files, weightMap, done + {shard},
                     AddShard(p, shard, KeptIn(family, files, weightMap, shard), copy, t))
  {
    hide SameTensor, IndexFor, AddShard, Keeps;
    KeptIsKept(family, files, weightMap, shard);
    AddedEntries(p, shard, KeptIn(family, files, weightMap, shard), copy, t);
    hide KeptIn;
    IndexGrows(family, files, weightMap, done, p, shard, copy,
               AddShard(p, shard, KeptIn(family, files, weightMap, shard), copy, t));
  }

  /** So right after preparation every staged shard has the digest recorded for it. */
  lemma PreparedIsHonest(family: Family, files: map<string, ShardFile>, weightMap: WeightMap, hash: Hash, p: Prepared,
                         plan: Reclaim.Plan, f: Reclaim.Files, layer: int)
    requires PreparedFor(family, files, weightMap, hash, Shards(weightMap), p)
    requires plan.specs == p.specs && f.staged == p.staged
    ensures Reclaim.AllHonest(hash, plan, f, plan.order, layer)
  {
  }
}
