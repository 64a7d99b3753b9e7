/** Building the two indexes over the contextualized chunks: the Qdrant collection, filled in
    batches of 64 points whose ids are the chunks' positions, and the space-tokenized BM25
    corpus in chunk order. The Qdrant collection is a class whose `recreate_collection` and
    `upsert` change it in place; the embedding model is a parameter. */
module Indexing {
  import opened Wrappers
  import opened Text
  import opened Ranking
  import Contextualize

  type ChunkRecord = Contextualize.ChunkRecord
  type Vector = seq<real>

  const BatchSize: nat := 64

  /** The three metadata fields stored with each point; there is no `source` field. */
  datatype Payload = Payload(originalChunk: string, generatedContext: string, parentDocIndex: nat)

  datatype Point = Point(id: nat, vector: Vector, payload: Payload)

  /** `PointStruct(id=..., vector=embedding of contextualized_chunk, payload=...)`. */
  function ChunkPoint(id: nat, c: ChunkRecord, embed: string -> Vector): Point
  {
    Point(id, embed(c.contextualizedChunk), Payload(c.originalChunk, c.generatedContext, c.parentDocIndex))
  }

  /** The points of the batch starting at offset `i`: `chunks[i:i+64]`, with id `i+j` for the
      `j`-th chunk of the batch. */
  function BatchPoints(chunks: seq<ChunkRecord>, i: nat, embed: string -> Vector): seq<Point>
    requires i <= |chunks|
  {
    var batch := chunks[i..Min(i + BatchSize, |chunks|)];
    seq(|batch|, j requires 0 <= j < |batch| => ChunkPoint(i + j, batch[j], embed))
  }

  /** The `upsert` calls of the loop over `range(i, len(chunks), 64)`, in order. */
  function Uploads(chunks: seq<ChunkRecord>, i: nat, embed: string -> Vector): seq<seq<Point>>
    decreases |chunks| - i
  {
    if i >= |chunks| then [] else [BatchPoints(chunks, i, embed)] + Uploads(chunks, i + BatchSize, embed)
  }

  /** Writing points into the collection one after the other; a later point with the same id
      replaces an earlier one. */
  function Store(m: map<nat, Point>, ps: seq<Point>): map<nat, Point>
    decreases |ps|
  {
    if ps == [] then m else Store(m[ps[0].id := ps[0]], ps[1..])
  }

  function StoreAll(m: map<nat, Point>, bs: seq<seq<Point>>): map<nat, Point>
    decreases |bs|
  {
    if bs == [] then m else StoreAll(Store(m, bs[0]), bs[1..])
  }

  function Flatten(bs: seq<seq<Point>>): seq<Point>
  {
    if bs == [] then [] else bs[0] + Flatten(bs[1..])
  }

  /** One point per chunk, the chunk's position as its id. */
  function AllPoints(chunks: seq<ChunkRecord>, embed: string -> Vector): seq<Point>
  {
    seq(|chunks|, k requires 0 <= k < |chunks| => ChunkPoint(k, chunks[k], embed))
  }

  /** The collection holds exactly ids `0..n-1`, and the point with id `k` is built from the
      chunk at position `k`: so `all_chunks_data[hit.id]` is the chunk a hit was made from. */
  predicate IndexedAsPositions(points: map<nat, Point>, chunks: seq<ChunkRecord>, embed: string -> Vector)
  {
    && (forall k: nat :: k < |chunks| ==> k in points)
    && forall k :: k in points ==> k < |chunks| && points[k] == ChunkPoint(k, chunks[k], embed)
  }

  /** The collection's size as `get_collection` reports it. */
  datatype CollectionInfo = CollectionInfo(vectorsCount: Option<int>)

  /** A Qdrant collection, with the `upsert` calls received since it was last (re)created. */
  class Collection {
    var present: bool
    var points: map<nat, Point>
    var batches: seq<seq<Point>>

    constructor ()
      ensures !present && points == map[] && batches == []
    {
      present := false;
      points := map[];
      batches := [];
    }

    /** `recreate_collection`: the collection exists and is empty. */
    method Recreate()
      modifies this
      ensures present && points == map[] && batches == []
    {
      present := true;
      points := map[];
      batches := [];
    }

    /** `recreate_collection` inside `try`: when the server refuses, nothing changes. */
    method TryRecreate(refused: bool) returns (ok: bool)
      modifies this
      ensures ok == !refused
      ensures ok ==> present && points == map[] && batches == []
      ensures !ok ==> present == old(present) && points == old(points) && batches == old(batches)
    {
      if refused {
        return false;
      }
      Recreate();
      return true;
    }

    /** `upsert(points=..., wait=True)`. */
    method Upsert(ps: seq<Point>)
      requires present
      modifies this
      ensures present
      ensures points == Store(old(points), ps)
      ensures batches == old(batches) + [ps]
    {
      points := Store(points, ps);
      batches := batches + [ps];
    }

    /** What `get_collection` returns; it raises for a missing collection. The server's
        `vectors_count` is `reported`: it may be `None`, and it equals the number of stored
        points only once the server has indexed them all. */
    function Info(reported: Option<int>): (r: Option<CollectionInfo>)
      reads this
      ensures r.Some? <==> present
      ensures r.Some? ==> r.value.vectorsCount == reported
    {
      if present then Some(CollectionInfo(reported)) else None
    }
  }

  /** `check_if_data_exists`: the collection exists and reports a positive vector count. A
      missing collection raises, and so does a count of `None` compared with `0`; either way
      the answer is `False`. */
  function CheckIfDataExists(info: Option<CollectionInfo>): (r: bool)
  {
    match info
    case None => false
    case Some(ci) => ci.vectorsCount.Some? && ci.vectorsCount.value > 0
  }

  /** A collection answers "has data" exactly when it exists and its reported count is a
      positive number; when the count is exact, exactly when it exists and holds a point. */
  lemma CheckIfDataExistsSpec(c: Collection, reported: Option<int>)
    ensures CheckIfDataExists(c.Info(reported)) <==> c.present && reported.Some? && reported.value > 0
    ensures reported == Some(|c.points|) ==> (CheckIfDataExists(c.Info(reported)) <==> c.present && c.points != map[])
  {
    if c.present && c.points != map[] {
      var k :| k in c.points;
      assert k in c.points.Keys;
    }
  }

  /** `index_in_qdrant` of the ingestion script: recreate, then one `upsert` per batch of 64. */
  method IndexInQdrant(c: Collection, chunks: seq<ChunkRecord>, embed: string -> Vector)
    modifies c
    ensures c.present
    ensures c.batches == Uploads(chunks, 0, embed)
    ensures IndexedAsPositions(c.points, chunks, embed)
  {
    c.Recreate();
    var i: nat := 0;
    while i < |chunks|
      invariant c.present
      invariant c.batches + Uploads(chunks, i, embed) == Uploads(chunks, 0, embed)
      invariant c.points == StoreAll(map[], c.batches)
      decreases |chunks| - i
    {
      var points := BatchPoints(chunks, i, embed);
      StoreAllSnoc(map[], c.batches, points);
      c.Upsert(points);
      i := i + BatchSize;
    }
    UploadsIndexAsPositions(chunks, embed);
  }

  /** `index_in_qdrant` of the development script: the batch's points are appended one by one,
      and when creating the collection fails the function returns without uploading. */
  method IndexData(c: Collection, chunks: seq<ChunkRecord>, embed: string -> Vector, refused: bool)
    modifies c
    ensures refused ==> c.present == old(c.present) && c.points == old(c.points) && c.batches == old(c.batches)
    ensures !refused ==> c.present && c.batches == Uploads(chunks, 0, embed) && IndexedAsPositions(c.points, chunks, embed)
  {
    var ok := c.TryRecreate(refused);
    if !ok {
      return;
    }
    var i: nat := 0;
    while i < |chunks|
      invariant c.present
      invariant c.batches + Uploads(chunks, i, embed) == Uploads(chunks, 0, embed)
      invariant c.points == StoreAll(map[], c.batches)
      decreases |chunks| - i
    {
      var points := BuildBatch(chunks, i, embed);
      StoreAllSnoc(map[], c.batches, points);
      c.Upsert(points);
      i := i + BatchSize;
    }
    UploadsIndexAsPositions(chunks, embed);
  }

  /** The inner loop of the development script: the batch's points, appended one by one. */
  method BuildBatch(chunks: seq<ChunkRecord>, i: nat, embed: string -> Vector) returns (points: seq<Point>)
    requires i <= |chunks|
    ensures points == BatchPoints(chunks, i, embed)
  {
    var batch := chunks[i..Min(i + BatchSize, |chunks|)];
    points := [];
    var j := 0;
    while j < |batch|
      invariant 0 <= j <= |batch|
      invariant points == BatchPoints(chunks, i, embed)[..j]
    {
      points := points + [ChunkPoint(i + j, batch[j], embed)];
      j := j + 1;
    }
  }

  lemma {:induction false} StoreConcat(m: map<nat, Point>, a: seq<Point>, b: seq<Point>)
    ensures Store(m, a + b) == Store(Store(m, a), b)
    decreases |a|
  {
    if a != [] {
      assert (a + b)[1..] == a[1..] + b;
      StoreConcat(m[a[0].id := a[0]], a[1..], b);
    } else {
      assert a + b == b;
    }
  }

  lemma {:induction false} StoreAllFlatten(m: map<nat, Point>, bs: seq<seq<Point>>)
    ensures StoreAll(m, bs) == Store(m, Flatten(bs))
    decreases |bs|
  {
    if bs != [] {
      StoreAllFlatten(Store(m, bs[0]), bs[1..]);
      StoreConcat(m, bs[0], Flatten(bs[1..]));
    }
  }

  lemma {:induction false} FlattenSnoc(bs: seq<seq<Point>>, b: seq<Point>)
    ensures Flatten(bs + [b]) == Flatten(bs) + b
    decreases |bs|
  {
    if bs == [] {
      assert [] + [b] == [b];
    } else {
      assert (bs + [b])[1..] == bs[1..] + [b];
      FlattenSnoc(bs[1..], b);
    }
  }

  /** Upserting one more batch stores it over what the earlier batches stored. */
  lemma StoreAllSnoc(m: map<nat, Point>, bs: seq<seq<Point>>, b: seq<Point>)
    ensures StoreAll(m, bs + [b]) == Store(StoreAll(m, bs), b)
  {
    StoreAllFlatten(m, bs + [b]);
    FlattenSnoc(bs, b);
    StoreConcat(m, Flatten(bs), b);
    StoreAllFlatten(m, bs);
  }

  /** A batch's points are the chunk points at the batch's positions. */
  lemma BatchPointsAreSlice(chunks: seq<ChunkRecord>, i: nat, embed: string -> Vector)
    requires i <= |chunks|
    ensures BatchPoints(chunks, i, embed) == AllPoints(chunks, embed)[i..Min(i + BatchSize, |chunks|)]
  {
  }

  /** The batches, concatenated, are the chunk points from offset `i` on, in chunk order. */
  lemma {:induction false} UploadsCover(chunks: seq<ChunkRecord>, i: nat, embed: string -> Vector)
    requires i <= |chunks|
    ensures Flatten(Uploads(chunks, i, embed)) == AllPoints(chunks, embed)[i..]
    decreases |chunks| - i
  {
    var all := AllPoints(chunks, embed);
    if i < |chunks| {
      BatchPointsAreSlice(chunks, i, embed);
      var end := Min(i + BatchSize, |chunks|);
      if i + BatchSize < |chunks| {
        UploadsCover(chunks, i + BatchSize, embed);
      } else {
        assert Uploads(chunks, i + BatchSize, embed) == [];
      }
      assert all[i..] == all[i..end] + all[end..];
    }
  }

  /** There are `ceil((n - i) / 64)` batches, each non-empty; all but the last hold exactly 64
      points and the last at most 64. */
  lemma {:induction false} UploadsShape(chunks: seq<ChunkRecord>, i: nat, embed: string -> Vector)
    requires i <= |chunks|
    ensures var us := Uploads(chunks, i, embed);
      && |us| == (|chunks| - i + BatchSize - 1) / BatchSize
      && (forall b :: 0 <= b < |us| ==> 0 < |us[b]| <= BatchSize)
      && (forall b :: 0 <= b < |us| - 1 ==> |us[b]| == BatchSize)
    decreases |chunks| - i
  {
    if i < |chunks| {
      var us := Uploads(chunks, i, embed);
      if i + BatchSize < |chunks| {
        UploadsShape(chunks, i + BatchSize, embed);
        var rest := Uploads(chunks, i + BatchSize, embed);
        assert us == [BatchPoints(chunks, i, embed)] + rest;
        assert forall b :: 1 <= b < |us| ==> us[b] == rest[b - 1];
      } else {
        assert Uploads(chunks, i + BatchSize, embed) == [];
        assert us == [BatchPoints(chunks, i, embed)];
      }
    }
  }

  /** Storing points whose ids are `base, base+1, ...` adds exactly those ids, each holding
      its own point; other ids keep their old value. */
  lemma {:induction false} StoreSequential(m: map<nat, Point>, ps: seq<Point>, base: nat)
    requires forall k :: 0 <= k < |ps| ==> ps[k].id == base + k
    ensures forall id :: id in Store(m, ps) <==> id in m || base <= id < base + |ps|
    ensures forall id :: base <= id < base + |ps| ==> Store(m, ps)[id] == ps[id - base]
    ensures forall id :: id in m && !(base <= id < base + |ps|) ==> Store(m, ps)[id] == m[id]
    decreases |ps|
  {
    if ps != [] {
      var m' := m[ps[0].id := ps[0]];
      assert forall k :: 0 <= k < |ps[1..]| ==> ps[1..][k].id == base + 1 + k;
      StoreSequential(m', ps[1..], base + 1);
      assert forall k :: 0 <= k < |ps| - 1 ==> ps[1..][k] == ps[k + 1];
    }
  }

  /** After all uploads the collection is indexed by position. */
  lemma UploadsIndexAsPositions(chunks: seq<ChunkRecord>, embed: string -> Vector)
    ensures IndexedAsPositions(StoreAll(map[], Uploads(chunks, 0, embed)), chunks, embed)
  {
    var all := AllPoints(chunks, embed);
    StoreAllFlatten(map[], Uploads(chunks, 0, embed));
    UploadsCover(chunks, 0, embed);
    assert all[0..] == all;
    StoreSequential(map[], all, 0);
    var points := Store(map[], all);
    assert forall k: nat :: k in points <==> k < |chunks|;
  }

  /** An index by position holds exactly `n` points, one per chunk. */
  lemma IndexedCount(points: map<nat, Point>, chunks: seq<ChunkRecord>, embed: string -> Vector)
    requires IndexedAsPositions(points, chunks, embed)
    ensures |points| == |chunks|
  {
    IdsCard(points.Keys, |chunks|);
    assert |points| == |points.Keys|;
  }

  /** A set of ids that are exactly `0..n-1` has `n` elements. */
  lemma {:induction false} IdsCard(s: set<nat>, n: nat)
    requires forall k: nat :: k in s <==> k < n
    ensures |s| == n
  {
    if n > 0 {
      var s' := s - {n - 1};
      assert forall k: nat :: k in s' <==> k < n - 1;
      IdsCard(s', n - 1);
      assert s == s' + {n - 1};
    }
  }

  /** `corpus`: the contextualized chunk texts in chunk order. */
  function Corpus(chunks: seq<ChunkRecord>): (r: seq<string>)
    ensures |r| == |chunks|
  {
    seq(|chunks|, k requires 0 <= k < |chunks| => chunks[k].contextualizedChunk)
  }

  /** `tokenized_corpus`: each corpus entry split on single spaces. */
  function TokenizedCorpus(chunks: seq<ChunkRecord>): seq<seq<string>>
  {
    seq(|chunks|, k requires 0 <= k < |chunks| => SplitOn(chunks[k].contextualizedChunk, ' '))
  }

  /** The tokenization loses nothing: the BM25 document at position `k` joined back with
      spaces is the corpus entry at `k`, and no token holds a space. */
  lemma TokenizedCorpusSpec(chunks: seq<ChunkRecord>, k: nat)
    requires k < |chunks|
    ensures |TokenizedCorpus(chunks)| == |chunks|
    ensures Join(TokenizedCorpus(chunks)[k], " ") == Corpus(chunks)[k]
    ensures forall t :: 0 <= t < |TokenizedCorpus(chunks)[k]| ==> ' ' !in TokenizedCorpus(chunks)[k][t]
  {
    JoinSplitOn(chunks[k].contextualizedChunk, ' ');
  }

  /** The text a hit is rebuilt from in the single-pass chain: `generated_context`, a blank
      line, `original_chunk`. */
  function PayloadText(p: Payload): string
  {
    p.generatedContext + "\n\n" + p.originalChunk
  }

  /** Over records made by the contextualizer, the point with id `k` is the embedding of the
      BM25 corpus entry at `k`, and its payload rebuilds exactly that entry; so a hit and a
      BM25 candidate for the same chunk carry the same text and the merge deduplicates them. */
  lemma PointMatchesCorpus(parents: seq<string>, split: string -> seq<string>, llm: (string, string) -> Option<string>,
                           embed: string -> Vector, points: map<nat, Point>, k: nat)
    requires IndexedAsPositions(points, Contextualize.Contextualized(parents, split, llm), embed)
    requires k in points
    ensures var chunks := Contextualize.Contextualized(parents, split, llm);
      && k < |chunks|
      && points[k].vector == embed(Corpus(chunks)[k])
      && PayloadText(points[k].payload) == Corpus(chunks)[k]
  {
    var chunks := Contextualize.Contextualized(parents, split, llm);
    Contextualize.RecordsWellFormed(parents, |parents|, split, llm);
    assert chunks[k] in chunks;
  }

  /** Ingestion's outcome: Qdrant unreachable (exit status 1), data already present (exit 0,
      nothing done), no chunks, or both indexes built. */
  datatype IngestOutcome = QdrantUnavailable | AlreadyIndexed | NoChunks | Indexed

  function ExitStatus(o: IngestOutcome): nat
  {
    if o == QdrantUnavailable then 1 else 0
  }

  /** The ingestion script's main block; `ready` is whether `wait_for_qdrant` saw the server,
      and the BM25 corpus it writes is returned. */
  method Ingest(c: Collection, ready: bool, reported: Option<int>, chunks: seq<ChunkRecord>, embed: string -> Vector)
    returns (outcome: IngestOutcome, bm25: Option<seq<seq<string>>>)
    modifies c
    ensures !ready <==> outcome == QdrantUnavailable
    ensures ready && CheckIfDataExists(old(c.Info(reported))) <==> outcome == AlreadyIndexed
    ensures ready && !CheckIfDataExists(old(c.Info(reported))) && chunks == [] <==> outcome == NoChunks
    ensures outcome != Indexed ==>
      bm25 == None && c.present == old(c.present) && c.points == old(c.points) && c.batches == old(c.batches)
    ensures outcome == Indexed ==>
      && bm25 == Some(TokenizedCorpus(chunks))
      && c.present && c.batches == Uploads(chunks, 0, embed)
      && IndexedAsPositions(c.points, chunks, embed)
      && CheckIfDataExists(c.Info(Some(|c.points|)))
  {
    if !ready {
      return QdrantUnavailable, None;
    }
    if CheckIfDataExists(c.Info(reported)) {
      return AlreadyIndexed, None;
    }
    if chunks == [] {
      return NoChunks, None;
    }
    bm25 := Some(TokenizedCorpus(chunks));
    IndexInQdrant(c, chunks, embed);
    outcome := Indexed;
    CheckIfDataExistsSpec(c, Some(|c.points|));
    assert 0 in c.points;
  }

  /** A second ingestion over the collection the first built skips once the server reports a
      positive count, in particular the exact one: ingestion is then idempotent. */
  lemma IngestIdempotent(c: Collection, chunks: seq<ChunkRecord>, embed: string -> Vector, reported: Option<int>)
    requires c.present && chunks != [] && IndexedAsPositions(c.points, chunks, embed)
    ensures CheckIfDataExists(c.Info(reported)) <==> reported.Some? && reported.value > 0
    ensures reported == Some(|c.points|) ==> CheckIfDataExists(c.Info(reported))
  {
    CheckIfDataExistsSpec(c, reported);
    assert 0 in c.points;
  }

  /** Why `load_chunks_from_json` could not read the file. */
  datatype LoadError = FileNotFound | Malformed

  /** `load_chunks_from_json` of the development script: any error gives the empty list. */
  function LoadChunks(read: Result<seq<ChunkRecord>, LoadError>): (r: seq<ChunkRecord>)
    ensures read.Failure? ==> r == []
    ensures read.Success? ==> r == read.value
  {
    match read
    case Success(chunks) => chunks
    case Failure(_) => []
  }

  /** The development script's main block: both indexes are built only from a non-empty list. */
  method IndexDataMain(c: Collection, read: Result<seq<ChunkRecord>, LoadError>, embed: string -> Vector, refused: bool)
    returns (bm25: Option<seq<seq<string>>>)
    modifies c
    ensures LoadChunks(read) == [] ==>
      bm25 == None && c.present == old(c.present) && c.points == old(c.points) && c.batches == old(c.batches)
    ensures LoadChunks(read) != [] ==> bm25 == Some(TokenizedCorpus(LoadChunks(read)))
    ensures LoadChunks(read) != [] && refused ==>
      c.present == old(c.present) && c.points == old(c.points) && c.batches == old(c.batches)
    ensures LoadChunks(read) != [] && !refused ==>
      c.present && c.batches == Uploads(LoadChunks(read), 0, embed) && IndexedAsPositions(c.points, LoadChunks(read), embed)
  {
    var chunks := LoadChunks(read);
    if chunks == [] {
      return None;
    }
    bm25 := Some(TokenizedCorpus(chunks));
    IndexData(c, chunks, embed, refused);
  }
}
