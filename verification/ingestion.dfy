/** The ingestion pipeline (ingestion.py): index (re)creation, embedding with
    per-chunk failure isolation, and bulk loading in three groups. */
module Ingestion {
  import opened Wrappers
  import opened Errors
  import opened Embeddings
  import opened Store
  import Seqs

  /** A chunk dictionary as handed to the pipeline; `None` stands for a
      missing key (or, for the filename, a `None` value). */
  datatype Chunk = Chunk(content: Option<string>, contentType: Option<string>, filename: Option<string>)

  /** A chunk survives preparation when its content is present and non-empty
      and the embedder returns a vector of exactly `EmbeddingDim` values. */
  predicate Accepted(embed: Embedder, c: Chunk) {
    && c.content.Some?
    && c.content.value != ""
    && embed(c.content.value).Vector?
    && |embed(c.content.value).values| == EmbeddingDim
  }

  function AcceptedBy(embed: Embedder): Chunk -> bool {
    c => Accepted(embed, c)
  }

  /** The vector of an embedding reply (empty when there is none). */
  function VectorOf(e: Embedding): seq<real> {
    if e.Vector? then e.values else []
  }

  /** The document built for a chunk: content (`chunk.get("content", "")`),
      content type defaulting to "text", filename, and the embedding. */
  function Attach(embed: Embedder, c: Chunk): Document {
    var content := c.content.GetOr("");
    Document(content, c.contentType.GetOr("text"), c.filename, VectorOf(embed(content)))
  }

  function AttachBy(embed: Embedder): Chunk -> Document {
    c => Attach(embed, c)
  }

  /** `prepare_chunks_for_ingestion`: at most one document per chunk, each with
      non-empty content and an embedding of exactly `EmbeddingDim` values. */
  function PrepareChunks(embed: Embedder, chunks: seq<Chunk>): (r: seq<Document>)
    ensures |r| <= |chunks|
    ensures forall k :: 0 <= k < |r| ==> r[k].content != "" && |r[k].embedding| == EmbeddingDim
  {
    Seqs.FilterMap(AcceptedBy(embed), AttachBy(embed), chunks)
  }

  /** The prepared documents are the accepted chunks, in input order, with
      their content, content type (absent read as "text") and filename
      copied and the embedder's vector attached: an order-preserving
      subsequence of the input. */
  lemma PrepareChunksSelectsAccepted(embed: Embedder, chunks: seq<Chunk>)
    ensures var r := PrepareChunks(embed, chunks);
      var P := Seqs.Positions(AcceptedBy(embed), chunks);
      && |r| == |P|
      && forall k :: 0 <= k < |r| ==>
           var c := chunks[P[k]];
           && Accepted(embed, c)
           && r[k].content == c.content.value
           && r[k].contentType == (if c.contentType.Some? then c.contentType.value else "text")
           && r[k].filename == c.filename
           && r[k].embedding == embed(c.content.value).values
  {
  }

  /** Preparation works chunk by chunk: preparing two batches one after the
      other gives the same documents as preparing them together. */
  lemma PrepareAppend(embed: Embedder, a: seq<Chunk>, b: seq<Chunk>)
    ensures PrepareChunks(embed, a + b) == PrepareChunks(embed, a) + PrepareChunks(embed, b)
  {
    Seqs.FilterMapAppend(AcceptedBy(embed), AttachBy(embed), a, b);
  }

  /** Failure isolation: a chunk that is skipped (empty content, a failing or
      missing embedding, a wrong dimension) removes only itself; the chunks
      around it are prepared as if it were not there. */
  lemma SkippedChunkIsIsolated(embed: Embedder, a: seq<Chunk>, c: Chunk, b: seq<Chunk>)
    requires !Accepted(embed, c)
    ensures PrepareChunks(embed, a + [c] + b) == PrepareChunks(embed, a) + PrepareChunks(embed, b)
  {
    PrepareAppend(embed, a + [c], b);
    PrepareAppend(embed, a, [c]);
    assert [c][..0] == [];
    assert PrepareChunks(embed, [c]) == Seqs.FilterMap(AcceptedBy(embed), AttachBy(embed), []) + [];
    assert PrepareChunks(embed, a + [c]) == PrepareChunks(embed, a);
  }

  /** `ingest_chunks_into_opensearch`'s actions: one per document, in order,
      each targeting `name` and carrying the document unchanged. */
  function BulkActions(name: string, docs: seq<Document>): (r: seq<Action>)
    ensures |r| == |docs|
    ensures forall j :: 0 <= j < |r| ==> r[j].index == name
    ensures Sources(r) == docs
  {
    if docs == [] then []
    else BulkActions(name, docs[..|docs| - 1]) + [Action(name, docs[|docs| - 1])]
  }

  /** The store is unchanged outside the index `name`. */
  ghost predicate SameElsewhere(s: Store, t: Store, name: string) {
    forall n :: n != name ==> (n in s <==> n in t) && (n in s ==> t[n] == s[n])
  }

  /** The store with the index `name` replaced by a fresh index of dimension
      `EmbeddingDim` holding exactly `docs`. */
  function WithIndex(s: Store, name: string, docs: seq<Document>): Store {
    (s - {name})[name := Index(EmbeddingDim, docs)]
  }

  /** The store accepts loading `docs` into `name` from state `t`: an empty
      load always succeeds, since it sends nothing. */
  predicate LoadOk(backend: Backend, t: Store, name: string, docs: seq<Document>) {
    docs == [] || backend.bulkOk(t, BulkActions(name, docs))
  }

  /** `create_index_if_not_exists`: an existing index is always dropped, then
      an empty index with dimension `EmbeddingDim` is created. Whether or not
      the index existed before, it afterwards exists and is empty. When the
      existence check or the deletion raises, the store is unchanged; when the
      creation raises, the old index is gone. Either error propagates. */
  function CreateIndexIfNotExists(s: Store, backend: Backend, name: string): (r: Step)
    ensures !backend.dropOk(s, name) ==> r == Step(s, Raised(IndexDropFailed))
    ensures r.outcome.Done? <==> backend.dropOk(s, name) && backend.createOk(s - {name}, name)
    ensures r.outcome.Done? ==> r.store == WithIndex(s, name, [])
    ensures r.outcome.Done? ==> name in r.store && r.store[name] == Index(EmbeddingDim, [])
    ensures r.outcome == Raised(IndexCreationFailed) ==> r.store == s - {name}
    ensures r.outcome.Raised? ==> r.outcome.error in {IndexDropFailed, IndexCreationFailed}
    ensures SameElsewhere(s, r.store, name)
  {
    if !backend.dropOk(s, name) then Step(s, Raised(IndexDropFailed))
    else
      var dropped := if name in s then s - {name} else s;
      assert dropped == s - {name};
      if backend.createOk(dropped, name) then Step(dropped[name := Index(EmbeddingDim, [])], Done)
      else Step(dropped, Raised(IndexCreationFailed))
  }

  /** `ingest_chunks_into_opensearch`: one bulk load of all documents into
      `name`, appended after what the index already holds; a refused load
      leaves the store as it was and propagates. No documents means no
      request, and nothing can fail. */
  function IngestChunksIntoOpenSearch(s: Store, backend: Backend, name: string, docs: seq<Document>)
    : (r: Step)
    ensures r.outcome.Raised? ==> r == Step(s, Raised(BulkFailed))
    ensures docs == [] ==> r == Step(s, Done)
    ensures name in s ==> (r.outcome.Done? <==> LoadOk(backend, s, name, docs))
    ensures r.outcome.Done? && name in s ==>
              r.store == s[name := s[name].(docs := s[name].docs + docs)]
    ensures r.outcome.Done? && name !in s ==> docs == [] && r.store == s
    ensures SameElsewhere(s, r.store, name)
  {
    var actions := BulkActions(name, docs);
    assert actions == [] <==> docs == [];
    if name in s then
      ApplyToOneIndex(s, name, actions);
      Bulk(s, backend, actions)
    else
      Bulk(s, backend, actions)
  }

  /** Loading into an index that holds exactly `done` appends to it, or
      leaves it as it was when the load is refused. */
  lemma LoadAfter(s: Store, backend: Backend, name: string, done: seq<Document>, docs: seq<Document>)
    ensures var r := IngestChunksIntoOpenSearch(WithIndex(s, name, done), backend, name, docs);
      && (r.outcome.Done? <==> LoadOk(backend, WithIndex(s, name, done), name, docs))
      && (r.outcome.Done? ==> r.store == WithIndex(s, name, done + docs))
  {
    var t := WithIndex(s, name, done);
    assert t[name := t[name].(docs := t[name].docs + docs)] == WithIndex(s, name, done + docs);
  }

  /** The store side of `ingest_all_content_into_opensearch`: recreate the
      index, then load three groups of prepared documents in order. The
      outcome follows the store's answers in request order, and a refused
      load keeps exactly the groups accepted before it. */
  function LoadGroups(s: Store, backend: Backend, name: string,
                      pi: seq<Document>, pt: seq<Document>, px: seq<Document>): (r: Step)
    ensures !backend.dropOk(s, name) ==> r == Step(s, Raised(IndexDropFailed))
    ensures backend.dropOk(s, name) && !backend.createOk(s - {name}, name) ==>
              r == Step(s - {name}, Raised(IndexCreationFailed))
    ensures backend.dropOk(s, name) && backend.createOk(s - {name}, name) ==>
        && (!LoadOk(backend, WithIndex(s, name, []), name, pi) ==>
              r == Step(WithIndex(s, name, []), Raised(BulkFailed)))
        && (LoadOk(backend, WithIndex(s, name, []), name, pi) &&
            !LoadOk(backend, WithIndex(s, name, pi), name, pt) ==>
              r == Step(WithIndex(s, name, pi), Raised(BulkFailed)))
        && (LoadOk(backend, WithIndex(s, name, []), name, pi) &&
            LoadOk(backend, WithIndex(s, name, pi), name, pt) &&
            !LoadOk(backend, WithIndex(s, name, pi + pt), name, px) ==>
              r == Step(WithIndex(s, name, pi + pt), Raised(BulkFailed)))
        && (LoadOk(backend, WithIndex(s, name, []), name, pi) &&
            LoadOk(backend, WithIndex(s, name, pi), name, pt) &&
            LoadOk(backend, WithIndex(s, name, pi + pt), name, px) ==>
              r == Step(WithIndex(s, name, pi + pt + px), Done))
    ensures r.outcome.Done? ==> name in r.store && r.store[name] == Index(EmbeddingDim, pi + pt + px)
    ensures r.outcome == Raised(BulkFailed) ==>
              && name in r.store
              && r.store[name].dimension == EmbeddingDim
              && (r.store[name].docs == [] || r.store[name].docs == pi || r.store[name].docs == pi + pt)
    ensures r.outcome.Raised? ==> r.outcome.error in {IndexDropFailed, IndexCreationFailed, BulkFailed}
    ensures SameElsewhere(s, r.store, name)
  {
    var created := CreateIndexIfNotExists(s, backend, name);
    if created.outcome.Raised? then created
    else
      LoadAfter(s, backend, name, [], pi);
      assert [] + pi == pi;
      var g1 := IngestChunksIntoOpenSearch(created.store, backend, name, pi);
      if g1.outcome.Raised? then g1
      else
        LoadAfter(s, backend, name, pi, pt);
        var g2 := IngestChunksIntoOpenSearch(g1.store, backend, name, pt);
        if g2.outcome.Raised? then g2
        else
          LoadAfter(s, backend, name, pi + pt, px);
          IngestChunksIntoOpenSearch(g2.store, backend, name, px)
  }

  /** `ingest_all_content_into_opensearch`: recreate the index, then prepare
      and load images, tables and text, in that order. On success the index
      holds exactly the prepared images, then tables, then text. A bulk
      failure stops the later groups but keeps the earlier ones: the index
      holds exactly the groups the store accepted before the refused one.
      Nothing outside the index changes. */
  function IngestAll(s: Store, backend: Backend, embed: Embedder,
                     images: seq<Chunk>, tables: seq<Chunk>, texts: seq<Chunk>, name: string): (r: Step)
    ensures !backend.dropOk(s, name) ==> r == Step(s, Raised(IndexDropFailed))
    ensures backend.dropOk(s, name) && !backend.createOk(s - {name}, name) ==>
              r == Step(s - {name}, Raised(IndexCreationFailed))
    ensures var pi := PrepareChunks(embed, images);
      var pt := PrepareChunks(embed, tables);
      var px := PrepareChunks(embed, texts);
      backend.dropOk(s, name) && backend.createOk(s - {name}, name) ==>
        && (!LoadOk(backend, WithIndex(s, name, []), name, pi) ==>
              r == Step(WithIndex(s, name, []), Raised(BulkFailed)))
        && (LoadOk(backend, WithIndex(s, name, []), name, pi) &&
            !LoadOk(backend, WithIndex(s, name, pi), name, pt) ==>
              r == Step(WithIndex(s, name, pi), Raised(BulkFailed)))
        && (LoadOk(backend, WithIndex(s, name, []), name, pi) &&
            LoadOk(backend, WithIndex(s, name, pi), name, pt) &&
            !LoadOk(backend, WithIndex(s, name, pi + pt), name, px) ==>
              r == Step(WithIndex(s, name, pi + pt), Raised(BulkFailed)))
        && (LoadOk(backend, WithIndex(s, name, []), name, pi) &&
            LoadOk(backend, WithIndex(s, name, pi), name, pt) &&
            LoadOk(backend, WithIndex(s, name, pi + pt), name, px) ==>
              r == Step(WithIndex(s, name, pi + pt + px), Done))
    ensures var pi := PrepareChunks(embed, images);
      var pt := PrepareChunks(embed, tables);
      var px := PrepareChunks(embed, texts);
      && (r.outcome.Done? ==> name in r.store && r.store[name] == Index(EmbeddingDim, pi + pt + px))
      && (r.outcome == Raised(BulkFailed) ==>
            && name in r.store
            && r.store[name].dimension == EmbeddingDim
            && (r.store[name].docs == [] || r.store[name].docs == pi || r.store[name].docs == pi + pt))
      && (r.outcome.Raised? ==> r.outcome.error in {IndexDropFailed, IndexCreationFailed, BulkFailed})
    ensures SameElsewhere(s, r.store, name)
  {
    LoadGroups(s, backend, name, PrepareChunks(embed, images), PrepareChunks(embed, tables), PrepareChunks(embed, texts))
  }

  /** Every document carries an embedding of the index dimension. */
  ghost predicate Embedded(docs: seq<Document>) {
    forall j :: 0 <= j < |docs| ==> |docs[j].embedding| == EmbeddingDim
  }

  /** Index (re)creation keeps the store's dimension invariant, and the
      index it creates has dimension `EmbeddingDim`. */
  lemma CreateKeepsWellFormed(s: Store, backend: Backend, name: string)
    requires WellFormed(s)
    ensures var r := CreateIndexIfNotExists(s, backend, name);
      WellFormed(r.store) && (r.outcome.Done? ==> r.store[name].dimension == EmbeddingDim)
  {
  }

  /** A bulk load of documents embedded at the index dimension keeps the
      store's dimension invariant. */
  lemma IngestChunksKeepsWellFormed(s: Store, backend: Backend, name: string, docs: seq<Document>)
    requires WellFormed(s) && Embedded(docs)
    requires name in s ==> s[name].dimension == EmbeddingDim
    ensures var t := IngestChunksIntoOpenSearch(s, backend, name, docs).store;
      WellFormed(t) && (name in t ==> t[name].dimension == EmbeddingDim)
  {
  }

  /** Ingestion keeps the store's dimension invariant: every document it loads
      has the index's dimension, so a well-formed store stays well-formed. */
  lemma IngestAllKeepsWellFormed(s: Store, backend: Backend, embed: Embedder,
                                 images: seq<Chunk>, tables: seq<Chunk>, texts: seq<Chunk>, name: string)
    requires WellFormed(s)
    ensures WellFormed(IngestAll(s, backend, embed, images, tables, texts, name).store)
  {
    var created := CreateIndexIfNotExists(s, backend, name);
    CreateKeepsWellFormed(s, backend, name);
    if created.outcome.Done? {
      var g1 := IngestChunksIntoOpenSearch(created.store, backend, name, PrepareChunks(embed, images));
      IngestChunksKeepsWellFormed(created.store, backend, name, PrepareChunks(embed, images));
      if g1.outcome.Done? {
        var g2 := IngestChunksIntoOpenSearch(g1.store, backend, name, PrepareChunks(embed, tables));
        IngestChunksKeepsWellFormed(g1.store, backend, name, PrepareChunks(embed, tables));
        if g2.outcome.Done? {
          IngestChunksKeepsWellFormed(g2.store, backend, name, PrepareChunks(embed, texts));
        }
      }
    }
  }
}
