/** The ingestion entry points of app.py: deciding between running the
    pipeline and skipping it, and the upload guard in front of it. The PDF's
    title, file stem and the two partitioner passes are inputs; the
    partitioner, the description model, the embedder and the store are the
    oracles of the other modules. */
module App {
  import opened Wrappers
  import opened Errors
  import opened Chunking
  import opened Embeddings
  import opened Store
  import opened Ingestion
  import opened IndexNaming

  /** What the app learns about an uploaded PDF: its title metadata, its file
      stem, and the elements of the structural and the by-title partitioner
      passes. */
  datatype Pdf = Pdf(
    title: Option<string>,
    stem: string,
    structural: seq<Element>,
    sections: seq<Element>)

  /** The external services and the API key from the environment.
      `existsOk` says whether the app's own existence check on an index name
      answers (true) or raises (false); when it answers, the answer is
      whether the store holds the index. */
  datatype Services = Services(
    apiKey: Option<string>,
    describe: Describer,
    embed: Embedder,
    backend: Backend,
    existsOk: (Store, string) -> bool)

  /** The normalised chunks of the three groups. */
  datatype Extracted = Extracted(images: seq<Chunk>, tables: seq<Chunk>, texts: seq<Chunk>)

  /** `ingest_pdf`'s return value: the index name and a status message. */
  datatype Report = Report(indexName: string, message: string)

  /** The store after an ingestion request, and its result or the propagated error. */
  datatype IngestRun = IngestRun(store: Store, result: Result<Report, Error>)

  /** `handle_ingestion`'s three outputs: index display, status, index state. */
  datatype Display = Display(indexDisplay: string, status: string, indexState: string)

  datatype HandleRun = HandleRun(store: Store, result: Result<Display, Error>)

  const CompletedMessage: string := "\U{2705} Ingestion completed successfully!"
  const UploadPrompt: string := "!!! Please upload a PDF file."

  function SkipMessage(name: string): string {
    "\U{26A0}\U{FE0F} Index `" + name + "` already exists. Skipping ingestion."
  }

  /** A normalised record as the chunk dictionary the pipeline reads. */
  function ChunkOf(r: Record): Chunk {
    Chunk(Some(r.content), Some(r.ContentType()), r.filename)
  }

  function ChunksOf(records: seq<Record>): (cs: seq<Chunk>)
    ensures |cs| == |records| && forall j :: 0 <= j < |records| ==> cs[j] == ChunkOf(records[j])
  {
    seq(|records|, j requires 0 <= j < |records| => ChunkOf(records[j]))
  }

  /** The normalisation steps of `ingest_pdf`, with the description model
      always on: images, then tables, then text sections. It succeeds exactly
      when the key is set and every image and table description succeeds; the
      image and table chunks then carry the model's descriptions. */
  function Extract(pdf: Pdf, env: Services): (r: Result<Extracted, Error>)
    ensures !HasApiKey(Config(true, env.apiKey)) ==> r == Failure(MissingApiKey)
    ensures var imgs := ImageRecords(pdf.structural);
      var tabs := TableRecords(pdf.structural);
      r.Success? <==>
        && HasApiKey(Config(true, env.apiKey))
        && (forall k :: 0 <= k < |imgs| ==> env.describe(PromptFor(imgs[k])).Some?)
        && (forall k :: 0 <= k < |tabs| ==> env.describe(TablePrompt(tabs[k].kind.tableAsHtml)).Some?)
    ensures r.Failure? ==> r.error in {MissingApiKey, DescriptionFailed}
    ensures HasApiKey(Config(true, env.apiKey)) && r.Failure? ==> r.error == DescriptionFailed
    ensures r.Success? ==>
              var imgs := ImageRecords(pdf.structural);
              && |r.value.images| == |imgs|
              && forall k :: 0 <= k < |imgs| ==>
                   r.value.images[k] ==
                     Chunk(Some(env.describe(PromptFor(imgs[k])).value), Some("image"), imgs[k].filename)
    ensures r.Success? ==>
              var tabs := TableRecords(pdf.structural);
              && |r.value.tables| == |tabs|
              && forall k :: 0 <= k < |tabs| ==>
                   r.value.tables[k] ==
                     Chunk(Some(env.describe(TablePrompt(tabs[k].kind.tableAsHtml)).value), Some("table"), tabs[k].filename)
    ensures r.Success? ==> r.value.texts == ChunksOf(SemanticChunks(pdf.sections))
  {
    var cfg := Config(true, env.apiKey);
    var images := ProcessImagesWithCaption(pdf.structural, cfg, env.describe);
    var tables := ProcessTablesWithDescription(pdf.structural, cfg, env.describe);
    if images.Failure? then Failure(images.error)
    else if tables.Failure? then Failure(tables.error)
    else
      DescribedImageChunks(pdf.structural, cfg, env.describe);
      DescribedTableChunks(pdf.structural, cfg, env.describe);
      Success(Extracted(ChunksOf(images.value), ChunksOf(tables.value), ChunksOf(SemanticChunks(pdf.sections))))
  }

  /** The chunks of described images: one per image element, in order, each
      carrying the model's description, type "image" and the filename. */
  lemma DescribedImageChunks(elems: seq<Element>, cfg: Config, describe: Describer)
    requires cfg.useGemini && ProcessImagesWithCaption(elems, cfg, describe).Success?
    ensures var imgs := ImageRecords(elems);
      var cs := ChunksOf(ProcessImagesWithCaption(elems, cfg, describe).value);
      && |cs| == |imgs|
      && forall k :: 0 <= k < |imgs| ==>
           cs[k] == Chunk(Some(describe(PromptFor(imgs[k])).value), Some("image"), imgs[k].filename)
  {
    var imgs := ImageRecords(elems);
    var out := ProcessImagesWithCaption(elems, cfg, describe).value;
    var cs := ChunksOf(out);
    forall k | 0 <= k < |imgs|
      ensures cs[k] == Chunk(Some(describe(PromptFor(imgs[k])).value), Some("image"), imgs[k].filename)
    {
      assert cs[k] == ChunkOf(out[k]);
      assert out[k].ContentType() == "image";
    }
  }

  /** The chunks of described tables: one per table element, in order, each
      carrying the model's description of its HTML, type "table" and the
      filename. */
  lemma DescribedTableChunks(elems: seq<Element>, cfg: Config, describe: Describer)
    requires cfg.useGemini && ProcessTablesWithDescription(elems, cfg, describe).Success?
    ensures var tabs := TableRecords(elems);
      var cs := ChunksOf(ProcessTablesWithDescription(elems, cfg, describe).value);
      && |cs| == |tabs|
      && forall k :: 0 <= k < |tabs| ==>
           cs[k] == Chunk(Some(describe(TablePrompt(tabs[k].kind.tableAsHtml)).value), Some("table"), tabs[k].filename)
  {
    var tabs := TableRecords(elems);
    var out := ProcessTablesWithDescription(elems, cfg, describe).value;
    var cs := ChunksOf(out);
    forall k | 0 <= k < |tabs|
      ensures cs[k] == Chunk(Some(describe(TablePrompt(tabs[k].kind.tableAsHtml)).value), Some("table"), tabs[k].filename)
    {
      assert cs[k] == ChunkOf(out[k]);
      assert out[k].ContentType() == "table";
    }
  }

  /** The documents a successful run leaves in the index: the prepared images,
      then tables, then text. */
  function ExpectedDocs(x: Extracted, embed: Embedder): seq<Document> {
    PrepareChunks(embed, x.images) + PrepareChunks(embed, x.tables) + PrepareChunks(embed, x.texts)
  }

  /** The pipeline runs exactly when re-ingestion is forced or the index does not exist. */
  predicate RunsPipeline(store: Store, name: string, force: bool) {
    force || name !in store
  }

  /** The existence check is only made when re-ingestion is not forced, and
      then it may raise. */
  predicate CheckRaises(store: Store, name: string, force: bool, env: Services) {
    !force && !env.existsOk(store, name)
  }

  /** The run branch of `ingest_pdf`, given what extraction produced. A failed
      extraction (missing API key or failed description) raises before the
      store is touched. Otherwise the store is what the ingestion leaves
      behind and its error propagates; on success the index has been
      recreated and holds exactly the extracted documents. */
  function RunPipeline(store: Store, extracted: Result<Extracted, Error>, name: string, env: Services): (r: IngestRun)
    ensures extracted.Failure? ==> r == IngestRun(store, Failure(extracted.error))
    ensures extracted.Success? ==>
              var run := IngestAll(store, env.backend, env.embed, extracted.value.images, extracted.value.tables, extracted.value.texts, name);
              && r.store == run.store
              && (r.result.Success? <==> run.outcome.Done?)
              && (run.outcome.Raised? ==> r.result == Failure(run.outcome.error))
    ensures r.result.Success? ==>
              && r.result == Success(Report(name, CompletedMessage))
              && extracted.Success?
              && name in r.store
              && r.store[name] == Index(EmbeddingDim, ExpectedDocs(extracted.value, env.embed))
    ensures r.result == Failure(MissingApiKey) ==> r.store == store
    ensures extracted.Success? && r.result.Failure? ==>
              r.result.error in {IndexDropFailed, IndexCreationFailed, BulkFailed}
    ensures SameElsewhere(store, r.store, name)
  {
    match extracted
    case Failure(e) => IngestRun(store, Failure(e))
    case Success(x) =>
      var run := IngestAll(store, env.backend, env.embed, x.images, x.tables, x.texts, name);
      if run.outcome.Raised? then IngestRun(run.store, Failure(run.outcome.error))
      else IngestRun(run.store, Success(Report(name, CompletedMessage)))
  }

  /** `ingest_pdf`. When the existence check raises, nothing else happens.
      When the pipeline does not run, the store is untouched and
      the skip message names the index. When it runs, the result is that of
      the pipeline: extraction failures leave the store untouched, ingestion
      failures propagate with the store the ingestion left behind, and on
      success the index holds exactly this PDF's documents. Either way the
      reported name is the derived one, and no other index changes. */
  function IngestPdf(store: Store, pdf: Pdf, force: bool, env: Services): (r: IngestRun)
    ensures var name := IndexName(pdf.title, pdf.stem);
      CheckRaises(store, name, force, env) ==> r == IngestRun(store, Failure(ExistsCheckFailed))
    ensures var name := IndexName(pdf.title, pdf.stem);
      && (!CheckRaises(store, name, force, env) && !RunsPipeline(store, name, force) <==>
            r.result == Success(Report(name, SkipMessage(name))))
      && (!RunsPipeline(store, name, force) ==> r.store == store)
      && (r.result.Success? ==> r.result.value.indexName == name)
      && (RunsPipeline(store, name, force) && r.result.Success? ==>
            && r.result.value.message == CompletedMessage
            && Extract(pdf, env).Success?
            && name in r.store
            && r.store[name] == Index(EmbeddingDim, ExpectedDocs(Extract(pdf, env).value, env.embed)))
      && (r.result == Failure(MissingApiKey) ==> r.store == store)
      && SameElsewhere(store, r.store, name)
    ensures var name := IndexName(pdf.title, pdf.stem);
      !CheckRaises(store, name, force, env) && RunsPipeline(store, name, force) && Extract(pdf, env).Failure? ==>
        r == IngestRun(store, Failure(Extract(pdf, env).error))
    ensures var name := IndexName(pdf.title, pdf.stem);
      !CheckRaises(store, name, force, env) && RunsPipeline(store, name, force) && Extract(pdf, env).Success? ==>
        var x := Extract(pdf, env).value;
        var run := IngestAll(store, env.backend, env.embed, x.images, x.tables, x.texts, name);
        && r.store == run.store
        && (r.result.Success? <==> run.outcome.Done?)
        && (run.outcome.Raised? ==> r.result == Failure(run.outcome.error))
  {
    var name := IndexName(pdf.title, pdf.stem);
    assert CompletedMessage[0] != SkipMessage(name)[0];
    if CheckRaises(store, name, force, env) then IngestRun(store, Failure(ExistsCheckFailed))
    else if RunsPipeline(store, name, force) then RunPipeline(store, Extract(pdf, env), name, env)
    else IngestRun(store, Success(Report(name, SkipMessage(name))))
  }

  /** `ExistsCheckFailed` reports the existence check and nothing else: no
      extraction or ingestion failure is reported under it. */
  lemma ExistsCheckFailedOnlyFromCheck(store: Store, pdf: Pdf, force: bool, env: Services)
    ensures var name := IndexName(pdf.title, pdf.stem);
      IngestPdf(store, pdf, force, env).result == Failure(ExistsCheckFailed) <==> CheckRaises(store, name, force, env)
  {
  }

  /** Ingesting the same PDF again without forcing, after a successful
      ingestion, leaves the store as it is: it reports the skip, or the
      existence check's failure when that check raises. */
  lemma ReingestWithoutForceSkips(store: Store, pdf: Pdf, force: bool, env: Services)
    requires IngestPdf(store, pdf, force, env).result.Success?
    ensures var first := IngestPdf(store, pdf, force, env);
      var name := IndexName(pdf.title, pdf.stem);
      IngestPdf(first.store, pdf, false, env) ==
        IngestRun(first.store, if env.existsOk(first.store, name) then Success(Report(name, SkipMessage(name)))
                               else Failure(ExistsCheckFailed))
  {
  }

  /** A forced re-ingestion replaces the index: whatever two stores held
      before, successful forced runs leave the same index behind, so nothing
      of the earlier contents survives. */
  lemma ForcedReingestReplaces(s1: Store, s2: Store, pdf: Pdf, env: Services)
    ensures var name := IndexName(pdf.title, pdf.stem);
      IngestPdf(s1, pdf, true, env).result.Success? && IngestPdf(s2, pdf, true, env).result.Success? ==>
      && name in IngestPdf(s1, pdf, true, env).store
      && name in IngestPdf(s2, pdf, true, env).store
      && IngestPdf(s1, pdf, true, env).store[name] == IngestPdf(s2, pdf, true, env).store[name]
  {
  }

  /** `handle_ingestion`: with no upload, empty name and state and the upload
      prompt, and the store untouched. Otherwise the derived name is both
      displayed and kept as the state, the status is the completion or the
      skip message, an existing index without forcing is left alone, and no
      other index changes. */
  function HandleIngestion(store: Store, upload: Option<Pdf>, force: bool, env: Services): (r: HandleRun)
    ensures upload.None? ==> r == HandleRun(store, Success(Display("", UploadPrompt, "")))
    ensures upload.Some? ==>
              var name := IndexName(upload.value.title, upload.value.stem);
              && (r.result.Success? ==>
                    && r.result.value.indexDisplay == name
                    && r.result.value.indexState == name
                    && (r.result.value.status == CompletedMessage || r.result.value.status == SkipMessage(name)))
              && (CheckRaises(store, name, force, env) ==> r == HandleRun(store, Failure(ExistsCheckFailed)))
              && (!CheckRaises(store, name, force, env) && !RunsPipeline(store, name, force) <==>
                    r == HandleRun(store, Success(Display(name, SkipMessage(name), name))))
              && (r.result.Success? && r.result.value.status == CompletedMessage ==>
                    name in r.store && r.store[name].dimension == EmbeddingDim)
              && SameElsewhere(store, r.store, name)
  {
    match upload
    case None => HandleRun(store, Success(Display("", UploadPrompt, "")))
    case Some(pdf) =>
      var run := IngestPdf(store, pdf, force, env);
      match run.result
      case Failure(e) => HandleRun(run.store, Failure(e))
      case Success(report) =>
        HandleRun(run.store, Success(Display(report.indexName, report.message, report.indexName)))
  }

  /** With an upload, `handle_ingestion` relays `ingest_pdf`: the same store,
      the same error, and on success the reported name twice around the
      reported message. */
  lemma HandleIngestionRelaysIngestPdf(store: Store, pdf: Pdf, force: bool, env: Services)
    ensures var h := HandleIngestion(store, Some(pdf), force, env);
      var run := IngestPdf(store, pdf, force, env);
      && h.store == run.store
      && (h.result.Success? <==> run.result.Success?)
      && (run.result.Failure? ==> h.result.error == run.result.error)
      && (run.result.Success? ==>
            h.result.value == Display(run.result.value.indexName, run.result.value.message, run.result.value.indexName))
  {
  }
}
