# RAG-PDF-Chatbot ingestion and retrieval, modelled in Dafny

This project models the decision and transformation layer of a
retrieval-augmented PDF question-answering app. The layer sits between four
external services: a PDF partitioner, a description model (Gemini), an
embedding service (Ollama) and an OpenSearch store. Each service is an oracle:
a function-valued parameter whose answers the model takes as given. Every
operation is a pure function over immutable datatypes.

- `Wrappers` (wrappers.dfy): `Option` and `Result`. A Python `None` becomes
  `None`, and an exception that escapes becomes `Failure`.
- `Errors` (errors.dfy): the exceptions that reach the caller. These are a
  missing API key, a failed description, a failed existence check in the app
  before ingestion, a failed existence check or deletion of the old index, a
  failed index creation and a failed bulk load.
- `Seqs` (seqs.dfy): `Positions`, the increasing list of positions that satisfy
  a predicate, and `FilterMap`, the loop "for each selected element, append
  f(element)". Every filter loop in the source is stated through these two.
- `Chunking` (chunking.py): the element datatype (image, figure caption, table,
  composite, other); image records with the next-element caption rule; table
  records; semantic text chunks; and the description step.
- `Embeddings` (helper.py's `get_embedding`): the embedding oracle and the
  768 dimension.
- `Store`: an abstract OpenSearch. It holds named indices, each with a vector
  dimension and its documents in load order, plus bulk loading. The store's
  answers to the existence check and deletion, the index creation and a bulk
  load form an oracle (`Backend`).
  An operation returns a `Step`: the store afterwards plus the outcome. The
  state left behind by a failure is therefore kept.
- `Ingestion` (ingestion.py): index (re)creation, per-chunk preparation with
  failure isolation, bulk actions, and the three-group ingestion.
- `Retrieval` (retrieval.py): keyword, semantic and hybrid query construction as
  datatypes, and the swallow-on-error and hybrid-to-keyword fallback behaviour.
  A `SearchRun` records the queries sent and the hits returned.
- `IndexNaming` (app.py's `get_index_name_from_pdf`): the index name from the
  title, or from the file stem cut before its first "20".
- `App` (app.py's `ingest_pdf`, `handle_ingestion`): the choice between running
  the pipeline and skipping it, and the upload guard.

Facts about the program that the model keeps:

- `ingest_all_content_into_opensearch` returns nothing, so `IngestAll` returns
  only the store and the outcome.
- In the title branch, the index name is the title stripped of surrounding
  whitespace, lowercased, with spaces turned into "_".
- `create_index_if_not_exists` always drops an existing index before creating
  it again. Only `ingest_pdf` skips an index that already exists.
- Semantic and hybrid search pass the query vector on without checking its
  length. Only ingestion checks it.

The queries request a `token_count` field that ingestion never stores.
`Hit.tokenCount` is an `Option` for that reason.

## Model

| member | source | states |
|---|---|---|
| Chunking.ImageRecords | chunking.py:19-36 | One record per Image element, in input order; other elements give nothing. The content and image text are the image's text, and the content type is "image". The caption is the next element's text only when that element exists, is a FigureCaption and has non-empty text; otherwise it is "No caption". |
| Chunking.Describe | chunking.py:38-53 | With the describer off, the records come back unchanged. With it on, the step succeeds iff every description call succeeds. Each content is then replaced by the model's answer to that record's prompt, and kind and filename are kept. The first failure aborts the step. |
| Chunking.ProcessImagesWithCaption | chunking.py:10-57 | With the describer on and no or an empty API key, it fails with MissingApiKey before producing output. With the describer off, the output is exactly the image records. With it on and a key set, it succeeds iff every image's description succeeds, and a failure is then DescriptionFailed. Each image's content is then the model's description, and the caption, payload, filename and type "image" are kept. Any failure is MissingApiKey or DescriptionFailed. |
| Chunking.TableRecords | chunking.py:69-78 | One record per Table element, in order. Content and table text are the table's text, the HTML rendering is kept, and the content type is "table". |
| Chunking.ProcessTablesWithDescription | chunking.py:59-95 | Same key check as for images. With the describer off, the output is exactly the table records. With it on and a key set, it succeeds iff the description of every table's HTML succeeds, a failure is then DescriptionFailed, and each content is that description. Any failure is MissingApiKey or DescriptionFailed. |
| Chunking.SemanticChunks | chunking.py:97-108 | Exactly the CompositeElements, in order. Each has content type "text", content equal to the element's text, and the element's filename. |
| Store.Bulk | ingestion.py:83-88 | An empty batch sends nothing and succeeds. A non-empty load succeeds iff every action targets an existing index and the store accepts the batch. On success, a batch whose actions all target one index appends their documents to it, in order, and changes nothing else. On failure it raises BulkFailed and leaves the store as it was. It never adds or removes an index. |
| Store.ApplyToOneIndex | ingestion.py:76-84 | A bulk load whose actions all target one existing index appends their documents to it in action order. No other index is touched. |
| Ingestion.PrepareChunks | ingestion.py:36-66 | At most one document per input chunk. Every document has non-empty content and an embedding of exactly 768 values. |
| Ingestion.PrepareChunksSelectsAccepted | ingestion.py:42-60 | The output is the subsequence of chunks that have non-empty content and an embedder vector of length 768, in input order. Each output copies its chunk's content and filename, reads an absent content type as "text", and attaches the vector. |
| Ingestion.PrepareAppend | ingestion.py:42-64 | Preparing a + b gives prepare(a) followed by prepare(b): each chunk is handled independently of the others. |
| Ingestion.SkippedChunkIsIsolated | ingestion.py:43-64 | A chunk that is skipped (empty or missing content, an embedder exception, no vector, wrong dimension) removes only itself. The chunks before and after it are prepared as if it were absent. |
| Ingestion.BulkActions | ingestion.py:75-81 | One action per document, in order, each targeting the given index. The actions' sources are exactly the documents. |
| Ingestion.CreateIndexIfNotExists | ingestion.py:3-33 | If the existence check or the deletion raises, the store is unchanged and IndexDropFailed propagates. Otherwise an existing index is always dropped. On success the index exists, is empty and has dimension 768, whether or not it existed before. A creation failure propagates as IndexCreationFailed with the old index gone. No other index changes. |
| Ingestion.IngestChunksIntoOpenSearch | ingestion.py:69-88 | No documents means no request, and success. Otherwise it succeeds iff the store accepts the batch, and the documents are appended after the index's existing documents. On failure, BulkFailed propagates and the store is unchanged. No other index changes. |
| Ingestion.LoadAfter | ingestion.py:69-88 | Loading into an index that holds exactly some documents succeeds iff the store accepts the load. On success the index holds those documents followed by the new ones. |
| Ingestion.LoadGroups | ingestion.py:100-113 | Given the three prepared groups, creation and the three loads happen in order. The store after each refusal holds exactly the groups accepted before it, and a full success holds all three in order. Done implies the index is (768, images ++ tables ++ text). No other index changes. |
| Ingestion.IngestAll | ingestion.py:91-113 | The outcome follows the store's answers in request order. A drop failure leaves the store as it was. A creation failure leaves no index. If the image, table or text load is refused, the index holds exactly the groups accepted before it: none, the images, or the images and tables. If all are accepted, the index is (768, prepared images ++ prepared tables ++ prepared text). No other index changes. |
| Ingestion.CreateKeepsWellFormed | ingestion.py:7-29 | Dropping and recreating the index keeps the invariant that every stored embedding has its index's dimension. A created index has dimension 768. |
| Ingestion.IngestChunksKeepsWellFormed | ingestion.py:50-88 | A bulk load of documents that all carry 768 values, into an index of dimension 768, keeps that invariant. |
| Ingestion.IngestAllKeepsWellFormed | ingestion.py:18-51 | Ingestion preserves the invariant that every stored embedding has its index's dimension. |
| Retrieval.KeywordQuery | retrieval.py:20-24 | Size top_k, a match on "content" with the query text, and source fields content, content_type and token_count. |
| Retrieval.SemanticQuery | retrieval.py:52-63 | A knn on "embedding" with the given vector and k = size = top_k, and the same source fields as the keyword query. |
| Retrieval.HybridQuery | retrieval.py:91-102 | A bool "should" of exactly the semantic query's knn clause and the keyword query's match clause, in that order, with size top_k and the same fields. |
| Retrieval.KeywordSearch | retrieval.py:18-30 | Sends exactly the keyword query. The result is the store's hits unchanged, or no hits when the search raises. |
| Retrieval.SemanticSearch | retrieval.py:47-69 | An embedding exception sends nothing and yields no hits. Otherwise it sends exactly one semantic query built from the embedder's vector (possibly absent). It returns that query's hits unchanged, or none on failure. |
| Retrieval.HybridSearch | retrieval.py:86-119 | If the embedding raises, only the keyword query is sent. If the hybrid query is sent and raises, exactly the hybrid query and then the keyword query are sent. If the hybrid query succeeds, it was the only query and its hits come back unchanged. Otherwise the result equals a keyword search with the same text and top_k. |
| Retrieval.HybridBothFailYieldsNothing | retrieval.py:106-119 | When the hybrid query and the keyword fallback both fail, the result is empty. |
| Retrieval.HitsArePassedThrough | retrieval.py:18-119 | For all three strategies, the hits are either empty or exactly the store's answer to one of the queries sent: no re-ranking or filtering. |
| IndexNaming.Strip | app.py:19-20 | The stripped title is the slice of the title between its leading and its trailing whitespace. It neither starts nor ends with whitespace, and it is empty exactly when the title is all whitespace. |
| IndexNaming.BeforeFirst20 | app.py:23 | `split('20')[0]`: a prefix of the input with no "20" starting inside it, ending exactly where the first "20" starts, or at the end if there is none. |
| IndexNaming.StemName | app.py:22-23 | The name is no longer than the stem and maps it character by character (lowercase, space to "_"). It stops exactly at the stem's first "20" and never contains "20". |
| IndexNaming.IndexName | app.py:18-23 | A non-blank title gives the stripped, lowercased title with spaces turned into "_". A missing or blank title falls back to the stem name. The name never contains a space. |
| IndexNaming.TitleExample | app.py:18-20 | The title "My Report" gives "my_report" for any file name. |
| IndexNaming.StemExample | app.py:21-23 | With no title, the stem "survey2023" gives "survey". |
| IndexNaming.LeadingYearGivesEmptyName | app.py:21-23 | With no usable title, a stem starting with "20" gives the empty name. |
| App.Extract | app.py:42-67 | It succeeds iff the API key is set and every image and every table description succeeds. Otherwise it fails with MissingApiKey, or with DescriptionFailed when the key is set. On success each image and table chunk carries the model's description, its type ("image" or "table") and its filename, in element order. The text group is the composite sections as chunks. |
| App.DescribedImageChunks | chunking.py:29-55 | The described images reach the pipeline as one chunk per image element, in order. Each carries the model's description as content, type "image" and the element's filename. |
| App.DescribedTableChunks | chunking.py:72-93 | The described tables reach the pipeline as one chunk per table element, in order. Each carries the model's description of the table's HTML as content, type "table" and the element's filename. |
| App.RunPipeline | app.py:52-74 | A failed extraction raises before the store is touched. Otherwise the store is what ingest-all leaves behind: success iff ingest-all completes, and its error (a drop, creation or bulk failure) is the one reported. A success reports completion with the index recreated and holding exactly the prepared images, tables and text. A missing key leaves the store untouched, and no other index changes. |
| App.IngestPdf | app.py:28-76 | Without force, a raising existence check ends the call with ExistsCheckFailed and the store untouched; with force the check is not made. The skip outcome happens iff the check answers, force is false and the index exists, and it leaves the store untouched. When the pipeline runs, a failed extraction leaves the store untouched and reports the extraction error. Otherwise the store is exactly the one ingest-all leaves, the run succeeds iff ingest-all completes, and an ingest-all error is the one reported. A successful run reports completion, with the index recreated and holding exactly this PDF's prepared documents. Both outcomes report the derived name, and no other index changes. |
| App.ExistsCheckFailedOnlyFromCheck | app.py:28-41 | ingest_pdf reports ExistsCheckFailed iff force is off and the existence check raises: no extraction or ingestion failure is reported under it. |
| App.ReingestWithoutForceSkips | app.py:41-76 | After a successful ingestion, ingesting the same PDF again without force changes nothing. It reports the skip when the existence check answers, and ExistsCheckFailed when it raises. |
| App.ForcedReingestReplaces | app.py:41-74 | Two successful forced ingestions of one PDF, from any two prior stores, leave the same index behind. Nothing of the old index survives. |
| App.HandleIngestion | app.py:145-149 | With no upload, the name and state are "" with the upload prompt, and the store is unchanged. A raising existence check (without force) propagates with the store unchanged. Otherwise, on success, the derived name is both displayed and kept as the state, and the status is the completion or the skip message. The skip result happens iff the check answers, the index exists and force is off, and it leaves the store unchanged. A completion leaves an index of dimension 768 under that name. No other index changes. |
| App.HandleIngestionRelaysIngestPdf | app.py:145-149 | With an upload, the store, the error and the reported name and message are exactly those of ingest_pdf. The name fills both the display and the state. |

## Left out

- helper.py's `get_embedding` is the `Embedder` oracle: it yields a vector, no vector, or an exception. `get_opensearch_client` and the connection it opens are replaced by the abstract store.
- The Gemini request is reduced to "content := oracle answer" on a prompt carrying the caption, image text and payload, or the table HTML. This covers the model name, prompt wording, MIME type and base64 decoding. A decode error counts as a failed description.
- The two `partition_pdf` passes, the PyMuPDF metadata read, and `os.path.basename`/`splitext` are inputs: the element sequences, the title and the file stem.
- `index_exists` is modelled as membership in the same abstract store, with the `existsOk` oracle saying whether the call answers or raises (for example on an empty index name). The separate client it opens, and why a call raises, are not modelled.
- IndexNaming.LowerChar: only A-Z are lowercased. Python's full Unicode case mapping, including length-changing mappings, is not modelled.
- Store.Bulk: a failed bulk load leaves the store unchanged. OpenSearch's bulk helper may index part of a batch before it raises.
- The search functions' default arguments (`top_k=20`, index "pdf_content_index") are not modelled. Every model operation takes both explicitly.
- Store.Bulk: a bulk load into a missing index is refused. OpenSearch would auto-create the index with a dynamic mapping. The pipeline never does this, because it always creates the index first.
- Ingestion.Chunk: a `content_type` key that is present with value `None` cannot be expressed. The normaliser never produces one. Non-string content values are not modelled either.
- Embedding values, knn scoring and relevance ranking are floats and store internals. Only the vector length and the order of the returned hits are modelled.
- Whether a search on an empty or missing index raises or returns nothing is up to the store, so it is part of the search oracle.
- Logging (`print`), client timeouts and retries are not modelled.
- Concurrent ingestion of the same index is not modelled.
- The Gradio UI, the streaming `answer_query` and the `generation` module are not part of this model.
- The `__main__` demo blocks are not part of this model.
