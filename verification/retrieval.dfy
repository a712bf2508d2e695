/** The retrieval engine (retrieval.py): query construction for keyword,
    semantic and hybrid search, and what each strategy returns when the
    embedder or the store fails. The store's search is an oracle; hits come
    back in the store's own ranking and are passed through untouched. */
module Retrieval {
  import opened Wrappers
  import opened Embeddings

  /** The query clauses the engine builds. */
  datatype Clause =
    | Match(field: string, text: string)
    | Knn(field: string, vector: Option<seq<real>>, k: int)
    | Should(clauses: seq<Clause>)

  /** A search request body: result size, query clause and returned fields. */
  datatype Query = Query(size: int, clause: Clause, sourceFields: seq<string>)

  /** One ranked hit as the store returns it. */
  datatype Hit = Hit(score: real, content: string, contentType: string, tokenCount: Option<int>)

  /** The store's search: its hits, or `None` when the request raises. */
  type Searcher = (string, Query) -> Option<seq<Hit>>

  /** The queries a strategy sent, in order, and the hits it returned. */
  datatype SearchRun = SearchRun(issued: seq<Query>, hits: seq<Hit>)

  const ReturnedFields: seq<string> := ["content", "content_type", "token_count"]

  function MatchClause(text: string): Clause {
    Match("content", text)
  }

  function KnnClause(vector: Option<seq<real>>, topK: int): Clause {
    Knn("embedding", vector, topK)
  }

  /** The keyword query: `top_k` hits of a full-text match on the content. */
  function KeywordQuery(text: string, topK: int): (q: Query)
    ensures q.size == topK && q.clause.Match? && q.clause.field == "content" && q.clause.text == text
    ensures q.sourceFields == ReturnedFields == ["content", "content_type", "token_count"]
  {
    Query(topK, MatchClause(text), ReturnedFields)
  }

  /** The semantic query: the `top_k` nearest neighbours of the query vector
      on the embedding field, with `k` equal to the result size. */
  function SemanticQuery(vector: Option<seq<real>>, topK: int): (q: Query)
    ensures q.size == topK && q.clause.Knn? && q.clause.field == "embedding"
    ensures q.clause.k == q.size && q.clause.vector == vector
    ensures q.sourceFields == ReturnedFields
  {
    Query(topK, KnnClause(vector, topK), ReturnedFields)
  }

  /** The hybrid query: a boolean "should" of exactly the semantic clause and
      the keyword clause, in that order, with the same size and fields. */
  function HybridQuery(text: string, vector: Option<seq<real>>, topK: int): (q: Query)
    ensures q.clause == Should([SemanticQuery(vector, topK).clause, KeywordQuery(text, topK).clause])
    ensures q.size == topK && q.sourceFields == ReturnedFields
  {
    Query(topK, Should([KnnClause(vector, topK), MatchClause(text)]), ReturnedFields)
  }

  /** The vector put into a query: the embedder's answer, which may be absent
      (`Some(None)`); `None` when the embedding request itself raised. */
  function QueryVector(reply: Embedding): Option<Option<seq<real>>> {
    match reply
    case EmbedFailed => None
    case NoVector => Some(None)
    case Vector(v) => Some(Some(v))
  }

  /** `keyword_search`: one query; the store's hits unchanged, or no hits when
      the search raises. */
  function KeywordSearch(search: Searcher, index: string, text: string, topK: int): (r: SearchRun)
    ensures r.issued == [KeywordQuery(text, topK)]
    ensures search(index, r.issued[0]).Some? ==> r.hits == search(index, r.issued[0]).value
    ensures search(index, r.issued[0]).None? ==> r.hits == []
  {
    var q := KeywordQuery(text, topK);
    SearchRun([q], search(index, q).GetOr([]))
  }

  /** `semantic_search`: embeds the text, then sends one knn query. A failing
      embedding sends nothing; a failing embedding or search yields no hits;
      otherwise the store's hits are returned unchanged. The vector is passed
      on as the embedder returned it: its length is not checked here. */
  function SemanticSearch(search: Searcher, embed: Embedder, index: string, text: string, topK: int)
    : (r: SearchRun)
    ensures embed(text).EmbedFailed? ==> r == SearchRun([], [])
    ensures !embed(text).EmbedFailed? ==>
              && |r.issued| == 1
              && r.issued[0] == SemanticQuery(QueryVector(embed(text)).value, topK)
              && r.hits == (if search(index, r.issued[0]).Some? then search(index, r.issued[0]).value else [])
  {
    match QueryVector(embed(text))
    case None => SearchRun([], [])
    case Some(vector) =>
      var q := SemanticQuery(vector, topK);
      SearchRun([q], search(index, q).GetOr([]))
  }

  /** The hybrid search did not produce its own answer: the embedding raised,
      or the hybrid query did. */
  predicate HybridFails(search: Searcher, embed: Embedder, index: string, text: string, topK: int) {
    match QueryVector(embed(text))
    case None => true
    case Some(vector) => search(index, HybridQuery(text, vector, topK)).None?
  }

  /** `hybrid_search`: embeds the text and sends the hybrid query; when that
      succeeds its hits are returned unchanged. When the embedding or the
      hybrid query raises, the answer is exactly that of a keyword search with
      the same text and size (no hits if it fails too), whose query is the
      last one sent. At most two queries are sent; the hybrid query is never
      retried. */
  function HybridSearch(search: Searcher, embed: Embedder, index: string, text: string, topK: int)
    : (r: SearchRun)
    ensures 1 <= |r.issued| <= 2
    ensures QueryVector(embed(text)).None? ==> r.issued == [KeywordQuery(text, topK)]
    ensures QueryVector(embed(text)).Some? && HybridFails(search, embed, index, text, topK) ==>
              r.issued == [HybridQuery(text, QueryVector(embed(text)).value, topK), KeywordQuery(text, topK)]
    ensures QueryVector(embed(text)).Some? ==>
              r.issued[0] == HybridQuery(text, QueryVector(embed(text)).value, topK)
    ensures !HybridFails(search, embed, index, text, topK) ==>
              |r.issued| == 1 && search(index, r.issued[0]) == Some(r.hits)
    ensures HybridFails(search, embed, index, text, topK) ==>
              && r.hits == KeywordSearch(search, index, text, topK).hits
              && r.issued[|r.issued| - 1] == KeywordQuery(text, topK)
  {
    var primary := match QueryVector(embed(text))
      case None => None
      case Some(vector) => Some(HybridQuery(text, vector, topK));
    if primary.Some? && search(index, primary.value).Some? then
      SearchRun([primary.value], search(index, primary.value).value)
    else
      var fallback := KeywordSearch(search, index, text, topK);
      SearchRun((if primary.Some? then [primary.value] else []) + fallback.issued, fallback.hits)
  }

  /** When both the hybrid query and the fallback fail, no hits come back. */
  lemma HybridBothFailYieldsNothing(search: Searcher, embed: Embedder, index: string, text: string, topK: int)
    requires HybridFails(search, embed, index, text, topK)
    requires search(index, KeywordQuery(text, topK)).None?
    ensures HybridSearch(search, embed, index, text, topK).hits == []
  {
  }

  /** Whatever the strategy, the hits returned are either exactly the store's
      answer to one of the queries sent, or empty: no re-ranking or filtering. */
  lemma HitsArePassedThrough(search: Searcher, embed: Embedder, index: string, text: string, topK: int)
    ensures forall r :: r in [KeywordSearch(search, index, text, topK),
                              SemanticSearch(search, embed, index, text, topK),
                              HybridSearch(search, embed, index, text, topK)] ==>
              r.hits == [] || exists q :: q in r.issued && search(index, q) == Some(r.hits)
  {
  }
}
