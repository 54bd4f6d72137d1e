/**
 * The retrieval engine: building the chunk index from articles, and answering a query by
 * (optionally steered) vector search, dial-adjusted scoring, reranking and truncation to `top_k`.
 * The vector search itself is a parameter: for a query vector and a count it returns the hits,
 * each a similarity and an index into the stored chunks.
 */
module Retrieval {
  import opened Wrappers
  import opened Lists
  import opened Dicts
  import opened Vectors
  import opened Sorting
  import opened Utils
  import opened Steering
  import opened Embed

  // ---------------------------------------------------------------------------------------------
  // Building the index
  // ---------------------------------------------------------------------------------------------

  /**
   * An article as loaded from disk. A missing `title`, `source` or `tags` is `None`; `scores`
   * holds the article-level dial scores under keys such as `love_score`; `sentences` is the
   * sentence split of `content`.
   */
  datatype Article = Article(id: string, title: Option<string>, source: Option<string>,
                             tags: Option<seq<string>>, content: string, sentences: seq<string>,
                             scores: Dict<real>)

  const ChunkSize: int := 512
  const ChunkOverlap: int := 50

  /** The five dial annotations each chunk carries, and the article keys they are read from. */
  const DialNames: seq<string> := ["love", "commitment", "belonging", "trust", "growth"]
  const ScoreKeys: seq<string> := ["love_score", "commitment_score", "belonging_score", "trust_score", "growth_score"]

  function ArticleChunks(a: Article): seq<string> {
    ChunksOf(a.content, a.sentences, ChunkSize, ChunkOverlap)
  }

  function MetadataFor(a: Article, i: nat, n: nat): ChunkMetadata {
    ChunkMetadata(a.id, a.title.GetOr("Untitled"), a.source.GetOr("Unknown"), i, n, a.tags.GetOr([]))
  }

  /** The dial annotation of every chunk of `a`: each article score, or 0.5 where it is missing. */
  function AnnotationOf(a: Article): Dict<real> {
    seq(5, j requires 0 <= j < 5 => (DialNames[j], GetOr(a.scores, ScoreKeys[j], 0.5)))
  }

  /** An annotation names the five dials in order, each with its article score or 0.5. */
  lemma AnnotationShape(a: Article)
    ensures Keys(AnnotationOf(a)) == DialNames && DistinctKeys(AnnotationOf(a))
    ensures forall j :: 0 <= j < 5 ==> Lookup(AnnotationOf(a), DialNames[j]) == Some(GetOr(a.scores, ScoreKeys[j], 0.5))
    ensures forall j :: 0 <= j < 5 && !HasKey(a.scores, ScoreKeys[j]) ==> Lookup(AnnotationOf(a), DialNames[j]) == Some(0.5)
  {
    var ann := AnnotationOf(a);
    assert Keys(ann) == DialNames;
    DialNamesDistinct();
    assert DistinctKeys(ann);
    forall j | 0 <= j < 5 ensures Lookup(ann, DialNames[j]) == Some(GetOr(a.scores, ScoreKeys[j], 0.5)) {
      LookupAt(ann, j);
    }
  }

  lemma DialNamesDistinct()
    ensures Distinct(DialNames)
  {
    assert forall i :: 0 <= i < 5 ==> |DialNames[i]| == [4, 10, 9, 5, 6][i];
  }

  /** The metadata of the `n` chunks of `a`, numbered from 0. */
  function MetadataBlock(a: Article, n: nat): (ms: seq<ChunkMetadata>)
    ensures |ms| == n
  {
    seq(n, i requires 0 <= i < n => MetadataFor(a, i, n))
  }

  function AnnotationBlock(a: Article, n: nat): (ds: seq<Dict<real>>)
    ensures |ds| == n
  {
    seq(n, _ => AnnotationOf(a))
  }

  /** Every article's chunks, article after article. */
  function IndexedChunks(articles: seq<Article>): seq<string> {
    if articles == [] then []
    else IndexedChunks(articles[..|articles| - 1]) + ArticleChunks(articles[|articles| - 1])
  }

  function IndexedMetadata(articles: seq<Article>): seq<ChunkMetadata> {
    if articles == [] then []
    else IndexedMetadata(articles[..|articles| - 1]) + MetadataBlock(articles[|articles| - 1], |ArticleChunks(articles[|articles| - 1])|)
  }

  function IndexedAnnotations(articles: seq<Article>): seq<Dict<real>> {
    if articles == [] then []
    else IndexedAnnotations(articles[..|articles| - 1]) + AnnotationBlock(articles[|articles| - 1], |ArticleChunks(articles[|articles| - 1])|)
  }

  /** Each chunk's embedding, in chunk order. */
  function EmbedAll(m: Embedder, chunks: seq<string>): (vs: seq<Vector>)
    ensures |vs| == |chunks|
  {
    seq(|chunks|, i requires 0 <= i < |chunks| => m.encode(chunks[i]))
  }

  /** A chunk continues its predecessor: same article, next chunk number. */
  predicate Continues(metadata: seq<ChunkMetadata>, p: nat)
    requires p < |metadata|
  {
    metadata[p].chunkIndex > 0 ==>
      p > 0 && metadata[p - 1].articleId == metadata[p].articleId &&
      metadata[p - 1].chunkIndex + 1 == metadata[p].chunkIndex &&
      metadata[p - 1].totalChunks == metadata[p].totalChunks
  }

  /** The three index lists are parallel. */
  lemma {:induction false} IndexLengths(articles: seq<Article>)
    ensures |IndexedChunks(articles)| == |IndexedMetadata(articles)| == |IndexedAnnotations(articles)|
  {
    if articles != [] {
      IndexLengths(articles[..|articles| - 1]);
    }
  }

  /**
   * Every chunk's number is below its article's chunk count, and a chunk with a number above 0
   * directly follows the previous chunk of the same article.
   */
  lemma {:induction false} IndexNumbering(articles: seq<Article>)
    ensures forall p :: 0 <= p < |IndexedMetadata(articles)| ==>
      IndexedMetadata(articles)[p].chunkIndex < IndexedMetadata(articles)[p].totalChunks && Continues(IndexedMetadata(articles), p)
  {
    if articles != [] {
      var init, a := articles[..|articles| - 1], articles[|articles| - 1];
      IndexNumbering(init);
      var prev := IndexedMetadata(init);
      var block := MetadataBlock(a, |ArticleChunks(a)|);
      var all := prev + block;
      assert all == IndexedMetadata(articles);
      forall p | 0 <= p < |all| ensures all[p].chunkIndex < all[p].totalChunks && Continues(all, p) {
        if p < |prev| {
          assert Continues(prev, p);
          if p > 0 {
            assert all[p - 1] == prev[p - 1];
          }
        } else {
          BlockNumbering(a, |ArticleChunks(a)|, p - |prev|);
          if p - |prev| > 0 {
            assert all[p - 1] == block[p - |prev| - 1];
          }
        }
      }
    }
  }

  lemma BlockNumbering(a: Article, n: nat, i: nat)
    requires i < n
    ensures MetadataBlock(a, n)[i].chunkIndex == i < MetadataBlock(a, n)[i].totalChunks == n
    ensures MetadataBlock(a, n)[i].articleId == a.id
  {
  }

  /** Every chunk carries the five dial annotations. */
  lemma {:induction false} IndexAnnotations(articles: seq<Article>)
    ensures forall p :: 0 <= p < |IndexedAnnotations(articles)| ==> Keys(IndexedAnnotations(articles)[p]) == DialNames
  {
    if articles != [] {
      var init, a := articles[..|articles| - 1], articles[|articles| - 1];
      IndexAnnotations(init);
      AnnotationShape(a);
    }
  }

  /** The index of the first `j + 1` articles extends that of the first `j` by article `j`'s chunks. */
  lemma IndexSnoc(articles: seq<Article>, j: nat)
    requires j < |articles|
    ensures IndexedChunks(articles[..j + 1]) == IndexedChunks(articles[..j]) + ArticleChunks(articles[j])
    ensures IndexedMetadata(articles[..j + 1]) == IndexedMetadata(articles[..j]) + MetadataBlock(articles[j], |ArticleChunks(articles[j])|)
    ensures IndexedAnnotations(articles[..j + 1]) == IndexedAnnotations(articles[..j]) + AnnotationBlock(articles[j], |ArticleChunks(articles[j])|)
  {
    assert articles[..j + 1][..j] == articles[..j];
  }

  /** One step of the chunk loop of `rebuild_index`, for an article whose chunks are `chunks`. */
  lemma BlockSnoc(a: Article, chunks: seq<string>, i: nat)
    requires i < |chunks|
    ensures chunks[..i + 1] == chunks[..i] + [chunks[i]]
    ensures MetadataBlock(a, |chunks|)[..i + 1] == MetadataBlock(a, |chunks|)[..i] + [MetadataFor(a, i, |chunks|)]
    ensures AnnotationBlock(a, |chunks|)[..i + 1] == AnnotationBlock(a, |chunks|)[..i] + [AnnotationOf(a)]
  {
    var n := |chunks|;
    assert chunks[..i + 1] == chunks[..i] + [chunks[i]];
    assert MetadataBlock(a, n)[..i + 1] == MetadataBlock(a, n)[..i] + [MetadataBlock(a, n)[i]];
    assert AnnotationBlock(a, n)[..i + 1] == AnnotationBlock(a, n)[..i] + [AnnotationBlock(a, n)[i]];
  }

  datatype IndexStats = IndexStats(totalArticles: nat, totalChunks: nat, embeddingDim: nat)

  /** The `IndexError` of `embeddings.shape[1]` on the empty array the embedder returns for no texts. */
  const NoEmbeddingDim := "tuple index out of range"

  /** One search hit: the vector similarity and the index of the chunk (possibly negative). */
  datatype Hit = Hit(similarity: real, index: int)

  /** What a query returns. */
  datatype Retrieved = Retrieved(documents: seq<Candidate>, totalCandidates: nat, steeringMethod: string)

  // ---------------------------------------------------------------------------------------------
  // Answering a query
  // ---------------------------------------------------------------------------------------------

  /** The number of hits asked of the search: three times `top_k` when reranking, at most the number of chunks. */
  function CandidateCount(topK: nat, useReranking: bool, n: nat): (k: nat)
    ensures k <= n && k <= (if useReranking then 3 * topK else topK)
    ensures k == n || k == (if useReranking then 3 * topK else topK)
  {
    var k := if useReranking then topK * 3 else topK;
    if k < n then k else n
  }

  /** The combined score: 70% vector similarity and 30% dial agreement. */
  function FinalScore(baseSimilarity: real, dialScore: real): real {
    0.7 * baseSimilarity + 0.3 * dialScore
  }

  /** The combined score lies between its two parts and grows with each of them. */
  lemma FinalScoreBetween(base: real, dial: real, base': real, dial': real)
    ensures (if base <= dial then base else dial) <= FinalScore(base, dial) <= (if base <= dial then dial else base)
    ensures base <= base' && dial <= dial' ==> FinalScore(base, dial) <= FinalScore(base', dial')
    ensures base < base' && dial <= dial' ==> FinalScore(base, dial) < FinalScore(base', dial')
  {
  }

  /** The hits the source keeps: those whose index is below the number of chunks. */
  function Kept(n: nat): Hit -> bool {
    (h: Hit) => h.index < n
  }

  /** Python's `xs[i]` for `-|xs| <= i < |xs|`: a negative index counts from the end. */
  function Resolve(i: int, n: nat): (p: nat)
    requires -(n as int) <= i < n
    ensures p < n && (i >= 0 ==> p == i) && (i < 0 ==> p == n + i)
  {
    if i < 0 then n + i else i
  }

  /** The candidate built from one hit. */
  function CandidateOf(sqrt: real -> real, dials: Dict<real>, h: Hit,
                       documents: seq<string>, metadata: seq<ChunkMetadata>, annotations: seq<Dict<real>>): Candidate
    requires |documents| == |metadata| == |annotations|
    requires -|documents| <= h.index < |documents|
  {
    var p := Resolve(h.index, |documents|);
    var dialScore := DialScore(sqrt, dials, annotations[p]);
    Candidate(documents[p], metadata[p], h.similarity, dialScore, FinalScore(h.similarity, dialScore), annotations[p])
  }

  /**
   * The candidates of the hits, in hit order, leaving out hits at or beyond the number of chunks;
   * `None` when some kept hit is so negative that the lookup raises `IndexError`.
   */
  function CandidatesOf(sqrt: real -> real, dials: Dict<real>, hits: seq<Hit>,
                        documents: seq<string>, metadata: seq<ChunkMetadata>, annotations: seq<Dict<real>>): Option<seq<Candidate>>
    requires |documents| == |metadata| == |annotations|
  {
    if hits == [] then Some([])
    else
      match CandidatesOf(sqrt, dials, hits[..|hits| - 1], documents, metadata, annotations)
      case None => None
      case Some(cs) =>
        var h := hits[|hits| - 1];
        if h.index >= |documents| then Some(cs)
        else if h.index < -|documents| then None
        else Some(cs + [CandidateOf(sqrt, dials, h, documents, metadata, annotations)])
  }

  /**
   * The lookup fails exactly when a hit lies below `-len(documents)`. Otherwise there is one
   * candidate per kept hit, in hit order, built from the chunk the hit names.
   */
  lemma CandidatesShape(sqrt: real -> real, dials: Dict<real>, hits: seq<Hit>,
                        documents: seq<string>, metadata: seq<ChunkMetadata>, annotations: seq<Dict<real>>)
    requires |documents| == |metadata| == |annotations|
    ensures CandidatesOf(sqrt, dials, hits, documents, metadata, annotations).None? <==>
      exists j :: 0 <= j < |hits| && hits[j].index < -|documents|
    ensures CandidatesOf(sqrt, dials, hits, documents, metadata, annotations).Some? ==>
      var cs := CandidatesOf(sqrt, dials, hits, documents, metadata, annotations).value;
      var kept := Filter(hits, Kept(|documents|));
      |cs| == |kept| &&
      forall i :: 0 <= i < |cs| ==>
        -|documents| <= kept[i].index < |documents| &&
        cs[i] == CandidateOf(sqrt, dials, kept[i], documents, metadata, annotations)
  {
    CandidatesFail(sqrt, dials, hits, documents, metadata, annotations);
    CandidatesKept(sqrt, dials, hits, documents, metadata, annotations);
  }

  lemma {:induction false} CandidatesFail(sqrt: real -> real, dials: Dict<real>, hits: seq<Hit>,
                                          documents: seq<string>, metadata: seq<ChunkMetadata>, annotations: seq<Dict<real>>)
    requires |documents| == |metadata| == |annotations|
    ensures CandidatesOf(sqrt, dials, hits, documents, metadata, annotations).None? <==>
      exists j :: 0 <= j < |hits| && hits[j].index < -|documents|
  {
    if hits != [] {
      var init, h := hits[..|hits| - 1], hits[|hits| - 1];
      CandidatesFail(sqrt, dials, init, documents, metadata, annotations);
      var n := |documents|;
      if exists j :: 0 <= j < |init| && init[j].index < -n {
        var j :| 0 <= j < |init| && init[j].index < -n;
        assert hits[j] == init[j];
      }
      if exists j :: 0 <= j < |hits| && hits[j].index < -n {
        var j :| 0 <= j < |hits| && hits[j].index < -n;
        if j < |init| {
          assert init[j] == hits[j];
        }
      }
    }
  }

  lemma {:induction false} CandidatesKept(sqrt: real -> real, dials: Dict<real>, hits: seq<Hit>,
                                          documents: seq<string>, metadata: seq<ChunkMetadata>, annotations: seq<Dict<real>>)
    requires |documents| == |metadata| == |annotations|
    ensures CandidatesOf(sqrt, dials, hits, documents, metadata, annotations).Some? ==>
      var cs := CandidatesOf(sqrt, dials, hits, documents, metadata, annotations).value;
      var kept := Filter(hits, Kept(|documents|));
      |cs| == |kept| &&
      forall i :: 0 <= i < |cs| ==>
        -|documents| <= kept[i].index < |documents| &&
        cs[i] == CandidateOf(sqrt, dials, kept[i], documents, metadata, annotations)
  {
    if hits != [] {
      CandidatesKept(sqrt, dials, hits[..|hits| - 1], documents, metadata, annotations);
    }
  }

  /** Once a hit below `-len(documents)` has been met, no later hit makes the lookup succeed. */
  lemma CandidatesNoneSticks(sqrt: real -> real, dials: Dict<real>, hits: seq<Hit>, i: nat,
                             documents: seq<string>, metadata: seq<ChunkMetadata>, annotations: seq<Dict<real>>)
    requires |documents| == |metadata| == |annotations| && 0 < i <= |hits|
    requires hits[i - 1].index < -|documents|
    ensures CandidatesOf(sqrt, dials, hits, documents, metadata, annotations).None?
  {
    CandidatesFail(sqrt, dials, hits, documents, metadata, annotations);
  }

  /** One step of the candidate loop, from the candidates `cs` of the hits before `i`. */
  lemma CandidatesSnoc(sqrt: real -> real, dials: Dict<real>, hits: seq<Hit>, i: nat, cs: seq<Candidate>,
                       documents: seq<string>, metadata: seq<ChunkMetadata>, annotations: seq<Dict<real>>)
    requires |documents| == |metadata| == |annotations| && i < |hits|
    requires CandidatesOf(sqrt, dials, hits[..i], documents, metadata, annotations) == Some(cs)
    ensures hits[i].index >= |documents| ==>
      CandidatesOf(sqrt, dials, hits[..i + 1], documents, metadata, annotations) == Some(cs)
    ensures -|documents| <= hits[i].index < |documents| ==>
      CandidatesOf(sqrt, dials, hits[..i + 1], documents, metadata, annotations) ==
      Some(cs + [CandidateOf(sqrt, dials, hits[i], documents, metadata, annotations)])
  {
    assert hits[..i + 1][..i] == hits[..i];
  }

  function FinalScoreOf(c: Candidate): real {
    c.finalScore
  }

  /** With reranking the candidates are stably sorted by final score; without it they stay in hit order. */
  function Ranked(cs: seq<Candidate>, useReranking: bool): seq<Candidate> {
    if useReranking then SortDesc(cs, FinalScoreOf) else cs
  }

  /** Reranking sorts, keeps every candidate, and keeps hit order among equal scores. */
  lemma RankedShape(cs: seq<Candidate>, useReranking: bool, c: real)
    ensures multiset(Ranked(cs, useReranking)) == multiset(cs)
    ensures useReranking ==> SortedDesc(Ranked(cs, useReranking), FinalScoreOf)
    ensures Filter(Ranked(cs, useReranking), KeyIs(FinalScoreOf, c)) == Filter(cs, KeyIs(FinalScoreOf, c))
    ensures !useReranking ==> Ranked(cs, useReranking) == cs
  {
    if useReranking {
      SortDescSorted(cs, FinalScoreOf);
      SortDescStable(cs, FinalScoreOf, c);
    }
  }

  /** Steering is used only when asked for, when an engine is present and when it has learned vectors. */
  predicate SteeringApplies(useSteering: bool, hasEngine: bool, vectors: map<string, Vector>) {
    useSteering && hasEngine && vectors != map[]
  }

  function SteeringMethod(applies: bool): (tag: string)
    ensures tag == "learned" || tag == "none"
    ensures tag == "learned" <==> applies
  {
    if applies then "learned" else "none"
  }

  /** The chunking loop of `rebuild_index`: every article's chunks with their metadata and annotations. */
  method ChunkArticles(articles: seq<Article>)
    returns (allChunks: seq<string>, allMetadata: seq<ChunkMetadata>, allAnnotations: seq<Dict<real>>)
    ensures allChunks == IndexedChunks(articles)
    ensures allMetadata == IndexedMetadata(articles)
    ensures allAnnotations == IndexedAnnotations(articles)
  {
    allChunks := [];
    allMetadata := [];
    allAnnotations := [];
    for j := 0 to |articles|
      invariant allChunks == IndexedChunks(articles[..j])
      invariant allMetadata == IndexedMetadata(articles[..j])
      invariant allAnnotations == IndexedAnnotations(articles[..j])
    {
      allChunks, allMetadata, allAnnotations := AppendArticle(allChunks, allMetadata, allAnnotations, articles[j]);
      IndexSnoc(articles, j);
    }
    assert articles[..|articles|] == articles;
  }

  /** The body of the chunking loop: one article's chunks, metadata and annotations appended to the lists. */
  method AppendArticle(chunks0: seq<string>, metadata0: seq<ChunkMetadata>, annotations0: seq<Dict<real>>, article: Article)
    returns (allChunks: seq<string>, allMetadata: seq<ChunkMetadata>, allAnnotations: seq<Dict<real>>)
    ensures allChunks == chunks0 + ArticleChunks(article)
    ensures allMetadata == metadata0 + MetadataBlock(article, |ArticleChunks(article)|)
    ensures allAnnotations == annotations0 + AnnotationBlock(article, |ArticleChunks(article)|)
  {
    allChunks, allMetadata, allAnnotations := chunks0, metadata0, annotations0;
    var chunks := ChunkText(article.content, article.sentences, ChunkSize, ChunkOverlap);
    for i := 0 to |chunks|
      invariant allChunks == chunks0 + chunks[..i]
      invariant allMetadata == metadata0 + MetadataBlock(article, |chunks|)[..i]
      invariant allAnnotations == annotations0 + AnnotationBlock(article, |chunks|)[..i]
    {
      BlockSnoc(article, chunks, i);
      allChunks := allChunks + [chunks[i]];
      allMetadata := allMetadata + [MetadataFor(article, i, |chunks|)];
      allAnnotations := allAnnotations + [AnnotationOf(article)];
    }
    assert chunks[..|chunks|] == chunks;
    assert MetadataBlock(article, |chunks|)[..|chunks|] == MetadataBlock(article, |chunks|);
    assert AnnotationBlock(article, |chunks|)[..|chunks|] == AnnotationBlock(article, |chunks|);
  }

  /** The retrieval engine with its index. */
  class RetrievalEngine {
    /** The optional steering engine (`None` in the source when not configured). */
    const steering: SteeringVectorEngine?
    /** False until the index has been built. */
    var indexed: bool
    var embeddings: seq<Vector>
    var documents: seq<string>
    var metadata: seq<ChunkMetadata>
    var dialAnnotations: seq<Dict<real>>

    /** The stored lists are parallel. */
    predicate Valid()
      reads this
    {
      |documents| == |metadata| == |dialAnnotations| == |embeddings|
    }

    constructor(steering: SteeringVectorEngine?)
      ensures this.steering == steering && !indexed
      ensures documents == [] && metadata == [] && dialAnnotations == [] && embeddings == []
      ensures Valid()
    {
      this.steering := steering;
      indexed := false;
      embeddings := [];
      documents := [];
      metadata := [];
      dialAnnotations := [];
    }

    /**
     * `rebuild_index`: chunks every article (512 characters, 50 of overlap), records each chunk's
     * metadata and dial annotation, and embeds every chunk into the index. Without a single chunk
     * the embedding is an empty array with no second dimension, and reading it raises before
     * anything is stored.
     */
    method RebuildIndex(m: Embedder, articles: seq<Article>) returns (r: Result<IndexStats>)
      requires Valid()
      modifies this
      ensures Valid()
      ensures IndexedChunks(articles) == [] ==>
        r == Err(NoEmbeddingDim) && indexed == old(indexed) && documents == old(documents) &&
        metadata == old(metadata) && dialAnnotations == old(dialAnnotations) && embeddings == old(embeddings)
      ensures IndexedChunks(articles) != [] ==>
        indexed &&
        documents == IndexedChunks(articles) &&
        metadata == IndexedMetadata(articles) &&
        dialAnnotations == IndexedAnnotations(articles) &&
        embeddings == EmbedAll(m, documents) &&
        r == Ok(IndexStats(|articles|, |documents|, m.dim))
    {
      var allChunks, allMetadata, allAnnotations := ChunkArticles(articles);
      if allChunks == [] {
        return Err(NoEmbeddingDim);
      }
      IndexLengths(articles);
      embeddings := EmbedAll(m, allChunks);
      documents := allChunks;
      metadata := allMetadata;
      dialAnnotations := allAnnotations;
      indexed := true;
      r := Ok(IndexStats(|articles|, |allChunks|, m.dim));
    }

    /** The query vector the search is given, and the steering label. */
    function QueryVector(sqrt: real -> real, m: Embedder, query: string, dials: Dict<real>, useSteering: bool): (r: (Vector, string))
      requires IsSqrt(sqrt) && ValidEmbedder(m)
      requires steering != null ==> steering.Valid() && steering.dim == m.dim
      reads this, steering
      ensures |r.0| == m.dim
      ensures r.1 == "learned" || r.1 == "none"
      ensures r.1 == "learned" <==> steering != null && SteeringApplies(useSteering, true, steering.steeringVectors)
      ensures r.1 == "none" ==> r.0 == m.encode(query)
    {
      var embedding := m.encode(query);
      if steering != null && SteeringApplies(useSteering, true, steering.steeringVectors) then
        (Normalize(sqrt, SteeredSum(steering.steeringVectors, embedding, dials, 1.0)), SteeringMethod(true))
      else (embedding, SteeringMethod(false))
    }

    /**
     * `retrieve`: raises before an index exists; otherwise embeds (and possibly steers) the
     * query, asks the search for `CandidateCount` hits, scores the kept hits, reranks them if
     * asked to, and returns the first `top_k`.
     */
    method Retrieve(sqrt: real -> real, m: Embedder, search: (Vector, nat) -> seq<Hit>, query: string,
                    dials: Dict<real>, topK: nat, useReranking: bool, useSteering: bool)
      returns (r: Result<Retrieved>)
      requires IsSqrt(sqrt) && ValidEmbedder(m) && Valid()
      requires steering != null ==> steering.Valid() && steering.dim == m.dim
      ensures !indexed ==> r == Err("Index not initialized. Call initialize() first.")
      ensures indexed ==>
        var (vector, tag) := QueryVector(sqrt, m, query, dials, useSteering);
        var hits := search(vector, CandidateCount(topK, useReranking, |documents|));
        var cs := CandidatesOf(sqrt, dials, hits, documents, metadata, dialAnnotations);
        (cs.None? ==> r.Err?) &&
        (cs.Some? ==> r == Ok(Retrieved(Take(Ranked(cs.value, useReranking), topK), |cs.value|, tag)))
    {
      if !indexed {
        return Err("Index not initialized. Call initialize() first.");
      }
      var queryEmbedding := m.encode(query);
      var steeringMethod := "none";
      if useSteering && steering != null && steering.steeringVectors != map[] {
        queryEmbedding := steering.ApplySteering(sqrt, queryEmbedding, dials, 1.0);
        steeringMethod := "learned";
      }
      var kCandidates := if useReranking then topK * 3 else topK;
      kCandidates := if kCandidates < |documents| then kCandidates else |documents|;
      var hits := search(queryEmbedding, kCandidates);
      var scored := ScoreHits(sqrt, dials, hits);
      if scored.None? {
        return Err("list index out of range");
      }
      var candidates := scored.value;
      if useReranking {
        candidates := SortDesc(candidates, FinalScoreOf);
        return Ok(Retrieved(Take(candidates, topK), |candidates|, steeringMethod));
      }
      return Ok(Retrieved(Take(candidates, topK), |candidates|, steeringMethod));
    }

    /** The scoring loop of `retrieve`: one candidate per kept hit, or the `IndexError` of a too negative index. */
    method ScoreHits(sqrt: real -> real, dials: Dict<real>, hits: seq<Hit>) returns (r: Option<seq<Candidate>>)
      requires Valid()
      ensures r == CandidatesOf(sqrt, dials, hits, documents, metadata, dialAnnotations)
    {
      var candidates: seq<Candidate> := [];
      for i := 0 to |hits|
        invariant CandidatesOf(sqrt, dials, hits[..i], documents, metadata, dialAnnotations) == Some(candidates)
      {
        CandidatesSnoc(sqrt, dials, hits, i, candidates, documents, metadata, dialAnnotations);
        var idx := hits[i].index;
        if idx < |documents| {
          if idx < -|documents| {
            CandidatesNoneSticks(sqrt, dials, hits, i + 1, documents, metadata, dialAnnotations);
            assert hits[..|hits|] == hits;
            return None;
          }
          var p := Resolve(idx, |documents|);
          var baseScore := hits[i].similarity;
          var dialAdjustment := DialScore(sqrt, dials, dialAnnotations[p]);
          var finalScore := 0.7 * baseScore + 0.3 * dialAdjustment;
          var candidate := Candidate(documents[p], metadata[p], baseScore, dialAdjustment, finalScore, dialAnnotations[p]);
          assert candidate == CandidateOf(sqrt, dials, hits[i], documents, metadata, dialAnnotations);
          candidates := candidates + [candidate];
        }
      }
      assert hits[..|hits|] == hits;
      return Some(candidates);
    }
  }

  /**
   * A successful query returns at most `top_k` documents, a prefix of the ranked candidates,
   * as many candidates as the search kept, each scored as 70% similarity and 30% dial agreement.
   */
  lemma RetrievedShape(sqrt: real -> real, dials: Dict<real>, hits: seq<Hit>, topK: nat, useReranking: bool,
                       documents: seq<string>, metadata: seq<ChunkMetadata>, annotations: seq<Dict<real>>)
    requires |documents| == |metadata| == |annotations|
    requires CandidatesOf(sqrt, dials, hits, documents, metadata, annotations).Some?
    ensures var cs := CandidatesOf(sqrt, dials, hits, documents, metadata, annotations).value;
      var out := Take(Ranked(cs, useReranking), topK);
      |out| <= topK && out <= Ranked(cs, useReranking) &&
      |cs| == |Filter(hits, Kept(|documents|))| &&
      (|cs| >= topK ==> |out| == topK) &&
      forall i :: 0 <= i < |out| ==> out[i].finalScore == FinalScore(out[i].baseSimilarity, out[i].dialScore)
  {
    var cs := CandidatesOf(sqrt, dials, hits, documents, metadata, annotations).value;
    CandidatesShape(sqrt, dials, hits, documents, metadata, annotations);
    RankedShape(cs, useReranking, 0.0);
    var ranked := Ranked(cs, useReranking);
    forall i | 0 <= i < |ranked| ensures ranked[i].finalScore == FinalScore(ranked[i].baseSimilarity, ranked[i].dialScore) {
      assert ranked[i] in multiset(cs);
    }
  }
}
