/** The command-line assistant variant (lumi_rag.js): token chunking over an
    abstract tokenizer, every chunk kept, batches of 96, unguarded cosine
    ranking, and the prompt built from the retrieved chunks. */
module Assistant {
  import opened Outcomes
  import opened Text
  import opened Windows
  import opened Similarity
  import opened Ranking
  import opened Embedding
  import opened Corpus
  import opened IndexStore
  import Backend

  /** A token id of the tokenizer; its vocabulary is not modelled. */
  type Token = nat

  /** `enc.encode` and `enc.decode`. */
  type Encode = string -> seq<Token>
  type Decode = seq<Token> -> string

  /** Defaults of `chunkText(text, maxTokens = 750, overlap = 100)`. */
  const MaxTokens: nat := 750
  const TokenOverlap: nat := 100

  /** `chunkText`: the sliding window over the text's tokens, each window
      decoded back to text. */
  function ChunkTokens(text: string, maxTokens: nat, overlap: int, encode: Encode, decode: Decode): (r: seq<string>)
    requires |encode(text)| == 0 || overlap < maxTokens
    ensures |r| == |Chunk(encode(text), maxTokens, overlap)|
    ensures |encode(text)| == 0 ==> r == []
    ensures forall k :: 0 <= k < |r| ==>
      r[k] == decode(Window(encode(text), k, maxTokens, maxTokens - overlap))
  {
    var ws := Chunk(encode(text), maxTokens, overlap);
    seq(|ws|, k requires 0 <= k < |ws| => decode(ws[k]))
  }

  /** The token windows `chunkText` decodes: dropping each later window's
      overlap gives back the token sequence, and there are
      ceil(tokens / (maxTokens - overlap)) of them. */
  lemma TokenWindowsCover(text: string, maxTokens: nat, overlap: nat, encode: Encode)
    requires overlap < maxTokens
    ensures var ws := Chunk(encode(text), maxTokens, overlap);
      && Reassemble(ws, overlap) == encode(text)
      && |ws| == (|encode(text)| + (maxTokens - overlap) - 1) / (maxTokens - overlap)
  {
    ChunkReassembles(encode(text), maxTokens, overlap);
    ChunkCountIsCeiling(encode(text), maxTokens, overlap);
  }

  /** `chunkText(doc.text)` as `buildIndex` calls it. */
  function DefaultChunker(encode: Encode, decode: Decode): Chunker {
    t => ChunkTokens(t, MaxTokens, TokenOverlap, encode, decode)
  }

  /** No chunk is filtered out. */
  predicate KeepEvery(t: string) {
    true
  }

  datatype BuildError = EmbeddingFailed

  /** What `buildIndex` produces: every chunk of every document, and the
      answers of the batch calls in order, unless one of them threw. */
  function Built(docs: seq<Document>, encode: Encode, decode: Decode, embedBatch: EmbedBatch): Result<Index, BuildError> {
    var metas := AllChunks(docs, DefaultChunker(encode, decode));
    var bs := Batches(Texts(metas), BatchSize);
    if forall j :: 0 <= j < |bs| ==> embedBatch(bs[j]).Some? then Ok(Index(Flatten(Outputs(bs, embedBatch)), metas))
    else Err(EmbeddingFailed)
  }

  /** `buildIndex` without the final write. */
  method BuildIndex(docs: seq<Document>, encode: Encode, decode: Decode, embedBatch: EmbedBatch)
    returns (r: Result<Index, BuildError>)
    ensures r == Built(docs, encode, decode, embedBatch)
    ensures var bs := Batches(Texts(AllChunks(docs, DefaultChunker(encode, decode))), BatchSize);
      r.Ok? <==> forall j :: 0 <= j < |bs| ==> embedBatch(bs[j]).Some?
    ensures r.Ok? ==> r.value.metas == AllChunks(docs, DefaultChunker(encode, decode))
    ensures r.Ok? ==> |r.value.metas| == ChunkCount(docs, DefaultChunker(encode, decode))
    ensures docs == [] ==> r == Ok(Index([], []))
  {
    var chunker := DefaultChunker(encode, decode);
    var texts, metas := Collect(docs, chunker, KeepEvery);
    KeepAll(AllChunks(docs, chunker), KeepEvery);
    AllChunksCount(docs, chunker);
    var out := EmbedInBatches(texts, embedBatch);
    if out.None? {
      return Err(EmbeddingFailed);
    }
    r := Ok(Index(out.value, metas));
  }

  /** `buildIndex` with its write: the file holds exactly the built index,
      written only once every batch has been embedded; a failed request
      leaves every file as it was. */
  method BuildAndSave(store: Store<Index>, path: string, docs: seq<Document>,
                      encode: Encode, decode: Decode, embedBatch: EmbedBatch)
    returns (r: Result<Index, BuildError>, saved: Store<Index>)
    ensures r == Built(docs, encode, decode, embedBatch)
    ensures r.Err? ==> saved == store
    ensures r.Ok? ==> saved == Save(store, path, r.value) && Load(saved, path) == Ok(r.value)
    ensures docs == [] ==> Load(saved, path) == Ok(Index([], []))
  {
    r := BuildIndex(docs, encode, decode, embedBatch);
    if r.Ok? {
      saved := Save(store, path, r.value);
    } else {
      saved := store;
    }
  }

  /** The assistant's `cosineSimilarity` has no guard: it runs over the
      query's length, so a longer stored vector is scored on its first `|q|`
      components only, where the server would score 0. A stored vector
      shorter than the query would be read past its end, which the model
      excludes. */
  function Cosine(q: Vector, e: Vector, quotient: Quotient): (r: real)
    requires |q| <= |e|
    ensures r == CosineSimilarity(Some(q), Some(e[..|q|]), quotient)
    ensures |q| == |e| ==> r == CosineSimilarity(Some(q), Some(e), quotient)
    ensures |q| < |e| ==> CosineSimilarity(Some(q), Some(e), quotient) == 0.0
  {
    DotPrefix(q, e, |q|, |q|);
    DotPrefix(e, e, |q|, |q|);
    assert q[..|q|] == q;
    quotient(Dot(q, e, |q|), SqNorm(q), Dot(e, e, |q|))
  }

  /** Every stored vector is at least as long as the query. */
  predicate Comparable(index: Index, q: Vector) {
    forall i :: 0 <= i < |index.embeddings| ==> |q| <= |index.embeddings[i]|
  }

  /** The similarity of the query to each stored vector, in storage order. */
  function Similarities(index: Index, q: Vector, quotient: Quotient): (r: seq<real>)
    requires Comparable(index, q)
    ensures |r| == |index.embeddings|
    ensures forall i :: 0 <= i < |r| ==> r[i] == Cosine(q, index.embeddings[i], quotient)
  {
    seq(|index.embeddings|, i requires 0 <= i < |index.embeddings| => Cosine(q, index.embeddings[i], quotient))
  }

  /** `retrieve(query, index, ...)` once the query has been embedded. */
  function Retrieve(index: Index, q: Vector, quotient: Quotient, topK: int): (r: seq<Hit<Meta>>)
    requires |index.embeddings| <= |index.metas|
    requires Comparable(index, q)
    ensures |r| == SliceEnd(|index.embeddings|, topK)
    ensures topK >= 0 ==> |r| <= topK
    ensures forall i, j :: 0 <= i < j < |r| ==> r[i].score >= r[j].score
    ensures forall j :: 0 <= j < |r| ==>
      exists p :: 0 <= p < |index.embeddings| && r[j] == Hit(Cosine(q, index.embeddings[p], quotient), index.metas[p])
  {
    RetrievePairs(index, q, quotient, topK);
    TopK(Similarities(index, q, quotient), index.metas, AsScore, topK)
  }

  lemma RetrievePairs(index: Index, q: Vector, quotient: Quotient, topK: int)
    requires |index.embeddings| <= |index.metas|
    requires Comparable(index, q)
    ensures var r := TopK(Similarities(index, q, quotient), index.metas, AsScore, topK);
      forall j :: 0 <= j < |r| ==>
        exists p :: 0 <= p < |index.embeddings| && r[j] == Hit(Cosine(q, index.embeddings[p], quotient), index.metas[p])
  {
    var scores := Similarities(index, q, quotient);
    var r := TopK(scores, index.metas, AsScore, topK);
    TopKPairs(scores, index.metas, AsScore, topK);
    forall j | 0 <= j < |r|
      ensures exists p :: 0 <= p < |index.embeddings| && r[j] == Hit(Cosine(q, index.embeddings[p], quotient), index.metas[p])
    {
      var p :| 0 <= p < |scores| && r[j] == Hit(AsScore(scores[p]), index.metas[p]);
      assert r[j] == Hit(Cosine(q, index.embeddings[p], quotient), index.metas[p]);
    }
  }

  /** When every stored vector has the query's length, the unguarded
      assistant ranking and the guarded server ranking return the same hits. */
  lemma RetrieveAgreesWithBackend(index: Index, q: Vector, quotient: Quotient, topK: int)
    requires |index.embeddings| <= |index.metas|
    requires forall i :: 0 <= i < |index.embeddings| ==> |index.embeddings[i]| == |q|
    ensures Retrieve(index, q, quotient, topK) == Backend.Retrieve(index, Some(q), quotient, topK)
  {
    var es := index.embeddings;
    var scores := Similarities(index, q, quotient);
    var cos := Backend.ScoreAgainst(Some(q), quotient);
    forall i | 0 <= i < |es|
      ensures AsScore(scores[i]) == cos(es[i])
    {
      assert scores[i] == Cosine(q, es[i], quotient);
    }
    TopKDependsOnlyOnScores(scores, AsScore, es, cos, index.metas, topK);
  }

  /** Scores already computed rank as themselves. */
  const AsScore: real -> real := x => x

  /** One numbered block of the context: `Source ${i + 1}:\n${text}`. */
  function SourceBlock(n: nat, text: string): string {
    "Source " + Decimal(n) + ":\n" + text
  }

  /** `retrieved.map((r, i) => ...).join("\n\n")`. */
  function Context(hits: seq<Hit<Meta>>): (r: string)
    ensures hits == [] ==> r == ""
    ensures |hits| == 1 ==> r == "Source 1:\n" + hits[0].meta.text
  {
    Join(seq(|hits|, i requires 0 <= i < |hits| => SourceBlock(i + 1, hits[i].meta.text)), "\n\n")
  }

  /** Numbering follows rank order from 1: one more hit appends a blank line
      and the next numbered block, leaving the earlier text untouched. */
  lemma ContextAppend(hits: seq<Hit<Meta>>, h: Hit<Meta>)
    requires |hits| > 0
    ensures Context(hits + [h]) == Context(hits) + "\n\n" + SourceBlock(|hits| + 1, h.meta.text)
  {
    var blocks := seq(|hits|, i requires 0 <= i < |hits| => SourceBlock(i + 1, hits[i].meta.text));
    var more := hits + [h];
    var blocks' := seq(|more|, i requires 0 <= i < |more| => SourceBlock(i + 1, more[i].meta.text));
    assert blocks' == blocks + [SourceBlock(|hits| + 1, h.meta.text)];
    JoinSnoc(blocks, SourceBlock(|hits| + 1, h.meta.text), "\n\n");
  }

  datatype Role = System | User

  datatype Message = Message(role: Role, content: string)

  /** The messages `chat` sends: the instructions followed by the context as
      the system message, then the question. The wording of the instructions
      is the parameter `preamble`. */
  function Messages(preamble: string, query: string, hits: seq<Hit<Meta>>): (r: seq<Message>)
    ensures |r| == 2
    ensures r[0].role == System && |r[0].content| >= |preamble| && r[0].content[..|preamble|] == preamble
    ensures r[0].content[|preamble|..] == Context(hits)
    ensures r[1] == Message(User, "Question : " + query)
  {
    [Message(System, preamble + Context(hits)), Message(User, "Question : " + query)]
  }

  /** `chat`: retrieve, prompt the completion oracle with those hits, and
      return its answer trimmed: the answer is the completion with only
      whitespace cut at both ends, and it is empty exactly when the
      completion is all whitespace. */
  function Chat(preamble: string, query: string, index: Index, q: Vector, quotient: Quotient, topK: int,
                complete: seq<Message> -> string): (r: string)
    requires |index.embeddings| <= |index.metas|
    requires Comparable(index, q)
    ensures var c := complete(Messages(preamble, query, Retrieve(index, q, quotient, topK)));
      exists i, j :: 0 <= i <= j <= |c| && r == c[i..j] && Blank(c[..i]) && Blank(c[j..])
    ensures r == [] || (!IsWhitespace(r[0]) && !IsWhitespace(r[|r| - 1]))
    ensures r == [] <==> Blank(complete(Messages(preamble, query, Retrieve(index, q, quotient, topK))))
  {
    var c := complete(Messages(preamble, query, Retrieve(index, q, quotient, topK)));
    TrimEmptyIffBlank(c);
    Trim(c)
  }
}
