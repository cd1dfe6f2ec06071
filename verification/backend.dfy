/** The backend variant (backend/rag.js): character chunking, blank chunks
    dropped, Google embedded one text at a time and the OpenAI-compatible
    providers in batches of 96, guarded cosine ranking. */
module Backend {
  import opened Outcomes
  import opened Text
  import opened Windows
  import opened Similarity
  import opened Ranking
  import opened Providers
  import opened Embedding
  import opened Corpus
  import opened IndexStore

  /** Defaults of `chunkText(text, maxChars = 1500, overlap = 200)`. */
  const MaxChars: nat := 1500
  const Overlap: nat := 200

  /** `chunkText(text)` as `buildIndex` calls it. */
  function ChunkText(text: string): (r: seq<string>)
    ensures text == [] ==> r == []
    ensures forall k :: 0 <= k < |r| ==> 0 < |r[k]| <= MaxChars
    ensures Reassemble(r, Overlap) == text
  {
    ChunkReassembles(text, MaxChars, Overlap);
    Chunk(text, MaxChars, Overlap)
  }

  /** `if (chunk.trim())`. */
  predicate NotBlank(t: string) {
    !Blank(t)
  }

  /** The chunks `buildIndex` keeps: the non-blank ones, document order then
      chunk order. */
  function Kept(docs: seq<Document>): seq<Meta> {
    Keep(AllChunks(docs, ChunkText), NotBlank)
  }

  /** Why `buildIndex` stops without writing: no non-blank chunk, a client
      without the method the chosen path calls (the `TypeError` of
      `getGenerativeModel` or `embeddings.create` on the wrong SDK object), or
      a failed batch request. */
  datatype BuildError = NoChunks | ClientMismatch(profile: Profile) | EmbeddingFailed

  /** What `buildIndex` produces when it embeds along `profile`: a reference
      definition, position by position, without the loops. */
  function Built(docs: seq<Document>, client: Client, profile: Profile,
                 embedOne: EmbedOne, embedBatch: EmbedBatch): Result<Index, BuildError>
  {
    var kept := Kept(docs);
    var texts := Texts(kept);
    if kept == [] then Err(NoChunks)
    else if !Supports(client, profile) then Err(ClientMismatch(profile))
    else if profile == Sequential then
      Ok(Index(seq(|texts|, i requires 0 <= i < |texts| => SequentialVector(texts[i], embedOne)), kept))
    else
      var bs := Batches(texts, BatchSize);
      if forall j :: 0 <= j < |bs| ==> embedBatch(bs[j]).Some? then Ok(Index(Flatten(Outputs(bs, embedBatch)), kept))
      else Err(EmbeddingFailed)
  }

  /** The body of `buildIndex` without the final write, embedding along a
      given profile. */
  method BuildWithProfile(docs: seq<Document>, client: Client, profile: Profile,
                          embedOne: EmbedOne, embedBatch: EmbedBatch)
    returns (r: Result<Index, BuildError>)
    ensures r == Built(docs, client, profile, embedOne, embedBatch)
    ensures Kept(docs) == [] <==> r == Err(NoChunks)
    ensures Kept(docs) != [] && !Supports(client, profile) ==> r == Err(ClientMismatch(profile))
    ensures r.Ok? ==> Supports(client, profile) && r.value.metas == Kept(docs)
    ensures r.Ok? ==> forall i :: 0 <= i < |r.value.metas| ==> NotBlank(r.value.metas[i].text)
    ensures profile == Sequential && Supports(client, profile) ==> (r.Ok? <==> Kept(docs) != [])
    ensures profile == Sequential && r.Ok? ==>
      && |r.value.embeddings| == |r.value.metas|
      && forall i :: 0 <= i < |r.value.metas| ==> StoredFor(r.value.metas[i].text, r.value.embeddings[i], embedOne)
    ensures profile == Batched && Supports(client, profile) ==>
      var bs := Batches(Texts(Kept(docs)), BatchSize);
      (r.Ok? <==> Kept(docs) != [] && forall j :: 0 <= j < |bs| ==> embedBatch(bs[j]).Some?)
  {
    var texts, metas := Collect(docs, ChunkText, NotBlank);
    KeptPass(AllChunks(docs, ChunkText), NotBlank);
    if |texts| == 0 {
      return Err(NoChunks);
    }
    if !Supports(client, profile) {
      return Err(ClientMismatch(profile));
    }
    if profile == Sequential {
      var vectors, calls := EmbedSequentially(texts, embedOne);
      assert vectors == seq(|texts|, i requires 0 <= i < |texts| => SequentialVector(texts[i], embedOne));
      r := Ok(Index(vectors, metas));
    } else {
      var out := EmbedInBatches(texts, embedBatch);
      if out.None? {
        return Err(EmbeddingFailed);
      }
      r := Ok(Index(out.value, metas));
    }
  }

  /** `buildIndex(docs, client, embedModel, indexFile, provider)` as written:
      the path is chosen by comparing the raw `provider` argument with
      `'google'` (pass `"openai"` for the omitted argument). A Google client
      with any other name, `"Google"` included, reaches `embeddings.create`
      and fails; an OpenAI-SDK client with `"google"` reaches
      `getGenerativeModel` and fails. */
  method BuildIndex(docs: seq<Document>, client: Client, provider: string,
                    embedOne: EmbedOne, embedBatch: EmbedBatch)
    returns (r: Result<Index, BuildError>)
    ensures r == Built(docs, client, ProfileAsWritten(provider), embedOne, embedBatch)
    ensures Kept(docs) != [] && client.GoogleClient? && provider != "google" ==> r == Err(ClientMismatch(Batched))
    ensures Kept(docs) != [] && client.OpenAIClient? && provider == "google" ==> r == Err(ClientMismatch(Sequential))
  {
    r := BuildWithProfile(docs, client, ProfileAsWritten(provider), embedOne, embedBatch);
  }

  /** The corrected `buildIndex`: the path follows the client that was built,
      so a client never meets the wrong SDK call. */
  method BuildIndexByClient(docs: seq<Document>, client: Client, embedOne: EmbedOne, embedBatch: EmbedBatch)
    returns (r: Result<Index, BuildError>)
    ensures r == Built(docs, client, ProfileFor(client), embedOne, embedBatch)
    ensures !(r.Err? && r.error.ClientMismatch?)
    ensures client.GoogleClient? ==> (r.Ok? <==> Kept(docs) != [])
  {
    r := BuildWithProfile(docs, client, ProfileFor(client), embedOne, embedBatch);
  }

  /** For every client `makeClient` builds from a lower-case name, the
      corrected build and the build as written produce the same result. */
  lemma BuildAgreesOnLowerCaseNames(docs: seq<Document>, provider: string, env: Env,
                                    embedOne: EmbedOne, embedBatch: EmbedBatch)
    requires provider == Lower(provider)
    requires MakeClient(provider, env).Ok?
    ensures var c := MakeClient(provider, env).value;
      Built(docs, c, ProfileAsWritten(provider), embedOne, embedBatch) == Built(docs, c, ProfileFor(c), embedOne, embedBatch)
  {
    ProfileForAgreesOnLowerCaseNames(provider, env);
  }

  /** As written, the name "Google" builds a Google client whose index build
      then fails on the batch path, for every corpus with a non-blank chunk;
      the corrected build succeeds on the same input. */
  lemma MixedCaseGoogleBuildFails(docs: seq<Document>, env: Env, embedOne: EmbedOne, embedBatch: EmbedBatch)
    requires Kept(docs) != []
    requires HasKey(env, "GOOGLE_API_KEY")
    ensures MakeClient("Google", env).Ok? && MakeClient("Google", env).value.GoogleClient?
    ensures var c := MakeClient("Google", env).value;
      && Built(docs, c, ProfileAsWritten("Google"), embedOne, embedBatch) == Err(ClientMismatch(Batched))
      && Built(docs, c, ProfileFor(c), embedOne, embedBatch).Ok?
  {
    assert Lower("Google") == "google";
  }

  /** Every chunk `buildIndex` keeps holds a non-whitespace character, and
      every non-blank chunk of every document is kept. */
  lemma KeptAreExactlyNonBlank(docs: seq<Document>, m: Meta)
    ensures m in Kept(docs) <==> m in AllChunks(docs, ChunkText) && Trim(m.text) != []
  {
    KeepExactly(AllChunks(docs, ChunkText), NotBlank, m);
    TrimEmptyIffBlank(m.text);
  }

  /** With one answer per input from every batch call, the index has one
      vector per kept chunk, as it always has in the sequential profile. */
  lemma BatchedIndexAligned(docs: seq<Document>, embedBatch: EmbedBatch)
    requires var bs := Batches(Texts(Kept(docs)), BatchSize);
      forall j :: 0 <= j < |bs| ==> embedBatch(bs[j]).Some? && |embedBatch(bs[j]).value| == |bs[j]|
    ensures |Flatten(Outputs(Batches(Texts(Kept(docs)), BatchSize), embedBatch))| == |Kept(docs)|
  {
    BatchedVectorsAligned(Texts(Kept(docs)), embedBatch);
  }

  /** `buildIndex` with its single write at the end: the file holds exactly
      the built index, and a failed build leaves every file as it was. */
  method BuildAndSave(store: Store<Index>, path: string, docs: seq<Document>, client: Client, provider: string,
                      embedOne: EmbedOne, embedBatch: EmbedBatch)
    returns (r: Result<Index, BuildError>, saved: Store<Index>)
    ensures r == Built(docs, client, ProfileAsWritten(provider), embedOne, embedBatch)
    ensures r.Err? ==> saved == store
    ensures r.Ok? ==> saved == Save(store, path, r.value) && Load(saved, path) == Ok(r.value)
  {
    r := BuildIndex(docs, client, provider, embedOne, embedBatch);
    if r.Ok? {
      saved := Save(store, path, r.value);
    } else {
      saved := store;
    }
  }

  datatype EnsureError = NoDocuments | BuildFailed(cause: BuildError)

  /** `ensureIndex`: load the stored index when the file exists, otherwise
      build it from `docs` (the documents the loader found), write it, and
      load it back. */
  method EnsureIndex(store: Store<Index>, path: string, docs: seq<Document>, client: Client, provider: string,
                     embedOne: EmbedOne, embedBatch: EmbedBatch)
    returns (r: Result<Index, EnsureError>, saved: Store<Index>)
    ensures path in store ==> r == Ok(store[path]) && saved == store
    ensures path !in store && docs == [] ==> r == Err(NoDocuments) && saved == store
    ensures path !in store && docs != [] ==>
      var b := Built(docs, client, ProfileAsWritten(provider), embedOne, embedBatch);
      && (b.Ok? ==> r == Ok(b.value) && saved == Save(store, path, b.value))
      && (b.Err? ==> r == Err(BuildFailed(b.error)) && saved == store)
    ensures r.Ok? ==> Load(saved, path) == Ok(r.value)
  {
    if path in store {
      return Ok(store[path]), store;
    }
    if |docs| == 0 {
      return Err(NoDocuments), store;
    }
    var built;
    built, saved := BuildAndSave(store, path, docs, client, provider, embedOne, embedBatch);
    if built.Err? {
      return Err(BuildFailed(built.error)), saved;
    }
    var loaded := Load(saved, path);
    r := Ok(loaded.value);
  }

  /** `retrieve(query, index, ...)` once the query has been embedded (`None`
      when the embedding came back missing). */
  function Retrieve(index: Index, query: Option<Vector>, quotient: Quotient, topK: int): (r: seq<Hit<Meta>>)
    requires |index.embeddings| <= |index.metas|
    ensures |r| == SliceEnd(|index.embeddings|, topK)
    ensures topK >= 0 ==> |r| == Min(topK, |index.embeddings|)
    ensures forall i, j :: 0 <= i < j < |r| ==> r[i].score >= r[j].score
    ensures forall j :: 0 <= j < |r| ==>
      exists p :: 0 <= p < |index.embeddings| && r[j] == Hit(CosineSimilarity(query, Some(index.embeddings[p]), quotient), index.metas[p])
  {
    TopKPairs(index.embeddings, index.metas, ScoreAgainst(query, quotient), topK);
    TopK(index.embeddings, index.metas, ScoreAgainst(query, quotient), topK)
  }

  /** The scoring `retrieve` applies to each stored vector. */
  function ScoreAgainst(query: Option<Vector>, quotient: Quotient): Vector -> real {
    e => CosineSimilarity(query, Some(e), quotient)
  }

  /** A missing query vector, or one whose length matches no stored vector,
      scores every entry 0; the stable sort then keeps storage order. */
  lemma MismatchedQueryKeepsStorageOrder(index: Index, query: Option<Vector>, quotient: Quotient, topK: int)
    requires |index.embeddings| <= |index.metas|
    requires query.None? || forall i :: 0 <= i < |index.embeddings| ==> |index.embeddings[i]| != |query.value|
    ensures var r := Retrieve(index, query, quotient, topK);
      forall j :: 0 <= j < |r| ==> r[j] == Hit(0.0, index.metas[j])
  {
    EqualScoresKeepStorageOrder(index.embeddings, index.metas,
      e => CosineSimilarity(query, Some(e), quotient), topK, 0.0);
  }
}
