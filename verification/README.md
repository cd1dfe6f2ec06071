# LumiAI retrieval core in Dafny

LumiAI answers questions about an energy knowledge base by retrieval-augmented
generation. Two variants of the same pipeline are modelled here:

- the server backend (`backend/rag.js`): documents are cut into overlapping
  windows of 1500 characters (200 shared), blank chunks are dropped, an empty
  corpus is an error, the chunks are embedded either one text at a time
  (Google Generative AI: truncation to 1000 characters, a zero vector of length
  768 for a blank text or a failed call) or in batches of 96 (OpenAI-compatible
  SDK), the path being chosen by the separate `provider` argument of
  `buildIndex` (compared with `'google'`, default `'openai'`), so a client of
  the other SDK fails on the first call; a query is answered with the `topK`
  stored chunks of highest guarded cosine similarity;
- the command-line assistant (`lumi_rag.js`): windows of 750 tokens (100
  shared) over an abstract tokenizer, every chunk kept, batches of 96, an
  unguarded cosine similarity, and the chat prompt whose context lists the
  retrieved chunks as `Source 1:`, `Source 2:`, ...

Both `makeClient` functions are modelled as total functions from a provider
name and an environment to a client or a configuration error.

Modules, one file each, leaves first:

| file | module | concern |
|---|---|---|
| `outcomes.dfy` | `Outcomes` | `Option`, `Result`, `Min`, `Max` |
| `text.dfy` | `Text` | JS `trim`, `toLowerCase` on provider names, `${n}`, `join` |
| `windows.dfy` | `Windows` | the sliding-window loop shared by both chunkers and the batching |
| `similarity.dfy` | `Similarity` | dot products and the guarded cosine similarity |
| `ranking.dfy` | `Ranking` | stable descending sort and `slice(0, topK)` |
| `providers.dfy` | `Providers` | `makeClient` in both variants; embedding profile per client |
| `embedding.dfy` | `Embedding` | `createEmbeddings`: the sequential loop and the batching loop |
| `corpus.dfy` | `Corpus` | documents, chunk metadata, the collecting loop of `buildIndex` |
| `store.dfy` | `IndexStore` | the index file as a map from path to index |
| `backend.dfy` | `Backend` | `buildIndex`, `ensureIndex`, `retrieve` of the server |
| `assistant.dfy` | `Assistant` | `chunkText`, `buildIndex`, `retrieve`, `chat` of the assistant |

The network is a set of oracles passed as parameters:
- `EmbedOne` for `model.embedContent(text)`;
- `EmbedBatch` for `client.embeddings.create({ input })`;
- the tokenizer's `encode` and `decode`;
- the chat completion;
- `Quotient` for the final floating-point step `dot / (sqrt(aMag) * sqrt(bMag))`.

`None` from an embedding oracle means the call threw. The file system is a
`map<string, Index>`. `IndexStore.Load` stands for `loadIndex` in both files
(`lumi_rag.js:113-116` behaves like the server's).

The chunk count follows the loop `for (start = 0; start < n; start += size - overlap)`.
That loop produces ceil(n / (size − overlap)) windows. The closed form
ceil(max(n − overlap, 1) / (size − overlap)) gives one window fewer for some
lengths, for example a 1400-character text at 1500/200. Where the two
disagree, the model follows the code (`Windows.ChunkCountIsCeiling`,
`Windows.ShortInputGivesRedundantWindow`).

## Model

| member | source | states |
|---|---|---|
| Windows.Chunk | backend/rag.js:9-16 | no window for an empty input; window k starts at k·(size − overlap) inside the input and holds at most `size` elements (at least one when size > 0); the count is the least that covers the input |
| Windows.ChunkReassembles | backend/rag.js:9-16 | dropping each later window's first `overlap` elements and concatenating gives back the input exactly: no element lost, none duplicated |
| Windows.ChunkCountIsCeiling | backend/rag.js:11 | the loop emits exactly ceil(n / (size − overlap)) windows |
| Windows.TrailingWindowInsidePrevious | backend/rag.js:11-13 | a window that starts after the previous one already reached the end is a suffix of that previous window |
| Windows.ShortInputGivesRedundantWindow | backend/rag.js:44-46 | at the defaults 1500/200 a 1400-character text gives two chunks: the whole text and its last 100 characters |
| Windows.Batches | backend/rag.js:149-151 | batches of `texts.slice(i, i + size)` concatenate back to the texts; each is non-empty and at most `size` long, and all but the last are full |
| Windows.FlattenAt | backend/rag.js:150-154 | element i of concatenated full batches is element i % size of batch i / size |
| Text.Trim | backend/rag.js:90 | the result is a contiguous piece of the input with only whitespace cut on both sides, and it neither starts nor ends with whitespace |
| Text.TrimEmptyIffBlank | backend/rag.js:128 | `trim()` yields the empty string exactly when every character is whitespace, so `if (chunk.trim())` tests for a non-whitespace character |
| Text.Lower | backend/rag.js:19 | lower-casing keeps the length and maps each character on its own |
| Text.LowerIdempotent | backend/rag.js:19 | lower-casing an already lower-cased name changes nothing |
| Text.Decimal | lumi_rag.js:128 | `${n}` is a non-empty digit string with no leading zero except for 0 itself |
| Text.DecimalRoundTrip | lumi_rag.js:128 | reading the rendered digits back gives the number |
| Text.JoinSnoc | lumi_rag.js:128 | joining one more part appends the separator and that part to the earlier join |
| Similarity.Accumulate | backend/rag.js:59-64 | the loop's `dot`, `aMag`, `bMag` are the dot product and the two squared norms; both squared norms are non-negative |
| Similarity.SqNormNonNegative | backend/rag.js:62-63 | a sum of squares is never negative, so both square roots are taken of non-negative numbers |
| Similarity.ZeroVectorGivesZeroOverZero | backend/rag.js:65 | an all-zero vector, such as the 768 zeros stored for a skipped text, makes both the numerator and its own squared norm zero |
| Similarity.DotSymmetric | backend/rag.js:61 | the dot product does not depend on argument order |
| Similarity.DotPrefix | lumi_rag.js:83-87 | a dot product over the first n components reads nothing past them, so it is the same on any longer prefixes of the two vectors |
| Similarity.CosineSimilarity | backend/rag.js:57-66 | a missing vector or a length mismatch scores exactly 0; otherwise the score is the quotient of the dot product and the two squared norms |
| Similarity.CosineSymmetric | backend/rag.js:57-66 | the guarded similarity is symmetric whenever the final division is |
| Ranking.Sort | backend/rag.js:196 | the sorted entries are a permutation of the input, in strictly descending (score, then earlier position first) order |
| Ranking.SortRanked | backend/rag.js:196 | sorting an already ordered list leaves it unchanged |
| Ranking.Rank | backend/rag.js:192-196 | every stored position appears once in the ranking with its own score, and the ranking is ordered |
| Ranking.TopK | backend/rag.js:192-196 | the result has `slice(0, topK)`'s length and non-increasing scores |
| Ranking.TopKSelectsBest | backend/rag.js:192-196 | each hit pairs a position's score with that position's metadata; no position is returned twice; equal scores keep storage order; no position left out scores above one returned |
| Ranking.TopKPairs | backend/rag.js:192-196 | each hit is the score of some stored vector paired with the metadata at that same position |
| Ranking.EqualScoresKeepStorageOrder | backend/rag.js:196 | when every score is the same, the hits are the first entries in storage order |
| Ranking.TopKDependsOnlyOnScores | backend/rag.js:192-196 | two scorings that agree position by position select the same hits |
| Providers.MakeClient | backend/rag.js:18-41 | an unknown name (after lower-casing) is rejected; a known one with an unset or empty key variable reports that variable; otherwise the client carries the key, and it is a Google client exactly for `google` |
| Providers.MakeAssistantClient | lumi_rag.js:46-60 | only `openai` and `deepseek` are accepted, with a non-empty key; the result is always an OpenAI-SDK client carrying that key |
| Providers.MakeClientIgnoresCase | backend/rag.js:19 | a provider name and its lower-case form configure the same client, in both variants |
| Providers.AssistantClientsAreBackendClients | lumi_rag.js:46-60 | every configuration the assistant accepts, the backend accepts too, building the same client |
| Providers.MixedCaseGoogleMisrouted | backend/rag.js:144 | as written, `Google` builds a Google client but selects the batch path, which that client cannot serve |
| Providers.ProfileForAgreesOnLowerCaseNames | backend/rag.js:144 | on every lower-case name the corrected profile choice equals the source's choice |
| Embedding.Zeros | backend/rag.js:92 | the placeholder vector has 768 entries, all zero |
| Embedding.Truncate | backend/rag.js:84-87 | a text over 1000 characters is cut to its first 1000; a shorter one is kept |
| Embedding.RequestsBounded | backend/rag.js:83-98 | at most one request per text, none over 1000 characters and none blank |
| Embedding.EmbedSequentially | backend/rag.js:74-111 | one vector per text in order: zeros for a text blank after truncation, the call's answer on the truncated text, zeros when the call threw; the calls made are exactly the non-blank truncated texts, in order |
| Embedding.EmbedInBatches | backend/rag.js:149-155 | the loop succeeds exactly when every batch call succeeds, and then yields the batches' answers concatenated in batch order |
| Embedding.BatchedVectorsAligned | backend/rag.js:149-155 | with one answer per input from each call, there is one vector per text and text i's vector is answer i % 96 of batch i / 96 |
| Corpus.Collect | backend/rag.js:124-133 | the metadata are the chunks of each document in document then chunk order that pass the filter, and the texts are their texts |
| Corpus.KeepExactly | backend/rag.js:128 | a chunk is kept exactly when it is one of the chunks and passes the filter |
| Corpus.AllChunksCount | lumi_rag.js:94-99 | the unfiltered collection holds as many entries as the documents have chunks |
| Corpus.KeepAll | lumi_rag.js:94-99 | a filter that passes everything keeps every chunk |
| IndexStore.Load | backend/rag.js:163-166 | the stored index when the file exists, otherwise a not-found error naming the path |
| IndexStore.Save | backend/rag.js:159 | the write replaces that one file and leaves every other file unchanged |
| IndexStore.LoadAfterSave | backend/rag.js:159-165 | loading the file just written gives back the index written |
| Backend.ChunkText | backend/rag.js:44-46 | chunks of 1 to 1500 characters whose reassembly, dropping the 200-character overlaps, is the text |
| Backend.BuildWithProfile | backend/rag.js:119-156 | the result is the reference `Built`: no non-blank chunk is exactly the `NoChunks` error; then a client without the chosen path's SDK call fails with `ClientMismatch`; otherwise the metadata are exactly the non-blank chunks in order, the sequential path never fails and stores for each chunk what the loop stores, and the batch path succeeds exactly when every batch call does and stores their answers in order |
| Backend.BuildIndex | backend/rag.js:119-161 | the path is chosen from the raw `provider` argument as at line 144: a Google client with any name but `google` (including the default `openai` and `Google`) fails on the batch call, and an OpenAI-SDK client with `google` fails on the sequential call, whenever there is a chunk to embed |
| Backend.BuildIndexByClient | backend/rag.js:119-161 | the corrected build follows the client that was built: never a `ClientMismatch`, and a Google client succeeds whenever there is a non-blank chunk |
| Backend.BuildAgreesOnLowerCaseNames | backend/rag.js:144 | for every client `makeClient` builds from a lower-case name, the build as written and the corrected build give the same result |
| Backend.MixedCaseGoogleBuildFails | backend/rag.js:144 | with `GOOGLE_API_KEY` set, the name `Google` builds a Google client whose index build fails on the batch path for every corpus with a non-blank chunk, while the corrected build succeeds |
| Backend.KeptAreExactlyNonBlank | backend/rag.js:124-133 | a chunk is indexed exactly when its `trim()` is non-empty |
| Backend.BatchedIndexAligned | backend/rag.js:149-155 | when each batch call answers one vector per input, the index holds one vector per kept chunk |
| Backend.BuildAndSave | backend/rag.js:119-161 | the result is what `buildIndex` builds for that provider; a failed build leaves every file unchanged; a successful one writes exactly that index to the path, leaving the other files, and it loads back |
| Backend.EnsureIndex | backend/rag.js:168-177 | an existing index is returned with the files untouched; otherwise no documents is an error with the files untouched; otherwise the build's error is reported with the files untouched, or the built index is written to the path (other files unchanged) and returned as loaded |
| Backend.Retrieve | backend/rag.js:179-204 | `slice(0, topK)`'s number of hits, in non-increasing score order, each hit pairing the guarded cosine of one stored vector with that position's metadata |
| Backend.MismatchedQueryKeepsStorageOrder | backend/rag.js:58 | a missing query vector, or one whose length matches no stored vector, returns the first stored chunks in storage order, each scored 0 |
| Assistant.ChunkTokens | lumi_rag.js:62-70 | one decoded chunk per token window; chunk k decodes the tokens from k·(maxTokens − overlap), at most maxTokens of them |
| Assistant.TokenWindowsCover | lumi_rag.js:62-70 | the token windows reassemble to the whole token sequence, and there are ceil(tokens / (maxTokens − overlap)) of them |
| Assistant.BuildIndex | lumi_rag.js:91-107 | the result is the reference `Built`: the metadata are every chunk of every document, with no blank filter and no empty-corpus error (no documents give an empty index); it succeeds exactly when every batch call does and then stores their answers in order |
| Assistant.BuildAndSave | lumi_rag.js:91-111 | the result is what `buildIndex` builds; a failed batch request leaves every file unchanged; a successful build writes exactly that index to the path, and it loads back; no documents write an empty index |
| Assistant.Cosine | lumi_rag.js:79-89 | the unguarded similarity runs over the query's length: a stored vector is scored on its first `|q|` components, as the guarded similarity scores that prefix; on equal lengths it equals the guarded one, and on a longer stored vector, where the server scores 0, it does not need to |
| Assistant.Retrieve | lumi_rag.js:118-124 | `slice(0, topK)`'s number of hits, in non-increasing score order, each hit pairing the unguarded cosine of one stored vector with that position's metadata |
| Assistant.RetrieveAgreesWithBackend | lumi_rag.js:118-124 | when every stored vector has the query's length, the assistant and the server return the same hits |
| Assistant.Context | lumi_rag.js:128 | no hits give the empty context; one hit gives `Source 1:` followed by a newline and its text |
| Assistant.ContextAppend | lumi_rag.js:128 | one more hit appends a blank line and the next numbered block, leaving the earlier context untouched |
| Assistant.Messages | lumi_rag.js:129-139 | a system message of the instructions followed by the context, then the user message `Question : ` followed by the query |
| Assistant.Chat | lumi_rag.js:126-143 | the answer is the completion of the messages built from the retrieved hits, with only whitespace cut at both ends: it neither starts nor ends with whitespace, and it is empty exactly when the completion is all whitespace |

## Left out

- File discovery and reading (`loadDocuments` in both files): the documents are a parameter.
- JSON encoding and decoding of the index file: the store holds the index value itself.
- The 200 ms delay between sequential embedding calls, and all console logging: they change no result.
- Floating point: scores are reals, the final division and square roots are the `Quotient` parameter, and NaN from `0 / 0` is not modelled.
- The tokenizer (`cl100k_base`): `encode` and `decode` are parameters, and no property of `decode` is assumed.
- The command-line interface, `readline` loop and argument parsing of `lumi_rag.js`, and all of `backend/server.js` and `backend/test-rag.js` (callers only).
- `String(text)` coercion of non-string chunk texts (rag.js:78-81): every text is a string in the model.
- The query-embedding call of `retrieve` (rag.js:183-190, lumi_rag.js:119-121), including its own `provider === 'google'` test and the exception a mismatched client or a failed request raises there: the model takes the returned vector as input (`None` for a missing one in the server).
- Text.Lower: lower-cases only the characters whose lowercase is an ASCII letter (A–Z and U+212A); that is enough to compare with the ASCII provider names, but it is not full `toLowerCase`.
- Backend.Retrieve: requires at least as many metadata as vectors; an index file with fewer metadata would pair vectors with `undefined`.
- Backend.Retrieve: its contract gives the number, order and pairing of the hits; that no position comes twice, ties keep storage order and nothing better is left out is stated once for both variants by `Ranking.TopKSelectsBest`.
- Assistant.Retrieve: as for the server, no repeats, tie order and optimality are stated by `Ranking.TopKSelectsBest` rather than in its own contract.
- Assistant.Retrieve: requires every stored vector to be at least as long as the query; a shorter one is read past its end and scores NaN in the source.
- Assistant.Chat: the wording of the French instructions is the parameter `preamble`; the model fixes only where the context and the question go.
- Backend.ChunkText: lengths count Unicode characters, while JavaScript's `length` and `slice` count UTF-16 code units. They agree on text inside the Basic Multilingual Plane; a text with characters outside it (emoji) is windowed at other places than in the source, and the source may cut such a character's surrogate pair in half, which a Dafny string cannot hold.
- Embedding.Truncate: the 1000 limit counts Unicode characters, not UTF-16 code units, so a text of characters outside the Basic Multilingual Plane is cut later than `substring(0, 1000)` cuts it.
- Backend.BuildIndex: a batch call that answers a different number of vectors than inputs is stored as answered; alignment is proved only under one answer per input (`Backend.BatchedIndexAligned`).

## Findings

| source | as written | input that shows it | evidently intended | confidence | as-written member | corrected member |
|---|---|---|---|---|---|---|
| backend/rag.js:144 | `makeClient` lower-cases the provider name (line 19), but `buildIndex` (line 144) and `retrieve` (line 183) compare the raw name with `'google'` | provider `Google` with `GOOGLE_API_KEY` set: a Google client is built, then the batch path calls `client.embeddings.create`, which a Google client does not have; the same happens when a Google client is passed without a provider argument, which defaults to `openai` | the embedding path follows the client that was built, whatever the case of the name | not executed | Backend.MixedCaseGoogleBuildFails | Backend.BuildIndexByClient |
