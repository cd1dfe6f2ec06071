/** Documents, chunk metadata, the persisted index, and the collection step
    of `buildIndex` that turns documents into the parallel `texts`/`metas`
    arrays. */
module Corpus {
  import opened Similarity

  /** `{ id, text }` as the document loader yields it. */
  datatype Document = Document(id: string, text: string)

  /** `{ doc_id, text }`: the metadata stored beside each vector. */
  datatype Meta = Meta(docId: string, text: string)

  /** `{ embeddings, metas }`, persisted as one unit. */
  datatype Index = Index(embeddings: seq<Vector>, metas: seq<Meta>)

  /** A chunking policy applied to a document's text. */
  type Chunker = string -> seq<string>

  /** The chunks of one document, in chunk order, tagged with its id. */
  function DocChunks(d: Document, chunker: Chunker): (r: seq<Meta>)
    ensures |r| == |chunker(d.text)|
    ensures forall k :: 0 <= k < |r| ==> r[k] == Meta(d.id, chunker(d.text)[k])
  {
    seq(|chunker(d.text)|, k requires 0 <= k < |chunker(d.text)| => Meta(d.id, chunker(d.text)[k]))
  }

  /** Every chunk of every document: document order, then chunk order. */
  function AllChunks(docs: seq<Document>, chunker: Chunker): seq<Meta> {
    if docs == [] then [] else DocChunks(docs[0], chunker) + AllChunks(docs[1..], chunker)
  }

  /** Number of chunks the policy makes of all documents together. */
  function ChunkCount(docs: seq<Document>, chunker: Chunker): nat {
    if docs == [] then 0 else |chunker(docs[0].text)| + ChunkCount(docs[1..], chunker)
  }

  /** The chunks whose text passes `keep`, in their original order. */
  function Keep(ms: seq<Meta>, keep: string -> bool): seq<Meta> {
    if ms == [] then []
    else if keep(ms[0].text) then [ms[0]] + Keep(ms[1..], keep)
    else Keep(ms[1..], keep)
  }

  /** The `texts` array: the text of every kept chunk. */
  function Texts(ms: seq<Meta>): (r: seq<string>)
    ensures |r| == |ms| && forall i :: 0 <= i < |ms| ==> r[i] == ms[i].text
  {
    seq(|ms|, i requires 0 <= i < |ms| => ms[i].text)
  }

  lemma {:induction false} AllChunksCount(docs: seq<Document>, chunker: Chunker)
    ensures |AllChunks(docs, chunker)| == ChunkCount(docs, chunker)
  {
    if docs != [] {
      AllChunksCount(docs[1..], chunker);
    }
  }

  lemma {:induction false} AllChunksAppend(docs: seq<Document>, d: Document, chunker: Chunker)
    ensures AllChunks(docs + [d], chunker) == AllChunks(docs, chunker) + DocChunks(d, chunker)
  {
    if docs == [] {
      assert [d][1..] == [];
    } else {
      assert (docs + [d])[1..] == docs[1..] + [d];
      AllChunksAppend(docs[1..], d, chunker);
    }
  }

  lemma {:induction false} KeepAppend(a: seq<Meta>, b: seq<Meta>, keep: string -> bool)
    ensures Keep(a + b, keep) == Keep(a, keep) + Keep(b, keep)
  {
    if a == [] {
      assert a + b == b;
    } else {
      assert (a + b)[0] == a[0];
      assert (a + b)[1..] == a[1..] + b;
      KeepAppend(a[1..], b, keep);
      if keep(a[0].text) {
        assert Keep(a + b, keep) == [a[0]] + (Keep(a[1..], keep) + Keep(b, keep));
      }
    }
  }

  /** A chunk is kept exactly when it occurs among the chunks and passes the
      test; nothing passing is dropped, nothing failing is kept. */
  lemma {:induction false} KeepExactly(ms: seq<Meta>, keep: string -> bool, m: Meta)
    ensures m in Keep(ms, keep) <==> m in ms && keep(m.text)
    ensures |Keep(ms, keep)| <= |ms|
  {
    if ms != [] {
      KeepExactly(ms[1..], keep, m);
      assert ms == [ms[0]] + ms[1..];
    }
  }

  lemma {:induction false} KeptPass(ms: seq<Meta>, keep: string -> bool)
    ensures forall i :: 0 <= i < |Keep(ms, keep)| ==> keep(Keep(ms, keep)[i].text)
  {
    if ms != [] {
      KeptPass(ms[1..], keep);
    }
  }

  /** A test that passes everything keeps every chunk. */
  lemma {:induction false} KeepAll(ms: seq<Meta>, keep: string -> bool)
    requires forall t :: keep(t)
    ensures Keep(ms, keep) == ms
  {
    if ms != [] {
      KeepAll(ms[1..], keep);
    }
  }

  lemma KeepSnoc(ms: seq<Meta>, m: Meta, keep: string -> bool)
    ensures Keep(ms + [m], keep) == Keep(ms, keep) + (if keep(m.text) then [m] else [])
  {
    KeepAppend(ms, [m], keep);
    assert [m][1..] == [];
  }

  lemma TextsSnoc(ms: seq<Meta>, m: Meta)
    ensures Texts(ms + [m]) == Texts(ms) + [m.text]
  {
  }

  /** The nested `forEach` of `buildIndex`: for each document, for each of its
      chunks, push the metadata and the text when the chunk passes `keep`. */
  method Collect(docs: seq<Document>, chunker: Chunker, keep: string -> bool)
    returns (texts: seq<string>, metas: seq<Meta>)
    ensures metas == Keep(AllChunks(docs, chunker), keep)
    ensures texts == Texts(metas)
  {
    texts, metas := [], [];
    var d := 0;
    while d < |docs|
      invariant d <= |docs|
      invariant metas == Keep(AllChunks(docs[..d], chunker), keep)
      invariant texts == Texts(metas)
    {
      var doc := docs[d];
      var chunks := chunker(doc.text);
      ghost var before := metas;
      ghost var mine := DocChunks(doc, chunker);
      var c := 0;
      while c < |chunks|
        invariant c <= |chunks|
        invariant metas == before + Keep(mine[..c], keep)
        invariant texts == Texts(metas)
      {
        var chunk := chunks[c];
        var m := Meta(doc.id, chunk);
        assert mine[..c + 1] == mine[..c] + [m];
        KeepSnoc(mine[..c], m, keep);
        if keep(chunk) {
          TextsSnoc(metas, m);
          metas := metas + [m];
          texts := texts + [chunk];
        }
        c := c + 1;
      }
      assert mine[..c] == mine;
      assert docs[..d + 1] == docs[..d] + [doc];
      AllChunksAppend(docs[..d], doc, chunker);
      KeepAppend(AllChunks(docs[..d], chunker), mine, keep);
      d := d + 1;
    }
    assert docs[..d] == docs;
  }
}
