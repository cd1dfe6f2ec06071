/** The embedding adapter (`createEmbeddings` and the batching loops). The
    network calls are oracles: `EmbedOne` stands for `model.embedContent(text)`
    and `EmbedBatch` for `client.embeddings.create({ input })`; `None` means
    the call threw. */
module Embedding {
  import opened Outcomes
  import opened Text
  import opened Windows
  import opened Similarity

  type EmbedOne = string -> Option<Vector>
  type EmbedBatch = seq<string> -> Option<seq<Vector>>

  /** Longest text sent to the sequential provider. */
  const MaxInput: nat := 1000

  /** Length of the vector stored in place of a skipped or failed text. */
  const Dimension: nat := 768

  /** Texts per `embeddings.create` call. */
  const BatchSize: nat := 96

  /** `new Array(768).fill(0)`. */
  function Zeros(): (z: Vector)
    ensures |z| == Dimension && forall i :: 0 <= i < |z| ==> z[i] == 0.0
  {
    seq(Dimension, _ => 0.0)
  }

  /** `text.length > 1000 ? text.substring(0, 1000) : text`. */
  function Truncate(t: string): (r: string)
    ensures |r| <= MaxInput && |r| <= |t| && r == t[..|r|]
    ensures |t| <= MaxInput ==> r == t
    ensures |t| > MaxInput ==> |r| == MaxInput
  {
    if |t| > MaxInput then t[..MaxInput] else t
  }

  /** The texts that reach the network, in order: each truncated, and those
      blank after truncation skipped. `!text.trim()` is `Blank(text)`, by
      `Text.TrimEmptyIffBlank`. */
  function Requests(texts: seq<string>): seq<string> {
    if texts == [] then []
    else
      var u := Truncate(texts[0]);
      if Blank(u) then Requests(texts[1..]) else [u] + Requests(texts[1..])
  }

  /** No request is longer than the cap or blank, and there is at most one
      per text. */
  lemma {:induction false} RequestsBounded(texts: seq<string>)
    ensures |Requests(texts)| <= |texts|
    ensures forall c :: c in Requests(texts) ==> |c| <= MaxInput && !Blank(c)
  {
    if texts != [] {
      RequestsBounded(texts[1..]);
    }
  }

  /** The vector the sequential loop stores for one text: zeros for a text
      blank after truncation (no call made), the call's answer, or zeros when
      the call threw. */
  /** The vector the sequential loop stores for one text, as a value. */
  function SequentialVector(t: string, embed: EmbedOne): Vector {
    var u := Truncate(t);
    if Blank(u) then Zeros() else embed(u).GetOr(Zeros())
  }

  predicate StoredFor(t: string, v: Vector, embed: EmbedOne) {
    && (Blank(Truncate(t)) ==> v == Zeros())
    && (!Blank(Truncate(t)) ==> v == embed(Truncate(t)).GetOr(Zeros()))
  }

  lemma {:induction false} RequestsAppend(texts: seq<string>, t: string)
    ensures Requests(texts + [t]) == Requests(texts) + (if Blank(Truncate(t)) then [] else [Truncate(t)])
  {
    if texts != [] {
      assert (texts + [t])[1..] == texts[1..] + [t];
      RequestsAppend(texts[1..], t);
    } else {
      assert [t][1..] == [];
    }
  }

  lemma RequestsStep(texts: seq<string>, i: nat)
    requires i < |texts|
    ensures Requests(texts[..i + 1]) ==
      Requests(texts[..i]) + (if Blank(Truncate(texts[i])) then [] else [Truncate(texts[i])])
  {
    assert texts[..i + 1] == texts[..i] + [texts[i]];
    RequestsAppend(texts[..i], texts[i]);
  }

  /** The sequential loop of `createEmbeddings` for the `google` provider. It
      returns the stored vectors and the texts passed to `embedContent`. */
  method EmbedSequentially(texts: seq<string>, embed: EmbedOne) returns (vectors: seq<Vector>, calls: seq<string>)
    ensures |vectors| == |texts|
    ensures forall i :: 0 <= i < |texts| && Blank(Truncate(texts[i])) ==> vectors[i] == Zeros()
    ensures forall i :: 0 <= i < |texts| && !Blank(Truncate(texts[i])) ==>
      vectors[i] == embed(Truncate(texts[i])).GetOr(Zeros())
    ensures calls == Requests(texts)
  {
    vectors, calls := [], [];
    var i := 0;
    while i < |texts|
      invariant i <= |texts|
      invariant |vectors| == i
      invariant forall k :: 0 <= k < i ==> StoredFor(texts[k], vectors[k], embed)
      invariant calls == Requests(texts[..i])
    {
      var text := texts[i];
      if |text| > MaxInput {
        text := text[..MaxInput];
      }
      assert text == Truncate(texts[i]);
      RequestsStep(texts, i);
      var v: Vector;
      if Blank(text) {
        v := Zeros();
      } else {
        calls := calls + [text];
        var result := embed(text);
        match result {
          case Some(e) => v := e;
          case None => v := Zeros();
        }
      }
      assert StoredFor(texts[i], v, embed);
      vectors := vectors + [v];
      i := i + 1;
    }
    assert texts[..i] == texts;
  }

  /** What each batch call returned, a failed call counting as empty. */
  function Outputs(batches: seq<seq<string>>, embed: EmbedBatch): (r: seq<seq<Vector>>)
    ensures |r| == |batches|
    ensures forall j :: 0 <= j < |batches| && embed(batches[j]).Some? ==> r[j] == embed(batches[j]).value
  {
    seq(|batches|, j requires 0 <= j < |batches| => embed(batches[j]).GetOr([]))
  }

  lemma OutputsStep(batches: seq<seq<string>>, embed: EmbedBatch, j: nat)
    requires j < |batches| && embed(batches[j]).Some?
    ensures Flatten(Outputs(batches, embed)[..j + 1]) ==
      Flatten(Outputs(batches, embed)[..j]) + embed(batches[j]).value
  {
    var os := Outputs(batches, embed);
    assert os[..j + 1] == os[..j] + [os[j]];
    FlattenAppend(os[..j], os[j]);
  }

  /** The batching loop: `for (i = 0; i < n; i += 96)` embeds `texts.slice(i,
      i + 96)` and appends the vectors. A failed call aborts the whole loop. */
  method EmbedInBatches(texts: seq<string>, embed: EmbedBatch) returns (r: Option<seq<Vector>>)
    ensures var bs := Batches(texts, BatchSize);
      r.Some? <==> forall j :: 0 <= j < |bs| ==> embed(bs[j]).Some?
    ensures var bs := Batches(texts, BatchSize);
      r.Some? ==> r.value == Flatten(Outputs(bs, embed))
  {
    var bs := Batches(texts, BatchSize);
    var acc: seq<Vector> := [];
    var i, j := 0, 0;
    while i < |texts|
      invariant i == j * BatchSize && j <= |bs|
      invariant forall k :: 0 <= k < j ==> embed(bs[k]).Some?
      invariant acc == Flatten(Outputs(bs, embed)[..j])
    {
      BatchAt(texts, BatchSize, j);
      var sub := texts[i .. Min(i + BatchSize, |texts|)];
      var resp := embed(sub);
      if resp.None? {
        return None;
      }
      assert sub == bs[j];
      OutputsStep(bs, embed, j);
      acc := acc + resp.value;
      i, j := i + BatchSize, j + 1;
    }
    BatchAt(texts, BatchSize, j);
    assert Outputs(bs, embed)[..j] == Outputs(bs, embed);
    r := Some(acc);
  }

  /** When every call answers one vector per input, the batches together give
      one vector per text, and text `i`'s vector is answer `i % 96` of batch
      `i / 96`. */
  lemma BatchedVectorsAligned(texts: seq<string>, embed: EmbedBatch)
    requires var bs := Batches(texts, BatchSize);
      forall j :: 0 <= j < |bs| ==> embed(bs[j]).Some? && |embed(bs[j]).value| == |bs[j]|
    ensures var bs := Batches(texts, BatchSize);
      var out := Flatten(Outputs(bs, embed));
      && |out| == |texts|
      && forall i :: 0 <= i < |texts| ==>
           i / BatchSize < |bs| && i % BatchSize < |bs[i / BatchSize]|
           && bs[i / BatchSize][i % BatchSize] == texts[i]
           && out[i] == embed(bs[i / BatchSize]).value[i % BatchSize]
  {
    var bs := Batches(texts, BatchSize);
    var os := Outputs(bs, embed);
    FlattenLength(bs, os);
    forall i | 0 <= i < |texts|
      ensures i / BatchSize < |bs| && i % BatchSize < |bs[i / BatchSize]|
      ensures bs[i / BatchSize][i % BatchSize] == texts[i]
      ensures Flatten(os)[i] == embed(bs[i / BatchSize]).value[i % BatchSize]
    {
      FlattenAt(bs, BatchSize, i);
      FlattenAt(os, BatchSize, i);
    }
  }
}
