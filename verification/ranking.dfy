/** Ranking of stored entries against a query: score every entry, sort the
    scored entries by descending score with a stable sort (ECMAScript 2019
    `Array.prototype.sort`), keep the first `topK` with `slice(0, topK)`. */
module Ranking {
  import opened Outcomes

  /** A scored entry, remembering its position in storage order. */
  datatype Entry = Entry(pos: nat, score: real)

  /** One retrieval result: `{ score, meta }`. */
  datatype Hit<M> = Hit(score: real, meta: M)

  /** `x` comes out before `y`: a higher score, or an equal score and an
      earlier storage position (stability). */
  predicate Before(x: Entry, y: Entry) {
    x.score > y.score || (x.score == y.score && x.pos < y.pos)
  }

  predicate Ranked(s: seq<Entry>) {
    forall i, j :: 0 <= i < j < |s| ==> Before(s[i], s[j])
  }

  predicate Distinct(s: seq<Entry>) {
    forall i, j :: 0 <= i < j < |s| ==> s[i] != s[j]
  }

  function Insert(x: Entry, s: seq<Entry>): (r: seq<Entry>)
    requires Ranked(s) && x !in s
    ensures Ranked(r)
    ensures multiset(r) == multiset(s) + multiset{x}
  {
    if s == [] then [x]
    else if Before(s[0], x) then
      var rest := Insert(x, s[1..]);
      assert s == [s[0]] + s[1..];
      forall k | 0 <= k < |rest|
        ensures Before(s[0], rest[k])
      {
        assert rest[k] in multiset(rest);
        if rest[k] != x {
          var m :| 0 <= m < |s[1..]| && s[1..][m] == rest[k];
          assert s[m + 1] == rest[k];
        }
      }
      [s[0]] + rest
    else
      assert x != s[0];
      forall k | 0 <= k < |s|
        ensures Before(x, s[k])
      {
        if k > 0 {
          assert Before(s[0], s[k]);
        }
      }
      [x] + s
  }

  /** Insertion sort: the entries ordered by `Before`. */
  function Sort(s: seq<Entry>): (r: seq<Entry>)
    requires Distinct(s)
    ensures Ranked(r)
    ensures multiset(r) == multiset(s)
  {
    if s == [] then []
    else
      assert s == [s[0]] + s[1..];
      var rest := Sort(s[1..]);
      assert s[0] !in multiset(rest);
      Insert(s[0], rest)
  }

  /** Sorting input that is already in order changes nothing. */
  lemma {:induction false} SortRanked(s: seq<Entry>)
    requires Ranked(s)
    ensures Distinct(s) && Sort(s) == s
  {
    if s != [] {
      SortRanked(s[1..]);
      assert s == [s[0]] + s[1..];
    }
  }

  /** `embeddings.map((emb, i) => ({ score: score(emb), ... }))`. */
  function Scores<V>(vs: seq<V>, score: V -> real): (r: seq<Entry>)
    ensures |r| == |vs|
    ensures forall i :: 0 <= i < |vs| ==> r[i] == Entry(i, score(vs[i]))
    ensures Distinct(r)
  {
    seq(|vs|, i requires 0 <= i < |vs| => Entry(i, score(vs[i])))
  }

  /** The scored entries in the order the sort leaves them. */
  function Rank<V>(vs: seq<V>, score: V -> real): (r: seq<Entry>)
    ensures |r| == |vs| && Ranked(r)
    ensures forall j :: 0 <= j < |r| ==> r[j].pos < |vs| && r[j].score == score(vs[r[j].pos])
    ensures forall i :: 0 <= i < |vs| ==> Entry(i, score(vs[i])) in r
  {
    var s := Scores(vs, score);
    var r := Sort(s);
    assert |r| == |multiset(r)| == |multiset(s)| == |s|;
    forall j | 0 <= j < |r|
      ensures r[j].pos < |vs| && r[j].score == score(vs[r[j].pos])
    {
      assert r[j] in multiset(s);
    }
    forall i | 0 <= i < |vs|
      ensures Entry(i, score(vs[i])) in r
    {
      assert s[i] in multiset(r);
    }
    r
  }

  /** End index of `slice(0, k)` on an array of length `n`: a negative `k`
      counts from the end. */
  function SliceEnd(n: nat, k: int): (e: nat)
    ensures e <= n
    ensures k >= 0 ==> e == Min(k, n)
    ensures k < 0 ==> e == Max(n + k, 0)
  {
    if k >= 0 then Min(k, n) else Max(n + k, 0)
  }

  /** `scored.sort((a, b) => b.score - a.score).slice(0, topK)`, each entry
      carrying the metadata stored at its position. */
  function TopK<V, M>(vs: seq<V>, metas: seq<M>, score: V -> real, topK: int): (r: seq<Hit<M>>)
    requires |vs| <= |metas|
    ensures |r| == SliceEnd(|vs|, topK)
    ensures forall i, j :: 0 <= i < j < |r| ==> r[i].score >= r[j].score
  {
    var ranked := Rank(vs, score);
    var e := SliceEnd(|vs|, topK);
    seq(e, j requires 0 <= j < e => Hit(ranked[j].score, metas[ranked[j].pos]))
  }

  /** The ranking sees only the scores: two scorings that agree position by
      position select the same hits. */
  lemma TopKDependsOnlyOnScores<V, W, M>(vs: seq<V>, score: V -> real, ws: seq<W>, score': W -> real,
                                          metas: seq<M>, topK: int)
    requires |vs| == |ws| <= |metas|
    requires forall i :: 0 <= i < |vs| ==> score(vs[i]) == score'(ws[i])
    ensures TopK(vs, metas, score, topK) == TopK(ws, metas, score', topK)
  {
    assert Scores(vs, score) == Scores(ws, score');
    assert Rank(vs, score) == Rank(ws, score');
  }

  /** Every result pairs `score(vs[p])` with `metas[p]` for one storage
      position `p`; no position is returned twice; equal scores keep storage
      order; and no position left out scores above a position returned. */
  lemma TopKSelectsBest<V, M>(vs: seq<V>, metas: seq<M>, score: V -> real, topK: int)
    requires |vs| <= |metas|
    ensures var r := TopK(vs, metas, score, topK);
      var ranked := Rank(vs, score);
      && (forall j :: 0 <= j < |r| ==>
            ranked[j].pos < |vs| && r[j] == Hit(score(vs[ranked[j].pos]), metas[ranked[j].pos]))
      && (forall i, j :: 0 <= i < j < |r| ==> ranked[i].pos != ranked[j].pos)
      && (forall i, j :: 0 <= i < j < |r| && r[i].score == r[j].score ==> ranked[i].pos < ranked[j].pos)
      && (forall p, j :: 0 <= p < |vs| && 0 <= j < |r| && Entry(p, score(vs[p])) !in ranked[..|r|] ==>
            score(vs[p]) <= r[j].score)
  {
    var r := TopK(vs, metas, score, topK);
    var ranked := Rank(vs, score);
    forall p, j | 0 <= p < |vs| && 0 <= j < |r| && Entry(p, score(vs[p])) !in ranked[..|r|]
      ensures score(vs[p]) <= r[j].score
    {
      var m :| 0 <= m < |ranked| && ranked[m] == Entry(p, score(vs[p]));
      assert Before(ranked[j], ranked[m]);
    }
  }

  /** Every hit carries the score and the metadata of one stored position. */
  lemma TopKPairs<V, M>(vs: seq<V>, metas: seq<M>, score: V -> real, topK: int)
    requires |vs| <= |metas|
    ensures var r := TopK(vs, metas, score, topK);
      forall j :: 0 <= j < |r| ==> exists p :: 0 <= p < |vs| && r[j] == Hit(score(vs[p]), metas[p])
  {
    TopKSelectsBest(vs, metas, score, topK);
    var r := TopK(vs, metas, score, topK);
    var ranked := Rank(vs, score);
    forall j | 0 <= j < |r|
      ensures exists p :: 0 <= p < |vs| && r[j] == Hit(score(vs[p]), metas[p])
    {
      var p := ranked[j].pos;
      assert r[j] == Hit(score(vs[p]), metas[p]);
    }
  }

  /** When every entry scores the same, the results are the first entries in
      storage order. */
  lemma EqualScoresKeepStorageOrder<V, M>(vs: seq<V>, metas: seq<M>, score: V -> real, topK: int, c: real)
    requires |vs| <= |metas|
    requires forall i :: 0 <= i < |vs| ==> score(vs[i]) == c
    ensures var r := TopK(vs, metas, score, topK);
      forall j :: 0 <= j < |r| ==> r[j] == Hit(c, metas[j])
  {
    var s := Scores(vs, score);
    SortRanked(s);
  }
}
