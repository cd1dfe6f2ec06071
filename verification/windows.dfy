/** The sliding window shared by the character chunker, the token chunker
    and the fixed-size batching of embedding requests: a loop
    `for (start = 0; start < n; start += size - overlap)` that emits
    `s.slice(start, min(start + size, n))`. */
module Windows {
  import opened Outcomes

  /** The windows the loop emits once `start` has been reached. */
  function WindowsFrom<T>(s: seq<T>, start: nat, size: nat, step: nat): seq<seq<T>>
    requires step > 0
    decreases |s| - start
  {
    if start >= |s| then []
    else [s[start .. Min(start + size, |s|)]] + WindowsFrom(s, start + step, size, step)
  }

  /** Closed form of window `k`: it starts at `k * step` and is at most `size` long. */
  function Window<T>(s: seq<T>, k: nat, size: nat, step: nat): seq<T> {
    var start := Min(k * step, |s|);
    s[start .. Min(start + size, |s|)]
  }

  /** The chunker. An empty input gives no window whatever the parameters; a
      non-empty one needs `overlap < size`, without which the loop never ends. */
  function Chunk<T>(s: seq<T>, size: nat, overlap: int): (r: seq<seq<T>>)
    requires |s| == 0 || overlap < size
    ensures |s| == 0 ==> r == []
    ensures |s| > 0 ==> (|r| - 1) * (size - overlap) < |s| <= |r| * (size - overlap)
    ensures forall k :: 0 <= k < |r| ==>
      k * (size - overlap) < |s| && r[k] == Window(s, k, size, size - overlap)
    ensures forall k :: 0 <= k < |r| ==> |r[k]| <= size && (size > 0 ==> |r[k]| > 0)
  {
    if |s| == 0 then []
    else
      WindowsFromShape(s, 0, size, size - overlap);
      WindowsFrom(s, 0, size, size - overlap)
  }

  lemma MulSucc(k: int, m: int)
    ensures (k + 1) * m == k * m + m
  {
  }

  lemma MulMono(a: int, b: int, m: nat)
    requires a <= b
    ensures a * m <= b * m
  {
  }

  lemma DivMod(x: int, m: int)
    requires m > 0
    ensures x == (x / m) * m + x % m && 0 <= x % m < m
  {
  }

  /** The quotient is the unique `q` with `q * m <= x < q * m + m`. */
  lemma DivUnique(x: int, m: int, q: int)
    requires m > 0
    requires q * m <= x < q * m + m
    ensures x / m == q && x % m == x - q * m
  {
    var r := x / m;
    DivMod(x, m);
    MulSucc(r, m);
    MulSucc(q, m);
    if r < q {
      MulMono(r + 1, q, m);
    } else if r > q {
      MulMono(q + 1, r, m);
    }
  }

  /** Number of windows emitted from `start` on: the least `c` with
      `start + c * step >= |s|`. */
  lemma {:induction false} WindowsFromCount<T>(s: seq<T>, start: nat, size: nat, step: nat)
    requires step > 0
    ensures var c := |WindowsFrom(s, start, size, step)|;
      && (start >= |s| ==> c == 0)
      && (start < |s| ==> start + (c - 1) * step < |s| <= start + c * step)
    decreases |s| - start
  {
    if start < |s| {
      var rest := WindowsFrom(s, start + step, size, step);
      WindowsFromCount(s, start + step, size, step);
      assert |WindowsFrom(s, start, size, step)| == 1 + |rest|;
      if start + step < |s| {
        MulSucc(|rest| - 1, step);
        MulSucc(|rest|, step);
      }
    }
  }

  /** Window `k` emitted from `start` on starts at `start + k * step`. */
  lemma {:induction false} WindowsFromAt<T>(s: seq<T>, start: nat, size: nat, step: nat, k: nat)
    requires step > 0
    requires k < |WindowsFrom(s, start, size, step)|
    ensures start + k * step < |s|
    ensures WindowsFrom(s, start, size, step)[k] == s[start + k * step .. Min(start + k * step + size, |s|)]
    decreases k
  {
    if k > 0 {
      WindowsFromAt(s, start + step, size, step, k - 1);
      MulSucc(k - 1, step);
    }
  }

  lemma WindowsFromShape<T>(s: seq<T>, start: nat, size: nat, step: nat)
    requires step > 0
    ensures var w := WindowsFrom(s, start, size, step);
      && (start >= |s| ==> w == [])
      && (start < |s| ==> start + (|w| - 1) * step < |s| <= start + |w| * step)
      && (forall k :: 0 <= k < |w| ==>
            start + k * step < |s|
            && w[k] == s[start + k * step .. Min(start + k * step + size, |s|)]
            && |w[k]| <= size && (size > 0 ==> |w[k]| > 0))
  {
    WindowsFromCount(s, start, size, step);
    var w := WindowsFrom(s, start, size, step);
    forall k | 0 <= k < |w|
      ensures start + k * step < |s|
      ensures w[k] == s[start + k * step .. Min(start + k * step + size, |s|)]
      ensures |w[k]| <= size && (size > 0 ==> |w[k]| > 0)
    {
      WindowsFromAt(s, start, size, step, k);
    }
  }

  /** Each later window with its first `overlap` elements removed (all of
      them when the window is shorter), appended in order. */
  function DropEach<T>(ws: seq<seq<T>>, overlap: nat): seq<T> {
    if ws == [] then [] else ws[0][Min(overlap, |ws[0]|)..] + DropEach(ws[1..], overlap)
  }

  /** The first window followed by every later window minus its overlap. */
  function Reassemble<T>(ws: seq<seq<T>>, overlap: nat): seq<T> {
    if ws == [] then [] else ws[0] + DropEach(ws[1..], overlap)
  }

  /** Plain concatenation. */
  function Flatten<T>(ws: seq<seq<T>>): seq<T> {
    if ws == [] then [] else ws[0] + Flatten(ws[1..])
  }

  lemma {:induction false} DropEachWindows<T>(s: seq<T>, t: nat, size: nat, overlap: nat)
    requires overlap < size
    ensures DropEach(WindowsFrom(s, t, size, size - overlap), overlap) == s[Min(t + overlap, |s|)..]
    decreases |s| - t
  {
    var step := size - overlap;
    var ws := WindowsFrom(s, t, size, step);
    if t < |s| {
      var w0 := s[t .. Min(t + size, |s|)];
      assert ws == [w0] + WindowsFrom(s, t + step, size, step);
      assert ws[1..] == WindowsFrom(s, t + step, size, step);
      DropEachWindows(s, t + step, size, overlap);
      assert w0[Min(overlap, |w0|)..] == s[Min(t + overlap, |s|) .. Min(t + size, |s|)];
      assert s[Min(t + overlap, |s|)..] == s[Min(t + overlap, |s|) .. Min(t + size, |s|)] + s[Min(t + size, |s|)..];
    }
  }

  /** Removing the overlap from every window after the first gives back the
      input exactly. */
  lemma ChunkReassembles<T>(s: seq<T>, size: nat, overlap: nat)
    requires overlap < size
    ensures Reassemble(Chunk(s, size, overlap), overlap) == s
  {
    var ws := Chunk(s, size, overlap);
    if |s| > 0 {
      var step := size - overlap;
      assert ws == WindowsFrom(s, 0, size, step);
      assert ws[1..] == WindowsFrom(s, step, size, step);
      DropEachWindows(s, step, size, overlap);
      assert s == s[..Min(size, |s|)] + s[Min(size, |s|)..];
    }
  }

  lemma {:induction false} DropNothingFlattens<T>(ws: seq<seq<T>>)
    ensures DropEach(ws, 0) == Flatten(ws)
  {
    if ws != [] {
      DropNothingFlattens(ws[1..]);
    }
  }

  lemma {:induction false} FlattenAppend<T>(ws: seq<seq<T>>, w: seq<T>)
    ensures Flatten(ws + [w]) == Flatten(ws) + w
  {
    if ws != [] {
      assert (ws + [w])[1..] == ws[1..] + [w];
      FlattenAppend(ws[1..], w);
    }
  }

  /** The window count is the ceiling of `|s| / (size - overlap)`. */
  lemma ChunkCountIsCeiling<T>(s: seq<T>, size: nat, overlap: int)
    requires overlap < size
    ensures |Chunk(s, size, overlap)| == (|s| + (size - overlap) - 1) / (size - overlap)
  {
    var step := size - overlap;
    var c := |Chunk(s, size, overlap)|;
    if |s| > 0 {
      MulSucc(c - 1, step);
      DivUnique(|s| + step - 1, step, c);
    } else {
      DivUnique(step - 1, step, 0);
    }
  }

  /** A window that starts once the previous one has already reached the end
      of the input is a suffix of that previous window: it adds nothing. */
  lemma TrailingWindowInsidePrevious<T>(s: seq<T>, size: nat, overlap: nat, k: nat)
    requires overlap < size
    requires 0 < k < |Chunk(s, size, overlap)|
    requires (k - 1) * (size - overlap) + size >= |s|
    ensures var ws := Chunk(s, size, overlap);
      |ws[k]| <= |ws[k - 1]| && ws[k] == ws[k - 1][|ws[k - 1]| - |ws[k]|..]
  {
    var step := size - overlap;
    var ws := Chunk(s, size, overlap);
    assert ws[k - 1] == Window(s, k - 1, size, step) && (k - 1) * step < |s|;
    assert ws[k] == Window(s, k, size, step) && k * step < |s|;
    WindowSteps(s, size, step, k);
  }

  /** Consecutive windows whose starts lie inside the input. */
  lemma WindowSteps<T>(s: seq<T>, size: nat, step: nat, k: nat)
    requires 0 < step <= size && 0 < k
    requires k * step < |s| <= (k - 1) * step + size
    ensures var p := Window(s, k - 1, size, step);
      var w := Window(s, k, size, step);
      |w| <= |p| && w == p[|p| - |w|..]
  {
    var a := (k - 1) * step;
    var b := k * step;
    MulSucc(k - 1, step);
    assert Window(s, k - 1, size, step) == s[a .. Min(a + size, |s|)];
    assert Window(s, k, size, step) == s[b .. Min(b + size, |s|)];
    SuffixOfPrevious(s, a, b, size);
  }

  lemma SuffixOfPrevious<T>(s: seq<T>, a: nat, b: nat, size: nat)
    requires a <= b < |s| <= a + size
    ensures var p := s[a .. Min(a + size, |s|)];
      var w := s[b .. Min(b + size, |s|)];
      |w| <= |p| && w == p[|p| - |w|..]
  {
    assert s[a .. Min(a + size, |s|)][b - a..] == s[b..];
  }

  /** With the defaults 1500/200, a 1400-element input already gives two
      windows, the second lying inside the first. */
  lemma ShortInputGivesRedundantWindow<T>(s: seq<T>)
    requires |s| == 1400
    ensures |Chunk(s, 1500, 200)| == 2
    ensures Chunk(s, 1500, 200)[0] == s && Chunk(s, 1500, 200)[1] == s[1300..]
  {
    var ws := Chunk(s, 1500, 200);
    assert ws[0] == Window(s, 0, 1500, 1300);
    assert ws[1] == Window(s, 1, 1500, 1300);
  }

  /** Consecutive slices of at most `size` elements, without overlap. */
  function Batches<T>(s: seq<T>, size: nat): (r: seq<seq<T>>)
    requires size > 0
    ensures Flatten(r) == s
    ensures forall j :: 0 <= j < |r| ==> 0 < |r[j]| <= size
    ensures forall j :: 0 <= j < |r| - 1 ==> |r[j]| == size
  {
    BatchesCover(s, size);
    BatchesFull(s, size);
    Chunk(s, size, 0)
  }

  /** Batch `j` exists exactly when `j * size` is inside the input, and it is
      the slice from there. */
  lemma BatchAt<T>(s: seq<T>, size: nat, j: nat)
    requires size > 0
    ensures j < |Batches(s, size)| <==> j * size < |s|
    ensures j < |Batches(s, size)| ==> Batches(s, size)[j] == s[j * size .. Min(j * size + size, |s|)]
  {
    var r := Batches(s, size);
    assert r == Chunk(s, size, 0);
    if j < |r| {
      assert r[j] == Window(s, j, size, size);
    } else if |s| > 0 {
      MulMono(|r|, j, size);
    }
  }

  lemma BatchesCover<T>(s: seq<T>, size: nat)
    requires size > 0
    ensures Flatten(Chunk(s, size, 0)) == s
  {
    var r := Chunk(s, size, 0);
    ChunkReassembles(s, size, 0);
    if r != [] {
      DropNothingFlattens(r[1..]);
    }
  }

  lemma BatchesFull<T>(s: seq<T>, size: nat)
    requires size > 0
    ensures var r := Chunk(s, size, 0);
      forall j :: 0 <= j < |r| - 1 ==> |r[j]| == size
  {
    var r := Chunk(s, size, 0);
    forall j | 0 <= j < |r| - 1
      ensures |r[j]| == size
    {
      assert r[j + 1] == Window(s, j + 1, size, size);
      MulSucc(j, size);
    }
  }

  lemma {:induction false} FlattenLength<T, U>(ws: seq<seq<T>>, vs: seq<seq<U>>)
    requires |ws| == |vs|
    requires forall j :: 0 <= j < |ws| ==> |ws[j]| == |vs[j]|
    ensures |Flatten(ws)| == |Flatten(vs)|
  {
    if ws != [] {
      FlattenLength(ws[1..], vs[1..]);
    }
  }

  /** In a concatenation of blocks that are all `size` long except possibly
      the last, element `i` is element `i % size` of block `i / size`. */
  lemma {:induction false} FlattenAt<T>(vs: seq<seq<T>>, size: nat, i: nat)
    requires size > 0
    requires forall j :: 0 <= j < |vs| ==> |vs[j]| <= size
    requires forall j :: 0 <= j < |vs| - 1 ==> |vs[j]| == size
    requires i < |Flatten(vs)|
    ensures i / size < |vs| && i % size < |vs[i / size]|
    ensures Flatten(vs)[i] == vs[i / size][i % size]
  {
    assert Flatten(vs) == vs[0] + Flatten(vs[1..]);
    if i < |vs[0]| {
      DivUnique(i, size, 0);
    } else {
      assert |vs| > 1;
      FlattenAt(vs[1..], size, i - size);
      var q := (i - size) / size;
      DivMod(i - size, size);
      MulSucc(q, size);
      DivUnique(i, size, q + 1);
    }
  }
}
