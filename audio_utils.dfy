/** The chunk boundary scheduler of `app/recording/audio_utils.py`. */
module AudioUtils {

  /** A half-open window `[start, end)` of sample offsets (the source's `(start, end)` tuple). */
  datatype Boundary = Boundary(start: int, end: int)

  /** Reference definition: back-to-back windows of `perChunk` samples starting at `from`,
      as long as a whole window still fits under `total`. */
  function Windows(total: int, from: int, perChunk: int): seq<Boundary>
    requires perChunk > 0
    decreases total - from
  {
    if from + perChunk <= total then [Boundary(from, from + perChunk)] + Windows(total, from + perChunk, perChunk)
    else []
  }

  /** How many whole windows fit between `from` and `total`. */
  function WindowCount(total: int, from: int, perChunk: int): nat
    requires perChunk > 0
  {
    if total >= from then (total - from) / perChunk else 0
  }

  /** `compute_chunk_boundaries`: the loop of the source, proved to produce `Windows`
      and, through the lemmas below, every property the scheduler promises. */
  method ComputeChunkBoundaries(totalSamples: int, lastChunkEnd: int, samplesPerChunk: int)
    returns (boundaries: seq<Boundary>)
    requires samplesPerChunk > 0
    ensures boundaries == Windows(totalSamples, lastChunkEnd, samplesPerChunk)
    ensures |boundaries| == WindowCount(totalSamples, lastChunkEnd, samplesPerChunk)
    ensures forall i :: 0 <= i < |boundaries| ==>
      boundaries[i].end - boundaries[i].start == samplesPerChunk && boundaries[i].end <= totalSamples
    ensures |boundaries| > 0 ==> boundaries[0].start == lastChunkEnd
    ensures forall j, k :: 0 <= j && k == j + 1 < |boundaries| ==> boundaries[k].start == boundaries[j].end
    ensures boundaries == [] <==> totalSamples - lastChunkEnd < samplesPerChunk
  {
    boundaries := [];
    var pos := lastChunkEnd;
    while pos + samplesPerChunk <= totalSamples
      invariant boundaries + Windows(totalSamples, pos, samplesPerChunk)
             == Windows(totalSamples, lastChunkEnd, samplesPerChunk)
      decreases totalSamples - pos
    {
      boundaries := boundaries + [Boundary(pos, pos + samplesPerChunk)];
      pos := pos + samplesPerChunk;
    }
    WindowsChain(totalSamples, lastChunkEnd, samplesPerChunk);
    WindowsCount(totalSamples, lastChunkEnd, samplesPerChunk);
  }

  /** Every window holds exactly `perChunk` samples and ends by `total`; the first starts
      at `from` and each later one where the previous ended: no gap, no overlap. */
  lemma WindowsChain(total: int, from: int, perChunk: int)
    requires perChunk > 0
    ensures var w := Windows(total, from, perChunk);
      (forall i :: 0 <= i < |w| ==> w[i].end - w[i].start == perChunk && w[i].end <= total)
      && (|w| > 0 ==> w[0].start == from)
      && (forall j, k :: 0 <= j && k == j + 1 < |w| ==> w[k].start == w[j].end)
  {
    var w := Windows(total, from, perChunk);
    WindowsAt(total, from, perChunk);
    forall j, k | 0 <= j && k == j + 1 < |w|
      ensures w[k].start == w[j].end
    {
      assert w[j].end == from + j * perChunk + perChunk;
      assert j * perChunk + perChunk == k * perChunk;
    }
  }

  /** Closed form: window `i` is `[from + i*perChunk, from + (i+1)*perChunk)`, and every
      window lies below `total`. */
  lemma {:induction false} WindowsAt(total: int, from: int, perChunk: int)
    requires perChunk > 0
    ensures forall i :: 0 <= i < |Windows(total, from, perChunk)| ==>
      Windows(total, from, perChunk)[i] == Boundary(from + i * perChunk, from + i * perChunk + perChunk)
      && from + i * perChunk + perChunk <= total
    decreases total - from
  {
    var w := Windows(total, from, perChunk);
    if from + perChunk <= total {
      var rest := Windows(total, from + perChunk, perChunk);
      WindowsAt(total, from + perChunk, perChunk);
      forall i | 0 < i < |w|
        ensures w[i] == Boundary(from + i * perChunk, from + i * perChunk + perChunk)
        ensures from + i * perChunk + perChunk <= total
      {
        assert w[i] == rest[i - 1];
        assert (from + perChunk) + (i - 1) * perChunk == from + i * perChunk;
      }
    }
  }

  /** The windows fill `[from, from + n*perChunk)` and fewer than `perChunk` samples
      remain after them. */
  lemma {:induction false} WindowsFill(total: int, from: int, perChunk: int)
    requires perChunk > 0
    ensures var n := |Windows(total, from, perChunk)|;
      total >= from ==> from + n * perChunk <= total && total - (from + n * perChunk) < perChunk
    decreases total - from
  {
    if from + perChunk <= total {
      var n, m := |Windows(total, from, perChunk)|, |Windows(total, from + perChunk, perChunk)|;
      WindowsFill(total, from + perChunk, perChunk);
      MulSucc(m, perChunk);
      assert n == m + 1;
    } else if total >= from {
      assert |Windows(total, from, perChunk)| == 0;
    }
  }

  lemma MulSucc(m: int, p: int)
    ensures (m + 1) * p == m * p + p
  {
  }

  /** Maximality: after the windows fewer than `perChunk` samples remain, which fixes
      their number at `(total - from) / perChunk`. */
  lemma WindowsCount(total: int, from: int, perChunk: int)
    requires perChunk > 0
    ensures |Windows(total, from, perChunk)| == WindowCount(total, from, perChunk)
    ensures total >= from ==>
      total - (from + |Windows(total, from, perChunk)| * perChunk) < perChunk
  {
    var n := |Windows(total, from, perChunk)|;
    WindowsFill(total, from, perChunk);
    if total >= from {
      DivByBounds(total - from, perChunk, n, total - from - n * perChunk);
    } else {
      assert n == 0;
    }
  }

  /** Euclidean division is determined by quotient and remainder bounds. */
  lemma DivByBounds(a: int, p: int, n: int, r: int)
    requires p > 0 && 0 <= r < p && a == n * p + r
    ensures a / p == n
  {
    var q := a / p;
    if q < n {
      MulMono(q + 1, n, p);
      assert false;
    } else if q > n {
      MulMono(n + 1, q, p);
      assert false;
    }
  }

  lemma MulMono(x: int, y: int, p: int)
    requires x <= y && p > 0
    ensures x * p <= y * p
  {
    assert y * p - x * p == (y - x) * p;
  }

  /** Windows computed from a later point are a suffix of the earlier ones: the scheduler
      asked again after some windows were consumed returns exactly the ones not yet consumed. */
  lemma {:induction false} WindowsResume(total: int, from: int, perChunk: int, k: nat)
    requires perChunk > 0
    requires k <= |Windows(total, from, perChunk)|
    ensures Windows(total, from + k * perChunk, perChunk) == Windows(total, from, perChunk)[k..]
    decreases k
  {
    if k > 0 {
      WindowsResume(total, from + perChunk, perChunk, k - 1);
      assert from + perChunk + (k - 1) * perChunk == from + k * perChunk;
    }
  }

  /** The scheduling example of an even split: 96000 samples, chunks of 32000. */
  lemma ExampleEvenSplit()
    ensures Windows(96000, 0, 32000) == [Boundary(0, 32000), Boundary(32000, 64000), Boundary(64000, 96000)]
  {
  }

  /** A remainder too short for a chunk stays unscheduled: 50000 samples, chunks of 32000. */
  lemma ExampleRemainder()
    ensures Windows(50000, 0, 32000) == [Boundary(0, 32000)]
  {
  }
}
